/** Reading the text of entries gives the entries back, with what is kept of their comments,
    when their patterns fit. */
module FluentEntryReading {
  import opened Common
  import opened FluentSyntax
  import opened FluentSerializer
  import opened FluentReading
  import opened FluentPatterns
  import opened FluentPieces
  import opened FluentPatternReading
  import opened FluentEntries

  // Comments

  lemma LineEndIs(t: string)
    ensures EndOfLine("\n" + t) == Some(t) && EndOfLine("\r" + ("\n" + t)) == Some(t)
  {
    var line := "\n" + t;
    assert line[1..] == t;
    assert ("\r" + line)[1..] == line && ("\r" + line)[2..] == t;
  }

  lemma LineGoesOn(line: string, t: string)
    requires line != "" && line != "\r" && '\n' !in line
    ensures EndOfLine(line + ("\n" + t)).None? && (line + ("\n" + t))[1..] == line[1..] + ("\n" + t)
  {
    assert line[0] in line && (|line| > 1 ==> line[1] in line);
  }

  function LengthOfLine(line: string): (n: nat)
    ensures n <= |line|
  {
    if line != "" && line[|line| - 1] == '\r' then |line| - 1 else |line|
  }

  lemma {:induction false} LengthStep(s: string)
    requires EndOfLine(s).None?
    ensures LineLength(s) == 1 + LineLength(s[1..])
  {
  }

  /** A carriage return before the line end is a part of it. */
  lemma {:induction false} LineLengthIs(line: string, t: string)
    requires '\n' !in line
    ensures LineLength(line + ("\n" + t)) == LengthOfLine(line)
    decreases |line|
  {
    LineEndIs(t);
    if line == "" {
      assert line + ("\n" + t) == "\n" + t;
    } else if line != "\r" {
      LineGoesOn(line, t);
      LengthStep(line + ("\n" + t));
      LineLengthIs(line[1..], t);
    }
  }

  lemma LineParts(line: string, t: string)
    ensures var s, n := line + ("\n" + t), LengthOfLine(line);
            s[..n] == line[..n] && EndOfLine(s[n..]) == Some(t)
  {
    var s, n := line + ("\n" + t), LengthOfLine(line);
    LineEndIs(t);
    if n < |line| {
      assert s[n..] == "\r" + ("\n" + t);
    } else {
      assert s[n..] == "\n" + t;
    }
  }

  /** One, two or three number signs. */
  predicate AreSigns(signs: string) { signs == "#" || signs == "##" || signs == "###" }

  lemma SignsAre(signs: string, t: string)
    requires AreSigns(signs) && !Starts(t, '#')
    ensures Signs(signs + t) == |signs| && (signs + t)[|signs|..] == t
  {
    var s := signs + t;
    assert |signs| == 1 ==> s[1..] == t;
    assert |signs| == 2 ==> s[1..] == "#" + t && s[2..] == t;
    assert |signs| == 3 ==> s[1..] == "##" + t && s[2..] == "#" + t;
  }

  lemma RemarkIs(signs: string, line: string, t: string)
    ensures RemarkText(signs, line) + t == signs + (if IsBlank(line) then "\n" + t else " " + (line + ("\n" + t)))
  {
    var remark := if IsBlank(line) then "" else " " + line;
    Associative(signs, remark + "\n", t);
    Associative(remark, "\n", t);
    Associative(" ", line, "\n" + t);
    assert "" + ("\n" + t) == "\n" + t;
  }

  lemma WhiteIs(line: string)
    ensures AllWhite(line) <==> IsBlank(line)
  {
    forall i | 0 <= i < |line|
      ensures line[i] as int in WHITE_SPACE <==> IsWhitespace(line[i])
    {
    }
  }

  lemma {:induction false} RemarkReads(signs: string, line: string, t: string)
    requires AreSigns(signs) && '\n' !in line
    ensures ReadCommentLine(RemarkText(signs, line) + t, |signs|) == Some((KeptLine(line), t))
  {
    RemarkIs(signs, line, t);
    WhiteIs(line);
    if IsBlank(line) {
      SignsAre(signs, "\n" + t);
      assert ("\n" + t)[1..] == t;
    } else {
      var more := line + ("\n" + t);
      SignsAre(signs, " " + more);
      assert (" " + more)[1..] == more;
      LineLengthIs(line, t);
      LineParts(line, t);
    }
  }

  lemma {:induction false} NextRemark(s: string, signs: nat, line: string, t: string, lines: seq<string>, rest: string)
    requires ReadCommentLine(s, signs) == Some((line, t)) && ReadComment(t, signs) == (lines, rest)
    ensures ReadComment(s, signs) == ([line] + lines, rest)
  {
  }

  lemma {:induction false} CommentFrom(signs: string, content: seq<string>, rest: string)
    requires content != []
    ensures CommentText(signs, content) + rest
         == RemarkText(signs, content[0]) + (CommentText(signs, content[1..]) + rest)
    ensures KeptLines(content) == [KeptLine(content[0])] + KeptLines(content[1..])
  {
    Associative(RemarkText(signs, content[0]), CommentText(signs, content[1..]), rest);
  }

  lemma {:induction false} NoRemark(rest: string, signs: nat)
    requires !Starts(rest, '#')
    ensures ReadComment(rest, signs) == ([], rest)
  {
  }

  /** The lines of a comment, where no other line of its kind follows. */
  lemma {:induction false} CommentReads(signs: string, content: seq<string>, rest: string)
    requires AreSigns(signs) && (forall i :: 0 <= i < |content| ==> '\n' !in content[i])
    requires !Starts(rest, '#')
    ensures ReadComment(CommentText(signs, content) + rest, |signs|) == (KeptLines(content), rest)
  {
    if content == [] {
      assert CommentText(signs, content) + rest == rest;
      NoRemark(rest, |signs|);
    } else {
      var more := CommentText(signs, content[1..]) + rest;
      CommentReads(signs, content[1..], rest);
      RemarkReads(signs, content[0], more);
      CommentFrom(signs, content, rest);
      NextRemark(RemarkText(signs, content[0]) + more, |signs|, KeptLine(content[0]), more,
                 KeptLines(content[1..]), rest);
    }
  }

  lemma LinesKept(content: seq<string>)
    ensures KeptLines(content) == content <==> LinesFit(content)
  {
    forall i | 0 <= i < |content|
      ensures KeptLine(content[i]) == content[i] <==> LineFits(content[i])
    {
    }
    if !LinesFit(content) {
      var i :| 0 <= i < |content| && !LineFits(content[i]);
      assert KeptLines(content)[i] != content[i];
    }
  }

  // Names and attributes

  lemma {:induction false} NameReads(id: string, t: string)
    requires IsIdentifier(id)
    ensures ReadName(id + (" =" + t)) == Some((id, SkipInline(t)))
  {
    IdentifierReads(id, " =" + t);
    EqualsSign(t);
    NameGives(id + (" =" + t), id, " =" + t, "=" + t);
  }

  lemma {:induction false} EqualsSign(t: string)
    ensures SkipInline(" =" + t) == "=" + t && ("=" + t)[1..] == t
  {
    assert (" =" + t)[1..] == "=" + t;
  }

  lemma {:induction false} NameGives(s: string, id: string, after: string, sign: string)
    requires ReadIdentifier(s) == Some((id, after)) && SkipInline(after) == sign && Starts(sign, '=')
    ensures ReadName(s) == Some((id, SkipInline(sign[1..])))
  {
  }

  lemma AttributeIs(id: string, value: string, t: string)
    ensures "\n    ." + (id + (" =" + value)) + t == "\n    ." + (id + (" =" + (value + t)))
  {
    Associative("\n    .", id + (" =" + value), t);
    Associative(id, " =" + value, t);
    Associative(" =", value, t);
  }

  lemma {:induction false} DotReads(t: string)
    ensures var s := "\n    ." + t;
            && LineEnd(s).Some? && Starts(SkipBlank(LineEnd(s).value), '.') && SkipBlank(LineEnd(s).value)[1..] == t
            && StopsPattern(s) && SkipInline(s) == s
  {
    var dot := "." + t;
    assert dot[1..] == t;
    assert "\n    ." + t == "\n" + (Spaces(4) + dot);
    NewlineThen(Spaces(4) + dot);
    SkipSpaces(4, dot);
    BlockOf(4, dot);
  }

  lemma {:induction false} AttributeReads(attribute: Attribute, t: string)
    requires IsIdentifier(attribute.id) && WellPattern(attribute.value) && StopsPattern(t)
    ensures Gives(ReadAttribute(AttributeText(attribute) + t), Fits(attribute.value),
                  Attribute(attribute.id, Joined(attribute.value)), t)
    ensures StopsPattern(AttributeText(attribute) + t) && Starts(AttributeText(attribute) + t, '\n')
  {
    var value := PatternText(1, attribute.value);
    AttributeIs(attribute.id, value, t);
    DotReads(attribute.id + (" =" + (value + t)));
    NameReads(attribute.id, value + t);
    PatternReads(1, attribute.value, t);
  }

  /** The same for a list, which is read as far as there is one. */
  predicate GivesList<T(==)>(r: (seq<T>, string), fits: bool, list: seq<T>, rest: string) {
    if fits then r == (list, rest) else r.0 != list
  }

  lemma {:induction false} FirstAttribute(s: string, first: bool, attribute: Attribute, t: string, fits: bool,
                                          more: seq<Attribute>, rest: string)
    requires Gives(ReadAttribute(s), first, attribute, t) && GivesList(ReadAttributes(t), fits, more, rest)
    ensures GivesList(ReadAttributes(s), first && fits, [attribute] + more, rest)
  {
    if ReadAttribute(s).Some? {
      var (found, after) := ReadAttribute(s).value;
      var others := ReadAttributes(after).0;
      if found == attribute && others != more {
        SameAfterFirst(attribute, others, more);
      }
      assert ([found] + others)[0] == found && ([attribute] + more)[0] == attribute;
    }
  }

  lemma {:induction false} AttributesRead(attributes: seq<Attribute>, end: string)
    requires WellAttributes(attributes) && StopsPattern(end) && ReadAttribute(end).None? && Starts(end, '\n')
    ensures var s := AttributesText(attributes) + end;
            && GivesList(ReadAttributes(s), AttributesFit(attributes), JoinedAttributes(attributes), end)
            && StopsPattern(s) && Starts(s, '\n')
  {
    if attributes == [] {
      assert AttributesText(attributes) + end == end;
    } else {
      var first, more := attributes[0], attributes[1..];
      var t := AttributesText(more) + end;
      AttributesRead(more, end);
      AttributeReads(first, t);
      Associative(AttributeText(first), AttributesText(more), end);
      FirstAttribute(AttributeText(first) + t, Fits(first.value), Attribute(first.id, Joined(first.value)), t,
                     AttributesFit(more), JoinedAttributes(more), end);
      AttributesFrom(attributes);
    }
  }

  lemma {:induction false} AttributesFrom(attributes: seq<Attribute>)
    requires attributes != []
    ensures AttributesFit(attributes) <==> Fits(attributes[0].value) && AttributesFit(attributes[1..])
    ensures JoinedAttributes(attributes)
         == [Attribute(attributes[0].id, Joined(attributes[0].value))] + JoinedAttributes(attributes[1..])
  {
    assert forall i :: 1 <= i < |attributes| ==> attributes[i] == attributes[1..][i - 1];
  }

  // Messages and terms

  /** The start of an entry, or a blank line and the start of a comment. */
  predicate StartsEntry(t: string) {
    t == "" || IsLetter(t[0]) || t[0] == '-' || t[0] == '#' || (t[0] == '\n' && Starts(t[1..], '#'))
  }

  lemma {:induction false} EndStops(rest: string)
    requires StartsEntry(rest)
    ensures var end := "\n" + rest;
            && StopsPattern(end) && ReadAttribute(end).None? && Starts(end, '\n') && EndOfLine(end) == Some(rest)
  {
    NewlineThen(rest);
    if Starts(rest, '\n') {
      BlanksStop(rest[1..], 2);
    } else {
      BlanksStop(rest, 1);
    }
  }

  lemma {:induction false} BlanksStop(t: string, lines: nat)
    requires t == "" || IsLetter(t[0]) || t[0] == '-' || t[0] == '#'
    ensures Blanks(t, lines, 0) == (lines, 0, t) && SkipBlank(t) == t
  {
  }

  lemma {:induction false} NoPattern(s: string)
    requires StopsPattern(s)
    ensures ReadPattern(s) == None
  {
    assert ReadPieces(s) == Some(([], s));
    NothingRead(s);
  }

  lemma AssignedIs(id: string, value: string, attributes: string, rest: string)
    ensures AssignedText(id, value, attributes) + rest == id + (" =" + (value + (attributes + ("\n" + rest))))
  {
    Associative(id, " =" + (value + (attributes + "\n")), rest);
    Associative(" =", value + (attributes + "\n"), rest);
    Associative(value, attributes + "\n", rest);
    Associative(attributes, "\n", rest);
  }

  /** What is after the name of an entry with a value. */
  lemma {:induction false} ValueReads(value: Pattern, attributes: seq<Attribute>, end: string)
    requires WellPattern(value) && WellAttributes(attributes)
    requires StopsPattern(end) && ReadAttribute(end).None? && Starts(end, '\n')
    ensures var t := AttributesText(attributes) + end;
            && Gives(ReadPattern(SkipInline(PatternText(0, value) + t)), Fits(value), Joined(value), t)
            && GivesList(ReadAttributes(t), AttributesFit(attributes), JoinedAttributes(attributes), end)
  {
    AttributesRead(attributes, end);
    PatternReads(0, value, AttributesText(attributes) + end);
  }

  /** A message with a value, once its name and its value are read. */
  lemma {:induction false} MessageGives(s: string, comment: Option<Comment>, id: string, t: string, fits: bool,
                                        value: Pattern, u: string, others: bool, attributes: seq<Attribute>,
                                        end: string, rest: string)
    requires ReadName(s) == Some((id, t)) && Gives(ReadPattern(t), fits, value, u)
    requires GivesList(ReadAttributes(u), others, attributes, end) && EndOfLine(end) == Some(rest)
    ensures Gives(ReadMessage(s, comment), fits && others,
                  MessageEntry(Message(id, Some(value), attributes, comment)), rest)
  {
  }

  /** A message with attributes alone. */
  lemma {:induction false} MessageWithoutValueGives(s: string, comment: Option<Comment>, id: string, t: string,
                                                    others: bool, attributes: seq<Attribute>, end: string,
                                                    rest: string)
    requires ReadName(s) == Some((id, t)) && ReadPattern(t).None? && attributes != []
    requires GivesList(ReadAttributes(t), others, attributes, end) && EndOfLine(end) == Some(rest)
    ensures Gives(ReadMessage(s, comment), others, MessageEntry(Message(id, None, attributes, comment)), rest)
  {
  }

  lemma {:induction false} TermGives(s: string, comment: Option<Comment>, id: string, t: string, fits: bool,
                                     value: Pattern, u: string, others: bool, attributes: seq<Attribute>, end: string,
                                     rest: string)
    requires Starts(s, '-') && ReadName(s[1..]) == Some((id, t)) && Gives(ReadPattern(t), fits, value, u)
    requires GivesList(ReadAttributes(u), others, attributes, end) && EndOfLine(end) == Some(rest)
    ensures Gives(ReadTerm(s, comment), fits && others, TermEntry(Term(id, value, attributes, comment)), rest)
  {
  }

  /** Whatever is read has the comment it was given. */
  lemma {:induction false} CommentStays(s: string, comment: Option<Comment>)
    ensures var r := ReadNamedEntry(s, comment);
            r.Some? ==> OwnComment(r.value.0) == comment
  {
  }

  function OwnComment(entry: Entry): Option<Comment> {
    match entry
    case MessageEntry(message) => message.comment
    case TermEntry(term) => term.comment
    case _ => None
  }

  /** The part of a message or term after its comment. */
  function MainText(entry: Entry): string
    requires WellEntry(entry) && (entry.MessageEntry? || entry.TermEntry?)
  {
    match entry
    case MessageEntry(message) =>
      AssignedText(message.id, ValueText(message.value), AttributesText(message.attributes))
    case TermEntry(term) => "-" + AssignedText(term.id, PatternText(0, term.value), AttributesText(term.attributes))
  }

  /** The same entry, with its texts joined and a comment. */
  function Commented(entry: Entry, comment: Option<Comment>): Entry
    requires entry.MessageEntry? || entry.TermEntry?
  {
    match JoinedEntry(entry)
    case MessageEntry(message) => MessageEntry(message.(comment := comment))
    case TermEntry(term) => TermEntry(term.(comment := comment))
  }

  lemma {:induction false} MessageReads(message: Message, comment: Option<Comment>, rest: string)
    requires WellMessage(message) && StartsEntry(rest)
    ensures var entry := MessageEntry(message);
            Gives(ReadMessage(MainText(entry) + rest, comment), PatternsFit(entry), Commented(entry, comment), rest)
  {
    var Message(id, value, attributes, _) := message;
    var end := "\n" + rest;
    var t := AttributesText(attributes) + end;
    var s := MainText(MessageEntry(message)) + rest;
    EndStops(rest);
    AssignedIs(id, ValueText(value), AttributesText(attributes), rest);
    NameReads(id, ValueText(value) + t);
    if value.Some? {
      ValueReads(value.value, attributes, end);
      MessageGives(s, comment, id, SkipInline(PatternText(0, value.value) + t), Fits(value.value), Joined(value.value),
                   t, AttributesFit(attributes), JoinedAttributes(attributes), end, rest);
    } else {
      AttributesRead(attributes, end);
      NoPattern(t);
      assert ValueText(value) + t == t;
      MessageWithoutValueGives(s, comment, id, t, AttributesFit(attributes), JoinedAttributes(attributes), end, rest);
    }
  }

  lemma {:induction false} TermReads(term: Term, comment: Option<Comment>, rest: string)
    requires WellTerm(term) && StartsEntry(rest)
    ensures var entry := TermEntry(term);
            Gives(ReadTerm(MainText(entry) + rest, comment), PatternsFit(entry), Commented(entry, comment), rest)
  {
    var Term(id, value, attributes, _) := term;
    var end := "\n" + rest;
    var t := AttributesText(attributes) + end;
    var text := AssignedText(id, PatternText(0, value), AttributesText(attributes));
    EndStops(rest);
    AssignedIs(id, PatternText(0, value), AttributesText(attributes), rest);
    NameReads(id, PatternText(0, value) + t);
    ValueReads(value, attributes, end);
    Associative("-", text, rest);
    assert ("-" + (text + rest))[1..] == text + rest;
    TermGives("-" + (text + rest), comment, id, SkipInline(PatternText(0, value) + t), Fits(value), Joined(value),
              t, AttributesFit(attributes), JoinedAttributes(attributes), end, rest);
  }

  lemma {:induction false} NamedStarts(entry: Entry, rest: string)
    requires WellEntry(entry) && (entry.MessageEntry? || entry.TermEntry?)
    ensures var s := MainText(entry) + rest;
            s != "" && if entry.TermEntry? then s[0] == '-' else IsLetter(s[0])
  {
  }

  lemma {:induction false} NamedReads(entry: Entry, comment: Option<Comment>, rest: string)
    requires WellEntry(entry) && (entry.MessageEntry? || entry.TermEntry?) && StartsEntry(rest)
    ensures Gives(ReadNamedEntry(MainText(entry) + rest, comment), PatternsFit(entry), Commented(entry, comment),
                  rest)
  {
    NamedStarts(entry, rest);
    match entry
    case MessageEntry(message) => MessageReads(message, comment, rest);
    case TermEntry(term) => TermReads(term, comment, rest);
  }

  // Entries

  /** An entry is read as what is kept of it if its patterns fit; if one does not, or a line of
      its comment does not, it is not read as it was. */
  predicate EntryGives(r: Read<Entry>, entry: Entry, rest: string) {
    && (PatternsFit(entry) ==> r == Some((KeptEntry(entry), rest)))
    && (PatternsFit(entry) && CommentFits(entry) ==> KeptEntry(entry) == JoinedEntry(entry))
    && (!PatternsFit(entry) || !CommentFits(entry) ==> r.None? || r.value.0 != JoinedEntry(entry))
  }

  lemma {:induction false} CommentedIs(entry: Entry, comment: Option<Comment>)
    requires (entry.MessageEntry? || entry.TermEntry?) && comment == KeptComment(OwnComment(entry))
    ensures Commented(entry, comment) == KeptEntry(entry)
    ensures CommentFits(entry) <==> comment == OwnComment(entry)
    ensures OwnComment(JoinedEntry(entry)) == OwnComment(entry)
    ensures CommentFits(entry) ==> KeptEntry(entry) == JoinedEntry(entry)
  {
    if OwnComment(entry).Some? {
      LinesKept(OwnComment(entry).value.content);
    }
  }

  /** The comment before an entry, and the entry. */
  lemma {:induction false} AfterComment(s: string, content: seq<string>, t: string, named: Read<Entry>)
    requires Signs(s) == 1 && ReadComment(s, 1) == (content, t) && content != []
    requires named == ReadNamedEntry(t, Some(Comment(content)))
    ensures ReadEntry(s) == if named.Some? then named else Some((CommentEntry(Comment(content)), t))
  {
  }

  lemma {:induction false} CommentStarts(signs: string, content: seq<string>, t: string)
    requires AreSigns(signs) && content != []
    ensures Signs(CommentText(signs, content) + t) == |signs|
    ensures Starts(CommentText(signs, content) + t, '#')
  {
    var more := CommentText(signs, content[1..]) + t;
    Associative(RemarkText(signs, content[0]), CommentText(signs, content[1..]), t);
    RemarkIs(signs, content[0], more);
    var line := if IsBlank(content[0]) then "\n" + more else " " + (content[0] + ("\n" + more));
    SignsAre(signs, line);
  }

  lemma {:induction false} NamedEntryReads(entry: Entry, rest: string)
    requires WellEntry(entry) && (entry.MessageEntry? || entry.TermEntry?) && StartsEntry(rest)
    ensures EntryGives(ReadEntry(OwnCommentText(OwnComment(entry)) + (MainText(entry) + rest)), entry, rest)
  {
    var comment := OwnComment(entry);
    var t := MainText(entry) + rest;
    var kept := KeptComment(comment);
    var s := OwnCommentText(comment) + t;
    NamedStarts(entry, rest);
    NamedReads(entry, kept, rest);
    CommentStays(t, kept);
    CommentedIs(entry, kept);
    if comment.Some? {
      CommentStarts("#", comment.value.content, t);
      CommentReads("#", comment.value.content, t);
      AfterComment(s, KeptLines(comment.value.content), t, ReadNamedEntry(t, kept));
    } else {
      assert s == t;
    }
  }

  /** The comment that its number signs make of some lines. */
  function FreeComment(signs: nat, comment: Comment): Entry {
    match signs
    case 1 => CommentEntry(comment)
    case 2 => GroupComment(comment)
    case _ => ResourceComment(comment)
  }

  lemma {:induction false} FreeGives(s: string, signs: nat, comment: Comment, t: string)
    requires Signs(s) == signs > 0 && ReadComment(s, signs) == (KeptLines(comment.content), t)
    requires comment.content != [] && forall c: Option<Comment> :: ReadNamedEntry(t, c).None?
    ensures EntryGives(ReadEntry(s), FreeComment(signs, comment), t)
  {
    LinesKept(comment.content);
  }

  lemma {:induction false} NoNamedEntry(t: string, comment: Option<Comment>)
    requires Starts(t, '\n')
    ensures ReadNamedEntry(t, comment).None?
  {
  }

  lemma {:induction false} FreeReads(signs: string, comment: Comment, rest: string)
    requires WellComment(comment) && AreSigns(signs)
    ensures EntryGives(ReadEntry(CommentText(signs, comment.content) + ("\n" + rest)),
                       FreeComment(|signs|, comment), "\n" + rest)
  {
    var t := "\n" + rest;
    CommentStarts(signs, comment.content, t);
    CommentReads(signs, comment.content, t);
    forall c: Option<Comment>
      ensures ReadNamedEntry(t, c).None?
    {
      NoNamedEntry(t, c);
    }
    FreeGives(CommentText(signs, comment.content) + t, |signs|, comment, t);
  }

  // Bodies

  predicate BodyFits(body: seq<Entry>) {
    forall i :: 0 <= i < |body| ==> PatternsFit(body[i]) && CommentFits(body[i])
  }

  predicate BodyPatternsFit(body: seq<Entry>) { forall i :: 0 <= i < |body| ==> PatternsFit(body[i]) }

  predicate BodyGives(r: Option<seq<Entry>>, body: seq<Entry>) {
    && (BodyPatternsFit(body) ==> r == Some(KeptBody(body)))
    && (BodyFits(body) ==> KeptBody(body) == JoinedBody(body))
    && (!BodyFits(body) ==> r != Some(JoinedBody(body)))
  }

  lemma {:induction false} BlankLineIsSkipped(t: string)
    ensures ReadResource("\n" + t) == ReadResource(t)
  {
    NewlineThen(t);
  }

  lemma BodyFrom(body: seq<Entry>)
    requires body != []
    ensures BodyFits(body) <==> PatternsFit(body[0]) && CommentFits(body[0]) && BodyFits(body[1..])
    ensures BodyPatternsFit(body) <==> PatternsFit(body[0]) && BodyPatternsFit(body[1..])
  {
    assert forall i :: 1 <= i < |body| ==> body[i] == body[1..][i - 1];
  }

  lemma {:induction false} FirstEntry(s: string, body: seq<Entry>, rest: string)
    requires body != [] && !body[0].Junk? && s != "" && LineEnd(SkipInline(s)).None?
    requires EntryGives(ReadEntry(s), body[0], rest) && BodyGives(ReadResource(rest), body[1..])
    ensures BodyGives(ReadResource(s), body)
  {
    var kept, joined := KeptEntry(body[0]), JoinedEntry(body[0]);
    BodyFrom(body);
    assert KeptBody(body) == [kept] + KeptBody(body[1..]) && JoinedBody(body) == [joined] + JoinedBody(body[1..]);
    if !BodyFits(body) && ReadEntry(s).Some? && ReadResource(ReadEntry(s).value.1).Some? {
      var (found, after) := ReadEntry(s).value;
      var others := ReadResource(after).value;
      if found == joined {
        SameAfterFirst(joined, others, JoinedBody(body[1..]));
      }
      assert ([found] + others)[0] == found && ([joined] + JoinedBody(body[1..]))[0] == joined;
    }
  }

  lemma {:induction false} BodyStarts(body: seq<Entry>)
    requires WellBody(body)
    ensures StartsEntry(BodyLines(true, body))
  {
    if body != [] {
      BodyStarts(body[1..]);
      if body[0].Junk? {
        assert "" + BodyLines(true, body[1..]) == BodyLines(true, body[1..]);
      } else {
        EntryStarts(body[0], BodyLines(true, body[1..]));
      }
    }
  }

  lemma {:induction false} EntryStarts(entry: Entry, rest: string)
    requires WellEntry(entry) && !entry.Junk?
    ensures StartsEntry(EntryText(true, entry) + rest)
  {
  }

  lemma FreeTextIs(hasEntries: bool, signs: string, content: seq<string>, rest: string)
    ensures var s := CommentText(signs, content) + ("\n" + rest);
            FreeText(hasEntries, signs, Comment(content)) + rest == if hasEntries then "\n" + s else s
  {
    var lines := CommentText(signs, content);
    Associative(if hasEntries then "\n" else "", lines + "\n", rest);
    Associative(lines, "\n", rest);
    assert "" + (lines + ("\n" + rest)) == lines + ("\n" + rest);
  }

  /** A comment of its own, which may have a blank line before it and has one after it. */
  lemma {:induction false} FreeEntryReads(hasEntries: bool, signs: string, comment: Comment, body: seq<Entry>,
                                          rest: string)
    requires WellComment(comment) && AreSigns(signs) && body != [] && body[0] == FreeComment(|signs|, comment)
    requires BodyGives(ReadResource(rest), body[1..])
    ensures BodyGives(ReadResource(FreeText(hasEntries, signs, comment) + rest), body)
  {
    var s := CommentText(signs, comment.content) + ("\n" + rest);
    FreeTextIs(hasEntries, signs, comment.content, rest);
    FreeReads(signs, comment, rest);
    CommentStarts(signs, comment.content, "\n" + rest);
    BlankLineIsSkipped(rest);
    NoBlankFirst(s);
    FirstEntry(s, body, "\n" + rest);
    BlankLineIsSkipped(s);
  }

  lemma {:induction false} NoBlankFirst(s: string)
    requires s != "" && (s[0] == '#' || s[0] == '-' || IsLetter(s[0]))
    ensures LineEnd(SkipInline(s)).None?
  {
  }

  lemma {:induction false} NamedTextIs(hasEntries: bool, entry: Entry, rest: string)
    requires WellEntry(entry) && (entry.MessageEntry? || entry.TermEntry?)
    ensures EntryText(hasEntries, entry) + rest == OwnCommentText(OwnComment(entry)) + (MainText(entry) + rest)
  {
    Associative(OwnCommentText(OwnComment(entry)), MainText(entry), rest);
  }

  lemma {:induction false} NamedEntryStarts(entry: Entry, rest: string)
    requires WellEntry(entry) && (entry.MessageEntry? || entry.TermEntry?)
    ensures var s := OwnCommentText(OwnComment(entry)) + (MainText(entry) + rest);
            s != "" && (s[0] == '#' || s[0] == '-' || IsLetter(s[0]))
  {
    var comment, t := OwnComment(entry), MainText(entry) + rest;
    NamedStarts(entry, rest);
    if comment.Some? {
      CommentStarts("#", comment.value.content, t);
    } else {
      assert OwnCommentText(comment) + t == t;
    }
  }

  lemma {:induction false} NamedFirst(hasEntries: bool, body: seq<Entry>, rest: string)
    requires body != [] && WellEntry(body[0]) && (body[0].MessageEntry? || body[0].TermEntry?)
    requires StartsEntry(rest) && BodyGives(ReadResource(rest), body[1..])
    ensures BodyGives(ReadResource(EntryText(hasEntries, body[0]) + rest), body)
  {
    var s := OwnCommentText(OwnComment(body[0])) + (MainText(body[0]) + rest);
    NamedTextIs(hasEntries, body[0], rest);
    NamedEntryReads(body[0], rest);
    NamedEntryStarts(body[0], rest);
    NoBlankFirst(s);
    FirstEntry(s, body, rest);
  }

  lemma {:induction false} JunkFirst(body: seq<Entry>)
    requires body != [] && body[0].Junk?
    ensures forall r :: BodyGives(r, body[1..]) ==> BodyGives(r, body)
  {
    BodyFrom(body);
    assert KeptBody(body) == KeptBody(body[1..]) && JoinedBody(body) == JoinedBody(body[1..]);
  }

  /** Reading the text of a body gives what is kept of its entries if their patterns fit, and
      the entries themselves, with their texts joined, only if their comments fit too. */
  lemma {:induction false} ResourceReads(hasEntries: bool, body: seq<Entry>)
    requires WellBody(body)
    ensures BodyGives(ReadResource(BodyLines(hasEntries, body)), body)
    decreases |body|
  {
    if body != [] {
      var entry := body[0];
      var rest := BodyLines(hasEntries || !entry.Junk?, body[1..]);
      ResourceReads(hasEntries || !entry.Junk?, body[1..]);
      match entry
      case Junk(_) =>
        JunkFirst(body);
        assert "" + rest == rest;
      case CommentEntry(comment) => FreeEntryReads(hasEntries, "#", comment, body, rest);
      case GroupComment(comment) => FreeEntryReads(hasEntries, "##", comment, body, rest);
      case ResourceComment(comment) => FreeEntryReads(hasEntries, "###", comment, body, rest);
      case _ =>
        BodyStarts(body[1..]);
        NamedFirst(hasEntries, body, rest);
    }
  }
}
