/** Entries and their text: a decoder for the Message, Term, Attribute and CommentLine
    productions of the Fluent Syntax 1.0 grammar, in which lines of one kind of comment that
    follow each other are one comment, which belongs to the message or term right after it. */
module FluentEntries {
  import opened Common
  import opened FluentSyntax
  import opened FluentSerializer
  import opened FluentReading
  import opened FluentPatterns

  // The decoder

  /** line_end */
  function EndOfLine(s: string): (r: Option<string>)
    ensures r.Some? ==> |r.value| <= |s|
  {
    if s == "" then Some("") else LineEnd(s)
  }

  /** What kind of comment starts s, by its number signs; 0 if none does. */
  function Signs(s: string): (n: nat)
    ensures n <= |s|
  {
    if !Starts(s, '#') then 0
    else if !Starts(s[1..], '#') then 1
    else if !Starts(s[2..], '#') then 2
    else 3
  }

  /** How many comment_char are at the start of s. */
  function LineLength(s: string): (n: nat)
    ensures n <= |s|
    ensures EndOfLine(s[n..]).Some?
  {
    if EndOfLine(s).Some? then 0 else 1 + LineLength(s[1..])
  }

  /** CommentLine, of a kind */
  function ReadCommentLine(s: string, signs: nat): (r: Read<string>)
    ensures r.Some? ==> |r.value.1| < |s|
  {
    if signs == 0 || Signs(s) != signs then None
    else
      var t := s[signs..];
      if Starts(t, ' ') then
        var line := t[1..];
        Some((line[..LineLength(line)], EndOfLine(line[LineLength(line)..]).value))
      else if EndOfLine(t).Some? then Some(("", EndOfLine(t).value))
      else None
  }

  function ReadComment(s: string, signs: nat): (r: (seq<string>, string))
    ensures |r.1| <= |s| && (r.0 != [] ==> |r.1| < |s|)
    decreases |s|
  {
    var line := ReadCommentLine(s, signs);
    if line.None? then ([], s)
    else
      var more := ReadComment(line.value.1, signs);
      ([line.value.0] + more.0, more.1)
  }

  /** Identifier blank_inline? "=" blank_inline? */
  function ReadName(s: string): (r: Read<string>)
    ensures r.Some? ==> |r.value.1| < |s|
  {
    var id := ReadIdentifier(s);
    if id.None? || !Starts(SkipInline(id.value.1), '=') then None
    else Some((id.value.0, SkipInline(SkipInline(id.value.1)[1..])))
  }

  /** Attribute */
  function ReadAttribute(s: string): (r: Read<Attribute>)
    ensures r.Some? ==> |r.value.1| < |s|
  {
    if LineEnd(s).None? || !Starts(SkipBlank(LineEnd(s).value), '.') then None
    else
      var name := ReadName(SkipBlank(LineEnd(s).value)[1..]);
      if name.None? then None
      else
        var value := ReadPattern(name.value.1);
        if value.None? then None else Some((Attribute(name.value.0, value.value.0), value.value.1))
  }

  /** Attribute* */
  function ReadAttributes(s: string): (r: (seq<Attribute>, string))
    ensures |r.1| <= |s|
    decreases |s|
  {
    var first := ReadAttribute(s);
    if first.None? then ([], s)
    else
      var more := ReadAttributes(first.value.1);
      ([first.value.0] + more.0, more.1)
  }

  /** Message, with the end of its line */
  function ReadMessage(s: string, comment: Option<Comment>): (r: Read<Entry>)
    ensures r.Some? ==> |r.value.1| < |s|
  {
    var name := ReadName(s);
    if name.None? then None
    else
      var value := ReadPattern(name.value.1);
      var (attributes, rest) := ReadAttributes(if value.Some? then value.value.1 else name.value.1);
      if (value.None? && attributes == []) || EndOfLine(rest).None? then None
      else
        Some((MessageEntry(Message(name.value.0, if value.Some? then Some(value.value.0) else None, attributes,
                                   comment)),
              EndOfLine(rest).value))
  }

  /** Term, with the end of its line */
  function ReadTerm(s: string, comment: Option<Comment>): (r: Read<Entry>)
    ensures r.Some? ==> |r.value.1| < |s|
  {
    if !Starts(s, '-') then None
    else
      var name := ReadName(s[1..]);
      if name.None? then None
      else
        var value := ReadPattern(name.value.1);
        if value.None? then None
        else
          var (attributes, rest) := ReadAttributes(value.value.1);
          if EndOfLine(rest).None? then None
          else Some((TermEntry(Term(name.value.0, value.value.0, attributes, comment)), EndOfLine(rest).value))
  }

  function ReadNamedEntry(s: string, comment: Option<Comment>): (r: Read<Entry>)
    ensures r.Some? ==> |r.value.1| < |s|
  {
    if Starts(s, '-') then ReadTerm(s, comment) else ReadMessage(s, comment)
  }

  /** Entry */
  function ReadEntry(s: string): (r: Read<Entry>)
    ensures r.Some? ==> |r.value.1| < |s|
  {
    if Signs(s) == 0 then ReadNamedEntry(s, None)
    else
      var (content, rest) := ReadComment(s, Signs(s));
      var comment := Comment(content);
      if content == [] then None
      else if Signs(s) == 2 then Some((GroupComment(comment), rest))
      else if Signs(s) == 3 then Some((ResourceComment(comment), rest))
      else
        var named := ReadNamedEntry(rest, Some(comment));
        if named.Some? then named else Some((CommentEntry(comment), rest))
  }

  /** Resource, if no part of it is junk */
  function ReadResource(s: string): Option<seq<Entry>>
    decreases |s|
  {
    if s == "" then Some([])
    else if LineEnd(SkipInline(s)).Some? then ReadResource(LineEnd(SkipInline(s)).value)
    else
      var first := ReadEntry(s);
      if first.None? then None
      else
        var more := ReadResource(first.value.1);
        if more.None? then None else Some([first.value.0] + more.value)
  }

  // Entries as a parser leaves them

  predicate WellComment(comment: Comment) {
    comment.content != [] && forall i :: 0 <= i < |comment.content| ==> '\n' !in comment.content[i]
  }

  predicate WellOwnComment(comment: Option<Comment>) { comment.Some? ==> WellComment(comment.value) }

  predicate WellAttributes(attributes: seq<Attribute>) {
    forall i :: 0 <= i < |attributes| ==> IsIdentifier(attributes[i].id) && WellPattern(attributes[i].value)
  }

  predicate WellMessage(message: Message) {
    && IsIdentifier(message.id) && (message.value.Some? ==> WellPattern(message.value.value))
    && WellAttributes(message.attributes) && (message.value.Some? || message.attributes != [])
    && WellOwnComment(message.comment)
  }

  predicate WellTerm(term: Term) {
    IsIdentifier(term.id) && WellPattern(term.value) && WellAttributes(term.attributes) && WellOwnComment(term.comment)
  }

  predicate WellEntry(entry: Entry) {
    match entry
    case MessageEntry(message) => WellMessage(message)
    case TermEntry(term) => WellTerm(term)
    case CommentEntry(comment) => WellComment(comment)
    case GroupComment(comment) => WellComment(comment)
    case ResourceComment(comment) => WellComment(comment)
    case Junk(_) => true
  }

  predicate WellBody(body: seq<Entry>) { forall i :: 0 <= i < |body| ==> WellEntry(body[i]) }

  // The text of entries

  function RemarkText(signs: string, line: string): string {
    signs + ((if IsBlank(line) then "" else " " + line) + "\n")
  }

  function CommentText(signs: string, content: seq<string>): string {
    if content == [] then "" else RemarkText(signs, content[0]) + CommentText(signs, content[1..])
  }

  function OwnCommentText(comment: Option<Comment>): string {
    if comment.Some? then CommentText("#", comment.value.content) else ""
  }

  function AttributeText(attribute: Attribute): string
    requires WellPattern(attribute.value)
  {
    "\n    ." + (attribute.id + (" =" + PatternText(1, attribute.value)))
  }

  function AttributesText(attributes: seq<Attribute>): string
    requires WellAttributes(attributes)
  {
    if attributes == [] then "" else AttributeText(attributes[0]) + AttributesText(attributes[1..])
  }

  function ValueText(value: Option<Pattern>): string
    requires value.Some? ==> WellPattern(value.value)
  {
    if value.Some? then PatternText(0, value.value) else ""
  }

  function AssignedText(id: string, value: string, attributes: string): string {
    id + (" =" + (value + (attributes + "\n")))
  }

  function FreeText(hasEntries: bool, signs: string, comment: Comment): string {
    (if hasEntries then "\n" else "") + (CommentText(signs, comment.content) + "\n")
  }

  function EntryText(hasEntries: bool, entry: Entry): string
    requires WellEntry(entry)
  {
    match entry
    case MessageEntry(message) =>
      OwnCommentText(message.comment)
      + AssignedText(message.id, ValueText(message.value), AttributesText(message.attributes))
    case TermEntry(term) =>
      OwnCommentText(term.comment)
      + ("-" + AssignedText(term.id, PatternText(0, term.value), AttributesText(term.attributes)))
    case CommentEntry(comment) => FreeText(hasEntries, "#", comment)
    case GroupComment(comment) => FreeText(hasEntries, "##", comment)
    case ResourceComment(comment) => FreeText(hasEntries, "###", comment)
    case Junk(_) => ""
  }

  function BodyLines(hasEntries: bool, body: seq<Entry>): string
    requires WellBody(body)
    decreases |body|
  {
    if body == [] then ""
    else EntryText(hasEntries, body[0]) + BodyLines(hasEntries || !body[0].Junk?, body[1..])
  }

  // What is read of them

  /** The characters with the White_Space property of Unicode. */
  const WHITE_SPACE: set<int> := {
    9, 10, 11, 12, 13, 32, 133, 160, 5760, 8192, 8193, 8194, 8195, 8196, 8197, 8198, 8199, 8200, 8201, 8202, 8232,
    8233, 8239, 8287, 12288
  }

  predicate AllWhite(line: string) { forall i :: 0 <= i < |line| ==> line[i] as int in WHITE_SPACE }

  /** A line is printed without its blanks if it has nothing else, and a carriage return at its
      end is read as part of the line end. */
  function KeptLine(line: string): string {
    if AllWhite(line) then "" else if line[|line| - 1] == '\r' then line[..|line| - 1] else line
  }

  function KeptLines(content: seq<string>): (r: seq<string>)
    ensures |r| == |content|
  {
    seq(|content|, i requires 0 <= i < |content| => KeptLine(content[i]))
  }

  function KeptComment(comment: Option<Comment>): Option<Comment> {
    if comment.Some? then Some(Comment(KeptLines(comment.value.content))) else None
  }

  function JoinedAttributes(attributes: seq<Attribute>): (r: seq<Attribute>)
    ensures |r| == |attributes|
  {
    seq(|attributes|, i requires 0 <= i < |attributes| =>
      Attribute(attributes[i].id, Joined(attributes[i].value)))
  }

  function JoinedValue(value: Option<Pattern>): Option<Pattern> {
    if value.Some? then Some(Joined(value.value)) else None
  }

  /** An entry with its texts joined. */
  function JoinedEntry(entry: Entry): Entry {
    match entry
    case MessageEntry(Message(id, value, attributes, comment)) =>
      MessageEntry(Message(id, JoinedValue(value), JoinedAttributes(attributes), comment))
    case TermEntry(Term(id, value, attributes, comment)) =>
      TermEntry(Term(id, Joined(value), JoinedAttributes(attributes), comment))
    case _ => entry
  }

  /** The same, with what is kept of its comment. */
  function KeptEntry(entry: Entry): Entry {
    match entry
    case MessageEntry(Message(id, value, attributes, comment)) =>
      MessageEntry(Message(id, JoinedValue(value), JoinedAttributes(attributes), KeptComment(comment)))
    case TermEntry(Term(id, value, attributes, comment)) =>
      TermEntry(Term(id, Joined(value), JoinedAttributes(attributes), KeptComment(comment)))
    case CommentEntry(comment) => CommentEntry(Comment(KeptLines(comment.content)))
    case GroupComment(comment) => GroupComment(Comment(KeptLines(comment.content)))
    case ResourceComment(comment) => ResourceComment(Comment(KeptLines(comment.content)))
    case Junk(_) => entry
  }

  function JoinedBody(body: seq<Entry>): seq<Entry> {
    if body == [] then []
    else (if body[0].Junk? then [] else [JoinedEntry(body[0])]) + JoinedBody(body[1..])
  }

  function KeptBody(body: seq<Entry>): seq<Entry> {
    if body == [] then []
    else (if body[0].Junk? then [] else [KeptEntry(body[0])]) + KeptBody(body[1..])
  }

  // Which of them survive

  predicate LineFits(line: string) {
    line != "" ==> !AllWhite(line) && line[|line| - 1] != '\r'
  }

  predicate LinesFit(content: seq<string>) { forall i :: 0 <= i < |content| ==> LineFits(content[i]) }

  predicate CommentFits(entry: Entry) {
    match entry
    case MessageEntry(message) => message.comment.Some? ==> LinesFit(message.comment.value.content)
    case TermEntry(term) => term.comment.Some? ==> LinesFit(term.comment.value.content)
    case CommentEntry(comment) => LinesFit(comment.content)
    case GroupComment(comment) => LinesFit(comment.content)
    case ResourceComment(comment) => LinesFit(comment.content)
    case Junk(_) => true
  }

  predicate AttributesFit(attributes: seq<Attribute>) {
    forall i :: 0 <= i < |attributes| ==> Fits(attributes[i].value)
  }

  predicate PatternsFit(entry: Entry) {
    match entry
    case MessageEntry(message) =>
      (message.value.Some? ==> Fits(message.value.value)) && AttributesFit(message.attributes)
    case TermEntry(term) => Fits(term.value) && AttributesFit(term.attributes)
    case _ => true
  }
}
