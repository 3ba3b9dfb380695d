/** What the serializer prints for a resource is the text of its entries, and which resources
    can be read back from it. */
module FluentEntryRoundTrip {
  import opened Common
  import opened FluentSyntax
  import opened FluentSerializer
  import opened FluentReading
  import opened FluentRoundTrip
  import opened FluentPatterns
  import opened FluentPatternReading
  import opened FluentPatternRoundTrip
  import opened FluentEntries
  import opened FluentEntryReading

  // Comments

  lemma AtMargin(w: Written, item: string)
    requires w.level == 0 && !Starts(item, ' ')
    ensures Literal(w, item).text == w.text + item
  {
    assert Spaces(0) == "" && w.text + "" == w.text;
  }

  lemma RemarkJoins(before: string, signs: string, line: string)
    ensures before + signs + "\n" == before + (signs + ("" + "\n"))
    ensures before + signs + " " + line + "\n" == before + (signs + (" " + line + "\n"))
  {
    Associative(before, signs, "\n");
    assert "" + "\n" == "\n";
    Associative(before + signs + " ", line, "\n");
    Associative(before + signs, " ", line + "\n");
    Associative(before, signs, " " + (line + "\n"));
    Associative(" ", line, "\n");
  }

  lemma {:induction false} RemarkPrints(w: Written, line: string, signs: string)
    requires w.level == 0 && AreSigns(signs)
    ensures PutLine(w, line, signs).text == w.text + RemarkText(signs, line)
  {
    AtMargin(w, signs);
    RemarkJoins(w.text, signs, line);
    SignsEndLine(w.text, signs);
  }

  lemma SignsEndLine(before: string, signs: string)
    requires AreSigns(signs)
    ensures !AtLineStart(before + signs) && !AtLineStart(before + signs + " ")
  {
    assert (before + signs)[|before| + |signs| - 1] == signs[|signs| - 1];
  }

  lemma {:induction false} CommentSnoc(signs: string, front: seq<string>, last: string)
    ensures CommentText(signs, front + [last]) == CommentText(signs, front) + RemarkText(signs, last)
  {
    if front == [] {
      assert front + [last] == [last] && CommentText(signs, [last]) == RemarkText(signs, last) + "";
    } else {
      CommentSnoc(signs, front[1..], last);
      assert (front + [last])[1..] == front[1..] + [last];
      Associative(RemarkText(signs, front[0]), CommentText(signs, front[1..]), RemarkText(signs, last));
    }
  }

  lemma {:induction false} CommentPrints(w: Written, content: seq<string>, signs: string)
    requires w.level == 0 && AreSigns(signs)
    ensures PutComment(w, content, signs).text == w.text + CommentText(signs, content)
  {
    if content == [] {
      assert w.text + "" == w.text;
    } else {
      var front, last := content[..|content| - 1], content[|content| - 1];
      FrontAndLast(content);
      CommentPrints(w, front, signs);
      RemarkPrints(PutComment(w, front, signs), last, signs);
      CommentSnoc(signs, front, last);
      Associative(w.text, CommentText(signs, front), RemarkText(signs, last));
    }
  }

  lemma {:induction false} OwnCommentPrints(w: Written, comment: Option<Comment>)
    requires w.level == 0
    ensures PutOwnComment(w, comment).text == w.text + OwnCommentText(comment)
  {
    if comment.Some? {
      CommentPrints(w, comment.value.content, "#");
    } else {
      assert w.text + "" == w.text;
    }
  }

  lemma FreePrints(w: Written, hasEntries: bool, comment: Comment, signs: string)
    requires w.level == 0 && AreSigns(signs)
    ensures PutFreeComment(w, hasEntries, comment, signs).text == w.text + FreeText(hasEntries, signs, comment)
  {
    var start := if hasEntries then NextLine(w) else w;
    var lines := CommentText(signs, comment.content);
    CommentPrints(start, comment.content, signs);
    Associative(start.text, lines, "\n");
    Associative(w.text, if hasEntries then "\n" else "", lines + "\n");
    assert w.text + "" == w.text;
  }

  // Attributes

  lemma {:induction false} DotPrints(w: Written, id: string)
    requires w.level == 1 && IsIdentifier(id)
    ensures var r := Literal(Literal(Literal(NextLine(w), "."), id), " =");
            r.text == w.text + ("\n    ." + (id + " =")) && r.level == 1 && !AtLineStart(r.text)
  {
    var line := NextLine(w);
    AtStart(line, line.text, "", ".");
    assert line.text + "" == line.text;
    assert "" + (Spaces(4) + ".") == "    ." && "\n" + "    ." == "\n    .";
    Associative(w.text, "\n", "    .");
    IdentifierIsOneLine(id);
    var dotted := Literal(line, ".");
    Within(dotted, w.text, "\n    .", id);
    Within(Literal(dotted, id), w.text, "\n    ." + id, " =");
    Associative("\n    .", id, " =");
  }

  lemma {:induction false} AttributePrints(w: Written, attribute: Attribute)
    requires w.level == 1 && IsIdentifier(attribute.id) && WellPattern(attribute.value)
    ensures PutPattern(Literal(Literal(Literal(NextLine(w), "."), attribute.id), " ="), attribute.value).text
         == w.text + AttributeText(attribute)
  {
    var value := PatternText(1, attribute.value);
    DotPrints(w, attribute.id);
    PatternPrints(Literal(Literal(Literal(NextLine(w), "."), attribute.id), " ="), attribute.value);
    Associative(attribute.id, " =", value);
    Associative("\n    .", attribute.id + " =", value);
    Associative(w.text, "\n    ." + (attribute.id + " ="), value);
  }

  lemma {:induction false} AttributesSnoc(front: seq<Attribute>, last: Attribute)
    requires WellAttributes(front + [last]) && WellAttributes(front) && WellPattern(last.value)
    ensures AttributesText(front + [last]) == AttributesText(front) + AttributeText(last)
  {
    if front == [] {
      assert front + [last] == [last] && AttributesText([last]) == AttributeText(last) + "";
    } else {
      assert (front + [last])[1..] == front[1..] + [last];
      AttributesSnoc(front[1..], last);
      Associative(AttributeText(front[0]), AttributesText(front[1..]), AttributeText(last));
    }
  }

  lemma {:induction false} EachAttributePrints(w: Written, attributes: seq<Attribute>)
    requires w.level == 1 && WellAttributes(attributes)
    ensures PutEachAttribute(w, attributes).text == w.text + AttributesText(attributes)
  {
    if attributes == [] {
      assert w.text + "" == w.text;
    } else {
      var front, last := attributes[..|attributes| - 1], attributes[|attributes| - 1];
      FrontAndLast(attributes);
      EachAttributePrints(w, front);
      AttributePrints(PutEachAttribute(w, front), last);
      AttributesSnoc(front, last);
      Associative(w.text, AttributesText(front), AttributeText(last));
    }
  }

  lemma {:induction false} AttributesPrint(w: Written, attributes: seq<Attribute>)
    requires w.level == 0 && WellAttributes(attributes)
    ensures PutAttributes(w, attributes).text == w.text + AttributesText(attributes)
  {
    if attributes == [] {
      assert w.text + "" == w.text;
    } else {
      EachAttributePrints(Indented(w), attributes);
    }
  }

  // Messages and terms

  /** From the name to the end of the line. */
  lemma {:induction false} AssignedPrints(w: Written, id: string, value: Option<Pattern>, attributes: seq<Attribute>)
    requires w.level == 0 && IsIdentifier(id) && (value.Some? ==> WellPattern(value.value))
    requires WellAttributes(attributes)
    ensures var head := Literal(Literal(w, id), " =");
            var valued := if value.Some? then PutPattern(head, value.value) else head;
            NextLine(PutAttributes(valued, attributes)).text
            == w.text + AssignedText(id, ValueText(value), AttributesText(attributes))
  {
    var head := Literal(Literal(w, id), " =");
    var valued := if value.Some? then PutPattern(head, value.value) else head;
    IdentifierIsOneLine(id);
    AtMargin(w, id);
    Within(Literal(w, id), w.text, id, " =");
    if value.Some? {
      PatternPrints(head, value.value);
    } else {
      assert head.text + "" == head.text;
    }
    AttributesPrint(valued, attributes);
    AssignedJoins(w.text, id, ValueText(value), AttributesText(attributes));
  }

  lemma AssignedJoins(before: string, id: string, value: string, attributes: string)
    ensures before + (id + " =") + value + attributes + "\n" == before + AssignedText(id, value, attributes)
  {
    Associative(before + (id + " =") + value, attributes, "\n");
    Associative(before + (id + " ="), value, attributes + "\n");
    Associative(before, id + " =", value + (attributes + "\n"));
    Associative(id, " =", value + (attributes + "\n"));
  }

  lemma {:induction false} MessagePrints(w: Written, message: Message)
    requires w.level == 0 && WellMessage(message)
    ensures PutMessage(w, message).text == w.text + EntryText(true, MessageEntry(message))
  {
    OwnCommentPrints(w, message.comment);
    AssignedPrints(PutOwnComment(w, message.comment), message.id, message.value, message.attributes);
    Associative(w.text, OwnCommentText(message.comment),
                AssignedText(message.id, ValueText(message.value), AttributesText(message.attributes)));
  }

  lemma {:induction false} TermPrints(w: Written, term: Term)
    requires w.level == 0 && WellTerm(term)
    ensures PutTerm(w, term).text == w.text + EntryText(true, TermEntry(term))
  {
    var own := PutOwnComment(w, term.comment);
    var text := AssignedText(term.id, PatternText(0, term.value), AttributesText(term.attributes));
    OwnCommentPrints(w, term.comment);
    AtMargin(own, "-");
    AssignedPrints(Literal(own, "-"), term.id, Some(term.value), term.attributes);
    Associative(own.text, "-", text);
    Associative(w.text, OwnCommentText(term.comment), "-" + text);
  }

  // Bodies

  lemma {:induction false} EntryPrints(w: Written, hasEntries: bool, entry: Entry)
    requires w.level == 0 && WellEntry(entry) && !entry.Junk?
    ensures PutEntry(w, hasEntries, entry).text == w.text + EntryText(hasEntries, entry)
  {
    match entry
    case MessageEntry(message) => MessagePrints(w, message);
    case TermEntry(term) => TermPrints(w, term);
    case CommentEntry(comment) => FreePrints(w, hasEntries, comment, "#");
    case GroupComment(comment) => FreePrints(w, hasEntries, comment, "##");
    case ResourceComment(comment) => FreePrints(w, hasEntries, comment, "###");
  }

  predicate HasEntries(body: seq<Entry>) { exists entry :: entry in body && !entry.Junk? }

  lemma HasEntriesFrom(first: Entry, more: seq<Entry>)
    ensures HasEntries([first] + more) <==> !first.Junk? || HasEntries(more)
  {
    assert first in [first] + more;
  }

  lemma {:induction false} BodyLinesFrom(hasEntries: bool, first: Entry, more: seq<Entry>)
    requires WellEntry(first) && WellBody(more) && WellBody([first] + more)
    ensures BodyLines(hasEntries, [first] + more)
         == EntryText(hasEntries, first) + BodyLines(hasEntries || !first.Junk?, more)
  {
    assert ([first] + more)[1..] == more;
  }

  lemma {:induction false} BodySnoc(hasEntries: bool, front: seq<Entry>, last: Entry)
    requires WellBody(front) && WellEntry(last)
    ensures WellBody(front + [last])
    ensures BodyLines(hasEntries, front + [last])
         == BodyLines(hasEntries, front) + EntryText(hasEntries || HasEntries(front), last)
    decreases |front|
  {
    if front == [] {
      BodyLinesFrom(hasEntries, last, []);
      assert [last] + [] == [last] == front + [last];
      assert EntryText(hasEntries, last) + "" == "" + EntryText(hasEntries, last);
    } else {
      var first, more := front[0], front[1..];
      var has := hasEntries || !first.Junk?;
      assert front == [first] + more;
      Associative([first], more, [last]);
      BodySnoc(has, more, last);
      HasEntriesFrom(first, more);
      BodyLinesFrom(hasEntries, first, more);
      BodyLinesFrom(hasEntries, first, more + [last]);
      Associative(EntryText(hasEntries, first), BodyLines(has, more), EntryText(has || HasEntries(more), last));
    }
  }

  /** Junk is not printed. */
  predicate NoJunkPrinted(body: seq<Entry>, withJunk: bool) {
    withJunk ==> forall i :: 0 <= i < |body| ==> !body[i].Junk?
  }

  lemma PrintedAre(body: seq<Entry>, withJunk: bool)
    requires NoJunkPrinted(body, withJunk)
    ensures SomePrinted(body, withJunk) <==> HasEntries(body)
  {
  }

  /** A body adds the text of its entries. */
  lemma {:induction false} BodyPrints(body: seq<Entry>, withJunk: bool)
    requires WellBody(body) && NoJunkPrinted(body, withJunk)
    ensures PutBody(body, withJunk).text == BodyLines(false, body)
  {
    if body != [] {
      var front, last := body[..|body| - 1], body[|body| - 1];
      FrontAndLast(body);
      BodyPrints(front, withJunk);
      PrintedAre(front, withJunk);
      BodySnoc(false, front, last);
      if last.Junk? {
        assert BodyLines(false, front) + "" == BodyLines(false, front);
      } else {
        EntryPrints(PutBody(front, withJunk), HasEntries(front), last);
      }
    }
  }

  /** What is printed of a resource is read as its entries: each with its kind, its name, its
      value and its attributes, texts joined, and its comment, of which blank lines lose their
      blanks, if the patterns fit. It is read as those entries, comments and all, if and only if
      no line of a comment is lost either. */
  lemma PrintedResourceReadsBack(body: seq<Entry>, withJunk: bool)
    requires WellBody(body) && NoJunkPrinted(body, withJunk)
    ensures var r := ReadResource(PutBody(body, withJunk).text);
            && (BodyPatternsFit(body) ==> r == Some(KeptBody(body)))
            && (BodyFits(body) <==> r == Some(JoinedBody(body)))
  {
    BodyPrints(body, withJunk);
    ResourceReads(false, body);
    if BodyFits(body) {
      assert BodyPatternsFit(body);
    }
  }

  /** A comment line of one space comes back empty. */
  lemma {:induction false} BlanksAreLost()
    ensures var body := [CommentEntry(Comment([" "]))];
            && WellBody(body) && ReadResource(PutBody(body, false).text) == Some([CommentEntry(Comment([""]))])
  {
    var entry := CommentEntry(Comment([" "]));
    assert WellEntry(entry) && PatternsFit(entry) && AllWhite(" ");
    PrintedResourceReadsBack([entry], false);
    assert KeptLines([" "]) == [""];
    OneKept(entry);
  }

  lemma {:induction false} OneKept(entry: Entry)
    requires !entry.Junk?
    ensures KeptBody([entry]) == [KeptEntry(entry)]
  {
    assert [entry][1..] == [] && KeptBody([]) == [];
  }

  // Junk

  lemma {:induction false} Trimmed(item: string)
    ensures |TrimStart(item)| <= |item| && (TrimStart(item) == item <==> !Starts(item, ' '))
  {
    if Starts(item, ' ') {
      Trimmed(item[1..]);
    }
  }

  /** With the option that keeps it junk is printed as it is, but at the start of a line without
      the spaces it starts with; without the option it is dropped. */
  lemma {:induction false} JunkIsKept(body: seq<Entry>, content: string)
    ensures var before := PutBody(body, true).text;
            PutBody(body + [Junk(content)], true).text == before + content
            <==> !(AtLineStart(before) && Starts(content, ' '))
    ensures PutBody(body + [Junk(content)], false) == PutBody(body, false)
  {
    assert (body + [Junk(content)])[..|body|] == body;
    var w := PutBody(body, true);
    Trimmed(content);
    assert Spaces(0) == "" && w.text + "" == w.text;
    assert PutBody(body + [Junk(content)], true) == Literal(w, content);
    SplitAt(w.text, content, |w.text|);
    SplitAt(w.text, TrimStart(content), |w.text|);
  }

  /** Kept junk is an entry: a comment after it has a blank line before it, as after any entry. */
  lemma {:induction false} BlankLineBefore(body: seq<Entry>, comment: Comment)
    ensures PutBody(body + [GroupComment(comment)], true).text
         == PutBody(body, true).text
            + ((if body == [] then "" else "\n") + (CommentText("##", comment.content) + "\n"))
  {
    assert (body + [GroupComment(comment)])[..|body|] == body;
    assert body != [] ==> body[0] in body && Printed(body[0], true);
    FreePrints(PutBody(body, true), body != [], comment, "##");
  }
}
