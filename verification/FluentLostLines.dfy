/** Patterns that the serializer does not keep, as a parser reads them: one whose text starts
    like a variant, and one with a line that is indented further than the others. */
module FluentLostLines {
  import opened Common
  import opened FluentSyntax
  import opened FluentSerializer
  import opened FluentReading
  import opened FluentPatterns
  import opened FluentPieces
  import opened FluentLines
  import opened FluentPatternReading
  import opened FluentPatternRoundTrip

  /** On the line of its key a pattern may start with anything: it is read, its texts joined. */
  lemma {:induction false} KeyLineReads(level: nat, pattern: Pattern, rest: string)
    requires WellPattern(pattern) && OneLine(pattern.elements) && ElementsFit(pattern.elements)
    requires StopsPattern(rest)
    ensures ReadPattern(LinesText(level, false, pattern.elements) + rest) == Some((Joined(pattern), rest))
  {
    var elements := pattern.elements;
    var s := LinesText(level, false, elements) + rest;
    OneLineIsPlain(elements);
    LinesRead(level, false, elements, rest);
    ShownEnds(false, elements);
    FirstLineStarts(elements);
    AssembledIs(ReadPieces(s).value.0, 4 * level, false, Shown(false, elements));
    NoLinesFlush(elements);
    ShownIsJoined(false, elements);
  }

  lemma {:induction false} FirstLineStarts(elements: seq<Element>)
    requires elements != [] && OneLine(elements) && WellElement(elements[0])
    ensures NoNewlineFirst(Shown(false, elements))
  {
    if elements[0].Text? {
      assert elements[0].value[0] != '\n';
    }
  }

  lemma {:induction false} NoLinesFlush(elements: seq<Element>)
    requires OneLine(elements)
    ensures LinesFlush(false, elements)
  {
    if elements != [] {
      NoLinesFlush(elements[1..]);
    }
  }

  // A text that starts like a variant

  const B := Pattern([Text("b")])
  const VARIANTS := [Variant("a", B, true)]
  const SELECT := Select(VariableReference("n"), VARIANTS)
  const BRACKETED := Pattern([Text("[x] "), Placed(SELECT)])

  lemma {:induction false} InnerIsWell()
    ensures WellPattern(B) && Fits(B) && Joined(B) == B
    ensures PatternText(1, B) == " b"
  {
    var elements := B.elements;
    assert WellElement(elements[0]);
    assert elements[1..] == [];
    assert JoinedElements([]) == [] && LinesText(1, false, []) == "";
    assert LineText(1, false, elements) == "b" + "";
  }

  lemma {:induction false} SelectIsWell()
    ensures WellExpression(SELECT) && ExpressionFits(SELECT) && WellVariants(VARIANTS)
  {
    InnerIsWell();
    assert IsIdentifier("n") && IsIdentifier("a");
    assert WellHead(VariableReference("n"));
    assert VARIANTS[1..] == [];
    assert Defaults(VARIANTS) == 1;
    assert WellVariants(VARIANTS) && VariantsFit(VARIANTS);
  }

  lemma {:induction false} SelectIsJoined()
    ensures JoinedExpression(SELECT) == SELECT
  {
    InnerIsWell();
    assert VARIANTS[1..] == [];
    assert JoinedVariants([]) == [];
    assert JoinedVariants(VARIANTS) == VARIANTS;
  }

  lemma {:induction false} VariantsAreText()
    requires WellVariants(VARIANTS)
    ensures VariantsText(1, VARIANTS) == "   *[a] b\n"
  {
    InnerIsWell();
    VariantsTextIs(1, VARIANTS);
    assert VARIANTS[1..] == [] && VariantsText(1, []) == "";
    assert Margin(1, true) == "   *";
  }

  const SELECT_TEXT := "{ $n ->\n   *[a] b\n}"

  lemma SelectTextFrom(variants: string, indent: string)
    requires variants == "   *[a] b\n" && indent == ""
    ensures "{ " + ("$n" + (" ->" + ("\n" + (variants + indent))) + ("" + "}")) == SELECT_TEXT
  {
    assert variants + indent == "   *[a] b\n" && "" + "}" == "}";
    assert "\n" + "   *[a] b\n" == "\n   *[a] b\n";
    assert " ->" + "\n   *[a] b\n" == " ->\n   *[a] b\n";
    assert "$n" + " ->\n   *[a] b\n" == "$n ->\n   *[a] b\n";
    assert "$n ->\n   *[a] b\n" + "}" == "$n ->\n   *[a] b\n}";
    assert "{ " + "$n ->\n   *[a] b\n}" == "{ $n ->\n   *[a] b\n}";
  }

  lemma {:induction false} SelectText()
    requires WellExpression(SELECT) && WellVariants(VARIANTS)
    ensures BraceText(0, SELECT) == SELECT_TEXT
  {
    VariantsAreText();
    assert HeadText(0, VariableReference("n")) == "$n";
    SelectTextFrom(VariantsText(1, VARIANTS), Spaces(0));
  }

  lemma {:induction false} BracketedIsWell()
    ensures WellPattern(BRACKETED) && ElementsFit(BRACKETED.elements) && OneLine(BRACKETED.elements)
    ensures StartsOnNewline(BRACKETED.elements) && !MayStart(BRACKETED.elements[0])
  {
    var elements := BRACKETED.elements;
    SelectIsWell();
    assert WellElement(elements[0]) && WellElement(elements[1]);
    assert IsSelect(elements[1].expression);
  }

  lemma {:induction false} BracketedIsJoined()
    ensures Joined(BRACKETED) == BRACKETED
  {
    var elements := BRACKETED.elements;
    SelectIsJoined();
    assert elements[1..] == [Placed(SELECT)] && elements[1..][1..] == [];
    assert JoinedElements([Placed(SELECT)]) == [Placed(SELECT)] + JoinedElements([]);
    assert JoinedElements(elements) == Prepend("[x] ", JoinedElements(elements[1..]));
  }

  lemma {:induction false} PlacedText()
    requires WellElement(Placed(SELECT)) && WellExpression(SELECT) && WellVariants(VARIANTS)
    ensures LinesText(0, false, [Placed(SELECT)]) == SELECT_TEXT
  {
    SelectText();
    assert LinesText(0, false, []) == "" && [Placed(SELECT)][1..] == [];
    assert ElementText(0, false, Placed(SELECT)) == BraceText(0, SELECT);
    LineTextIs(0, false, [Placed(SELECT)], "");
  }

  lemma {:induction false} BracketedText()
    requires WellPattern(BRACKETED) && WellExpression(SELECT) && WellVariants(VARIANTS)
    ensures LinesText(0, false, BRACKETED.elements) == "[x] " + SELECT_TEXT
  {
    var elements := BRACKETED.elements;
    assert WellElement(elements[1]);
    PlacedText();
    assert elements[1..] == [Placed(SELECT)];
    assert ElementText(0, false, elements[0]) == "[x] ";
    assert LineText(0, false, elements) == "[x] " + LinesText(0, false, elements[1..]);
  }

  lemma NothingFollows()
    ensures StopsPattern("\n")
  {
    assert "\n"[1..] == "";
    assert SkipBlank("\n") == "";
  }

  /** A pattern that a parser reads after `k = `, and that is not one any more once it is
      printed there, for it is moved to a line of its own. */
  lemma {:induction false} BracketIsLost()
    ensures ReadPattern("[x] " + SELECT_TEXT + "\n") == Some((BRACKETED, "\n"))
    ensures WellPattern(BRACKETED)
    ensures PutPattern(Written("k =", 0, []), BRACKETED).text == "k =" + PatternText(0, BRACKETED)
    ensures ReadPattern(SkipInline(PatternText(0, BRACKETED) + "\n")) == None
  {
    NothingFollows();
    SelectIsWell();
    BracketedIsWell();
    BracketedIsJoined();
    BracketedText();
    KeyLineReads(0, BRACKETED, "\n");
    PatternPrints(Written("k =", 0, []), BRACKETED);
    PatternTextSkips(0, BRACKETED, "\n");
    BadStart(1, BRACKETED.elements, "\n");
  }

  // A line that is indented further

  const INDENTED := Pattern([Text("a\n"), Text("  b")])
  const FLUSH := Pattern([Text("a\nb")])

  lemma {:induction false} TwoLines(n: nat, k: nat)
    requires n > 0 && k > 0
    ensures ReadPieces("\n" + (Spaces(n) + ("a" + ("\n" + (Spaces(k) + ("b" + "\n"))))))
         == Some(([Break(1, n), Words("a"), Break(1, k), Words("b")], "\n"))
  {
    LastLine(k);
    var after := "\n" + (Spaces(k) + ("b" + "\n"));
    WordsRead("a", after);
    assert AddWords("a", [Break(1, k), Words("b")]) == [Words("a"), Break(1, k), Words("b")];
    assert ("a" + after)[0] == 'a';
    BreakRead(n, "a" + after);
    assert AddBreak(n, [Words("a"), Break(1, k), Words("b")]) == [Break(1, n), Words("a"), Break(1, k), Words("b")];
  }

  lemma {:induction false} LastLine(k: nat)
    requires k > 0
    ensures ReadPieces("\n" + (Spaces(k) + ("b" + "\n"))) == Some(([Break(1, k), Words("b")], "\n"))
  {
    NothingFollows();
    assert ReadPieces("\n") == Some(([], "\n"));
    WordsRead("b", "\n");
    assert AddWords("b", []) == [Words("b")];
    assert ReadPieces("b" + "\n") == Some(([Words("b")], "\n"));
    assert ("b" + "\n")[0] == 'b';
    BreakRead(k, "b" + "\n");
    assert AddBreak(k, [Words("b")]) == [Break(1, k), Words("b")];
  }

  lemma {:induction false} IndentedPieces()
    ensures Assembled([Break(1, 4), Words("a"), Break(1, 6), Words("b")]) == [Text("a\n  b")]
  {
    var pieces := [Break(1, 4), Words("a"), Break(1, 6), Words("b")];
    IndentedJoin();
    CommonOfTwo();
    assert "\na\n  b"[1..] == "a\n  b";
    assert TrimNewlines("\na\n  b") == "a\n  b";
    assert WithoutFirst([Text("\na\n  b")]) == [Text("a\n  b")];
  }

  lemma {:induction false} CommonOfTwo()
    ensures CommonIndent([Break(1, 4), Words("a"), Break(1, 6), Words("b")]) == Some(4)
  {
    var pieces := [Break(1, 4), Words("a"), Break(1, 6), Words("b")];
    assert pieces[1..] == [Words("a"), Break(1, 6), Words("b")] && pieces[1..][1..] == [Break(1, 6), Words("b")];
    assert [Break(1, 6), Words("b")][1..] == [Words("b")] && [Words("b")][1..] == [];
    assert CommonIndent([Words("b")]) == None;
    assert CommonIndent([Break(1, 6), Words("b")]) == Some(6);
  }

  lemma {:induction false} IndentedJoin()
    ensures Join([Break(1, 4), Words("a"), Break(1, 6), Words("b")], 4) == [Text("\na\n  b")]
  {
    var pieces := [Break(1, 4), Words("a"), Break(1, 6), Words("b")];
    assert pieces[1..] == [Words("a"), Break(1, 6), Words("b")] && pieces[1..][1..] == [Break(1, 6), Words("b")];
    assert [Break(1, 6), Words("b")][1..] == [Words("b")] && [Words("b")][1..] == [];
    assert PieceText(Break(1, 6), 4) == "\n  " && PieceText(Break(1, 4), 4) == "\n" by {
      assert Newlines(1) == "\n" && Spaces(2) == "  " && "\n" + "  " == "\n  " && "\n" + "" == "\n";
    }
    assert "\n  " + "b" == "\n  b" && "a" + "\n  b" == "a\n  b" && "\n" + "a\n  b" == "\na\n  b";
    assert Join([Words("b")], 4) == [Text("b")];
    assert Join([Break(1, 6), Words("b")], 4) == [Text("\n  b")];
    assert Join(pieces[1..], 4) == [Text("a\n  b")];
  }

  lemma {:induction false} IndentedIsWell()
    ensures WellPattern(INDENTED) && StartsOnNewline(INDENTED.elements) && ElementsFit(INDENTED.elements)
    ensures Joined(INDENTED) == Pattern([Text("a\n  b")]) && LinesPlain(true, INDENTED.elements)
    ensures Shown(true, INDENTED.elements) == FLUSH.elements
  {
    var elements := INDENTED.elements;
    assert WellElement(elements[0]) && WellElement(elements[1]);
    assert '\n' in elements[0].value by {
      assert elements[0].value[1] == '\n';
    }
    assert elements[1..] == [Text("  b")] && elements[1..][1..] == [];
    assert JoinedElements(elements[1..]) == [Text("  b")];
    assert "a\n" + "  b" == "a\n  b";
    assert "  b"[1..] == " b" && " b"[1..] == "b";
    assert TrimStart("  b") == "b";
    assert Shown(true, elements[1..]) == [Text("b")];
    assert "a\n" + "b" == "a\nb";
  }

  /** A pattern that a parser reads from two lines, the second indented by two spaces more, and
      that is read as another once it is printed, for the serializer drops those spaces. */
  lemma {:induction false} IndentIsLost()
    ensures ReadPattern("\n    a\n      b\n") == Some((Joined(INDENTED), "\n"))
    ensures WellPattern(INDENTED)
    ensures PutPattern(Written("k =", 0, []), INDENTED).text == "k =" + PatternText(0, INDENTED)
    ensures ReadPattern(SkipInline(PatternText(0, INDENTED) + "\n")) == Some((FLUSH, "\n"))
    ensures FLUSH != Joined(INDENTED)
  {
    IndentedIsWell();
    IndentedIsRead();
    PatternPrints(Written("k =", 0, []), INDENTED);
    FlushIsRead();
    assert |"a\nb"| != |"a\n  b"|;
  }

  lemma IndentedText()
    ensures "\n    a\n      b\n" == "\n" + (Spaces(4) + ("a" + ("\n" + (Spaces(6) + ("b" + "\n")))))
  {
    assert "b" + "\n" == "b\n";
    assert Spaces(6) + "b\n" == "      b\n";
    assert "\n" + "      b\n" == "\n      b\n";
    assert "a" + "\n      b\n" == "a\n      b\n";
    assert Spaces(4) + "a\n      b\n" == "    a\n      b\n";
    assert "\n" + "    a\n      b\n" == "\n    a\n      b\n";
  }

  lemma {:induction false} IndentedIsRead()
    ensures ReadPattern("\n    a\n      b\n") == Some((Pattern([Text("a\n  b")]), "\n"))
  {
    TwoLines(4, 6);
    IndentedPieces();
    IndentedText();
  }

  lemma {:induction false} FlushIsRead()
    requires WellPattern(INDENTED)
    ensures ReadPattern(SkipInline(PatternText(0, INDENTED) + "\n")) == Some((FLUSH, "\n"))
  {
    var elements := INDENTED.elements;
    IndentedIsWell();
    NothingFollows();
    PatternTextSkips(0, INDENTED, "\n");
    LinesRead(1, true, elements, "\n");
    ShownEnds(true, elements);
    ShownStarts(elements);
    AssembledIs(ReadPieces(LinesText(1, true, elements) + "\n").value.0, 4, true, FLUSH.elements);
  }
}
