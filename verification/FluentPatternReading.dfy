/** Reading the text of a pattern gives the pattern back, with its texts joined, exactly when
    no line of it, nor of a pattern inside it, starts with a space or like a variant. */
module FluentPatternReading {
  import opened Common
  import opened FluentSyntax
  import opened FluentSerializer
  import opened FluentReading
  import opened FluentPatterns
  import opened FluentPieces
  import opened FluentLines

  /** What may follow a pattern: the end of its line, with no more of it on the next. */
  predicate StopsPattern(rest: string) { (rest == "" || LineEnd(rest).Some?) && Block(rest).None? }

  /** When it fits a value is read and its end found, and otherwise that value is not read. */
  predicate Gives<T(==)>(r: Read<T>, fits: bool, value: T, rest: string) {
    if fits then r == Some((value, rest)) else r.None? || r.value.0 != value
  }

  /** The same for pieces, by what they are joined to and by their placeables. */
  predicate GivesPieces(r: Read<seq<Piece>>, fits: bool, n: nat, joined: seq<Element>,
                        expressions: seq<Expression>, rest: string)
  {
    if fits then r.Some? && r.value.1 == rest && AllIndented(r.value.0, n) && Join(r.value.0, n) == joined
    else r.None? || Expressions(r.value.0) != expressions
  }

  // Steps

  lemma {:induction false} WordsGive(text: string, t: string, fits: bool, n: nat, joined: seq<Element>,
                                     expressions: seq<Expression>, rest: string)
    requires IsPlain(text) && GivesPieces(ReadPieces(t), fits, n, joined, expressions, rest)
    ensures GivesPieces(ReadPieces(text + t), fits, n, Prepend(text, joined), expressions, rest)
  {
    WordsRead(text, t);
    if ReadPieces(t).Some? {
      JoinAddWords(text, ReadPieces(t).value.0, n);
      AddedExpressions(text, n, ReadPieces(t).value.0);
    }
  }

  lemma {:induction false} BreakGives(t: string, fits: bool, n: nat, joined: seq<Element>,
                                      expressions: seq<Expression>, rest: string)
    requires n > 0 && GoesOn(t) && GivesPieces(ReadPieces(t), fits, n, joined, expressions, rest)
    ensures var s := "\n" + (Spaces(n) + t);
            && GivesPieces(ReadPieces(s), fits, n, Prepend("\n", joined), expressions, rest)
            && GoesOn(s)
  {
    BreakRead(n, t);
    if ReadPieces(t).Some? {
      AddedExpressions("", n, ReadPieces(t).value.0);
      if fits {
        JoinAddBreak(n, ReadPieces(t).value.0);
      }
    }
  }

  lemma {:induction false} BraceGives(s: string, first: bool, e: Expression, tail: string, fits: bool, n: nat,
                                      joined: seq<Element>, expressions: seq<Expression>, rest: string)
    requires Starts(s, '{') && Gives(ReadPlaced(s), first, e, tail)
    requires first ==> GivesPieces(ReadPieces(tail), fits, n, joined, expressions, rest)
    ensures GivesPieces(ReadPieces(s), first && fits, n, [Placed(e)] + joined, [e] + expressions, rest)
  {
    if ReadPlaced(s).Some? {
      var (found, after) := ReadPlaced(s).value;
      if ReadPieces(after).Some? {
        BraceFirst(found, ReadPieces(after).value.0, n);
        if found == e && Expressions(ReadPieces(after).value.0) != expressions {
          SameAfterFirst(e, Expressions(ReadPieces(after).value.0), expressions);
        }
        assert ([found] + Expressions(ReadPieces(after).value.0))[0] == found && ([e] + expressions)[0] == e;
      }
    }
  }

  lemma {:induction false} BraceFirst(e: Expression, pieces: seq<Piece>, n: nat)
    ensures Expressions([Brace(e)] + pieces) == [e] + Expressions(pieces)
    ensures Join([Brace(e)] + pieces, n) == [Placed(e)] + Join(pieces, n)
    ensures AllIndented(pieces, n) ==> AllIndented([Brace(e)] + pieces, n)
  {
    assert ([Brace(e)] + pieces)[1..] == pieces;
  }

  lemma SameAfterFirst<T>(x: T, a: seq<T>, b: seq<T>)
    requires a != b
    ensures [x] + a != [x] + b
  {
    assert ([x] + a)[1..] == a && ([x] + b)[1..] == b;
  }

  lemma {:induction false} NoPieces(rest: string, n: nat)
    requires StopsPattern(rest)
    ensures GivesPieces(ReadPieces(rest), true, n, [], [], rest)
  {
  }

  lemma {:induction false} InlineGives(t: string, fits: bool, inline: Inline, after: string, rest: string)
    requires Gives(ReadHead(t), fits, inline, after) && SkipBlank(after) == "}" + rest
    ensures Gives(ReadBody(t), fits, InlineExpression(inline), rest)
  {
    assert ("}" + rest)[1..] == rest;
  }

  lemma {:induction false} SelectGives(t: string, headFits: bool, selector: Inline, after: string, list: string,
                                       fits: bool, variants: seq<Variant>, end: string, rest: string)
    requires Gives(ReadHead(t), headFits, selector, after)
    requires SkipBlank(after) == "->" + list && SkipInline(list) == list
    requires Gives(ReadVariants(list), fits, variants, end) && Defaults(variants) == 1
    requires SkipBlank(end) == "}" + rest
    ensures Gives(ReadBody(t), headFits && fits, Select(selector, variants), rest)
  {
    ArrowParts(list, rest);
    if headFits {
      ArrowGives(t, selector, "->" + list, list, variants, fits, end, "}" + rest, rest);
    }
  }

  lemma ArrowParts(list: string, rest: string)
    ensures ("}" + rest)[1..] == rest && ("}" + rest)[0] == '}'
    ensures var arrow := "->" + list;
            Starts(arrow, '-') && Starts(arrow[1..], '>') && arrow[2..] == list && !Starts(arrow, '}')
  {
    assert ("->" + list)[1..] == ">" + list;
  }

  lemma {:induction false} ArrowGives(t: string, selector: Inline, arrow: string, list: string, variants: seq<Variant>,
                                      fits: bool, end: string, close: string, rest: string)
    requires ReadHead(t).Some? && ReadHead(t).value.0 == selector && SkipBlank(ReadHead(t).value.1) == arrow
    requires Starts(arrow, '-') && Starts(arrow[1..], '>') && SkipInline(arrow[2..]) == list && !Starts(arrow, '}')
    requires Gives(ReadVariants(list), fits, variants, end) && Defaults(variants) == 1
    requires SkipBlank(end) == close && Starts(close, '}') && close[1..] == rest
    ensures Gives(ReadBody(t), fits, Select(selector, variants), rest)
  {
  }

  lemma {:induction false} VariantGives(s: string, bracket: string, marked: bool, key: string, after: string,
                                        first: bool, value: Pattern, tail: string, fits: bool, more: seq<Variant>,
                                        end: string)
    requires LineEnd(s).Some? && Starts(bracket, '[') && bracket[1..] != bracket
    requires SkipBlank(LineEnd(s).value) == if marked then "*" + bracket else bracket
    requires ReadKey(bracket) == Some((key, after))
    requires Gives(ReadPattern(SkipInline(after)), first, value, tail)
    requires Gives(ReadVariants(tail), fits, more, end)
    ensures Gives(ReadVariants(s), first && fits, [Variant(key, value, marked)] + more, end)
  {
    assert ("*" + bracket)[1..] == bracket;
    var r := ReadPattern(SkipInline(after));
    if r.Some? && ReadVariants(r.value.1).Some? {
      var found := ReadVariants(r.value.1).value.0;
      if r.value.0 == value && found != more {
        SameAfterFirst(Variant(key, value, marked), found, more);
      }
      assert ([Variant(key, r.value.0, marked)] + found)[0] == Variant(key, r.value.0, marked);
      assert ([Variant(key, value, marked)] + more)[0] == Variant(key, value, marked);
    }
  }

  lemma {:induction false} NoVariants(s: string, end: string)
    requires LineEnd(s) == Some(end) && Starts(SkipBlank(end), '}')
    ensures ReadVariants(s) == Some(([], end))
  {
  }

  // Keys and what is around them

  lemma {:induction false} NumberKey(key: string, after: string)
    requires IsNumber(key)
    ensures var t := key + ("]" + after);
            NumberLength(t) == |key| && t[..|key|] == key && t[|key|..] == "]" + after
  {
    NumberReads(key, "]" + after);
  }

  lemma {:induction false} IdentifierKey(key: string, after: string)
    requires IsIdentifier(key)
    ensures NumberLength(key + ("]" + after)) == 0
    ensures ReadIdentifier(key + ("]" + after)) == Some((key, "]" + after))
  {
    IdentifierReads(key, "]" + after);
  }

  lemma {:induction false} KeyOpens(key: string, rest: string)
    requires IsKey(key)
    ensures SkipBlank(key + rest) == key + rest
  {
    assert Opens(key);
    OpensSkips(key, rest);
  }

  lemma {:induction false} KeyReads(key: string, after: string)
    requires IsKey(key)
    ensures ReadKey("[" + (key + ("]" + after))) == Some((key, after))
  {
    SplitAt("[", key + ("]" + after), 1);
    SplitAt("]", after, 1);
    KeyOpens(key, "]" + after);
    if IsNumber(key) {
      NumberKey(key, after);
    } else {
      IdentifierKey(key, after);
    }
    KeyGives("[" + (key + ("]" + after)), key + ("]" + after), key, "]" + after, after);
  }

  lemma {:induction false} KeyGives(s: string, t: string, key: string, close: string, after: string)
    requires Starts(s, '[') && SkipBlank(s[1..]) == t
    requires if NumberLength(t) > 0 then t[..NumberLength(t)] == key && t[NumberLength(t)..] == close
             else ReadIdentifier(t) == Some((key, close))
    requires Starts(close, ']') && close[1..] == after
    ensures ReadKey(s) == Some((key, after))
  {
  }

  lemma {:induction false} SkipSpaces(n: nat, t: string)
    ensures SkipBlank(Spaces(n) + t) == SkipBlank(t)
  {
    if n == 0 {
      assert Spaces(n) + t == t;
    } else {
      assert (Spaces(n) + t)[1..] == Spaces(n - 1) + t;
      SkipSpaces(n - 1, t);
    }
  }

  lemma {:induction false} MarginSkips(level: nat, isDefault: bool, bracket: string)
    requires level > 0 && Starts(bracket, '[')
    ensures SkipBlank(Margin(level, isDefault) + bracket) == if isDefault then "*" + bracket else bracket
  {
    if isDefault {
      Associative(Spaces(4 * level - 1), "*", bracket);
      SkipSpaces(4 * level - 1, "*" + bracket);
    } else {
      SkipSpaces(4 * level, bracket);
    }
  }

  /** The text of the first variant, with what follows. */
  lemma FirstVariant(margin: string, key: string, value: string, more: string, end: string)
    ensures margin + "[" + key + "]" + value + "\n" + more + end
         == margin + ("[" + (key + ("]" + (value + ("\n" + (more + end))))))
  {
    var next := "\n" + (more + end);
    Associative(margin + "[" + key + "]" + value + "\n", more, end);
    Associative(margin + "[" + key + "]" + value, "\n", more + end);
    Associative(margin + "[" + key + "]", value, next);
    Associative(margin + "[" + key, "]", value + next);
    Associative(margin + "[", key, "]" + (value + next));
    Associative(margin, "[", key + ("]" + (value + next)));
  }

  lemma {:induction false} VariantsTextIs(level: nat, variants: seq<Variant>)
    requires level > 0 && WellVariants(variants) && variants != []
    ensures var v := variants[0];
            VariantsText(level, variants)
            == Margin(level, v.isDefault) + "[" + v.key + "]" + PatternText(level, v.value) + "\n"
               + VariantsText(level, variants[1..])
  {
    assert VariantText(level, variants[0])
        == Margin(level, variants[0].isDefault) + "[" + variants[0].key + "]" + PatternText(level, variants[0].value);
  }

  lemma {:induction false} BlanksAreBlank(s: string, lines: nat, indent: nat)
    ensures Blanks(s, lines, indent).2 == SkipBlank(s)
    decreases |s|
  {
    if Starts(s, ' ') {
      BlanksAreBlank(s[1..], lines, indent + 1);
    } else if LineEnd(s).Some? {
      BlanksAreBlank(LineEnd(s).value, lines + 1, 0);
    }
  }

  lemma {:induction false} BlockStops(s: string, c: char)
    requires Starts(s, '\n') && Starts(SkipBlank(s), c) && (c == '[' || c == '*' || c == '}')
    ensures StopsPattern(s)
  {
    BlanksAreBlank(s, 0, 0);
  }

  /** Nothing that follows a variant is more of its pattern. */
  lemma {:induction false} NextLineStops(level: nat, variants: seq<Variant>, end: string)
    requires level > 0 && WellVariants(variants) && Starts(SkipBlank(end), '}')
    ensures StopsPattern("\n" + (VariantsText(level, variants) + end))
  {
    var next := VariantsText(level, variants) + end;
    NewlineThen(next);
    if variants == [] {
      assert next == end;
      BlockStops("\n" + next, '}');
    } else {
      var v := variants[0];
      VariantsTextIs(level, variants);
      VariantStarts(level, v.isDefault, v.key, PatternText(level, v.value), VariantsText(level, variants[1..]), end);
      BlockStops("\n" + next, if v.isDefault then '*' else '[');
    }
  }

  lemma {:induction false} VariantStarts(level: nat, isDefault: bool, key: string, value: string,
                                         more: string, end: string)
    requires level > 0
    ensures Starts(SkipBlank(Margin(level, isDefault) + "[" + key + "]" + value + "\n" + more + end),
                   if isDefault then '*' else '[')
  {
    FirstVariant(Margin(level, isDefault), key, value, more, end);
    MarginSkips(level, isDefault, "[" + (key + ("]" + (value + ("\n" + (more + end))))));
  }

  // A pattern, once its pieces are read

  /** What the pieces of a pattern are assembled to, without the break it may start with. */
  lemma {:induction false} AssembledIs(pieces: seq<Piece>, n: nat, onNewline: bool, shown: seq<Element>)
    requires AllIndented(pieces, n) && Join(pieces, n) == if onNewline then Prepend("\n", shown) else shown
    requires EndsWell(shown) && NoNewlineFirst(shown)
    ensures Assembled(pieces) == shown
  {
    CommonIndentIs(pieces, n);
    if onNewline {
      BreakIsTrimmed(shown);
    } else {
      NothingIsTrimmed(shown);
    }
    NoSpaceIsTrimmed(shown);
  }

  lemma {:induction false} ReadIsClean(s: string)
    requires ReadPattern(s).Some?
    ensures AllClean(ReadPattern(s).value.0.elements)
  {
    PiecesAreClean(s);
    AssembledIsClean(ReadPieces(s).value.0);
  }

  lemma {:induction false} ReadExpressions(s: string)
    requires ReadPattern(s).Some?
    ensures ElementExpressions(ReadPattern(s).value.0.elements) == Expressions(ReadPieces(s).value.0)
  {
    AssembledExpressions(ReadPieces(s).value.0);
  }

  lemma {:induction false} NothingRead(s: string)
    requires ReadPieces(s) == Some(([], s))
    ensures ReadPattern(s) == None
  {
    assert Assembled([]) == [];
  }

  // Lines

  /** The end of a pattern's elements, before which a line may have ended. */
  predicate WellLines(atStart: bool, elements: seq<Element>) {
    && (forall i :: 0 <= i < |elements| ==> WellElement(elements[i]))
    && TextsApart(elements) && EndsWell(elements) && (elements == [] ==> !atStart)
  }

  lemma {:induction false} MoreLines(atStart: bool, elements: seq<Element>)
    requires WellLines(atStart, elements) && elements != []
    ensures WellLines(EndsLine(elements[0]), elements[1..])
  {
  }

  /** A break goes on with these elements even if a blank line comes first. */
  predicate Continues(atStart: bool, elements: seq<Element>) {
    elements != [] && (atStart || elements[0].Placed? || elements[0].value == "\n")
  }

  lemma {:induction false} StemIs(value: string, atStart: bool)
    requires IsText(value)
    ensures var shown := Visible(value, atStart);
            && IsPlain(Stem(shown)) && shown == Stem(shown) + (if AtLineStart(value) then "\n" else "")
            && !Starts(TrimStart(value), ' ')
  {
    TrimStartIs(value);
    var n := if atStart then |value| - |TrimStart(value)| else 0;
    var shown := Visible(value, atStart);
    assert shown == value[n..];
    if AtLineStart(value) {
      assert n < |value|;
    }
    StemOfEnd(value, n);
  }

  lemma StemOfEnd(value: string, n: nat)
    requires IsText(value) && n <= |value| && (AtLineStart(value) ==> n < |value|)
    ensures var end := value[n..];
            IsPlain(Stem(end)) && end == Stem(end) + (if AtLineStart(value) then "\n" else "")
  {
    var end := value[n..];
    assert forall i :: 0 <= i < |end| ==> end[i] == value[n + i];
    if AtLineStart(value) {
      assert end == end[..|end| - 1] + "\n";
    } else {
      assert end + "" == end;
    }
  }

  /** Words of a line, and the lines after them. */
  lemma {:induction false} TextGives(value: string, atStart: bool, more: seq<Element>, t: string, fits: bool, n: nat,
                                     rest: string)
    requires IsText(value)
    requires GivesPieces(ReadPieces(t), fits, n,
                         if AtLineStart(value) then Prepend("\n", Shown(true, more)) else Shown(false, more),
                         ElementExpressions(JoinedElements(more)), rest)
    ensures GivesPieces(ReadPieces(Stem(Visible(value, atStart)) + t), fits, n, Shown(atStart, [Text(value)] + more),
                        ElementExpressions(JoinedElements([Text(value)] + more)), rest)
  {
    var stem := Stem(Visible(value, atStart));
    var joined := if AtLineStart(value) then Prepend("\n", Shown(true, more)) else Shown(false, more);
    StemIs(value, atStart);
    WordsGive(stem, t, fits, n, joined, ElementExpressions(JoinedElements(more)), rest);
    if AtLineStart(value) {
      PrependTwice(stem, "\n", Shown(true, more));
    } else {
      assert stem + "" == stem;
    }
    JoinedExpressions([Text(value)] + more);
    assert ([Text(value)] + more)[1..] == more;
  }

  /** What a text meets. */
  predicate Meets(value: string, more: seq<Element>) {
    && (more == [] ==> Ends(value))
    && (more != [] && more[0].Text? ==> AtLineStart(value) || more[0].value == "\n")
  }

  lemma {:induction false} FirstMeets(atStart: bool, elements: seq<Element>)
    requires WellLines(atStart, elements) && elements != [] && elements[0].Text?
    ensures IsText(elements[0].value) && Meets(elements[0].value, elements[1..])
  {
    assert WellElement(elements[0]);
  }

  /** A line with no words of its own is followed by something. */
  lemma {:induction false} BlankLine(value: string, atStart: bool, more: seq<Element>)
    requires IsText(value) && Meets(value, more) && Stem(Visible(value, atStart)) == ""
    ensures Continues(AtLineStart(value), more)
  {
    StemIs(value, atStart);
    TrimStartIs(value);
    var last := value[|value| - 1];
    assert TrimStart(value) == "" ==> last == ' ';
  }

  lemma {:induction false} WordsGoOn(value: string, t: string)
    requires IsText(value) && MayStart(Text(value)) && Stem(TrimStart(value)) != ""
    ensures GoesOn(Stem(TrimStart(value)) + t)
  {
    var stem := Stem(TrimStart(value));
    StemIs(value, true);
    assert stem[0] == TrimStart(value)[0];
    assert (stem + t)[0] == stem[0];
  }

  /** Where a break comes before a text, it goes on with it or with the blank line it is. */
  lemma {:induction false} TextGoesOn(value: string, atStart: bool, more: seq<Element>, t: string)
    requires IsText(value) && Meets(value, more) && MayStart(Text(value))
    requires atStart || value == "\n"
    requires Continues(AtLineStart(value), more) ==> GoesOn(t)
    ensures GoesOn(Stem(Visible(value, atStart)) + t)
  {
    var stem := Stem(Visible(value, atStart));
    if stem == "" {
      BlankLine(value, atStart, more);
      assert stem + t == t;
    } else {
      WordsGoOn(value, t);
    }
  }

  // A pattern, once its lines are read

  /** On the line of its key a pattern begins after the spaces. */
  lemma {:induction false} PatternTextSkips(level: nat, pattern: Pattern, rest: string)
    requires WellPattern(pattern)
    ensures var s := SkipInline(PatternText(level, pattern) + rest);
            if StartsOnNewline(pattern.elements) then s == LinesText(level + 1, true, pattern.elements) + rest
            else s == LinesText(level, false, pattern.elements) + rest
  {
    var elements := pattern.elements;
    if StartsOnNewline(elements) {
      LinesTextIs(level + 1, true, elements, rest);
      NewlineThen(Spaces(4 * (level + 1)) + (LineText(level + 1, true, elements) + rest));
    } else {
      var text := LinesText(level, false, elements) + rest;
      Associative(" ", LinesText(level, false, elements), rest);
      assert (" " + text)[1..] == text;
      OneLineBegins(level, elements, rest);
    }
  }

  lemma {:induction false} OneLineBegins(level: nat, elements: seq<Element>, rest: string)
    requires elements != [] && forall i :: 0 <= i < |elements| ==> WellElement(elements[i])
    requires !StartsOnNewline(elements) && StartsWell(elements)
    ensures !Starts(LinesText(level, false, elements) + rest, ' ')
  {
    var first := elements[0];
    assert WellElement(first);
    LineTextIs(level, false, elements, rest);
    if first.Text? {
      StemIs(first.value, false);
      assert '\n' !in first.value;
      assert Stem(first.value) == first.value;
      assert (first.value + (LinesText(level, EndsLine(first), elements[1..]) + rest))[0] == first.value[0];
    } else {
      BraceStarts(level, false, first);
    }
  }

  /** What is shown is the pattern exactly when it loses no spaces. */
  lemma {:induction false} ShownIsPattern(onNewline: bool, elements: seq<Element>)
    ensures Shown(onNewline, elements) == JoinedElements(elements) <==> LinesFlush(onNewline, elements)
  {
    ShownSize(onNewline, elements);
    if LinesFlush(onNewline, elements) {
      ShownIsJoined(onNewline, elements);
    }
  }

  lemma {:induction false} OneLineStarts(elements: seq<Element>)
    requires WellPattern(Pattern(elements)) && !StartsOnNewline(elements)
    ensures NoNewlineFirst(Shown(false, elements))
  {
    var first := elements[0];
    assert WellElement(first);
    if first.Text? {
      assert '\n' !in first.value;
      assert first.value[0] in first.value;
    }
  }

  lemma {:induction false} PlainPatternReads(level: nat, pattern: Pattern, onNewline: bool, s: string, rest: string)
    requires WellPattern(pattern) && onNewline == StartsOnNewline(pattern.elements)
    requires LinesPlain(onNewline, pattern.elements)
    requires GivesPieces(ReadPieces(s), ElementsFit(pattern.elements), 4 * level,
                         if onNewline then Prepend("\n", Shown(true, pattern.elements))
                         else Shown(false, pattern.elements),
                         ElementExpressions(JoinedElements(pattern.elements)), rest)
    ensures Gives(ReadPattern(s), Fits(pattern), Joined(pattern), rest)
  {
    var shown := Shown(onNewline, pattern.elements);
    if ElementsFit(pattern.elements) {
      ShownEnds(onNewline, pattern.elements);
      if onNewline {
        ShownStarts(pattern.elements);
      } else {
        OneLineStarts(pattern.elements);
      }
      AssembledIs(ReadPieces(s).value.0, 4 * level, onNewline, shown);
      ShownIsPattern(onNewline, pattern.elements);
    } else if ReadPattern(s).Some? {
      ReadExpressions(s);
    }
  }

  lemma {:induction false} NotPlain(elements: seq<Element>)
    requires elements != [] && !LinesPlain(true, elements)
    ensures !MayStart(elements[0]) || !LinesPlain(EndsLine(elements[0]), elements[1..])
  {
  }

  predicate OneLine(elements: seq<Element>) { forall i :: 0 <= i < |elements| ==> !EndsLine(elements[i]) }

  lemma {:induction false} OnlyOneLine(elements: seq<Element>)
    requires !StartsOnNewline(elements)
    ensures OneLine(elements)
  {
  }

  lemma {:induction false} OneLineIsPlain(elements: seq<Element>)
    requires OneLine(elements)
    ensures LinesPlain(false, elements)
  {
    if elements != [] {
      OneLineIsPlain(elements[1..]);
    }
  }

  /** A pattern with a line that starts like a variant or an attribute. */
  lemma {:induction false} BadPatternReads(level: nat, pattern: Pattern, rest: string)
    requires WellPattern(pattern)
    requires var onNewline := StartsOnNewline(pattern.elements);
             !LinesPlain(onNewline, pattern.elements) && (onNewline ==> level > 0)
    ensures var onNewline := StartsOnNewline(pattern.elements);
            Gives(ReadPattern(LinesText(level, onNewline, pattern.elements) + rest), Fits(pattern), Joined(pattern),
                  rest)
  {
    var elements := pattern.elements;
    if !StartsOnNewline(elements) {
      OnlyOneLine(elements);
      OneLineIsPlain(elements);
    }
    NotPlain(elements);
    var s := LinesText(level, true, elements) + rest;
    if !MayStart(elements[0]) {
      BadStart(level, elements, rest);
    } else if ReadPattern(s).Some? {
      BadLineShows(elements);
      ReadIsClean(s);
    }
  }

  lemma {:induction false} BadStart(level: nat, elements: seq<Element>, rest: string)
    requires elements != [] && (forall i :: 0 <= i < |elements| ==> WellElement(elements[i]))
    requires level > 0 && !MayStart(elements[0])
    ensures ReadPattern(LinesText(level, true, elements) + rest) == None
  {
    var line := LineText(level, true, elements) + rest;
    var value := elements[0].value;
    assert WellElement(elements[0]);
    LinesTextIs(level, true, elements, rest);
    LineTextIs(level, true, elements, rest);
    StemIs(value, true);
    assert Stem(TrimStart(value))[0] == TrimStart(value)[0];
    assert line[0] == TrimStart(value)[0];
    NoBlockRead(4 * level, line);
    NothingRead("\n" + (Spaces(4 * level) + line));
  }

  // The induction

  lemma {:induction false} LinesTextIs(level: nat, atStart: bool, elements: seq<Element>, rest: string)
    requires elements != [] && forall i :: 0 <= i < |elements| ==> WellElement(elements[i])
    ensures LinesText(level, atStart, elements) + rest
         == if atStart then "\n" + (Spaces(4 * level) + (LineText(level, atStart, elements) + rest))
            else LineText(level, atStart, elements) + rest
  {
    var line := LineText(level, atStart, elements);
    Associative(Spaces(4 * level), line, rest);
    Associative("\n", Spaces(4 * level) + line, rest);
  }

  lemma {:induction false} LineTextIs(level: nat, atStart: bool, elements: seq<Element>, rest: string)
    requires elements != [] && forall i :: 0 <= i < |elements| ==> WellElement(elements[i])
    ensures LineText(level, atStart, elements) + rest
         == ElementText(level, atStart, elements[0])
            + (LinesText(level, EndsLine(elements[0]), elements[1..]) + rest)
  {
    Associative(ElementText(level, atStart, elements[0]), LinesText(level, EndsLine(elements[0]), elements[1..]), rest);
  }

  lemma {:induction false} FitsFrom(first: Element, more: seq<Element>)
    ensures ElementsFit([first] + more) <==> ElementFits(first) && ElementsFit(more)
  {
    assert ([first] + more)[0] == first;
    assert forall i :: 0 <= i < |more| ==> ([first] + more)[i + 1] == more[i];
  }

  /** A text, once the lines after it are read. */
  lemma {:induction false} TextRead(level: nat, first: Element, atStart: bool, more: seq<Element>, t: string,
                                    rest: string)
    requires first.Text? && IsText(first.value) && Meets(first.value, more) && (atStart ==> MayStart(first))
    requires GivesPieces(ReadPieces(t), ElementsFit(more), 4 * level,
                         if EndsLine(first) then Prepend("\n", Shown(true, more)) else Shown(false, more),
                         ElementExpressions(JoinedElements(more)), rest)
    requires Continues(EndsLine(first), more) ==> GoesOn(t)
    ensures var s := ElementText(level, atStart, first) + t;
            && GivesPieces(ReadPieces(s), ElementsFit([first] + more), 4 * level, Shown(atStart, [first] + more),
                           ElementExpressions(JoinedElements([first] + more)), rest)
            && (Continues(atStart, [first] + more) ==> GoesOn(s))
  {
    FitsFrom(first, more);
    TextGives(first.value, atStart, more, t, ElementsFit(more), 4 * level, rest);
    if atStart || first.value == "\n" {
      TextGoesOn(first.value, atStart, more, t);
    }
  }

  /** A placeable, once the lines after it are read. */
  lemma {:induction false} BraceRead(level: nat, first: Element, atStart: bool, more: seq<Element>, t: string,
                                     rest: string)
    requires first.Placed? && WellElement(first)
    requires Gives(ReadPlaced(ElementText(level, atStart, first) + t), ElementFits(first),
                   JoinedElement(first).expression, t)
    requires GivesPieces(ReadPieces(t), ElementsFit(more), 4 * level, Shown(false, more),
                         ElementExpressions(JoinedElements(more)), rest)
    ensures var s := ElementText(level, atStart, first) + t;
            && GivesPieces(ReadPieces(s), ElementsFit([first] + more), 4 * level, Shown(atStart, [first] + more),
                           ElementExpressions(JoinedElements([first] + more)), rest)
            && GoesOn(s)
  {
    var s := ElementText(level, atStart, first) + t;
    FitsFrom(first, more);
    BraceStarts(level, atStart, first);
    JoinedExpressions([first] + more);
    assert ([first] + more)[1..] == more;
    BraceGives(s, ElementFits(first), JoinedElement(first).expression, t, ElementsFit(more), 4 * level,
               Shown(false, more), ElementExpressions(JoinedElements(more)), rest);
  }

  lemma {:induction false} BraceStarts(level: nat, atStart: bool, element: Element)
    requires element.Placed? && WellElement(element)
    ensures Starts(ElementText(level, atStart, element), '{')
  {
  }

  /** The lines of a pattern give what is shown of them. */
  lemma {:induction false} LinesRead(level: nat, atStart: bool, elements: seq<Element>, rest: string)
    requires WellLines(atStart, elements) && LinesPlain(atStart, elements) && StopsPattern(rest)
    requires level > 0 || (!atStart && OneLine(elements))
    ensures GivesPieces(ReadPieces(LinesText(level, atStart, elements) + rest), ElementsFit(elements), 4 * level,
                        if atStart then Prepend("\n", Shown(true, elements)) else Shown(false, elements),
                        ElementExpressions(JoinedElements(elements)), rest)
    ensures Continues(atStart, elements) ==> GoesOn(LinesText(level, atStart, elements) + rest)
    decreases elements, 1
  {
    if elements == [] {
      assert LinesText(level, atStart, elements) + rest == rest;
      NoPieces(rest, 4 * level);
    } else {
      LineRead(level, atStart, elements, rest);
      LinesTextIs(level, atStart, elements, rest);
      if atStart {
        BreakGives(LineText(level, atStart, elements) + rest, ElementsFit(elements), 4 * level,
                   Shown(true, elements), ElementExpressions(JoinedElements(elements)), rest);
      }
    }
  }

  lemma {:induction false} LineRead(level: nat, atStart: bool, elements: seq<Element>, rest: string)
    requires elements != [] && WellLines(atStart, elements) && LinesPlain(atStart, elements) && StopsPattern(rest)
    requires level > 0 || (!atStart && OneLine(elements))
    ensures GivesPieces(ReadPieces(LineText(level, atStart, elements) + rest), ElementsFit(elements), 4 * level,
                        Shown(atStart, elements), ElementExpressions(JoinedElements(elements)), rest)
    ensures Continues(atStart, elements) ==> GoesOn(LineText(level, atStart, elements) + rest)
    decreases elements, 0
  {
    var first, more := elements[0], elements[1..];
    var t := LinesText(level, EndsLine(first), more) + rest;
    MoreLines(atStart, elements);
    LinesRead(level, EndsLine(first), more, rest);
    LineTextIs(level, atStart, elements, rest);
    assert elements == [first] + more;
    if first.Text? {
      FirstMeets(atStart, elements);
      TextRead(level, first, atStart, more, t, rest);
    } else {
      BraceReads(level, atStart, first, t);
      BraceRead(level, first, atStart, more, t, rest);
    }
  }

  lemma {:induction false} HeadOpens(level: nat, inline: Inline)
    requires WellHead(inline)
    ensures Opens(HeadText(level, inline))
  {
    if !inline.Placeable? {
      TextOpens(inline);
    }
  }

  lemma {:induction false} BodyOpens(level: nat, expression: Expression)
    requires WellExpression(expression)
    ensures Opens(BodyText(level, expression))
  {
    match expression
    case InlineExpression(inline) => HeadOpens(level, inline);
    case Select(selector, _) => HeadOpens(level, selector);
  }

  lemma OpenBrace(open: string, text: string)
    requires open == "{" || open == "{ "
    requires Opens(text)
    ensures Starts(open + text, '{') && SkipBlank((open + text)[1..]) == text
  {
    assert (open + text)[1..] == if open == "{" then text else " " + text;
    assert (" " + text)[1..] == text;
  }

  /** Reading a placeable of the text of a pattern. */
  lemma {:induction false} BraceReads(level: nat, atStart: bool, element: Element, rest: string)
    requires element.Placed? && WellElement(element)
    ensures Gives(ReadPlaced(ElementText(level, atStart, element) + rest), ElementFits(element),
                  JoinedElement(element).expression, rest)
    decreases element
  {
    match element
    case Placed(InlineExpression(Placeable(inner))) =>
      assert WellExpression(element.expression) && WellHead(element.expression.inline);
      BodyReads(level, inner, Gap(inner), "}" + rest);
      DoubledReads(level, inner, rest);
    case Placed(expression) =>
      BodyReads(level, expression, Gap(expression), rest);
      SingleReads(level, expression, rest);
  }

  /** The text of a body with the brace after it. */
  function Closed(level: nat, e: Expression, gap: string, rest: string): string
    requires WellExpression(e)
  {
    BodyText(level, e) + (gap + ("}" + rest))
  }

  lemma {:induction false} SingleReads(level: nat, e: Expression, rest: string)
    requires WellExpression(e) && !Doubled(e)
    requires Gives(ReadBody(Closed(level, e, Gap(e), rest)), ExpressionFits(e), JoinedExpression(e), rest)
    ensures Gives(ReadPlaced(BraceText(level, e) + rest), ExpressionFits(e), JoinedExpression(e), rest)
  {
    var text := Closed(level, e, Gap(e), rest);
    BodyOpens(level, e);
    BraceTextIs("{ ", BodyText(level, e), Gap(e), "}", rest);
    OpenBrace("{ ", text);
  }

  lemma BraceTextIs(open: string, body: string, gap: string, close: string, rest: string)
    ensures open + (body + (gap + close)) + rest == open + (body + (gap + (close + rest)))
  {
    Associative(gap, close, rest);
    Associative(body, gap + close, rest);
    Associative(open, body + (gap + close), rest);
  }

  lemma {:induction false} DoubledReads(level: nat, e: Expression, rest: string)
    requires WellExpression(e)
    requires Gives(ReadBody(Closed(level, e, Gap(e), "}" + rest)), ExpressionFits(e), JoinedExpression(e), "}" + rest)
    ensures var whole := InlineExpression(Placeable(e));
            && WellExpression(whole)
            && Gives(ReadPlaced(BraceText(level, whole) + rest), ExpressionFits(whole), JoinedExpression(whole), rest)
  {
    var whole := InlineExpression(Placeable(e));
    var text := Closed(level, e, Gap(e), "}" + rest);
    assert WellHead(whole.inline) && (HeadFits(whole.inline) <==> ExpressionFits(e));
    BodyOpens(level, e);
    BraceTextIs("{{ ", BodyText(level, e), Gap(e), "}}", rest);
    assert "}}" + rest == "}" + ("}" + rest);
    assert "{{ " + text == "{" + ("{ " + text);
    OpenBrace("{ ", text);
    OpenBrace("{", "{ " + text);
    InlineGives("{ " + text, ExpressionFits(e), Placeable(JoinedExpression(e)), "}" + rest, rest);
  }

  lemma CloseBrace(gap: string, rest: string)
    requires gap == "" || gap == " "
    ensures SkipBlank(gap + ("}" + rest)) == "}" + rest && Stops(gap + ("}" + rest))
  {
    assert gap == "" ==> gap + ("}" + rest) == "}" + rest;
    assert gap == " " ==> (gap + ("}" + rest))[1..] == "}" + rest;
  }

  /** Reading what is between the braces. */
  lemma {:induction false} BodyReads(level: nat, e: Expression, gap: string, rest: string)
    requires WellExpression(e) && (gap == "" || gap == " ")
    ensures Gives(ReadBody(Closed(level, e, gap, rest)), ExpressionFits(e), JoinedExpression(e), rest)
    decreases e
  {
    var close := gap + ("}" + rest);
    CloseBrace(gap, rest);
    if e.InlineExpression? {
      HeadReads(level, e.inline, close);
      InlineBodyReads(level, e.inline, close, rest);
    } else {
      var list := "\n" + (VariantsText(level + 1, e.variants) + (Spaces(4 * level) + close));
      SkipSpaces(4 * level, close);
      NewlineThen(VariantsText(level + 1, e.variants) + (Spaces(4 * level) + close));
      ArrowStops(list);
      HeadReads(level, e.selector, " ->" + list);
      VariantsRead(level + 1, e.variants, Spaces(4 * level) + close);
      SelectReads(level, e.selector, e.variants, close, rest);
    }
  }

  lemma {:induction false} InlineBodyReads(level: nat, inline: Inline, close: string, rest: string)
    requires WellHead(inline) && SkipBlank(close) == "}" + rest
    requires Gives(ReadHead(HeadText(level, inline) + close), HeadFits(inline), JoinedHead(inline), close)
    ensures var e := InlineExpression(inline);
            Gives(ReadBody(BodyText(level, e) + close), ExpressionFits(e), JoinedExpression(e), rest)
  {
    InlineGives(HeadText(level, inline) + close, HeadFits(inline), JoinedHead(inline), close, rest);
  }

  lemma {:induction false} ArrowStops(list: string)
    requires Starts(list, '\n')
    ensures Stops(" ->" + list)
  {
    Arrow(list);
  }

  lemma Arrow(list: string)
    requires Starts(list, '\n')
    ensures Stops(" ->" + list) && SkipBlank(" ->" + list) == "->" + list && SkipInline(list) == list
  {
    assert (" ->" + list)[1..] == "->" + list;
  }

  lemma SelectTextIs(selector: string, variants: string, indent: string, close: string)
    ensures selector + (" ->" + ("\n" + (variants + indent))) + close
         == selector + (" ->" + ("\n" + (variants + (indent + close))))
  {
    Associative(variants, indent, close);
    Associative("\n", variants + indent, close);
    Associative(" ->", "\n" + (variants + indent), close);
    Associative(selector, " ->" + ("\n" + (variants + indent)), close);
  }

  lemma {:induction false} JoinedDefaults(variants: seq<Variant>)
    ensures Defaults(JoinedVariants(variants)) == Defaults(variants)
  {
    if variants != [] {
      JoinedDefaults(variants[1..]);
      assert JoinedVariants(variants)[1..] == JoinedVariants(variants[1..]);
    }
  }

  /** A select, once its selector and its variants are read. */
  lemma {:induction false} SelectReads(level: nat, selector: Inline, variants: seq<Variant>, close: string,
                                       rest: string)
    requires WellExpression(Select(selector, variants))
    requires SkipBlank(Spaces(4 * level) + close) == "}" + rest
    requires var end := Spaces(4 * level) + close;
             var list := "\n" + (VariantsText(level + 1, variants) + end);
             && Gives(ReadHead(HeadText(level, selector) + (" ->" + list)), HeadFits(selector),
                      JoinedHead(selector), " ->" + list)
             && Gives(ReadVariants(list), VariantsFit(variants), JoinedVariants(variants), end)
    ensures var e := Select(selector, variants);
            Gives(ReadBody(BodyText(level, e) + close), ExpressionFits(e), JoinedExpression(e), rest)
  {
    var end := Spaces(4 * level) + close;
    var list := "\n" + (VariantsText(level + 1, variants) + end);
    Arrow(list);
    JoinedDefaults(variants);
    SelectTextIs(HeadText(level, selector), VariantsText(level + 1, variants), Spaces(4 * level), close);
    SelectGives(HeadText(level, selector) + (" ->" + list), HeadFits(selector), JoinedHead(selector), " ->" + list,
                list, VariantsFit(variants), JoinedVariants(variants), end, rest);
  }

  /** Reading an inline expression, whose outermost placeables may hold selects. */
  lemma {:induction false} HeadReads(level: nat, inline: Inline, after: string)
    requires WellHead(inline) && Stops(after)
    ensures Gives(ReadHead(HeadText(level, inline) + after), HeadFits(inline), JoinedHead(inline), after)
    decreases inline
  {
    match inline
    case Placeable(inner) =>
      BodyReads(level, inner, "", after);
      PlaceableReads(level, inner, after);
    case _ =>
      ReadsBack(inline, after);
      TextOpens(inline);
      NotBrace(inline, after);
  }

  lemma {:induction false} NotBrace(inline: Inline, after: string)
    requires WellFormed(inline) && !inline.Placeable?
    ensures !Starts(TextOf(inline) + after, '{')
  {
    TextOpens(inline);
    assert (TextOf(inline) + after)[0] == TextOf(inline)[0];
  }

  lemma {:induction false} PlaceableReads(level: nat, e: Expression, after: string)
    requires WellExpression(e)
    requires Gives(ReadBody(Closed(level, e, "", after)), ExpressionFits(e), JoinedExpression(e), after)
    ensures Gives(ReadHead("{" + (BodyText(level, e) + "}") + after), ExpressionFits(e),
                  Placeable(JoinedExpression(e)), after)
  {
    var text := Closed(level, e, "", after);
    BodyOpens(level, e);
    assert "" + ("}" + after) == "}" + after && "" + "}" == "}";
    BraceTextIs("{", BodyText(level, e), "", "}", after);
    OpenBrace("{", text);
  }

  /** Reading variants. */
  lemma {:induction false} VariantsRead(level: nat, variants: seq<Variant>, end: string)
    requires level > 0 && WellVariants(variants) && Starts(SkipBlank(end), '}')
    ensures Gives(ReadVariants("\n" + (VariantsText(level, variants) + end)), VariantsFit(variants),
                  JoinedVariants(variants), end)
    decreases variants
  {
    if variants == [] {
      assert VariantsText(level, variants) + end == end;
      NewlineThen(end);
      NoVariants("\n" + end, end);
    } else {
      var more := variants[1..];
      VariantsRead(level, more, end);
      NextLineStops(level, more, end);
      PatternReads(level, variants[0].value, "\n" + (VariantsText(level, more) + end));
      FirstReads(level, variants, end);
    }
  }

  lemma {:induction false} FirstReads(level: nat, variants: seq<Variant>, end: string)
    requires level > 0 && WellVariants(variants) && variants != []
    requires var next := "\n" + (VariantsText(level, variants[1..]) + end);
             && Gives(ReadVariants(next), VariantsFit(variants[1..]), JoinedVariants(variants[1..]), end)
             && Gives(ReadPattern(SkipInline(PatternText(level, variants[0].value) + next)),
                      Fits(variants[0].value), Joined(variants[0].value), next)
    ensures Gives(ReadVariants("\n" + (VariantsText(level, variants) + end)), VariantsFit(variants),
                  JoinedVariants(variants), end)
  {
    var first, more := variants[0], variants[1..];
    VariantsTextIs(level, variants);
    VariantsFitFrom(variants);
    VariantReads(level, first, PatternText(level, first.value), VariantsText(level, more),
                 VariantsFit(more), JoinedVariants(more), end);
  }

  lemma {:induction false} VariantsFitFrom(variants: seq<Variant>)
    requires variants != []
    ensures VariantsFit(variants) <==> Fits(variants[0].value) && VariantsFit(variants[1..])
  {
    assert forall i :: 1 <= i < |variants| ==> variants[i] == variants[1..][i - 1];
  }

  /** Variants, once the pattern of the first and the others are read. */
  lemma {:induction false} VariantReads(level: nat, first: Variant, value: string, text: string, fits: bool,
                                        more: seq<Variant>, end: string)
    requires level > 0 && IsKey(first.key)
    requires var next := "\n" + (text + end);
             && Gives(ReadPattern(SkipInline(value + next)), Fits(first.value), Joined(first.value), next)
             && Gives(ReadVariants(next), fits, more, end)
    ensures Gives(ReadVariants("\n" + (Margin(level, first.isDefault) + "[" + first.key + "]" + value + "\n" + text
                                       + end)),
                  Fits(first.value) && fits,
                  [Variant(first.key, Joined(first.value), first.isDefault)] + more, end)
  {
    var next := "\n" + (text + end);
    var bracket := "[" + (first.key + ("]" + (value + next)));
    var line := Margin(level, first.isDefault) + bracket;
    FirstVariant(Margin(level, first.isDefault), first.key, value, text, end);
    NewlineThen(line);
    MarginSkips(level, first.isDefault, bracket);
    KeyReads(first.key, value + next);
    assert |bracket[1..]| < |bracket|;
    VariantGives("\n" + line, bracket, first.isDefault, first.key, value + next, Fits(first.value),
                 Joined(first.value), next, fits, more, end);
  }

  /** Reading the text of a pattern gives the pattern back, with its texts joined, and stops
      at its end, if no line of it starts with a space or like a variant or an attribute, nor
      of a pattern inside it; and if some line does, another pattern is read, or none. */
  lemma {:induction false} PatternReads(level: nat, pattern: Pattern, rest: string)
    requires WellPattern(pattern) && StopsPattern(rest)
    ensures Gives(ReadPattern(SkipInline(PatternText(level, pattern) + rest)), Fits(pattern), Joined(pattern), rest)
    decreases pattern
  {
    var elements := pattern.elements;
    var onNewline := StartsOnNewline(elements);
    var inner := if onNewline then level + 1 else level;
    PatternTextSkips(level, pattern, rest);
    if !onNewline {
      OnlyOneLine(elements);
    }
    if LinesPlain(onNewline, elements) {
      LinesRead(inner, onNewline, elements, rest);
      PlainPatternReads(inner, pattern, onNewline, LinesText(inner, onNewline, elements) + rest, rest);
    } else {
      BadPatternReads(inner, pattern, rest);
    }
  }
}
