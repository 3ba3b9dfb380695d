/** What the serializer prints for a pattern, with selects nested to any depth, is the
    pattern's text, and which patterns can be read back from it. */
module FluentPatternRoundTrip {
  import opened Common
  import opened FluentSyntax
  import opened FluentSerializer
  import opened FluentReading
  import opened FluentRoundTrip
  import opened FluentPatterns
  import opened FluentPieces
  import opened FluentLines
  import opened FluentPatternReading

  /** Within a line. */
  lemma Within(w: Written, before: string, text: string, item: string)
    requires w.text == before + text && !AtLineStart(w.text) && Solid(item)
    ensures var r := Literal(w, item);
            r.text == before + (text + item) && r.level == w.level && !AtLineStart(r.text)
  {
    Associative(before, text, item);
  }

  /** At the start of a line, where spaces are lost. */
  lemma AtStart(w: Written, before: string, text: string, item: string)
    requires w.text == before + text && AtLineStart(w.text)
    ensures Literal(w, item).text == before + (text + (Spaces(4 * w.level) + TrimStart(item)))
  {
    var indent := Spaces(4 * w.level);
    Associative(before + text, indent, TrimStart(item));
    Associative(before, text, indent + TrimStart(item));
  }

  lemma BreaksLine(w: Written, before: string, text: string)
    requires w.text == before + text
    ensures NextLine(w).text == before + (text + "\n") && AtLineStart(NextLine(w).text)
  {
    Associative(before, text, "\n");
  }

  // Placeables

  predicate IsClose(close: string) { close == "}" || close == " }" || close == " }}" }

  function AfterSelect(expression: Expression, close: string): string {
    if expression.Select? then TrimStart(close) else close
  }

  lemma CloseIs(close: string)
    requires IsClose(close)
    ensures Solid(close) && TrimStart(close) == if close == " }}" then "}}" else "}"
  {
    assert " }"[1..] == "}" && " }}"[1..] == "}}";
  }

  /** An inline expression adds its text. */
  lemma {:induction false} HeadPrints(w: Written, inline: Inline)
    requires WellHead(inline) && !AtLineStart(w.text)
    ensures PutInline(w, inline).text == w.text + HeadText(w.level, inline) && Solid(HeadText(w.level, inline))
    decreases inline
  {
    if inline.Placeable? {
      OpenBracePrints(w);
      ClosedPrints(Literal(w, "{"), inline.expression, "}");
      PlaceablePrints(w, inline.expression);
    } else {
      OthersPrint(w, inline);
    }
  }

  lemma {:induction false} OthersPrint(w: Written, inline: Inline)
    requires WellHead(inline) && !inline.Placeable? && !AtLineStart(w.text)
    ensures PutInline(w, inline).text == w.text + HeadText(w.level, inline) && Solid(HeadText(w.level, inline))
  {
    InlinePrints(w, inline);
    assert w.text + "" == w.text;
  }

  lemma OpenBracePrints(w: Written)
    requires !AtLineStart(w.text)
    ensures Literal(w, "{").text == w.text + "{" && Literal(w, "{").level == w.level
    ensures !AtLineStart(Literal(w, "{").text)
  {
    PlainMore(w, "", "{");
  }

  lemma {:induction false} PlaceablePrints(w: Written, inner: Expression)
    requires WellExpression(inner)
    requires Literal(PutExpression(Literal(w, "{"), inner), "}").text
          == w.text + "{" + (BodyText(w.level, inner) + AfterSelect(inner, "}"))
    ensures PutInline(w, Placeable(inner)).text == w.text + HeadText(w.level, Placeable(inner))
    ensures Solid(HeadText(w.level, Placeable(inner)))
  {
    CloseIs("}");
    assert AfterSelect(inner, "}") == "}";
    BodyJoins(w.text, "{", BodyText(w.level, inner), "}");
  }

  lemma BodyJoins(before: string, open: string, body: string, close: string)
    requires Solid(close)
    ensures before + open + (body + close) == before + (open + (body + close)) && Solid(open + (body + close))
  {
    Associative(before, open, body + close);
  }

  /** An expression and what closes it add the text of its body and the brace. */
  lemma {:induction false} ClosedPrints(w: Written, e: Expression, close: string)
    requires WellExpression(e) && !AtLineStart(w.text) && IsClose(close)
    ensures Literal(PutExpression(w, e), close).text == w.text + (BodyText(w.level, e) + AfterSelect(e, close))
    decreases e
  {
    CloseIs(close);
    match e
    case InlineExpression(inline) =>
      HeadPrints(w, inline);
      InlineCloses(PutInline(w, inline), w.text, HeadText(w.level, inline), close);
    case Select(selector, variants) =>
      HeadPrints(w, selector);
      SelectStarts(w, selector);
      VariantsPrint(SelectStart(w, selector), variants);
      SelectCloses(w, selector, variants, close);
  }

  lemma InlineCloses(w: Written, before: string, text: string, close: string)
    requires w.text == before + text && Solid(text) && Solid(close)
    ensures Literal(w, close).text == before + (text + close)
  {
    Within(w, before, text, close);
  }

  /** The selector, the arrow and the line break; the variants are one level in. */
  function SelectStart(w: Written, selector: Inline): Written {
    Indented(NextLine(Literal(PutInline(w, selector), " ->")))
  }

  lemma {:induction false} SelectStarts(w: Written, selector: Inline)
    requires WellHead(selector) && PutInline(w, selector).text == w.text + HeadText(w.level, selector)
    requires Solid(HeadText(w.level, selector))
    ensures var start := SelectStart(w, selector);
            && start.text == w.text + (HeadText(w.level, selector) + " ->" + "\n") && start.level == w.level + 1
            && AtLineStart(start.text)
  {
    var head := HeadText(w.level, selector);
    Within(PutInline(w, selector), w.text, head, " ->");
    BreaksLine(Literal(PutInline(w, selector), " ->"), w.text, head + " ->");
  }

  lemma {:induction false} SelectCloses(w: Written, selector: Inline, variants: seq<Variant>, close: string)
    requires WellExpression(Select(selector, variants)) && IsClose(close)
    requires SelectStart(w, selector).text == w.text + (HeadText(w.level, selector) + " ->" + "\n")
    requires SelectStart(w, selector).level == w.level + 1
    requires PutVariants(SelectStart(w, selector), variants).text
          == SelectStart(w, selector).text + VariantsText(w.level + 1, variants)
    requires AtLineStart(PutVariants(SelectStart(w, selector), variants).text)
    ensures Literal(PutExpression(w, Select(selector, variants)), close).text
         == w.text + (BodyText(w.level, Select(selector, variants)) + TrimStart(close))
  {
    SelectIs(w, selector, variants);
    BodyCloses(Dedented(PutVariants(SelectStart(w, selector), variants)), w.level, w.text, HeadText(w.level, selector),
               VariantsText(w.level + 1, variants), close);
  }

  lemma {:induction false} SelectIs(w: Written, selector: Inline, variants: seq<Variant>)
    requires WellExpression(Select(selector, variants))
    ensures PutExpression(w, Select(selector, variants)) == Dedented(PutVariants(SelectStart(w, selector), variants))
    ensures BodyText(w.level, Select(selector, variants))
         == HeadText(w.level, selector)
            + (" ->" + ("\n" + (VariantsText(w.level + 1, variants) + Spaces(4 * w.level))))
  {
  }

  lemma BodyCloses(w: Written, level: nat, before: string, head: string, variants: string, close: string)
    requires w.text == before + (head + " ->" + "\n") + variants && AtLineStart(w.text) && w.level == level
    ensures Literal(w, close).text
         == before + (head + (" ->" + ("\n" + (variants + Spaces(4 * level)))) + TrimStart(close))
  {
    var start, indent := head + " ->" + "\n", Spaces(4 * level);
    Associative(before, start, variants);
    AtStart(w, before, start + variants, close);
    SelectTextIs(head, variants, indent, TrimStart(close));
    Regrouped(head, variants, indent + TrimStart(close));
  }

  lemma Regrouped(head: string, variants: string, end: string)
    ensures head + " ->" + "\n" + variants + end == head + (" ->" + ("\n" + (variants + end)))
  {
    Associative(head + " ->" + "\n", variants, end);
    Associative(head + " ->", "\n", variants + end);
    Associative(head, " ->", "\n" + (variants + end));
  }

  function Opening(e: Expression): string { if Doubled(e) then "{{ " else "{ " }

  /** A placeable of a pattern adds its text, at the start of a line after the indentation. */
  lemma {:induction false} BracePrints(w: Written, element: Element)
    requires element.Placed? && WellElement(element)
    ensures PutElement(w, element).text == w.text + Padding(w) + BraceText(w.level, element.expression)
    ensures Solid(BraceText(w.level, element.expression))
    decreases element, 0
  {
    var open := Literal(w, Opening(element.expression));
    LiteralAppends(w, Opening(element.expression));
    match element
    case Placed(InlineExpression(Placeable(inner))) =>
      assert WellExpression(element.expression) && WellHead(element.expression.inline);
      ClosedPrints(open, inner, " }}");
      DoubledPrints(w, inner);
    case Placed(e) =>
      ClosedPrints(open, e, if e.Select? then "}" else " }");
      SinglePrints(w, e);
  }

  lemma {:induction false} DoubledPrints(w: Written, inner: Expression)
    requires WellExpression(inner)
    requires Literal(PutExpression(Literal(w, "{{ "), inner), " }}").text
          == w.text + Padding(w) + "{{ " + (BodyText(w.level, inner) + AfterSelect(inner, " }}"))
    ensures var e := InlineExpression(Placeable(inner));
            && WellExpression(e) && Solid(BraceText(w.level, e))
            && PutElement(w, Placed(e)).text == w.text + Padding(w) + BraceText(w.level, e)
  {
    DoubledIs(w, inner);
    CloseGaps(inner, " }}");
    BodyJoins(w.text + Padding(w), "{{ ", BodyText(w.level, inner), Gap(inner) + "}}");
  }

  lemma {:induction false} DoubledIs(w: Written, inner: Expression)
    requires WellExpression(inner)
    ensures var e := InlineExpression(Placeable(inner));
            && WellExpression(e) && BraceText(w.level, e) == "{{ " + (BodyText(w.level, inner) + (Gap(inner) + "}}"))
            && PutElement(w, Placed(e)) == Literal(PutExpression(Literal(w, "{{ "), inner), " }}")
  {
    assert WellHead(Placeable(inner));
  }

  lemma CloseGaps(e: Expression, close: string)
    requires close == " }}" || close == if e.Select? then "}" else " }"
    ensures var end := Gap(e) + (if close == " }}" then "}}" else "}");
            AfterSelect(e, close) == end && Solid(end)
  {
    CloseIs(close);
    assert " " + "}}" == " }}" && " " + "}" == " }" && "" + "}}" == "}}" && "" + "}" == "}";
  }

  lemma {:induction false} SingleIs(w: Written, e: Expression)
    requires WellExpression(e) && !Doubled(e)
    ensures BraceText(w.level, e) == "{ " + (BodyText(w.level, e) + (Gap(e) + "}"))
    ensures PutElement(w, Placed(e)) == Literal(PutExpression(Literal(w, "{ "), e), if e.Select? then "}" else " }")
  {
  }

  lemma {:induction false} SinglePrints(w: Written, e: Expression)
    requires WellExpression(e) && !Doubled(e)
    requires var close := if e.Select? then "}" else " }";
             Literal(PutExpression(Literal(w, "{ "), e), close).text
             == w.text + Padding(w) + "{ " + (BodyText(w.level, e) + AfterSelect(e, close))
    ensures PutElement(w, Placed(e)).text == w.text + Padding(w) + BraceText(w.level, e)
    ensures Solid(BraceText(w.level, e))
  {
    SingleIs(w, e);
    CloseGaps(e, if e.Select? then "}" else " }");
    BodyJoins(w.text + Padding(w), "{ ", BodyText(w.level, e), Gap(e) + "}");
  }

  // Lines

  /** The writer has just ended a line or not, after `before`. */
  predicate Stands(w: Written, before: string, atStart: bool) {
    w.text == before + (if atStart then "\n" else "") && AtLineStart(w.text) == atStart
  }

  function Head(level: nat, atStart: bool): string { if atStart then "\n" + Spaces(4 * level) else "" }

  lemma HeadIs(w: Written, before: string, atStart: bool)
    requires Stands(w, before, atStart)
    ensures w.text + Padding(w) == before + Head(w.level, atStart)
  {
    if atStart {
      Associative(before, "\n", Spaces(4 * w.level));
    } else {
      assert before + "" == before;
    }
  }

  /** A text adds what is visible of it. */
  lemma {:induction false} TextPrints(w: Written, before: string, atStart: bool, value: string)
    requires IsText(value) && Stands(w, before, atStart) && (atStart ==> w.level > 0)
    ensures Stands(PutElement(w, Text(value)), before + Head(w.level, atStart) + Stem(Visible(value, atStart)),
                   AtLineStart(value))
  {
    var start, stem := before + Head(w.level, atStart), Stem(Visible(value, atStart));
    HeadIs(w, before, atStart);
    StemIs(value, atStart);
    Associative(start, stem, if AtLineStart(value) then "\n" else "");
    TextEnds(start, value, atStart);
  }

  /** What is visible of a text ends a line only when the text does. */
  lemma {:induction false} TextEnds(start: string, value: string, atStart: bool)
    requires IsText(value)
    requires atStart ==> start != "" && start[|start| - 1] == ' '
    ensures AtLineStart(start + Visible(value, atStart)) == AtLineStart(value)
  {
    StemIs(value, atStart);
    TrimStartIs(value);
  }

  lemma {:induction false} ElementPrints(w: Written, before: string, atStart: bool, element: Element)
    requires WellElement(element) && Stands(w, before, atStart) && (atStart ==> w.level > 0)
    ensures Stands(PutElement(w, element),
                   before + Head(w.level, atStart) + ElementText(w.level, atStart, element), EndsLine(element))
    decreases element, 1
  {
    match element
    case Text(value) => TextPrints(w, before, atStart, value);
    case Placed(e) =>
      BracePrints(w, element);
      HeadIs(w, before, atStart);
      var text := before + Head(w.level, atStart) + BraceText(w.level, e);
      assert text + "" == text;
  }

  lemma {:induction false} FirstPrints(w: Written, first: Element, more: seq<Element>)
    ensures PutElements(w, [first] + more) == PutElements(PutElement(w, first), more)
    decreases |more|
  {
    if more == [] {
      LastPrints(w, [], first);
      assert [] + [first] == [first] + more;
    } else {
      var front, last := more[..|more| - 1], more[|more| - 1];
      FrontAndLast(more);
      FirstPrints(w, first, front);
      Associative([first], front, [last]);
      LastPrints(w, [first] + front, last);
      LastPrints(PutElement(w, first), front, last);
    }
  }

  lemma {:induction false} LastPrints(w: Written, front: seq<Element>, last: Element)
    ensures PutElements(w, front + [last]) == PutElement(PutElements(w, front), last)
  {
    assert (front + [last])[..|front|] == front;
  }

  /** Elements add their lines. */
  lemma {:induction false} LinesPrint(w: Written, before: string, atStart: bool, elements: seq<Element>)
    requires forall i :: 0 <= i < |elements| ==> WellElement(elements[i])
    requires Stands(w, before, atStart) && (w.level > 0 || (!atStart && OneLine(elements)))
    ensures PutElements(w, elements).text == before + LinesText(w.level, atStart, elements)
    decreases elements
  {
    if elements != [] {
      var first, more := elements[0], elements[1..];
      var text := before + Head(w.level, atStart) + ElementText(w.level, atStart, first);
      assert elements == [first] + more;
      ElementPrints(w, before, atStart, first);
      LinesPrint(PutElement(w, first), text, EndsLine(first), more);
      FirstPrints(w, first, more);
      LinesFrom(w.level, before, atStart, elements);
    }
  }

  lemma {:induction false} LinesFrom(level: nat, before: string, atStart: bool, elements: seq<Element>)
    requires elements != [] && forall i :: 0 <= i < |elements| ==> WellElement(elements[i])
    ensures before + Head(level, atStart) + ElementText(level, atStart, elements[0])
            + LinesText(level, EndsLine(elements[0]), elements[1..])
         == before + LinesText(level, atStart, elements)
  {
    var text, tail := ElementText(level, atStart, elements[0]), LinesText(level, EndsLine(elements[0]), elements[1..]);
    LinesTextIs(level, atStart, elements, "");
    LineTextIs(level, atStart, elements, "");
    assert tail + "" == tail && LinesText(level, atStart, elements) + "" == LinesText(level, atStart, elements);
    LinePieces(before, Head(level, atStart), "\n", Spaces(4 * level), text, tail, atStart);
  }

  lemma LinePieces(before: string, head: string, newline: string, indent: string, text: string, tail: string,
                   atStart: bool)
    requires head == if atStart then newline + indent else ""
    ensures before + head + text + tail
         == before + (if atStart then newline + (indent + (text + tail)) else text + tail)
  {
    Associative(before + head, text, tail);
    Associative(before, head, text + tail);
    Associative(newline, indent, text + tail);
    assert "" + (text + tail) == text + tail;
  }

  // Patterns and variants

  /** A pattern adds its text. */
  lemma {:induction false} PatternPrints(w: Written, pattern: Pattern)
    requires WellPattern(pattern) && !AtLineStart(w.text)
    ensures PutPattern(w, pattern).text == w.text + PatternText(w.level, pattern)
    decreases pattern
  {
    var elements := pattern.elements;
    if StartsOnNewline(elements) {
      LinesPrint(Indented(NextLine(w)), w.text, true, elements);
    } else {
      OnlyOneLine(elements);
      assert w.text + " " + "" == w.text + " ";
      LinesPrint(Literal(w, " "), w.text + " ", false, elements);
      Associative(w.text, " ", LinesText(w.level, false, elements));
    }
  }

  lemma BracketPrints(w: Written, isDefault: bool)
    requires AtLineStart(w.text) && w.level > 0
    ensures PutBracket(w, isDefault).text == w.text + (Margin(w.level, isDefault) + "[")
  {
    var spaces := Spaces(4 * w.level);
    if isDefault {
      assert w.text + spaces == w.text + Spaces(4 * w.level - 1) + " ";
      assert IntoIndent(w, '*').text == w.text + Spaces(4 * w.level - 1) + "*";
      Associative(w.text, Spaces(4 * w.level - 1), "*");
    }
    Associative(w.text, Margin(w.level, isDefault), "[");
  }

  lemma KeyPrints(w: Written, variant: Variant)
    requires AtLineStart(w.text) && w.level > 0 && IsKey(variant.key)
    ensures var keyed := Literal(Literal(PutBracket(w, variant.isDefault), variant.key), "]");
            && keyed.text == w.text + (Margin(w.level, variant.isDefault) + "[" + variant.key + "]")
            && keyed.level == w.level && !AtLineStart(keyed.text)
  {
    var start := Margin(w.level, variant.isDefault) + "[";
    BracketPrints(w, variant.isDefault);
    if IsNumber(variant.key) {
      NumberIsOneLine(variant.key);
    } else {
      IdentifierIsOneLine(variant.key);
    }
    var bracket := PutBracket(w, variant.isDefault);
    Within(bracket, w.text, start, variant.key);
    Within(Literal(bracket, variant.key), w.text, start + variant.key, "]");
  }

  /** A variant adds its text. */
  lemma {:induction false} VariantPrints(w: Written, variant: Variant)
    requires AtLineStart(w.text) && w.level > 0 && IsKey(variant.key) && WellPattern(variant.value)
    ensures PutVariant(w, variant).text == w.text + VariantText(w.level, variant)
    decreases variant
  {
    KeyPrints(w, variant);
    PatternPrints(Literal(Literal(PutBracket(w, variant.isDefault), variant.key), "]"), variant.value);
    Associative(w.text, Margin(w.level, variant.isDefault) + "[" + variant.key + "]",
                PatternText(w.level, variant.value));
  }

  lemma {:induction false} VariantsSnoc(level: nat, front: seq<Variant>, last: Variant)
    requires level > 0 && WellVariants(front) && IsKey(last.key) && WellPattern(last.value)
    ensures VariantsText(level, front + [last]) == VariantsText(level, front) + (VariantText(level, last) + "\n")
  {
    if front == [] {
      assert front + [last] == [last];
    } else {
      VariantsSnoc(level, front[1..], last);
      assert (front + [last])[1..] == front[1..] + [last];
      Associative(VariantText(level, front[0]) + "\n", VariantsText(level, front[1..]),
                  VariantText(level, last) + "\n");
    }
  }

  /** Variants add their texts, a line each. */
  lemma {:induction false} VariantsPrint(w: Written, variants: seq<Variant>)
    requires AtLineStart(w.text) && w.level > 0 && WellVariants(variants)
    ensures PutVariants(w, variants).text == w.text + VariantsText(w.level, variants)
    ensures AtLineStart(PutVariants(w, variants).text)
    decreases variants
  {
    if variants != [] {
      var front, last := variants[..|variants| - 1], variants[|variants| - 1];
      FrontAndLast(variants);
      VariantsPrint(w, front);
      VariantPrints(PutVariants(w, front), last);
      VariantsSnoc(w.level, front, last);
      Associative(w.text + VariantsText(w.level, front), VariantText(w.level, last), "\n");
      Associative(w.text, VariantsText(w.level, front), VariantText(w.level, last) + "\n");
    }
  }

  /** What is printed for a pattern after the `=` or the key it belongs to is read back as that
      pattern, its texts joined, if and only if no line of it, nor of a pattern inside it,
      starts with a space or with what starts a variant or an attribute. */
  lemma {:induction false} PrintedPatternReadsBack(w: Written, pattern: Pattern, rest: string)
    requires WellPattern(pattern) && !AtLineStart(w.text) && StopsPattern(rest)
    ensures w.text <= PutPattern(w, pattern).text
    ensures var r := ReadPattern(SkipInline(PutPattern(w, pattern).text[|w.text|..] + rest));
            && (Fits(pattern) <==> r.Some? && r.value.0 == Joined(pattern))
            && (Fits(pattern) ==> r == Some((Joined(pattern), rest)))
  {
    PatternPrints(w, pattern);
    PatternReads(w.level, pattern, rest);
    assert PutPattern(w, pattern).text[|w.text|..] == PatternText(w.level, pattern);
  }
}
