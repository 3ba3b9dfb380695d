/** Patterns and their text: a decoder for the Pattern, inline_placeable and SelectExpression
    productions of the Fluent Syntax 1.0 grammar, with the removal of common indentation, and
    which patterns it can be given back. */
module FluentPatterns {
  import opened Common
  import opened FluentSyntax
  import opened FluentSerializer
  import opened FluentReading

  // The decoder

  /** line_end, unless at the end of the file */
  function LineEnd(s: string): (r: Option<string>)
    ensures r.Some? ==> |r.value| < |s|
  {
    if Starts(s, '\n') then Some(s[1..])
    else if Starts(s, '\r') && Starts(s[1..], '\n') then Some(s[2..])
    else None
  }

  /** blank_inline? */
  function SkipInline(s: string): (r: string)
    ensures |r| <= |s|
  {
    if Starts(s, ' ') then SkipInline(s[1..]) else s
  }

  /** How many text_char are at the start of s. */
  function TextLength(s: string): (n: nat)
    ensures n <= |s|
  {
    if s == "" || s[0] == '{' || s[0] == '}' || LineEnd(s).Some? then 0 else 1 + TextLength(s[1..])
  }

  /** Of the blanks at the start of s, the line ends and the spaces after the last of them, and
      what follows; lines and indent are what was counted before. */
  function Blanks(s: string, lines: nat, indent: nat): (r: (nat, nat, string))
    ensures |r.2| <= |s|
  {
    if Starts(s, ' ') then Blanks(s[1..], lines, indent + 1)
    else if LineEnd(s).Some? then Blanks(LineEnd(s).value, lines + 1, 0)
    else (lines, indent, s)
  }

  predicate MayStartLine(c: char) { c != '[' && c != '*' && c != '.' }

  /** blank_block, with the start of block_text or block_placeable */
  function Block(s: string): (r: Option<(nat, nat, string)>)
    ensures r.Some? ==> |r.value.2| < |s|
  {
    if LineEnd(s).None? then None
    else
      var (lines, indent, t) := Blanks(s, 0, 0);
      if Starts(t, '{') || (indent > 0 && TextLength(t) > 0 && MayStartLine(t[0])) then Some((lines, indent, t))
      else None
  }

  /** VariantKey */
  function ReadKey(s: string): (r: Read<string>)
    ensures r.Some? ==> |r.value.1| < |s|
  {
    if !Starts(s, '[') then None
    else
      var t := SkipBlank(s[1..]);
      var key := if NumberLength(t) > 0 then Some((t[..NumberLength(t)], t[NumberLength(t)..])) else ReadIdentifier(t);
      if key.None? || !Starts(SkipBlank(key.value.1), ']') then None
      else Some((key.value.0, SkipBlank(key.value.1)[1..]))
  }

  /** What a pattern is read as before its indentation is removed. */
  datatype Piece = Words(text: string) | Break(lines: nat, indent: nat) | Brace(expression: Expression)

  /** inline_placeable */
  function ReadPlaced(s: string): (r: Read<Expression>)
    ensures r.Some? ==> |r.value.1| < |s|
    decreases |s|, 0
  {
    if Starts(s, '{') then ReadBody(SkipBlank(s[1..])) else None
  }

  /** What is between the braces, and the closing one. */
  function ReadBody(t: string): (r: Read<Expression>)
    ensures r.Some? ==> |r.value.1| < |t|
    decreases |t|, 2
  {
    var head := ReadHead(t);
    if head.None? then None
    else
      var after := SkipBlank(head.value.1);
      if Starts(after, '}') then Some((InlineExpression(head.value.0), after[1..]))
      else if Starts(after, '-') && Starts(after[1..], '>') then
        var variants := ReadVariants(SkipInline(after[2..]));
        if variants.None? || Defaults(variants.value.0) != 1 || !Starts(SkipBlank(variants.value.1), '}') then None
        else Some((Select(head.value.0, variants.value.0), SkipBlank(variants.value.1)[1..]))
      else None
  }

  /** InlineExpression, or the selector of a SelectExpression */
  function ReadHead(t: string): (r: Read<Inline>)
    ensures r.Some? ==> |r.value.1| < |t|
    decreases |t|, 1
  {
    if !Starts(t, '{') then ReadInline(t)
    else
      var placed := ReadPlaced(t);
      if placed.None? then None else Some((Placeable(placed.value.0), placed.value.1))
  }

  /** PatternElement* */
  function ReadPieces(s: string): (r: Read<seq<Piece>>)
    ensures r.Some? ==> |r.value.1| <= |s|
    decreases |s|, 3
  {
    if Starts(s, '{') then
      var placed := ReadPlaced(s);
      if placed.None? then None else Before(Brace(placed.value.0), ReadPieces(placed.value.1))
    else if TextLength(s) > 0 then
      Before(Words(s[..TextLength(s)]), ReadPieces(s[TextLength(s)..]))
    else
      match Block(s)
      case Some((lines, indent, t)) => Before(Break(lines, indent), ReadPieces(t))
      case None => Some(([], s))
  }

  function Before(piece: Piece, more: Read<seq<Piece>>): Read<seq<Piece>> {
    if more.None? then None else Some(([piece] + more.value.0, more.value.1))
  }

  /** Pattern */
  function ReadPattern(s: string): (r: Read<Pattern>)
    ensures r.Some? ==> |r.value.1| <= |s|
    decreases |s|, 4
  {
    var pieces := ReadPieces(s);
    if pieces.None? then None
    else
      var elements := Assembled(pieces.value.0);
      if elements == [] then None else Some((Pattern(elements), pieces.value.1))
  }

  /** variant_list, in which a variant may be marked as the default */
  function ReadVariants(s: string): (r: Read<seq<Variant>>)
    ensures r.Some? ==> |r.value.1| <= |s|
    decreases |s|, 5
  {
    var line := LineEnd(s);
    if line.None? then None
    else
      var marked := Starts(SkipBlank(line.value), '*');
      var bracket := if marked then SkipBlank(line.value)[1..] else SkipBlank(line.value);
      if !Starts(bracket, '[') then Some(([], line.value))
      else
        var key := ReadKey(bracket);
        if key.None? then None
        else
          var pattern := ReadPattern(SkipInline(key.value.1));
          if pattern.None? then None
          else
            var more := ReadVariants(pattern.value.1);
            if more.None? then None
            else Some(([Variant(key.value.0, pattern.value.0, marked)] + more.value.0, more.value.1))
  }

  function Defaults(variants: seq<Variant>): nat {
    if variants == [] then 0 else (if variants[0].isDefault then 1 else 0) + Defaults(variants[1..])
  }

  // From pieces to elements

  /** Texts that meet are one text. */
  function Prepend(text: string, elements: seq<Element>): seq<Element> {
    if text == "" then elements
    else if elements != [] && elements[0].Text? then [Text(text + elements[0].value)] + elements[1..]
    else [Text(text)] + elements
  }

  function Newlines(n: nat): string { seq(n, _ => '\n') }

  /** The least indentation of any line after a break. */
  function CommonIndent(pieces: seq<Piece>): Option<nat> {
    if pieces == [] then None
    else
      var more := CommonIndent(pieces[1..]);
      if pieces[0].Break? && (more.None? || pieces[0].indent < more.value) then Some(pieces[0].indent) else more
  }

  function PieceText(piece: Piece, common: nat): string
    requires !piece.Brace?
  {
    match piece
    case Words(text) => text
    case Break(lines, indent) => Newlines(lines) + if indent > common then Spaces(indent - common) else ""
  }

  function Join(pieces: seq<Piece>, common: nat): seq<Element> {
    if pieces == [] then []
    else if pieces[0].Brace? then [Placed(pieces[0].expression)] + Join(pieces[1..], common)
    else Prepend(PieceText(pieces[0], common), Join(pieces[1..], common))
  }

  function TrimNewlines(text: string): string {
    if Starts(text, '\n') then TrimNewlines(text[1..]) else text
  }

  function TrimEnd(text: string): string {
    if text != "" && text[|text| - 1] == ' ' then TrimEnd(text[..|text| - 1]) else text
  }

  /** Line breaks at the start of a pattern are not part of it. */
  function WithoutFirst(elements: seq<Element>): seq<Element> {
    if elements == [] || !elements[0].Text? then elements
    else
      var text := TrimNewlines(elements[0].value);
      (if text == "" then [] else [Text(text)]) + elements[1..]
  }

  /** Nor are spaces at its end. */
  function WithoutLast(elements: seq<Element>): seq<Element> {
    if elements == [] || !elements[|elements| - 1].Text? then elements
    else
      var text := TrimEnd(elements[|elements| - 1].value);
      elements[..|elements| - 1] + if text == "" then [] else [Text(text)]
  }

  function Assembled(pieces: seq<Piece>): seq<Element> {
    var common := CommonIndent(pieces);
    WithoutLast(WithoutFirst(Join(pieces, if common.None? then 0 else common.value)))
  }

  // Patterns as a parser leaves them

  /** A line of text, or a part of one. */
  predicate IsText(value: string) {
    && value != "" && (forall i :: 0 <= i < |value| ==> value[i] !in "{}\r")
    && forall i :: 0 <= i < |value| - 1 ==> value[i] != '\n'
  }

  predicate IsKey(key: string) { IsIdentifier(key) || IsNumber(key) }

  predicate WellHead(inline: Inline)
    decreases inline
  {
    match inline
    case Placeable(expression) => WellExpression(expression)
    case _ => WellFormed(inline)
  }

  predicate WellExpression(expression: Expression)
    decreases expression
  {
    match expression
    case InlineExpression(inline) => WellHead(inline)
    case Select(selector, variants) =>
      WellHead(selector) && Defaults(variants) == 1 && WellVariants(variants)
  }

  predicate WellVariants(variants: seq<Variant>)
    decreases variants
  {
    forall i :: 0 <= i < |variants| ==> IsKey(variants[i].key) && WellPattern(variants[i].value)
  }

  predicate WellElement(element: Element)
    decreases element
  {
    match element
    case Text(value) => IsText(value)
    case Placed(expression) => WellExpression(expression)
  }

  predicate WellPattern(pattern: Pattern)
    decreases pattern
  {
    && pattern.elements != []
    && (forall i :: 0 <= i < |pattern.elements| ==> WellElement(pattern.elements[i]))
    && TextsApart(pattern.elements) && StartsWell(pattern.elements) && EndsWell(pattern.elements)
  }

  predicate EndsLine(element: Element) { element.Text? && AtLineStart(element.value) }

  /** Texts meet only where a line ends. */
  predicate TextsApart(elements: seq<Element>) {
    forall i :: 0 < i < |elements| && elements[i - 1].Text? && elements[i].Text? ==>
      EndsLine(elements[i - 1]) || elements[i].value == "\n"
  }

  /** The first line is not blank, and does not start with a space when it is the only one. */
  predicate StartsWell(elements: seq<Element>)
    requires elements != []
  {
    elements[0].Text? ==>
      && (if TrimStart(elements[0].value) == "" then |elements| > 1 && elements[1].Placed?
          else TrimStart(elements[0].value)[0] != '\n')
      && (!StartsOnNewline(elements) ==> !Starts(elements[0].value, ' '))
  }

  /** The last text does not end with a blank. */
  predicate EndsWell(elements: seq<Element>) {
    elements != [] && elements[|elements| - 1].Text? ==> Ends(elements[|elements| - 1].value)
  }

  predicate Ends(text: string) { text != "" && text[|text| - 1] != ' ' && text[|text| - 1] != '\n' }

  // The text of a pattern, at a level of indentation

  function HeadText(level: nat, inline: Inline): string
    requires WellHead(inline)
    decreases inline
  {
    match inline
    case Placeable(expression) => "{" + (BodyText(level, expression) + "}")
    case _ => TextOf(inline)
  }

  /** What is between the braces; after a select the closing brace is indented. */
  function BodyText(level: nat, expression: Expression): string
    requires WellExpression(expression)
    decreases expression, 0
  {
    match expression
    case InlineExpression(inline) => HeadText(level, inline)
    case Select(selector, variants) =>
      HeadText(level, selector) + (" ->" + ("\n" + (VariantsText(level + 1, variants) + Spaces(4 * level))))
  }

  predicate Doubled(expression: Expression) { expression.InlineExpression? && expression.inline.Placeable? }

  /** A placeable of a pattern, whose braces are set apart by spaces. */
  function BraceText(level: nat, expression: Expression): string
    requires WellExpression(expression)
    decreases expression, 1
  {
    if Doubled(expression) then
      assert WellHead(expression.inline);
      var inner := expression.inline.expression;
      "{{ " + (BodyText(level, inner) + (Gap(inner) + "}}"))
    else "{ " + (BodyText(level, expression) + (Gap(expression) + "}"))
  }

  function Gap(expression: Expression): string { if expression.Select? then "" else " " }

  /** A text without the line break it may end with. */
  function Stem(text: string): string { if AtLineStart(text) then text[..|text| - 1] else text }

  /** What is printed of a text. */
  function Visible(value: string, atStart: bool): string { if atStart then TrimStart(value) else value }

  function ElementText(level: nat, atStart: bool, element: Element): string
    requires WellElement(element)
    decreases element
  {
    match element
    case Text(value) => Stem(Visible(value, atStart))
    case Placed(expression) => BraceText(level, expression)
  }

  /** The line break before the elements, if they start a line, and the elements. */
  function LinesText(level: nat, atStart: bool, elements: seq<Element>): string
    requires forall i :: 0 <= i < |elements| ==> WellElement(elements[i])
    decreases elements, 1
  {
    if elements == [] then if atStart then "\n" else ""
    else if atStart then "\n" + (Spaces(4 * level) + LineText(level, atStart, elements))
    else LineText(level, atStart, elements)
  }

  function LineText(level: nat, atStart: bool, elements: seq<Element>): string
    requires elements != [] && forall i :: 0 <= i < |elements| ==> WellElement(elements[i])
    decreases elements, 0
  {
    ElementText(level, atStart, elements[0]) + LinesText(level, EndsLine(elements[0]), elements[1..])
  }

  function PatternText(level: nat, pattern: Pattern): string
    requires WellPattern(pattern)
    decreases pattern
  {
    if StartsOnNewline(pattern.elements) then LinesText(level + 1, true, pattern.elements)
    else " " + LinesText(level, false, pattern.elements)
  }

  /** The indentation of a variant, in which a star takes the place of the last space. */
  function Margin(level: nat, isDefault: bool): string
    requires level > 0
  {
    if isDefault then Spaces(4 * level - 1) + "*" else Spaces(4 * level)
  }

  function VariantText(level: nat, variant: Variant): string
    requires level > 0 && WellPattern(variant.value)
    decreases variant
  {
    Margin(level, variant.isDefault) + "[" + variant.key + "]" + PatternText(level, variant.value)
  }

  function VariantsText(level: nat, variants: seq<Variant>): string
    requires level > 0 && WellVariants(variants)
    decreases variants
  {
    if variants == [] then ""
    else VariantText(level, variants[0]) + "\n" + VariantsText(level, variants[1..])
  }

  // What a pattern is up to the joining of texts

  function JoinedHead(inline: Inline): Inline
    decreases inline
  {
    match inline
    case Placeable(expression) => Placeable(JoinedExpression(expression))
    case _ => inline
  }

  function JoinedExpression(expression: Expression): Expression
    decreases expression
  {
    match expression
    case InlineExpression(inline) => InlineExpression(JoinedHead(inline))
    case Select(selector, variants) => Select(JoinedHead(selector), JoinedVariants(variants))
  }

  function JoinedVariants(variants: seq<Variant>): seq<Variant>
    decreases variants
  {
    if variants == [] then []
    else
      var v := variants[0];
      [Variant(v.key, Joined(v.value), v.isDefault)] + JoinedVariants(variants[1..])
  }

  function JoinedElements(elements: seq<Element>): seq<Element>
    decreases elements
  {
    if elements == [] then []
    else if elements[0].Text? then Prepend(elements[0].value, JoinedElements(elements[1..]))
    else [JoinedElement(elements[0])] + JoinedElements(elements[1..])
  }

  function JoinedElement(element: Element): Element
    decreases element
  {
    match element
    case Text(_) => element
    case Placed(expression) => Placed(JoinedExpression(expression))
  }

  function Joined(pattern: Pattern): Pattern
    decreases pattern
  {
    Pattern(JoinedElements(pattern.elements))
  }

  // The patterns that survive

  /** No line starts with what starts a variant or an attribute. */
  predicate LinesPlain(atStart: bool, elements: seq<Element>)
    decreases elements
  {
    elements == []
    || ((atStart ==> MayStart(elements[0])) && LinesPlain(EndsLine(elements[0]), elements[1..]))
  }

  predicate MayStart(element: Element) {
    element.Text? && TrimStart(element.value) != "" ==> MayStartLine(TrimStart(element.value)[0])
  }

  /** No line starts with a space. */
  predicate LinesFlush(atStart: bool, elements: seq<Element>)
    decreases elements
  {
    elements == []
    || ((atStart && elements[0].Text? ==> !Starts(elements[0].value, ' '))
        && LinesFlush(EndsLine(elements[0]), elements[1..]))
  }

  predicate HeadFits(inline: Inline)
    decreases inline
  {
    inline.Placeable? ==> ExpressionFits(inline.expression)
  }

  predicate ExpressionFits(expression: Expression)
    decreases expression
  {
    match expression
    case InlineExpression(inline) => HeadFits(inline)
    case Select(selector, variants) => HeadFits(selector) && VariantsFit(variants)
  }

  predicate VariantsFit(variants: seq<Variant>)
    decreases variants
  {
    forall i :: 0 <= i < |variants| ==> Fits(variants[i].value)
  }

  predicate ElementsFit(elements: seq<Element>)
    decreases elements
  {
    forall i :: 0 <= i < |elements| ==> ElementFits(elements[i])
  }

  predicate ElementFits(element: Element)
    decreases element
  {
    match element
    case Text(_) => true
    case Placed(expression) => ExpressionFits(expression)
  }

  /** No line of the pattern, nor of one inside it, starts with a space or with what starts a
      variant or an attribute. A pattern on the line of its key has none to look at. */
  predicate Fits(pattern: Pattern)
    decreases pattern
  {
    && LinesPlain(StartsOnNewline(pattern.elements), pattern.elements)
    && LinesFlush(StartsOnNewline(pattern.elements), pattern.elements)
    && ElementsFit(pattern.elements)
  }
}
