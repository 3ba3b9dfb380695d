/** Reading inline expressions back: a decoder for the InlineExpression productions of the
    Fluent Syntax 1.0 grammar, which undoes the serializer. */
module FluentReading {
  import opened Common
  import opened FluentSyntax
  import opened FluentSerializer

  // Characters

  predicate IsLetter(c: char) { 'a' <= c <= 'z' || 'A' <= c <= 'Z' }

  predicate IsIdentifierChar(c: char) { IsLetter(c) || IsDigit(c) || c == '_' || c == '-' }

  predicate IsHex(c: char) { IsDigit(c) || 'a' <= c <= 'f' || 'A' <= c <= 'F' }

  predicate Starts(s: string, c: char) { s != "" && s[0] == c }

  /** How many characters at the start of s satisfy p. */
  function Span(s: string, p: char -> bool): (n: nat)
    ensures n <= |s|
  {
    if s == "" || !p(s[0]) then 0 else 1 + Span(s[1..], p)
  }

  lemma {:induction false} SpanIs(a: string, b: string, p: char -> bool)
    requires forall i :: 0 <= i < |a| ==> p(a[i])
    requires b == "" || !p(b[0])
    ensures Span(a + b, p) == |a|
  {
    if a == "" {
      assert a + b == b;
    } else {
      assert (a + b)[1..] == a[1..] + b;
      SpanIs(a[1..], b, p);
    }
  }

  // The decoder

  type Read<T> = Option<(T, string)>

  /** blank? */
  function SkipBlank(s: string): (r: string)
    ensures |r| <= |s|
  {
    if Starts(s, ' ') || Starts(s, '\n') then SkipBlank(s[1..])
    else if Starts(s, '\r') && Starts(s[1..], '\n') then SkipBlank(s[2..])
    else s
  }

  /** Identifier */
  function ReadIdentifier(s: string): (r: Read<string>)
    ensures r.Some? ==> |r.value.1| < |s|
  {
    if s == "" || !IsLetter(s[0]) then None
    else
      var n := Span(s, IsIdentifierChar);
      Some((s[..n], s[n..]))
  }

  /** The length of a NumberLiteral at the start of s, or 0. */
  function NumberLength(s: string): (n: nat)
    ensures n <= |s|
  {
    if Starts(s, '-') then
      var n := UnsignedLength(s[1..]);
      if n == 0 then 0 else n + 1
    else UnsignedLength(s)
  }

  function UnsignedLength(s: string): (n: nat)
    ensures n <= |s|
  {
    var n := Span(s, IsDigit);
    if n == 0 || !Starts(s[n..], '.') || Span(s[n + 1..], IsDigit) == 0 then n
    else n + 1 + Span(s[n + 1..], IsDigit)
  }

  predicate AreHex(s: string, from: nat, to: nat)
    requires to <= |s|
  {
    forall i :: from <= i < to ==> IsHex(s[i])
  }

  /** The length of a quoted_char at the start of s, or 0. */
  function QuotedChar(s: string): (n: nat)
    ensures n <= |s|
  {
    if s == "" || s[0] == '"' || s[0] == '\n' || (s[0] == '\r' && Starts(s[1..], '\n')) then 0
    else if s[0] != '\\' then 1
    else if |s| >= 2 && (s[1] == '"' || s[1] == '\\') then 2
    else if |s| >= 6 && s[1] == 'u' && AreHex(s, 2, 6) then 6
    else if |s| >= 8 && s[1] == 'U' && AreHex(s, 2, 8) then 8
    else 0
  }

  /** The rest of a StringLiteral after its opening quote. */
  function ReadQuoted(s: string): (r: Read<string>)
    ensures r.Some? ==> |r.value.1| < |s|
    decreases |s|
  {
    if Starts(s, '"') then Some(("", s[1..]))
    else if QuotedChar(s) == 0 then None
    else
      var r := ReadQuoted(s[QuotedChar(s)..]);
      if r.None? then None else Some((s[..QuotedChar(s)] + r.value.0, r.value.1))
  }

  /** StringLiteral or NumberLiteral */
  function ReadLiteral(s: string): (r: Read<Inline>)
    ensures r.Some? ==> |r.value.1| < |s|
  {
    if Starts(s, '"') then
      var r := ReadQuoted(s[1..]);
      if r.None? then None else Some((StringLiteral(r.value.0), r.value.1))
    else
      var n := NumberLength(s);
      if n == 0 then None else Some((NumberLiteral(s[..n]), s[n..]))
  }

  /** AttributeAccessor? */
  function ReadAccessor(s: string): (r: (Option<string>, string))
    ensures |r.1| <= |s|
  {
    if !Starts(s, '.') then (None, s)
    else
      var id := ReadIdentifier(s[1..]);
      if id.None? then (None, s) else (Some(id.value.0), id.value.1)
  }

  /** InlineExpression, whose alternatives are tried in the order of the grammar. */
  function ReadInline(s: string): (r: Read<Inline>)
    ensures r.Some? ==> |r.value.1| < |s|
    decreases |s|, 0
  {
    var literal := ReadLiteral(s);
    if literal.Some? then literal
    else if s == "" then None
    else if IsLetter(s[0]) then
      var id := ReadIdentifier(s).value;
      var call := ReadArguments(id.1);
      if call.Some? then Some((FunctionReference(id.0, call.value.0), call.value.1))
      else
        var accessor := ReadAccessor(id.1);
        Some((MessageReference(id.0, accessor.0), accessor.1))
    else if s[0] == '-' then
      var id := ReadIdentifier(s[1..]);
      if id.None? then None
      else
        var accessor := ReadAccessor(id.value.1);
        var call := ReadArguments(accessor.1);
        if call.Some? then Some((TermReference(id.value.0, accessor.0, Some(call.value.0)), call.value.1))
        else Some((TermReference(id.value.0, accessor.0, None), accessor.1))
    else if s[0] == '$' then
      var id := ReadIdentifier(s[1..]);
      if id.None? then None else Some((VariableReference(id.value.0), id.value.1))
    else if s[0] == '{' then
      var inner := ReadInline(SkipBlank(s[1..]));
      if inner.None? || !Starts(SkipBlank(inner.value.1), '}') then None
      else Some((Placeable(InlineExpression(inner.value.0)), SkipBlank(inner.value.1)[1..]))
    else None
  }

  /** CallArguments */
  function ReadArguments(s: string): (r: Read<CallArguments>)
    ensures r.Some? ==> |r.value.1| < |s|
    decreases |s|, 0
  {
    var t := SkipBlank(s);
    if Starts(t, '(') then ReadList(SkipBlank(t[1..])) else None
  }

  /** The argument list, and the parenthesis that closes it. */
  function ReadList(s: string): (r: Read<CallArguments>)
    ensures r.Some? ==> |r.value.1| < |s|
    decreases |s|, 1
  {
    if Starts(s, ')') then Some((CallArguments([], []), s[1..]))
    else
      var named := ReadNamed(s);
      if named.Some? then
        var rest := ReadMore(s, named.value.1);
        if rest.None? then None
        else Some((rest.value.0.(named := [named.value.0] + rest.value.0.named), rest.value.1))
      else
        var positional := ReadInline(s);
        if positional.None? then None
        else
          var rest := ReadMore(s, positional.value.1);
          if rest.None? then None
          else Some((rest.value.0.(positional := [positional.value.0] + rest.value.0.positional), rest.value.1))
  }

  /** What follows the first argument of list s. */
  function ReadMore(s: string, after: string): (r: Read<CallArguments>)
    requires |after| < |s|
    ensures r.Some? ==> |r.value.1| < |s|
    decreases |s|, 0
  {
    var t := SkipBlank(after);
    if Starts(t, ',') then ReadList(SkipBlank(t[1..]))
    else if Starts(t, ')') then Some((CallArguments([], []), t[1..]))
    else None
  }

  /** NamedArgument */
  function ReadNamed(s: string): (r: Read<NamedArgument>)
    ensures r.Some? ==> |r.value.1| < |s|
  {
    var id := ReadIdentifier(s);
    if id.None? || !Starts(SkipBlank(id.value.1), ':') then None
    else
      var literal := ReadLiteral(SkipBlank(SkipBlank(id.value.1)[1..]));
      if literal.None? then None
      else Some((NamedArgument(id.value.0, literal.value.0), literal.value.1))
  }

  // Well-formed expressions without selects

  predicate IsIdentifier(id: string) {
    id != "" && IsLetter(id[0]) && forall i :: 0 <= i < |id| ==> IsIdentifierChar(id[i])
  }

  predicate IsAttribute(attribute: Option<string>) { attribute.Some? ==> IsIdentifier(attribute.value) }

  predicate IsNumber(value: string) { value != "" && NumberLength(value) == |value| }

  predicate IsQuoted(value: string)
    decreases |value|
  {
    value == "" || (QuotedChar(value) > 0 && IsQuoted(value[QuotedChar(value)..]))
  }

  predicate WellFormed(e: Inline)
    decreases e
  {
    match e
    case StringLiteral(value) => IsQuoted(value)
    case NumberLiteral(value) => IsNumber(value)
    case VariableReference(id) => IsIdentifier(id)
    case MessageReference(id, attribute) => IsIdentifier(id) && IsAttribute(attribute)
    case FunctionReference(id, arguments) => IsIdentifier(id) && WellFormedArguments(arguments)
    case TermReference(id, attribute, arguments) =>
      && IsIdentifier(id) && IsAttribute(attribute)
      && (arguments.Some? ==> WellFormedArguments(arguments.value))
    case Placeable(InlineExpression(inner)) => WellFormed(inner)
    case Placeable(Select(_, _)) => false
  }

  predicate WellFormedArguments(arguments: CallArguments)
    decreases arguments
  {
    && (forall i :: 0 <= i < |arguments.positional| ==> WellFormed(arguments.positional[i]))
    && (forall i :: 0 <= i < |arguments.named| ==> WellFormedNamed(arguments.named[i]))
  }

  /** A named argument has a literal for its value. */
  predicate WellFormedNamed(argument: NamedArgument) {
    && IsIdentifier(argument.name)
    && match argument.value
       case StringLiteral(value) => IsQuoted(value)
       case NumberLiteral(value) => IsNumber(value)
       case _ => false
  }

  // The text of an expression

  function TextOf(e: Inline): string
    requires WellFormed(e)
    decreases e
  {
    match e
    case StringLiteral(value) => "\"" + value + "\""
    case NumberLiteral(value) => value
    case VariableReference(id) => "$" + id
    case MessageReference(id, attribute) => id + AccessorText(attribute)
    case FunctionReference(id, arguments) => id + ArgumentsText(arguments)
    case TermReference(id, attribute, arguments) =>
      "-" + id + AccessorText(attribute) + if arguments.Some? then ArgumentsText(arguments.value) else ""
    case Placeable(expression) => "{" + TextOf(expression.inline) + "}"
  }

  function AccessorText(attribute: Option<string>): string {
    if attribute.Some? then "." + attribute.value else ""
  }

  function ArgumentsText(arguments: CallArguments): string
    requires WellFormedArguments(arguments)
    decreases arguments
  {
    "(" + ListText(PositionalTexts(arguments.positional) + NamedTexts(arguments.named)) + ")"
  }

  function PositionalTexts(arguments: seq<Inline>): (texts: seq<string>)
    requires forall i :: 0 <= i < |arguments| ==> WellFormed(arguments[i])
    ensures |texts| == |arguments|
    decreases arguments
  {
    if arguments == [] then [] else [TextOf(arguments[0])] + PositionalTexts(arguments[1..])
  }

  function NamedTexts(arguments: seq<NamedArgument>): (texts: seq<string>)
    requires forall i :: 0 <= i < |arguments| ==> WellFormedNamed(arguments[i])
    ensures |texts| == |arguments|
    decreases arguments
  {
    if arguments == [] then [] else [NamedText(arguments[0])] + NamedTexts(arguments[1..])
  }

  function NamedText(argument: NamedArgument): string
    requires WellFormedNamed(argument)
    decreases argument
  {
    argument.name + ": " + TextOf(argument.value)
  }

  function ListText(texts: seq<string>): string {
    if texts == [] then ""
    else if |texts| == 1 then texts[0]
    else texts[0] + ", " + ListText(texts[1..])
  }

  // Reading the text back

  /** What may follow an expression: nothing that could be more of it. */
  predicate Stops(rest: string) {
    && (rest == "" || (!IsIdentifierChar(rest[0]) && rest[0] != '.'))
    && !Starts(SkipBlank(rest), '(')
  }

  lemma {:induction false} SpanStops(s: string, p: char -> bool)
    ensures forall i :: 0 <= i < Span(s, p) ==> p(s[i])
    ensures Span(s, p) < |s| ==> !p(s[Span(s, p)])
  {
    if s != "" && p(s[0]) {
      SpanStops(s[1..], p);
    }
  }

  lemma IdentifierReads(id: string, rest: string)
    requires IsIdentifier(id) && (rest == "" || !IsIdentifierChar(rest[0]))
    ensures ReadIdentifier(id + rest) == Some((id, rest))
  {
    SpanIs(id, rest, IsIdentifierChar);
  }

  lemma UnsignedReads(value: string, rest: string)
    requires value != "" && UnsignedLength(value) == |value|
    requires rest == "" || (!IsDigit(rest[0]) && rest[0] != '.')
    ensures UnsignedLength(value + rest) == |value|
  {
    var n := Span(value, IsDigit);
    SpanStops(value, IsDigit);
    var tail := value[n..] + rest;
    assert value + rest == value[..n] + tail;
    SpanIs(value[..n], tail, IsDigit);
    assert (value + rest)[n..] == tail;
    if n < |value| {
      var fraction := value[n + 1..];
      SpanStops(fraction, IsDigit);
      SpanIs(fraction, rest, IsDigit);
      assert (value + rest)[n + 1..] == fraction + rest;
    }
  }

  lemma NumberReads(value: string, rest: string)
    requires IsNumber(value)
    requires rest == "" || (!IsDigit(rest[0]) && rest[0] != '.')
    ensures NumberLength(value + rest) == |value|
  {
    if value[0] == '-' {
      assert (value + rest)[1..] == value[1..] + rest;
      UnsignedReads(value[1..], rest);
    } else {
      UnsignedReads(value, rest);
    }
  }

  lemma QuotedCharReads(value: string, end: string)
    requires QuotedChar(value) > 0 && Starts(end, '"')
    ensures QuotedChar(value + end) == QuotedChar(value)
  {
    var s := value + end;
    assert forall i :: 0 <= i < |value| ==> s[i] == value[i];
    assert s[|value|] == '"';
    assert |value| > 1 ==> s[1..][0] == value[1..][0];
  }

  lemma QuotedStep(s: string, n: nat, value: string, rest: string)
    requires n == QuotedChar(s) > 0 && ReadQuoted(s[n..]) == Some((value, rest))
    ensures ReadQuoted(s) == Some((s[..n] + value, rest))
  {
  }

  lemma SplitAt(a: string, b: string, n: nat)
    requires n <= |a|
    ensures (a + b)[n..] == a[n..] + b && (a + b)[..n] + a[n..] == a
  {
  }

  lemma {:induction false} QuotedReads(value: string, end: string)
    requires IsQuoted(value) && Starts(end, '"')
    ensures ReadQuoted(value + end) == Some((value, end[1..]))
    decreases |value|
  {
    var s := value + end;
    if value == "" {
      assert s == end;
    } else {
      var n := QuotedChar(value);
      QuotedCharReads(value, end);
      QuotedReads(value[n..], end);
      SplitAt(value, end, n);
      QuotedStep(s, n, value[n..], end[1..]);
    }
  }

  lemma LiteralReads(e: Inline, rest: string)
    requires WellFormed(e) && (e.StringLiteral? || e.NumberLiteral?)
    requires rest == "" || (!IsDigit(rest[0]) && rest[0] != '.')
    ensures ReadLiteral(TextOf(e) + rest) == Some((e, rest))
  {
    var s := TextOf(e) + rest;
    match e
    case StringLiteral(value) =>
      assert s[1..] == value + ("\"" + rest);
      QuotedReads(value, "\"" + rest);
      assert ("\"" + rest)[1..] == rest;
    case NumberLiteral(value) =>
      NumberReads(value, rest);
      assert s[..|value|] == value && s[|value|..] == rest;
      assert !Starts(s, '"');
  }

  /** An expression does not start with a blank, or with a parenthesis. */
  predicate Opens(text: string) {
    text != "" && (text[0] == '"' || text[0] == '-' || text[0] == '$' || text[0] == '{'
                   || IsDigit(text[0]) || IsLetter(text[0]))
  }

  lemma TextOpens(e: Inline)
    requires WellFormed(e)
    ensures Opens(TextOf(e))
  {
  }

  lemma OpensSkips(text: string, rest: string)
    requires Opens(text)
    ensures SkipBlank(text + rest) == text + rest && SkipBlank(" " + text + rest) == text + rest
  {
    assert (" " + text + rest)[1..] == text + rest;
  }

  lemma NotLiteral(s: string)
    requires s != "" && (IsLetter(s[0]) || s[0] == '$' || s[0] == '{'
                         || (s[0] == '-' && |s| > 1 && IsLetter(s[1])))
    ensures ReadLiteral(s).None?
  {
  }

  lemma AccessorReads(attribute: Option<string>, rest: string)
    requires IsAttribute(attribute) && (rest == "" || (!IsIdentifierChar(rest[0]) && rest[0] != '.'))
    ensures ReadAccessor(AccessorText(attribute) + rest) == (attribute, rest)
  {
    var s := AccessorText(attribute) + rest;
    if attribute.Some? {
      assert s[1..] == attribute.value + rest;
      IdentifierReads(attribute.value, rest);
    } else {
      assert s == rest;
    }
  }

  lemma FunctionStep(s: string, id: string, after: string, arguments: CallArguments, rest: string)
    requires ReadIdentifier(s) == Some((id, after)) && ReadArguments(after) == Some((arguments, rest))
    ensures ReadInline(s) == Some((FunctionReference(id, arguments), rest))
  {
    NotLiteral(s);
  }

  lemma MessageStep(s: string, id: string, after: string, attribute: Option<string>, rest: string)
    requires ReadIdentifier(s) == Some((id, after))
    requires ReadArguments(after).None? && ReadAccessor(after) == (attribute, rest)
    ensures ReadInline(s) == Some((MessageReference(id, attribute), rest))
  {
    NotLiteral(s);
  }

  lemma TermStep(s: string, id: string, after: string, attribute: Option<string>, end: string)
    requires Starts(s, '-') && ReadIdentifier(s[1..]) == Some((id, after))
    requires ReadAccessor(after) == (attribute, end)
    ensures ReadInline(s) == match ReadArguments(end)
                             case Some(call) => Some((TermReference(id, attribute, Some(call.0)), call.1))
                             case None => Some((TermReference(id, attribute, None), end))
  {
    NotLiteral(s);
  }

  lemma VariableStep(s: string, id: string, rest: string)
    requires Starts(s, '$') && ReadIdentifier(s[1..]) == Some((id, rest))
    ensures ReadInline(s) == Some((VariableReference(id), rest))
  {
    NotLiteral(s);
  }

  lemma PlaceableStep(s: string, inner: string, e: Inline, close: string, rest: string)
    requires Starts(s, '{') && SkipBlank(s[1..]) == inner && ReadInline(inner) == Some((e, close))
    requires Starts(SkipBlank(close), '}') && SkipBlank(close)[1..] == rest
    ensures ReadInline(s) == Some((Placeable(InlineExpression(e)), rest))
  {
    NotLiteral(s);
  }

  /** Reading the text of an expression gives the expression back, and stops at its end. */
  lemma {:induction false} ReadsBack(e: Inline, rest: string)
    requires WellFormed(e) && Stops(rest)
    ensures ReadInline(TextOf(e) + rest) == Some((e, rest))
    decreases e
  {
    match e
    case StringLiteral(_) => LiteralReads(e, rest);
    case NumberLiteral(_) => LiteralReads(e, rest);
    case VariableReference(id) => VariableReads(id, rest);
    case MessageReference(id, attribute) => ReferenceReads(id, attribute, rest);
    case FunctionReference(id, arguments) =>
      ArgumentsRead(arguments, rest);
      FunctionReads(id, ArgumentsText(arguments), arguments, rest);
    case TermReference(id, attribute, Some(arguments)) =>
      ArgumentsRead(arguments, rest);
      TermReads(id, attribute, Some(arguments), ArgumentsText(arguments), rest);
    case TermReference(id, attribute, None) => TermReads(id, attribute, None, "", rest);
    case Placeable(InlineExpression(inner)) =>
      TextOpens(inner);
      ReadsBack(inner, "}" + rest);
      PlaceableReads(TextOf(inner), inner, rest);
  }

  lemma VariableReads(id: string, rest: string)
    requires IsIdentifier(id) && Stops(rest)
    ensures ReadInline("$" + id + rest) == Some((VariableReference(id), rest))
  {
    Associative("$", id, rest);
    SplitAt("$", id + rest, 1);
    IdentifierReads(id, rest);
    VariableStep("$" + id + rest, id, rest);
  }

  lemma FunctionReads(id: string, text: string, arguments: CallArguments, rest: string)
    requires IsIdentifier(id) && Starts(text, '(') && ReadArguments(text + rest) == Some((arguments, rest))
    ensures ReadInline(id + text + rest) == Some((FunctionReference(id, arguments), rest))
  {
    Associative(id, text, rest);
    IdentifierReads(id, text + rest);
    FunctionStep(id + text + rest, id, text + rest, arguments, rest);
  }

  lemma TermReads(id: string, attribute: Option<string>, arguments: Option<CallArguments>, text: string, rest: string)
    requires IsIdentifier(id) && IsAttribute(attribute)
    requires if arguments.Some? then Starts(text, '(') && ReadArguments(text + rest) == Some((arguments.value, rest))
             else text == "" && Stops(rest)
    ensures ReadInline("-" + id + AccessorText(attribute) + text + rest)
         == Some((TermReference(id, attribute, arguments), rest))
  {
    var end := text + rest;
    var after := AccessorText(attribute) + end;
    Regroup("-", id, AccessorText(attribute), text, rest);
    SplitAt("-", id + after, 1);
    if text == "" {
      assert end == rest;
    }
    AccessorReads(attribute, end);
    IdentifierReads(id, after);
    TermStep("-" + (id + after), id, after, attribute, end);
  }

  lemma Regroup(a: string, b: string, c: string, d: string, e: string)
    ensures a + b + c + d + e == a + (b + (c + (d + e)))
  {
    Associative(a + b + c, d, e);
    Associative(a + b, c, d + e);
    Associative(a, b, c + (d + e));
  }

  lemma PlaceableReads(text: string, e: Inline, rest: string)
    requires Opens(text) && ReadInline(text + ("}" + rest)) == Some((e, "}" + rest))
    ensures ReadInline("{" + text + "}" + rest) == Some((Placeable(InlineExpression(e)), rest))
  {
    var close := "}" + rest;
    Associative("{" + text, "}", rest);
    Associative("{", text, close);
    SplitAt("{", text + close, 1);
    SplitAt("}", rest, 1);
    OpensSkips(text, close);
    PlaceableStep("{" + (text + close), text + close, e, close, rest);
  }

  lemma ReferenceReads(id: string, attribute: Option<string>, rest: string)
    requires IsIdentifier(id) && IsAttribute(attribute) && Stops(rest)
    ensures ReadInline(id + AccessorText(attribute) + rest) == Some((MessageReference(id, attribute), rest))
  {
    var after := AccessorText(attribute) + rest;
    AccessorReads(attribute, rest);
    if attribute.None? {
      assert after == rest;
    }
    NotArguments(attribute, rest);
    Associative(id, AccessorText(attribute), rest);
    IdentifierReads(id, after);
    MessageStep(id + after, id, after, attribute, rest);
  }

  lemma NotArguments(attribute: Option<string>, rest: string)
    requires Stops(rest)
    ensures ReadArguments(AccessorText(attribute) + rest).None?
  {
    if attribute.None? {
      assert AccessorText(attribute) + rest == rest;
    }
  }

  lemma ArgumentsStep(s: string, list: string, arguments: CallArguments, rest: string)
    requires Starts(s, '(') && SkipBlank(s[1..]) == list && ReadList(list) == Some((arguments, rest))
    ensures ReadArguments(s) == Some((arguments, rest))
  {
  }

  lemma Parenthesized(list: string, rest: string)
    requires list == "" || Opens(list)
    ensures var s := "(" + list + ")" + rest;
            Starts(s, '(') && SkipBlank(s[1..]) == list + ")" + rest
  {
    Associative("(" + list, ")", rest);
    Associative("(", list, ")" + rest);
    Associative(list, ")", rest);
    SplitAt("(", list + (")" + rest), 1);
    if list != "" {
      OpensSkips(list, ")" + rest);
    } else {
      assert list + (")" + rest) == ")" + rest;
    }
  }

  lemma {:induction false} ArgumentsRead(arguments: CallArguments, rest: string)
    requires WellFormedArguments(arguments)
    ensures ReadArguments(ArgumentsText(arguments) + rest) == Some((arguments, rest))
    decreases arguments
  {
    var CallArguments(positional, named) := arguments;
    ListReads(positional, named, rest);
    ListOpens(positional, named);
    var list := ListText(PositionalTexts(positional) + NamedTexts(named));
    Parenthesized(list, rest);
    ArgumentsStep("(" + list + ")" + rest, list + ")" + rest, arguments, rest);
  }

  lemma ListOpens(positional: seq<Inline>, named: seq<NamedArgument>)
    requires WellFormedArguments(CallArguments(positional, named))
    ensures var list := ListText(PositionalTexts(positional) + NamedTexts(named));
            if positional == [] && named == [] then list == "" else Opens(list)
  {
    if positional != [] {
      TextOpens(positional[0]);
    }
  }

  /** What follows the first text of a list. */
  function TailText(texts: seq<string>, rest: string): string
    requires texts != []
  {
    if |texts| == 1 then ")" + rest else ", " + ListText(texts[1..]) + ")" + rest
  }

  lemma FirstText(texts: seq<string>, rest: string)
    requires texts != []
    ensures ListText(texts) + ")" + rest == texts[0] + TailText(texts, rest)
    ensures Stops(TailText(texts, rest)) && !Starts(SkipBlank(TailText(texts, rest)), ':')
  {
  }

  lemma PositionalStep(s: string, e: Inline, tail: string, more: CallArguments, rest: string)
    requires !Starts(s, ')') && ReadNamed(s).None? && ReadInline(s) == Some((e, tail))
    requires |tail| < |s| && ReadMore(s, tail) == Some((more, rest))
    ensures ReadList(s) == Some((CallArguments([e] + more.positional, more.named), rest))
  {
  }

  lemma NamedStep(s: string, argument: NamedArgument, tail: string, more: CallArguments, rest: string)
    requires !Starts(s, ')') && ReadNamed(s) == Some((argument, tail))
    requires |tail| < |s| && ReadMore(s, tail) == Some((more, rest))
    ensures ReadList(s) == Some((CallArguments(more.positional, [argument] + more.named), rest))
  {
  }

  lemma {:induction false} ListReads(positional: seq<Inline>, named: seq<NamedArgument>, rest: string)
    requires WellFormedArguments(CallArguments(positional, named))
    ensures ReadList(ListText(PositionalTexts(positional) + NamedTexts(named)) + ")" + rest)
         == Some((CallArguments(positional, named), rest))
    decreases positional, named, 1
  {
    var texts := PositionalTexts(positional) + NamedTexts(named);
    if positional != [] {
      PositionalListReads(positional, named, texts, rest);
    } else if named != [] {
      NamedListReads(positional, named, texts, rest);
    } else {
      assert ListText(texts) + ")" + rest == ")" + rest;
    }
  }

  lemma TextsAfterFirst(positional: seq<Inline>, named: seq<NamedArgument>)
    requires WellFormedArguments(CallArguments(positional, named)) && positional != []
    ensures (PositionalTexts(positional) + NamedTexts(named))[1..]
         == PositionalTexts(positional[1..]) + NamedTexts(named)
  {
  }

  lemma {:induction false} PositionalListReads(positional: seq<Inline>, named: seq<NamedArgument>,
                                               texts: seq<string>, rest: string)
    requires WellFormedArguments(CallArguments(positional, named)) && positional != []
    requires texts == PositionalTexts(positional) + NamedTexts(named)
    ensures ReadList(ListText(texts) + ")" + rest) == Some((CallArguments(positional, named), rest))
    decreases positional, named, 0
  {
    var tail := TailText(texts, rest);
    FirstText(texts, rest);
    ReadsBack(positional[0], tail);
    TextsAfterFirst(positional, named);
    MoreReads(positional[1..], named, texts, rest, texts[0] + tail);
    PositionalReads(positional[0], tail, CallArguments(positional[1..], named), rest);
    assert [positional[0]] + positional[1..] == positional;
  }

  lemma {:induction false} NamedListReads(positional: seq<Inline>, named: seq<NamedArgument>,
                                          texts: seq<string>, rest: string)
    requires WellFormedArguments(CallArguments(positional, named)) && positional == [] && named != []
    requires texts == PositionalTexts(positional) + NamedTexts(named)
    ensures ReadList(ListText(texts) + ")" + rest) == Some((CallArguments(positional, named), rest))
    decreases positional, named, 0
  {
    var tail := TailText(texts, rest);
    FirstText(texts, rest);
    assert texts[1..] == PositionalTexts(positional) + NamedTexts(named[1..]);
    MoreReads(positional, named[1..], texts, rest, texts[0] + tail);
    FirstNamedReads(named[0], tail, CallArguments(positional, named[1..]), rest);
    assert [named[0]] + named[1..] == named;
  }

  lemma PositionalReads(e: Inline, tail: string, more: CallArguments, rest: string)
    requires WellFormed(e) && Stops(tail) && !Starts(SkipBlank(tail), ':')
    requires ReadInline(TextOf(e) + tail) == Some((e, tail))
    requires |tail| < |TextOf(e) + tail| && ReadMore(TextOf(e) + tail, tail) == Some((more, rest))
    ensures ReadList(TextOf(e) + tail) == Some((CallArguments([e] + more.positional, more.named), rest))
  {
    TextOpens(e);
    NotNamed(e, tail);
    PositionalStep(TextOf(e) + tail, e, tail, more, rest);
  }

  lemma FirstNamedReads(argument: NamedArgument, tail: string, more: CallArguments, rest: string)
    requires WellFormedNamed(argument) && Stops(tail)
    requires |tail| < |NamedText(argument) + tail| && ReadMore(NamedText(argument) + tail, tail) == Some((more, rest))
    ensures ReadList(NamedText(argument) + tail)
         == Some((CallArguments(more.positional, [argument] + more.named), rest))
  {
    NamedReads(argument, tail);
    NamedStep(NamedText(argument) + tail, argument, tail, more, rest);
  }

  lemma CommaStep(s: string, after: string, list: string, more: CallArguments, rest: string)
    requires |after| < |s| && Starts(after, ',') && SkipBlank(after[1..]) == list
    requires ReadList(list) == Some((more, rest))
    ensures ReadMore(s, after) == Some((more, rest))
  {
  }

  lemma CloseStep(s: string, after: string)
    requires |after| < |s| && Starts(after, ')')
    ensures ReadMore(s, after) == Some((CallArguments([], []), after[1..]))
  {
  }

  lemma CommaList(list: string, rest: string)
    requires Opens(list)
    ensures var after := ", " + list + ")" + rest;
            Starts(after, ',') && SkipBlank(after[1..]) == list + ")" + rest
  {
    var end := ")" + rest;
    Associative(", " + list, ")", rest);
    Associative(", ", list, end);
    Associative(list, ")", rest);
    assert (", " + (list + end))[1..] == " " + (list + end);
    Associative(" ", list, end);
    OpensSkips(list, end);
  }

  /** The arguments after the first. */
  lemma {:induction false} MoreReads(positional: seq<Inline>, named: seq<NamedArgument>, texts: seq<string>,
                                     rest: string, s: string)
    requires WellFormedArguments(CallArguments(positional, named))
    requires texts != [] && texts[1..] == PositionalTexts(positional) + NamedTexts(named)
    requires |TailText(texts, rest)| < |s|
    ensures ReadMore(s, TailText(texts, rest)) == Some((CallArguments(positional, named), rest))
    decreases positional, named, 2
  {
    if |texts| == 1 {
      SplitAt(")", rest, 1);
      CloseStep(s, ")" + rest);
    } else {
      var list := ListText(texts[1..]);
      ListOpens(positional, named);
      CommaList(list, rest);
      ListReads(positional, named, rest);
      CommaStep(s, TailText(texts, rest), list + ")" + rest, CallArguments(positional, named), rest);
    }
  }

  lemma ColonReads(name: string, value: string, literal: Inline, tail: string)
    requires IsIdentifier(name) && Opens(value) && ReadLiteral(value + tail) == Some((literal, tail))
    ensures ReadNamed(name + ": " + value + tail) == Some((NamedArgument(name, literal), tail))
  {
    var after := ": " + value + tail;
    assert name + ": " + value + tail == name + after;
    IdentifierReads(name, after);
    assert after[1..] == " " + value + tail;
    OpensSkips(value, tail);
  }

  lemma NamedReads(argument: NamedArgument, tail: string)
    requires WellFormedNamed(argument) && Stops(tail)
    ensures ReadNamed(NamedText(argument) + tail) == Some((argument, tail))
  {
    TextOpens(argument.value);
    LiteralReads(argument.value, tail);
    ColonReads(argument.name, TextOf(argument.value), argument.value, tail);
  }

  /** A positional argument is not taken for a named one. */
  lemma NotNamed(e: Inline, tail: string)
    requires WellFormed(e) && Stops(tail) && !Starts(SkipBlank(tail), ':')
    ensures ReadNamed(TextOf(e) + tail).None?
  {
    match e
    case MessageReference(id, attribute) =>
      if attribute.None? {
        WordNotNamed(id, "", tail);
      } else {
        WordNotNamed(id, AccessorText(attribute), tail);
      }
    case FunctionReference(id, arguments) => WordNotNamed(id, ArgumentsText(arguments), tail);
    case _ =>
      TextOpens(e);
      assert !IsLetter(TextOf(e)[0]);
  }

  lemma WordNotNamed(id: string, text: string, tail: string)
    requires IsIdentifier(id) && Stops(tail) && !Starts(SkipBlank(tail), ':')
    requires text == "" || text[0] == '.' || text[0] == '('
    ensures ReadNamed(id + text + tail).None?
  {
    var after := text + tail;
    assert id + text + tail == id + after;
    IdentifierReads(id, after);
    if text == "" {
      assert after == tail;
    }
  }
}
