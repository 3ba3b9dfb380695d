/** What the serializer prints for an inline expression is the expression's text, so it can
    be read back. */
module FluentRoundTrip {
  import opened Common
  import opened FluentSyntax
  import opened FluentSerializer
  import opened FluentReading

  /** The text after the indentation, if a line has just started. */
  function Appended(w: Written, text: string): Written { w.(text := w.text + Padding(w) + text) }

  /** There is text, and the line goes on after it. */
  predicate Solid(text: string) { text != "" && text[|text| - 1] != '\n' }

  lemma LiteralAppends(w: Written, item: string)
    requires AtLineStart(w.text) ==> !Starts(item, ' ')
    ensures Literal(w, item) == Appended(w, item)
  {
  }

  lemma AppendMore(w: Written, text: string, more: string)
    requires Solid(text)
    ensures Literal(Appended(w, text), more) == Appended(w, text + more)
    ensures Appended(Appended(w, text), more) == Appended(w, text + more)
    ensures !AtLineStart(Appended(w, text).text)
  {
    Associative(w.text + Padding(w), text, more);
  }

  function Plain(w: Written, text: string): Written { w.(text := w.text + text) }

  /** Within a line. */
  lemma PlainMore(w: Written, text: string, more: string)
    requires !AtLineStart(w.text) && (text == "" || Solid(text))
    ensures !AtLineStart(Plain(w, text).text)
    ensures Plain(Plain(w, text), more) == Literal(Plain(w, text), more) == Plain(w, text + more)
    ensures Appended(w, text) == Plain(w, text)
  {
    Associative(w.text, text, more);
    if text == "" {
      assert w.text + text == w.text;
    }
  }

  lemma {:induction false} QuotedIsOneLine(value: string)
    requires IsQuoted(value)
    ensures value == "" || Solid(value)
    decreases |value|
  {
    if value != "" {
      QuotedIsOneLine(value[QuotedChar(value)..]);
      LastOfQuotedChar(value);
    }
  }

  lemma LastOfQuotedChar(s: string)
    requires QuotedChar(s) > 0
    ensures s[QuotedChar(s) - 1] != '\n'
  {
    assert !IsHex('\n');
  }

  lemma NumberIsOneLine(value: string)
    requires IsNumber(value)
    ensures Solid(value) && !Starts(value, ' ')
  {
    var digits := if value[0] == '-' then value[1..] else value;
    var n := Span(digits, IsDigit);
    SpanStops(digits, IsDigit);
    if n < |digits| {
      SpanStops(digits[n + 1..], IsDigit);
      assert IsDigit(digits[n + 1..][|digits| - n - 2]);
    } else {
      assert IsDigit(digits[n - 1]);
    }
  }

  lemma IdentifierIsOneLine(id: string)
    requires IsIdentifier(id)
    ensures Solid(id) && !Starts(id, ' ')
  {
    assert IsIdentifierChar(id[|id| - 1]);
  }

  lemma AccessorAppends(w: Written, text: string, attribute: Option<string>)
    requires Solid(text) && IsAttribute(attribute)
    ensures Solid(text + AccessorText(attribute))
    ensures PutAccessor(Appended(w, text), attribute) == Appended(w, text + AccessorText(attribute))
  {
    if attribute.Some? {
      AppendMore(w, text, ".");
      AppendMore(w, text + ".", attribute.value);
      IdentifierIsOneLine(attribute.value);
      assert text + "." + attribute.value == text + AccessorText(attribute);
    } else {
      assert text + AccessorText(attribute) == text;
    }
  }

  /** Printing an expression appends its text, which stays on one line. */
  lemma {:induction false} InlinePrints(w: Written, e: Inline)
    requires WellFormed(e)
    ensures PutInline(w, e) == Appended(w, TextOf(e)) && Solid(TextOf(e))
    decreases e
  {
    match e
    case StringLiteral(value) => StringPrints(w, value);
    case NumberLiteral(value) =>
      NumberIsOneLine(value);
      LiteralAppends(w, value);
    case VariableReference(id) =>
      LiteralAppends(w, "$");
      AppendMore(w, "$", id);
      IdentifierIsOneLine(id);
    case MessageReference(id, attribute) =>
      IdentifierIsOneLine(id);
      LiteralAppends(w, id);
      AccessorAppends(w, id, attribute);
    case FunctionReference(id, arguments) =>
      IdentifierIsOneLine(id);
      LiteralAppends(w, id);
      ArgumentsFollow(w, id, arguments);
    case TermReference(id, attribute, arguments) =>
      IdentifierIsOneLine(id);
      LiteralAppends(w, "-");
      AppendMore(w, "-", id);
      AccessorAppends(w, "-" + id, attribute);
      if arguments.Some? {
        ArgumentsFollow(w, "-" + id + AccessorText(attribute), arguments.value);
      } else {
        assert TextOf(e) == "-" + id + AccessorText(attribute);
      }
    case Placeable(InlineExpression(inner)) =>
      LiteralAppends(w, "{");
      InlinePrints(Appended(w, "{"), inner);
      AppendMore(w, "{", TextOf(inner));
      AppendMore(w, "{" + TextOf(inner), "}");
  }

  lemma StringPrints(w: Written, value: string)
    requires IsQuoted(value)
    ensures PutInline(w, StringLiteral(value)) == Appended(w, "\"" + value + "\"")
    ensures Solid("\"" + value + "\"")
  {
    QuotedIsOneLine(value);
    LiteralAppends(w, "\"");
    AppendMore(w, "\"", value);
    AppendMore(w, "\"" + value, "\"");
  }

  /** Text that follows within the line. */
  lemma Follow(w: Written, text: string, more: string)
    requires Solid(text) && Solid(more)
    ensures Plain(Appended(w, text), more) == Appended(w, text + more)
    ensures !AtLineStart(Appended(w, text).text) && Solid(text + more)
  {
    AppendMore(w, text, more);
    PlainMore(Appended(w, text), "", more);
  }

  lemma {:induction false} ArgumentsFollow(w: Written, text: string, arguments: CallArguments)
    requires Solid(text) && WellFormedArguments(arguments)
    ensures PutArguments(Appended(w, text), arguments) == Appended(w, text + ArgumentsText(arguments))
    ensures Solid(text + ArgumentsText(arguments))
    decreases arguments
  {
    Follow(w, text, ArgumentsText(arguments));
    ArgumentsPrint(Appended(w, text), arguments);
  }

  lemma Parentheses(w: Written, first: string, more: string)
    requires !AtLineStart(w.text) && (first == "" || Solid(first)) && (more == "" || Solid(more))
    ensures var open := Plain(w, "(");
            && Literal(w, "(") == open && !AtLineStart(open.text) && !AtLineStart(Plain(open, first).text)
            && Literal(Plain(Plain(open, first), more), ")") == Plain(w, "(" + (first + more) + ")")
  {
    var open := Plain(w, "(");
    PlainMore(w, "", "(");
    PlainMore(w, "(", first);
    PlainMore(open, first, more);
    PlainMore(open, first + more, ")");
    PlainMore(w, "(", first + more);
    PlainMore(w, "(" + (first + more), ")");
  }

  function NamedPart(arguments: seq<NamedArgument>, written: bool): string
    requires forall i :: 0 <= i < |arguments| ==> WellFormedNamed(arguments[i])
  {
    (if written && arguments != [] then ", " else "") + ListText(NamedTexts(arguments))
  }

  lemma TextOfParts(arguments: CallArguments)
    requires WellFormedArguments(arguments)
    ensures ArgumentsText(arguments)
         == "(" + (ListText(PositionalTexts(arguments.positional))
                   + NamedPart(arguments.named, arguments.positional != [])) + ")"
  {
    var first := ListText(PositionalTexts(arguments.positional));
    var second := ListText(NamedTexts(arguments.named));
    var comma := if arguments.positional != [] && arguments.named != [] then ", " else "";
    ListTextAppend(PositionalTexts(arguments.positional), NamedTexts(arguments.named));
    assert first + (comma + second) == first + comma + second;
  }

  lemma {:induction false} ArgumentsPrint(w: Written, arguments: CallArguments)
    requires !AtLineStart(w.text) && WellFormedArguments(arguments)
    ensures PutArguments(w, arguments) == Plain(w, ArgumentsText(arguments))
    decreases arguments, 0
  {
    var CallArguments(positional, named) := arguments;
    var open := Plain(w, "(");
    OpenParenthesis(w);
    PositionalPrint(open, positional);
    var first := ListText(PositionalTexts(positional));
    Parentheses(w, first, "");
    NamedPrint(Plain(open, first), named, positional != []);
    Parentheses(w, first, NamedPart(named, positional != []));
    TextOfParts(arguments);
  }

  lemma OpenParenthesis(w: Written)
    requires !AtLineStart(w.text)
    ensures Literal(w, "(") == Plain(w, "(") && !AtLineStart(Plain(w, "(").text)
  {
    PlainMore(w, "", "(");
  }

  lemma {:induction false} ListTextAppend(a: seq<string>, b: seq<string>)
    ensures ListText(a + b) == ListText(a) + (if a != [] && b != [] then ", " else "") + ListText(b)
  {
    if a == [] {
      assert a + b == b;
    } else {
      ListTextAppend(a[1..], b);
      assert (a + b)[1..] == a[1..] + b;
      if b == [] {
        assert a + b == a;
      }
    }
  }

  lemma {:induction false} PositionalSnoc(front: seq<Inline>, last: Inline)
    requires WellFormed(last) && forall i :: 0 <= i < |front| ==> WellFormed(front[i])
    ensures PositionalTexts(front + [last]) == PositionalTexts(front) + [TextOf(last)]
  {
    if front != [] {
      PositionalSnoc(front[1..], last);
      assert (front + [last])[1..] == front[1..] + [last];
    } else {
      assert front + [last] == [last];
    }
  }

  lemma {:induction false} NamedSnoc(front: seq<NamedArgument>, last: NamedArgument)
    requires WellFormedNamed(last) && forall i :: 0 <= i < |front| ==> WellFormedNamed(front[i])
    ensures NamedTexts(front + [last]) == NamedTexts(front) + [NamedText(last)]
  {
    if front != [] {
      NamedSnoc(front[1..], last);
      assert (front + [last])[1..] == front[1..] + [last];
    } else {
      assert front + [last] == [last];
    }
  }

  function Mark(comma: bool): string { if comma then ", " else "" }

  lemma MarkText(w: Written, before: string, comma: bool)
    requires !AtLineStart(w.text) && (before == "" || Solid(before))
    ensures PutComma(Plain(w, before), comma) == Plain(w, before + Mark(comma))
    ensures before + Mark(comma) == "" || Solid(before + Mark(comma))
  {
    PlainMore(w, before, Mark(comma));
    if !comma {
      assert before + "" == before;
    }
  }

  lemma NextText(w: Written, before: string, comma: bool, last: string)
    requires !AtLineStart(w.text) && (before == "" || Solid(before)) && Solid(last)
    ensures var marked := before + Mark(comma);
            && PutComma(Plain(w, before), comma) == Plain(w, marked)
            && !AtLineStart(Plain(w, marked).text)
            && Appended(Plain(w, marked), last) == Plain(w, marked + last)
            && Solid(marked + last)
  {
    MarkText(w, before, comma);
    AppendAfter(w, before + Mark(comma), last);
  }

  lemma AppendAfter(w: Written, text: string, last: string)
    requires !AtLineStart(w.text) && (text == "" || Solid(text)) && Solid(last)
    ensures !AtLineStart(Plain(w, text).text)
    ensures Appended(Plain(w, text), last) == Plain(w, text + last) && Solid(text + last)
  {
    PlainMore(w, text, last);
    PlainMore(Plain(w, text), last, "");
  }

  lemma LastText(texts: seq<string>, last: string)
    ensures ListText(texts + [last]) == ListText(texts) + Mark(texts != []) + last
  {
    ListTextAppend(texts, [last]);
  }

  lemma PositionalLast(front: seq<Inline>, last: Inline)
    requires WellFormed(last) && forall i :: 0 <= i < |front| ==> WellFormed(front[i])
    ensures ListText(PositionalTexts(front + [last]))
         == ListText(PositionalTexts(front)) + Mark(front != []) + TextOf(last)
  {
    PositionalSnoc(front, last);
    LastText(PositionalTexts(front), TextOf(last));
  }

  lemma NamedLast(front: seq<NamedArgument>, last: NamedArgument, written: bool)
    requires WellFormedNamed(last) && forall i :: 0 <= i < |front| ==> WellFormedNamed(front[i])
    ensures NamedPart(front + [last], written)
         == NamedPart(front, written) + (Mark(written || front != []) + NamedText(last))
  {
    NamedSnoc(front, last);
    LastText(NamedTexts(front), NamedText(last));
    Pieces(Mark(written && front != []), ListText(NamedTexts(front)), Mark(front != []), NamedText(last));
  }

  lemma FrontAndLast<T>(s: seq<T>)
    requires s != []
    ensures s[..|s| - 1] + [s[|s| - 1]] == s
  {
  }

  lemma PositionalFromFront(arguments: seq<Inline>)
    requires arguments != [] && forall i :: 0 <= i < |arguments| ==> WellFormed(arguments[i])
    ensures ListText(PositionalTexts(arguments))
         == ListText(PositionalTexts(arguments[..|arguments| - 1])) + Mark(|arguments| > 1)
            + TextOf(arguments[|arguments| - 1])
  {
    FrontAndLast(arguments);
    PositionalLast(arguments[..|arguments| - 1], arguments[|arguments| - 1]);
  }

  lemma NamedFromFront(arguments: seq<NamedArgument>, written: bool)
    requires arguments != [] && forall i :: 0 <= i < |arguments| ==> WellFormedNamed(arguments[i])
    ensures NamedPart(arguments, written)
         == NamedPart(arguments[..|arguments| - 1], written)
            + (Mark(written || |arguments| > 1) + NamedText(arguments[|arguments| - 1]))
  {
    FrontAndLast(arguments);
    NamedLast(arguments[..|arguments| - 1], arguments[|arguments| - 1], written);
  }

  lemma Pieces(start: string, list: string, mark: string, last: string)
    ensures start + (list + mark + last) == start + list + (mark + last)
    ensures start == "" && list == "" && mark == "" ==>
              forall t: string :: t + (list + mark + last) == start + list + (t + last)
  {
  }

  lemma {:induction false} PositionalPrint(w: Written, arguments: seq<Inline>)
    requires !AtLineStart(w.text) && forall i :: 0 <= i < |arguments| ==> WellFormed(arguments[i])
    ensures PutPositional(w, arguments) == Plain(w, ListText(PositionalTexts(arguments)))
    ensures arguments != [] ==> Solid(ListText(PositionalTexts(arguments)))
    ensures arguments == [] ==> ListText(PositionalTexts(arguments)) == ""
    decreases arguments
  {
    if arguments == [] {
      PlainMore(w, "", "");
    } else {
      var front, last := arguments[..|arguments| - 1], arguments[|arguments| - 1];
      var before := ListText(PositionalTexts(front));
      PositionalPrint(w, front);
      InlinePrints(Plain(w, before + Mark(front != [])), last);
      NextText(w, before, front != [], TextOf(last));
      PositionalFromFront(arguments);
    }
  }

  lemma {:induction false} NamedPrint(w: Written, arguments: seq<NamedArgument>, written: bool)
    requires !AtLineStart(w.text) && forall i :: 0 <= i < |arguments| ==> WellFormedNamed(arguments[i])
    ensures PutNamed(w, arguments, written) == Plain(w, NamedPart(arguments, written))
    ensures NamedPart(arguments, written) == "" || Solid(NamedPart(arguments, written))
    decreases arguments, 1
  {
    if arguments == [] {
      PlainMore(w, "", "");
    } else {
      var front, last := arguments[..|arguments| - 1], arguments[|arguments| - 1];
      NamedPrint(w, front, written);
      NextNamedPrints(w, NamedPart(front, written), last, written || front != []);
      NamedFromFront(arguments, written);
    }
  }

  lemma {:induction false} NextNamedPrints(w: Written, before: string, last: NamedArgument, comma: bool)
    requires !AtLineStart(w.text) && (before == "" || Solid(before)) && WellFormedNamed(last)
    ensures PutInline(Literal(Literal(PutComma(Plain(w, before), comma), last.name), ": "), last.value)
         == Plain(w, before + (Mark(comma) + NamedText(last)))
    ensures Solid(before + (Mark(comma) + NamedText(last)))
    decreases last, 1
  {
    PlainMore(w, before, Mark(comma) + NamedText(last));
    LastNamedPrints(Plain(w, before), last, comma);
  }

  lemma {:induction false} LastNamedPrints(w: Written, argument: NamedArgument, comma: bool)
    requires !AtLineStart(w.text) && WellFormedNamed(argument)
    ensures PutInline(Literal(Literal(PutComma(w, comma), argument.name), ": "), argument.value)
         == Plain(w, Mark(comma) + NamedText(argument))
    ensures Solid(NamedText(argument))
    decreases argument, 0
  {
    IdentifierIsOneLine(argument.name);
    NamedStart(w, Mark(comma), argument.name);
    InlinePrints(Plain(w, Mark(comma) + argument.name + ": "), argument.value);
    NamedValue(w, Mark(comma), argument.name, TextOf(argument.value));
  }

  lemma NamedStart(w: Written, mark: string, name: string)
    requires !AtLineStart(w.text) && Solid(name) && (mark == "" || Solid(mark))
    ensures Literal(w, mark) == Plain(w, mark) && (mark == "" ==> Plain(w, mark) == w)
    ensures Literal(Literal(Plain(w, mark), name), ": ") == Plain(w, mark + name + ": ")
  {
    PlainMore(w, "", mark);
    PlainMore(w, mark, name);
    PlainMore(w, mark + name, ": ");
  }

  lemma Colon(mark: string, name: string, value: string)
    ensures mark + name + ": " + value == mark + (name + ": " + value)
  {
  }

  lemma NamedValue(w: Written, mark: string, name: string, value: string)
    requires !AtLineStart(w.text) && Solid(value)
    ensures Appended(Plain(w, mark + name + ": "), value) == Plain(w, mark + (name + ": " + value))
    ensures Solid(name + ": " + value)
  {
    PlainMore(w, mark + name + ": ", value);
    PlainMore(Plain(w, mark + name + ": "), value, "");
    Colon(mark, name, value);
  }

  // Reading back what was printed

  /** What is printed for an inline expression is read back as that expression, whatever
      was printed before it and whatever follows that could not be more of it. */
  lemma PrintedInlineReadsBack(w: Written, e: Inline, rest: string)
    requires WellFormed(e) && Stops(rest)
    ensures var start := w.text + Padding(w);
            && start <= PutInline(w, e).text
            && ReadInline(PutInline(w, e).text[|start|..] + rest) == Some((e, rest))
  {
    InlinePrints(w, e);
    ReadsBack(e, rest);
    assert PutInline(w, e).text[|w.text + Padding(w)|..] == TextOf(e);
  }

  /** The text of a placeable of a pattern, whose braces are set apart by spaces. */
  function PlacedText(e: Inline): string
    requires WellFormed(e)
  {
    if e.Placeable? then "{{ " + TextOf(e.expression.inline) + " }}" else "{ " + TextOf(e) + " }"
  }

  lemma PlacedPrints(w: Written, e: Inline)
    requires WellFormed(e)
    ensures PutElement(w, Placed(InlineExpression(e))) == Appended(w, PlacedText(e))
  {
    var inner, open, close := if e.Placeable? then e.expression.inline else e,
      if e.Placeable? then "{{ " else "{ ", if e.Placeable? then " }}" else " }";
    LiteralAppends(w, open);
    InlinePrints(Appended(w, open), inner);
    AppendMore(w, open, TextOf(inner));
    AppendMore(w, open + TextOf(inner), close);
  }

  lemma SpacedBraces(text: string, rest: string)
    requires Opens(text)
    ensures var s := "{ " + text + " }" + rest;
            && Starts(s, '{') && SkipBlank(s) == s && SkipBlank(s[1..]) == text + (" }" + rest)
            && SkipBlank(" }" + rest) == "}" + rest && ("}" + rest)[1..] == rest
  {
    var close := " }" + rest;
    assert close[1..] == "}" + rest;
    Associative("{ " + text, " }", rest);
    Associative("{ ", text, close);
    Associative(" ", text, close);
    assert ("{ " + (text + close))[1..] == " " + (text + close);
    OpensSkips(text, close);
  }

  lemma SpacedReads(e: Inline, rest: string)
    requires WellFormed(e)
    ensures ReadInline("{ " + TextOf(e) + " }" + rest) == Some((Placeable(InlineExpression(e)), rest))
  {
    var close := " }" + rest;
    TextOpens(e);
    SpacedBraces(TextOf(e), rest);
    ReadsBack(e, close);
    PlaceableStep("{ " + TextOf(e) + " }" + rest, TextOf(e) + close, e, close, rest);
  }

  lemma NestedReads(e: Inline, rest: string)
    requires WellFormed(e)
    ensures ReadInline("{{ " + TextOf(e) + " }}" + rest)
         == Some((Placeable(InlineExpression(Placeable(InlineExpression(e)))), rest))
  {
    var close := "}" + rest;
    var inner := "{ " + TextOf(e) + " }" + close;
    TextOpens(e);
    SpacedReads(e, close);
    SpacedBraces(TextOf(e), close);
    Braces(TextOf(e), rest);
    PlaceableStep("{{ " + TextOf(e) + " }}" + rest, inner, Placeable(InlineExpression(e)), close, rest);
  }

  lemma Braces(text: string, rest: string)
    ensures var s := "{{ " + text + " }}" + rest;
            && Starts(s, '{') && s[1..] == "{ " + text + " }" + ("}" + rest)
            && SkipBlank("}" + rest) == "}" + rest && ("}" + rest)[1..] == rest
  {
  }

  /** A placeable of a pattern is read back as a placeable that holds the expression. */
  lemma PrintedPlaceableReadsBack(w: Written, e: Inline, rest: string)
    requires WellFormed(e)
    ensures var start := w.text + Padding(w);
            var text := PutElement(w, Placed(InlineExpression(e))).text;
            && start <= text
            && ReadInline(text[|start|..] + rest) == Some((Placeable(InlineExpression(e)), rest))
  {
    PlacedPrints(w, e);
    var text := PutElement(w, Placed(InlineExpression(e))).text;
    assert text[|w.text + Padding(w)|..] == PlacedText(e);
    if e.Placeable? {
      NestedReads(e.expression.inline, rest);
    } else {
      SpacedReads(e, rest);
    }
  }
}
