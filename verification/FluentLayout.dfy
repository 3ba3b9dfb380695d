/** The layout of what the serializer prints: text is only ever added, and every variant of
    the tree has its bracket in its own column. */
module FluentLayout {
  import opened Common
  import opened FluentSyntax
  import opened FluentSerializer

  // The variants of a tree, in order, with how deep each one is nested

  datatype Depth = Depth(level: nat, isDefault: bool)

  function OfPattern(pattern: Pattern, level: nat): seq<Depth>
    decreases pattern
  {
    OfElements(pattern.elements, if StartsOnNewline(pattern.elements) then level + 1 else level)
  }

  function OfElements(elements: seq<Element>, level: nat): seq<Depth>
    decreases elements
  {
    if elements == [] then []
    else OfElements(elements[..|elements| - 1], level) + OfElement(elements[|elements| - 1], level)
  }

  function OfElement(element: Element, level: nat): seq<Depth>
    decreases element
  {
    match element
    case Text(_) => []
    case Placed(expression) => OfExpression(expression, level)
  }

  function OfExpression(expression: Expression, level: nat): seq<Depth>
    decreases expression
  {
    match expression
    case InlineExpression(inline) => OfInline(inline, level)
    case Select(selector, variants) => OfInline(selector, level) + OfVariants(variants, level + 1)
  }

  function OfVariants(variants: seq<Variant>, level: nat): seq<Depth>
    decreases variants
  {
    if variants == [] then []
    else OfVariants(variants[..|variants| - 1], level) + OfVariant(variants[|variants| - 1], level)
  }

  function OfVariant(variant: Variant, level: nat): seq<Depth>
    decreases variant
  {
    [Depth(level, variant.isDefault)] + OfPattern(variant.value, level)
  }

  function OfInline(inline: Inline, level: nat): seq<Depth>
    decreases inline
  {
    match inline
    case FunctionReference(_, arguments) => OfArguments(arguments, level)
    case TermReference(_, _, Some(arguments)) => OfArguments(arguments, level)
    case Placeable(expression) => OfExpression(expression, level)
    case _ => []
  }

  function OfArguments(arguments: CallArguments, level: nat): seq<Depth>
    decreases arguments
  {
    OfPositional(arguments.positional, level) + OfNamed(arguments.named, level)
  }

  function OfPositional(arguments: seq<Inline>, level: nat): seq<Depth>
    decreases arguments
  {
    if arguments == [] then []
    else OfPositional(arguments[..|arguments| - 1], level) + OfInline(arguments[|arguments| - 1], level)
  }

  function OfNamed(arguments: seq<NamedArgument>, level: nat): seq<Depth>
    decreases arguments
  {
    if arguments == [] then []
    else OfNamed(arguments[..|arguments| - 1], level) + OfInline(arguments[|arguments| - 1].value, level)
  }

  function OfAttributes(attributes: seq<Attribute>): seq<Depth> {
    if attributes == [] then []
    else OfAttributes(attributes[..|attributes| - 1]) + OfPattern(attributes[|attributes| - 1].value, 1)
  }

  function OfEntry(entry: Entry): seq<Depth> {
    match entry
    case MessageEntry(message) =>
      (if message.value.Some? then OfPattern(message.value.value, 0) else []) + OfAttributes(message.attributes)
    case TermEntry(term) => OfPattern(term.value, 0) + OfAttributes(term.attributes)
    case _ => []
  }

  function OfBody(body: seq<Entry>): seq<Depth> {
    if body == [] then [] else OfBody(body[..|body| - 1]) + OfEntry(body[|body| - 1])
  }

  // What printing adds

  /** The bracket stands after exactly 4 * level characters of its line, which are spaces,
      but for the star that marks a default in place of the last of them. */
  ghost predicate InPlace(text: string, b: Bracket) {
    && b.level > 0 && 4 * b.level < b.at < |text|
    && text[b.at] == '['
    && text[b.at - 1] == (if b.isDefault then '*' else ' ')
    && (forall j :: b.at - 4 * b.level <= j < b.at - 1 ==> text[j] == ' ')
    && text[b.at - 4 * b.level - 1] == '\n'
  }

  ghost predicate Fits(text: string, b: Bracket, depth: Depth) {
    b.level == depth.level && b.isDefault == depth.isDefault && InPlace(text, b)
  }

  /** Going from w to r keeps what was there, and adds these variants, each in its place in the
      new text and after the one before it. */
  ghost predicate Adds(w: Written, r: Written, depths: seq<Depth>) {
    && w.text <= r.text && w.brackets <= r.brackets
    && |r.brackets| == |w.brackets| + |depths|
    && (forall k :: |w.brackets| <= k < |r.brackets| ==> Fits(r.text, r.brackets[k], depths[k - |w.brackets|]))
    && (forall k :: |w.brackets| <= k < |r.brackets| ==> |w.text| <= r.brackets[k].at < |r.text|)
    && (forall j, k :: |w.brackets| <= j < k < |r.brackets| ==> r.brackets[j].at < r.brackets[k].at)
  }

  lemma StillFits(text: string, more: string, b: Bracket, depth: Depth)
    requires text <= more && Fits(text, b, depth)
    ensures Fits(more, b, depth)
  {
  }

  lemma AddsMore(a: Written, b: Written, c: Written, depths: seq<Depth>, more: seq<Depth>)
    requires Adds(a, b, depths) && Adds(b, c, more)
    ensures Adds(a, c, depths + more)
  {
    var all := depths + more;
    forall k | |a.brackets| <= k < |c.brackets|
      ensures Fits(c.text, c.brackets[k], all[k - |a.brackets|])
    {
      if k < |b.brackets| {
        StillFits(b.text, c.text, b.brackets[k], depths[k - |a.brackets|]);
      } else {
        assert all[k - |a.brackets|] == more[k - |b.brackets|];
      }
    }
  }

  lemma LiteralAdds(w: Written, item: string)
    ensures Adds(w, Literal(w, item), [])
  {
  }

  /** What is printed between two literals. */
  lemma BetweenLiterals(w: Written, before: string, r: Written, after: string, depths: seq<Depth>)
    requires Adds(Literal(w, before), r, depths)
    ensures Adds(w, Literal(r, after), depths)
  {
    LiteralAdds(w, before);
    LiteralAdds(r, after);
    AfterPlain(w, Literal(w, before), r, depths);
    ThenPlain(w, r, Literal(r, after), depths);
  }

  /** A step that adds no variant. */
  lemma ThenPlain(a: Written, b: Written, c: Written, depths: seq<Depth>)
    requires Adds(a, b, depths) && Adds(b, c, [])
    ensures Adds(a, c, depths)
  {
    AddsMore(a, b, c, depths, []);
    assert depths + [] == depths;
  }

  lemma AfterPlain(a: Written, b: Written, c: Written, depths: seq<Depth>)
    requires Adds(a, b, []) && Adds(b, c, depths)
    ensures Adds(a, c, depths)
  {
    AddsMore(a, b, c, [], depths);
    assert [] + depths == depths;
  }

  lemma BracketAdds(w: Written, isDefault: bool)
    requires AtLineStart(w.text) && w.level > 0
    ensures Adds(w, PutBracket(w, isDefault), [Depth(w.level, isDefault)])
  {
    var n := |w.text| + 4 * w.level;
    var r := PutBracket(w, isDefault);
    var padded := w.text + Spaces(4 * w.level);
    assert TrimStart("[") == "[";
    if isDefault {
      assert r.text == padded[..n - 1] + ['*'] + "[";
    } else {
      assert r.text == padded + "[";
    }
    assert |r.text| == n + 1;
    assert r.text[..n - 1] == padded[..n - 1];
    assert forall j :: |w.text| <= j < n ==> padded[j] == ' ';
    assert InPlace(r.text, Bracket(n, w.level, isDefault));
  }

  lemma {:induction false} PatternAdds(w: Written, pattern: Pattern)
    ensures Adds(w, PutPattern(w, pattern), OfPattern(pattern, w.level))
    decreases pattern
  {
    ElementsAdd(if StartsOnNewline(pattern.elements) then Indented(NextLine(w)) else Literal(w, " "),
                pattern.elements);
  }

  lemma {:induction false} ElementsAdd(w: Written, elements: seq<Element>)
    ensures Adds(w, PutElements(w, elements), OfElements(elements, w.level))
    decreases elements
  {
    if elements != [] {
      var front, last := elements[..|elements| - 1], elements[|elements| - 1];
      var before := PutElements(w, front);
      ElementsAdd(w, front);
      ElementAdds(before, last);
      AddsMore(w, before, PutElement(before, last), OfElements(front, w.level), OfElement(last, w.level));
    }
  }

  lemma {:induction false} ElementAdds(w: Written, element: Element)
    ensures Adds(w, PutElement(w, element), OfElement(element, w.level))
    decreases element
  {
    match element
    case Text(value) => LiteralAdds(w, value);
    case Placed(InlineExpression(Placeable(inner))) =>
      var depths := OfExpression(inner, w.level);
      assert OfExpression(element.expression, w.level) == OfInline(Placeable(inner), w.level) == depths;
      ExpressionAdds(Literal(w, "{{ "), inner);
      BetweenLiterals(w, "{{ ", PutExpression(Literal(w, "{{ "), inner), " }}", depths);
    case Placed(expression) =>
      var end := if expression.Select? then "}" else " }";
      ExpressionAdds(Literal(w, "{ "), expression);
      BetweenLiterals(w, "{ ", PutExpression(Literal(w, "{ "), expression), end, OfExpression(expression, w.level));
  }

  lemma {:induction false} ExpressionAdds(w: Written, expression: Expression)
    ensures Adds(w, PutExpression(w, expression), OfExpression(expression, w.level))
    decreases expression
  {
    match expression
    case InlineExpression(inline) => InlineAdds(w, inline);
    case Select(selector, variants) =>
      var selected := PutInline(w, selector);
      var start := Indented(NextLine(Literal(selected, " ->")));
      var end := PutVariants(start, variants);
      InlineAdds(w, selector);
      ThenPlain(w, selected, start, OfInline(selector, w.level));
      VariantsAdd(start, variants);
      AddsMore(w, start, end, OfInline(selector, w.level), OfVariants(variants, w.level + 1));
  }

  lemma {:induction false} VariantsAdd(w: Written, variants: seq<Variant>)
    requires AtLineStart(w.text) && w.level > 0
    ensures Adds(w, PutVariants(w, variants), OfVariants(variants, w.level))
    ensures AtLineStart(PutVariants(w, variants).text)
    decreases variants
  {
    if variants != [] {
      var front, last := variants[..|variants| - 1], variants[|variants| - 1];
      var before := PutVariants(w, front);
      VariantsAdd(w, front);
      VariantLineAdds(before, last);
      AddsMore(w, before, NextLine(PutVariant(before, last)), OfVariants(front, w.level), OfVariant(last, w.level));
    }
  }

  lemma NextLineAdds(w: Written)
    ensures Adds(w, NextLine(w), []) && AtLineStart(NextLine(w).text)
  {
  }

  lemma {:induction false} VariantLineAdds(w: Written, variant: Variant)
    requires AtLineStart(w.text) && w.level > 0
    ensures Adds(w, NextLine(PutVariant(w, variant)), OfVariant(variant, w.level))
    ensures AtLineStart(NextLine(PutVariant(w, variant)).text)
    decreases variant, 1
  {
    var r := PutVariant(w, variant);
    VariantAdds(w, variant);
    NextLineAdds(r);
    ThenPlain(w, r, NextLine(r), OfVariant(variant, w.level));
  }

  lemma {:induction false} VariantAdds(w: Written, variant: Variant)
    requires AtLineStart(w.text) && w.level > 0
    ensures Adds(w, PutVariant(w, variant), OfVariant(variant, w.level))
    decreases variant, 0
  {
    var head := PutBracket(w, variant.isDefault);
    var start := Literal(Literal(head, variant.key), "]");
    var depths := [Depth(w.level, variant.isDefault)];
    BracketAdds(w, variant.isDefault);
    ThenPlain(w, head, start, depths);
    PatternAdds(start, variant.value);
    AddsMore(w, start, PutPattern(start, variant.value), depths, OfPattern(variant.value, w.level));
  }

  lemma {:induction false} InlineAdds(w: Written, inline: Inline)
    ensures Adds(w, PutInline(w, inline), OfInline(inline, w.level))
    decreases inline
  {
    match inline
    case FunctionReference(id, arguments) =>
      var start := Literal(w, id);
      LiteralAdds(w, id);
      ArgumentsAdd(start, arguments);
      AfterPlain(w, start, PutArguments(start, arguments), OfArguments(arguments, w.level));
    case TermReference(id, attribute, arguments) =>
      var start := PutAccessor(Literal(Literal(w, "-"), id), attribute);
      DashAdds(w, id, attribute);
      if arguments.Some? {
        ArgumentsAdd(start, arguments.value);
        AfterPlain(w, start, PutArguments(start, arguments.value), OfArguments(arguments.value, w.level));
      }
    case Placeable(expression) =>
      ExpressionAdds(Literal(w, "{"), expression);
      BetweenLiterals(w, "{", PutExpression(Literal(w, "{"), expression), "}", OfExpression(expression, w.level));
    case MessageReference(id, attribute) => ReferenceAdds(w, id, attribute);
    case StringLiteral(value) => BetweenLiterals(w, "\"", Literal(Literal(w, "\""), value), "\"", []);
    case NumberLiteral(value) => LiteralAdds(w, value);
    case VariableReference(id) => AfterPlain(w, Literal(w, "$"), Literal(Literal(w, "$"), id), []);
  }

  lemma DashAdds(w: Written, id: string, attribute: Option<string>)
    ensures Adds(w, PutAccessor(Literal(Literal(w, "-"), id), attribute), [])
  {
    ReferenceAdds(Literal(w, "-"), id, attribute);
    AfterPlain(w, Literal(w, "-"), PutAccessor(Literal(Literal(w, "-"), id), attribute), []);
  }

  lemma ReferenceAdds(w: Written, id: string, attribute: Option<string>)
    ensures Adds(w, PutAccessor(Literal(w, id), attribute), [])
  {
    if attribute.Some? {
      BetweenLiterals(w, id, Literal(Literal(w, id), "."), attribute.value, []);
    }
  }

  lemma {:induction false} ArgumentsAdd(w: Written, arguments: CallArguments)
    ensures Adds(w, PutArguments(w, arguments), OfArguments(arguments, w.level))
    decreases arguments
  {
    var CallArguments(positional, named) := arguments;
    var start := Literal(w, "(");
    var middle := PutPositional(start, positional);
    var end := PutNamed(middle, named, positional != []);
    PositionalAdd(start, positional);
    NamedAdd(middle, named, positional != []);
    AddsMore(start, middle, end, OfPositional(positional, w.level), OfNamed(named, w.level));
    BetweenLiterals(w, "(", end, ")", OfArguments(arguments, w.level));
  }

  lemma {:induction false} PositionalAdd(w: Written, arguments: seq<Inline>)
    ensures Adds(w, PutPositional(w, arguments), OfPositional(arguments, w.level))
    decreases arguments
  {
    if arguments != [] {
      var front, last := arguments[..|arguments| - 1], arguments[|arguments| - 1];
      var before := PutPositional(w, front);
      var start := PutComma(before, |arguments| > 1);
      PositionalAdd(w, front);
      InlineAdds(start, last);
      ThenPlain(w, before, start, OfPositional(front, w.level));
      AddsMore(w, start, PutInline(start, last), OfPositional(front, w.level), OfInline(last, w.level));
    }
  }

  function NamedStart(w: Written, comma: bool, name: string): Written {
    Literal(Literal(PutComma(w, comma), name), ": ")
  }

  lemma NamedStartAdds(w: Written, comma: bool, name: string)
    ensures Adds(w, NamedStart(w, comma, name), [])
  {
    var start := PutComma(w, comma);
    AfterPlain(w, start, Literal(start, name), []);
    ThenPlain(w, Literal(start, name), NamedStart(w, comma, name), []);
    AfterPlain(w, Literal(start, name), NamedStart(w, comma, name), []);
  }

  lemma {:induction false} NamedAdd(w: Written, arguments: seq<NamedArgument>, written: bool)
    ensures Adds(w, PutNamed(w, arguments, written), OfNamed(arguments, w.level))
    decreases arguments
  {
    if arguments != [] {
      var front, last := arguments[..|arguments| - 1], arguments[|arguments| - 1];
      var before := PutNamed(w, front, written);
      var start := NamedStart(before, written || |arguments| > 1, last.name);
      NamedAdd(w, front, written);
      NamedStartAdds(before, written || |arguments| > 1, last.name);
      InlineAdds(start, last.value);
      ThenPlain(w, before, start, OfNamed(front, w.level));
      AddsMore(w, start, PutInline(start, last.value), OfNamed(front, w.level), OfInline(last.value, w.level));
    }
  }

  lemma {:induction false} AttributesAdd(w: Written, attributes: seq<Attribute>)
    requires w.level == 1
    ensures Adds(w, PutEachAttribute(w, attributes), OfAttributes(attributes))
  {
    if attributes != [] {
      var front, last := attributes[..|attributes| - 1], attributes[|attributes| - 1];
      var before := PutEachAttribute(w, front);
      var start := Literal(Literal(Literal(NextLine(before), "."), last.id), " =");
      AttributesAdd(w, front);
      PatternAdds(start, last.value);
      ThenPlain(w, before, start, OfAttributes(front));
      AddsMore(w, start, PutPattern(start, last.value), OfAttributes(front), OfPattern(last.value, 1));
    }
  }

  lemma LineAdds(w: Written, line: string, prefix: string)
    ensures Adds(w, PutLine(w, line, prefix), [])
  {
    var before := Literal(w, prefix);
    LiteralAdds(w, prefix);
    if !IsBlank(line) {
      var spaced := Literal(before, " ");
      BetweenLiterals(w, prefix, spaced, line, []);
      ThenPlain(w, Literal(spaced, line), NextLine(Literal(spaced, line)), []);
    }
  }

  lemma {:induction false} CommentAdds(w: Written, content: seq<string>, prefix: string)
    ensures Adds(w, PutComment(w, content, prefix), [])
  {
    if content != [] {
      var before := PutComment(w, content[..|content| - 1], prefix);
      CommentAdds(w, content[..|content| - 1], prefix);
      LineAdds(before, content[|content| - 1], prefix);
      ThenPlain(w, before, PutComment(w, content, prefix), []);
    }
  }

  /** A value and its attributes, at the outer level. */
  lemma ValueAdds(w: Written, value: Option<Pattern>, attributes: seq<Attribute>)
    requires w.level == 0
    ensures var valued := if value.Some? then PutPattern(w, value.value) else w;
            Adds(w, PutAttributes(valued, attributes),
                 (if value.Some? then OfPattern(value.value, 0) else []) + OfAttributes(attributes))
  {
    var valued := if value.Some? then PutPattern(w, value.value) else w;
    var depths := if value.Some? then OfPattern(value.value, 0) else [];
    if value.Some? {
      PatternAdds(w, value.value);
    }
    AttributesBlockAdds(valued, attributes);
    AddsMore(w, valued, PutAttributes(valued, attributes), depths, OfAttributes(attributes));
  }

  lemma AttributesBlockAdds(w: Written, attributes: seq<Attribute>)
    requires w.level == 0
    ensures Adds(w, PutAttributes(w, attributes), OfAttributes(attributes))
  {
    if attributes != [] {
      AttributesAdd(Indented(w), attributes);
      LevelsDoNotMatter(w, PutEachAttribute(Indented(w), attributes), OfAttributes(attributes));
    }
  }

  lemma LevelsDoNotMatter(w: Written, r: Written, depths: seq<Depth>)
    requires Adds(Indented(w), r, depths) && r.level > 0
    ensures Adds(w, Dedented(r), depths)
  {
  }

  lemma OwnCommentAdds(w: Written, comment: Option<Comment>)
    ensures Adds(w, PutOwnComment(w, comment), [])
  {
    if comment.Some? {
      CommentAdds(w, comment.value.content, "#");
    }
  }

  lemma MessageAdds(w: Written, message: Message)
    requires w.level == 0
    ensures Adds(w, PutMessage(w, message), OfEntry(MessageEntry(message)))
  {
    var own := PutOwnComment(w, message.comment);
    var head := Literal(Literal(own, message.id), " =");
    var depths := OfEntry(MessageEntry(message));
    OwnCommentAdds(w, message.comment);
    ThenPlain(w, own, head, []);
    ValueAdds(head, message.value, message.attributes);
    var valued := if message.value.Some? then PutPattern(head, message.value.value) else head;
    var end := PutAttributes(valued, message.attributes);
    AfterPlain(w, head, end, depths);
    ThenPlain(w, end, NextLine(end), depths);
  }

  lemma TermAdds(w: Written, term: Term)
    requires w.level == 0
    ensures Adds(w, PutTerm(w, term), OfEntry(TermEntry(term)))
  {
    var own := PutOwnComment(w, term.comment);
    var dash := Literal(own, "-");
    var head := Literal(Literal(dash, term.id), " =");
    var depths := OfEntry(TermEntry(term));
    OwnCommentAdds(w, term.comment);
    ThenPlain(w, own, dash, []);
    ThenPlain(w, dash, head, []);
    ValueAdds(head, Some(term.value), term.attributes);
    var end := PutAttributes(PutPattern(head, term.value), term.attributes);
    AfterPlain(w, head, end, depths);
    ThenPlain(w, end, NextLine(end), depths);
  }

  lemma EntryAdds(w: Written, hasEntries: bool, entry: Entry)
    requires w.level == 0
    ensures Adds(w, PutEntry(w, hasEntries, entry), OfEntry(entry))
  {
    match entry
    case MessageEntry(message) => MessageAdds(w, message);
    case TermEntry(term) => TermAdds(w, term);
    case CommentEntry(comment) => FreeCommentAdds(w, hasEntries, comment, "#");
    case GroupComment(comment) => FreeCommentAdds(w, hasEntries, comment, "##");
    case ResourceComment(comment) => FreeCommentAdds(w, hasEntries, comment, "###");
    case Junk(content) => LiteralAdds(w, content);
  }

  lemma FreeCommentAdds(w: Written, hasEntries: bool, comment: Comment, prefix: string)
    ensures Adds(w, PutFreeComment(w, hasEntries, comment, prefix), [])
  {
    var start := if hasEntries then NextLine(w) else w;
    CommentAdds(start, comment.content, prefix);
    AfterPlain(w, start, PutFreeComment(w, hasEntries, comment, prefix), []);
  }

  /** Every variant of the resource is printed once, in order, with its bracket in the
      column of its depth, and the serializer ends at the level it began at. */
  lemma VariantsLineUp(body: seq<Entry>, withJunk: bool)
    ensures var w := PutBody(body, withJunk);
            && w.level == 0 && |w.brackets| == |OfBody(body)|
            && (forall k :: 0 <= k < |w.brackets| ==> Fits(w.text, w.brackets[k], OfBody(body)[k]))
            && (forall j, k :: 0 <= j < k < |w.brackets| ==> w.brackets[j].at < w.brackets[k].at)
  {
    BodyAdds(body, withJunk);
  }

  lemma {:induction false} BodyAdds(body: seq<Entry>, withJunk: bool)
    ensures Adds(EMPTY, PutBody(body, withJunk), OfBody(body))
  {
    if body != [] {
      var front, last := body[..|body| - 1], body[|body| - 1];
      var before := PutBody(front, withJunk);
      var hasEntries := SomePrinted(front, withJunk);
      BodyAdds(front, withJunk);
      if Printed(last, withJunk) {
        EntryAdds(before, hasEntries, last);
        AddsMore(EMPTY, before, PutEntry(before, hasEntries, last), OfBody(front), OfEntry(last));
      } else {
        ThenPlain(EMPTY, before, before, OfBody(front));
        assert OfBody(front) + [] == OfBody(front);
      }
    }
  }
}
