/** The Fluent serializer: a printer over a text writer that knows its indentation. */
module FluentSerializer {
  import opened Common
  import opened FluentSyntax

  // What the writer holds

  /** A variant's bracket: where in the text it is, and the level it was printed at. */
  datatype Bracket = Bracket(at: nat, level: nat, isDefault: bool)

  datatype Written = Written(text: string, level: nat, brackets: seq<Bracket>)

  const EMPTY := Written("", 0, [])

  predicate AtLineStart(text: string) { text != "" && text[|text| - 1] == '\n' }

  function Spaces(n: nat): string { seq(n, _ => ' ') }

  function Padding(w: Written): string { if AtLineStart(w.text) then Spaces(4 * w.level) else "" }

  function TrimStart(item: string): string {
    if item != "" && item[0] == ' ' then TrimStart(item[1..]) else item
  }

  /** write_literal */
  function Literal(w: Written, item: string): Written {
    w.(text := w.text + Padding(w) + if AtLineStart(w.text) then TrimStart(item) else item)
  }

  function NextLine(w: Written): Written { w.(text := w.text + "\n") }

  function Indented(w: Written): Written { w.(level := w.level + 1) }

  function Dedented(w: Written): Written
    requires w.level > 0
  {
    w.(level := w.level - 1)
  }

  /** write_char_into_indent */
  function IntoIndent(w: Written, c: char): Written {
    var padded := w.text + Padding(w);
    w.(text := (if padded == "" then "" else padded[..|padded| - 1]) + [c])
  }

  class TextWriter {
    var buffer: string
    var indentLevel: nat
    ghost var brackets: seq<Bracket>

    ghost function View(): Written reads this { Written(buffer, indentLevel, brackets) }

    constructor ()
      ensures View() == EMPTY
    {
      buffer, indentLevel, brackets := "", 0, [];
    }

    method Indent()
      modifies this
      ensures View() == Indented(old(View()))
    {
      indentLevel := indentLevel + 1;
    }

    method Dedent()
      requires indentLevel > 0
      modifies this
      ensures View() == Dedented(old(View()))
    {
      indentLevel := indentLevel - 1;
    }

    method WriteIndent()
      modifies this`buffer
      ensures buffer == old(buffer) + Spaces(4 * indentLevel)
    {
      for i := 0 to indentLevel
        invariant buffer == old(buffer) + Spaces(4 * i)
      {
        buffer := buffer + "    ";
      }
    }

    method Newline()
      modifies this
      ensures View() == NextLine(old(View()))
    {
      buffer := buffer + "\n";
    }

    method WriteLiteral(item: string)
      modifies this
      ensures View() == Literal(old(View()), item)
    {
      if AtLineStart(buffer) {
        WriteIndent();
        buffer := buffer + TrimStart(item);
      } else {
        buffer := buffer + item;
      }
    }

    method WriteCharIntoIndent(c: char)
      modifies this
      ensures View() == IntoIndent(old(View()), c)
    {
      if AtLineStart(buffer) {
        WriteIndent();
      }
      if buffer != "" {
        buffer := buffer[..|buffer| - 1];
      }
      buffer := buffer + [c];
    }
  }

  // What each node is printed as

  predicate StartsOnNewline(elements: seq<Element>) {
    exists i :: 0 <= i < |elements|
      && match elements[i] case Text(value) => '\n' in value case Placed(expression) => IsSelect(expression)
  }

  function PutPattern(w: Written, pattern: Pattern): (r: Written)
    ensures r.level == w.level
    decreases pattern
  {
    if StartsOnNewline(pattern.elements) then
      Dedented(PutElements(Indented(NextLine(w)), pattern.elements))
    else
      PutElements(Literal(w, " "), pattern.elements)
  }

  function PutElements(w: Written, elements: seq<Element>): (r: Written)
    ensures r.level == w.level
    decreases elements
  {
    if elements == [] then w
    else PutElement(PutElements(w, elements[..|elements| - 1]), elements[|elements| - 1])
  }

  function PutElement(w: Written, element: Element): (r: Written)
    ensures r.level == w.level
    decreases element
  {
    match element
    case Text(value) => Literal(w, value)
    case Placed(InlineExpression(Placeable(inner))) =>
      Literal(PutExpression(Literal(w, "{{ "), inner), " }}")
    case Placed(Select(selector, variants)) =>
      Literal(PutExpression(Literal(w, "{ "), element.expression), "}")
    case Placed(InlineExpression(_)) =>
      Literal(PutExpression(Literal(w, "{ "), element.expression), " }")
  }

  function PutExpression(w: Written, expression: Expression): (r: Written)
    ensures r.level == w.level
    decreases expression
  {
    match expression
    case InlineExpression(inline) => PutInline(w, inline)
    case Select(selector, variants) =>
      Dedented(PutVariants(Indented(NextLine(Literal(PutInline(w, selector), " ->"))), variants))
  }

  function PutVariants(w: Written, variants: seq<Variant>): (r: Written)
    ensures r.level == w.level
    decreases variants
  {
    if variants == [] then w
    else NextLine(PutVariant(PutVariants(w, variants[..|variants| - 1]), variants[|variants| - 1]))
  }

  /** The text up to and with the bracket of a variant. */
  function PutBracket(w: Written, isDefault: bool): (r: Written)
    ensures r.level == w.level
  {
    var marked := if isDefault then IntoIndent(w, '*') else w;
    var start := Literal(marked, "[");
    start.(brackets := start.brackets + [Bracket(|start.text| - 1, w.level, isDefault)])
  }

  function PutVariant(w: Written, variant: Variant): (r: Written)
    ensures r.level == w.level
    decreases variant
  {
    PutPattern(Literal(Literal(PutBracket(w, variant.isDefault), variant.key), "]"), variant.value)
  }

  function PutInline(w: Written, inline: Inline): (r: Written)
    ensures r.level == w.level
    decreases inline
  {
    match inline
    case StringLiteral(value) => Literal(Literal(Literal(w, "\""), value), "\"")
    case NumberLiteral(value) => Literal(w, value)
    case VariableReference(id) => Literal(Literal(w, "$"), id)
    case FunctionReference(id, arguments) => PutArguments(Literal(w, id), arguments)
    case MessageReference(id, attribute) => PutAccessor(Literal(w, id), attribute)
    case TermReference(id, attribute, arguments) =>
      var named := PutAccessor(Literal(Literal(w, "-"), id), attribute);
      if arguments.Some? then PutArguments(named, arguments.value) else named
    case Placeable(expression) => Literal(PutExpression(Literal(w, "{"), expression), "}")
  }

  function PutAccessor(w: Written, attribute: Option<string>): (r: Written)
    ensures r.level == w.level
  {
    if attribute.Some? then Literal(Literal(w, "."), attribute.value) else w
  }

  function PutArguments(w: Written, arguments: CallArguments): (r: Written)
    ensures r.level == w.level
    decreases arguments
  {
    Literal(PutNamed(PutPositional(Literal(w, "("), arguments.positional), arguments.named,
                     arguments.positional != []), ")")
  }

  function PutComma(w: Written, written: bool): (r: Written)
    ensures r.level == w.level
  {
    if written then Literal(w, ", ") else w
  }

  function PutPositional(w: Written, arguments: seq<Inline>): (r: Written)
    ensures r.level == w.level
    decreases arguments
  {
    if arguments == [] then w
    else
      var before := PutPositional(w, arguments[..|arguments| - 1]);
      PutInline(PutComma(before, |arguments| > 1), arguments[|arguments| - 1])
  }

  function PutNamed(w: Written, arguments: seq<NamedArgument>, written: bool): (r: Written)
    ensures r.level == w.level
    decreases arguments
  {
    if arguments == [] then w
    else
      var before := PutNamed(w, arguments[..|arguments| - 1], written);
      var argument := arguments[|arguments| - 1];
      PutInline(Literal(Literal(PutComma(before, written || |arguments| > 1), argument.name), ": "), argument.value)
  }

  function PutAttributes(w: Written, attributes: seq<Attribute>): (r: Written)
    ensures r.level == w.level
  {
    if attributes == [] then w else Dedented(PutEachAttribute(Indented(w), attributes))
  }

  function PutEachAttribute(w: Written, attributes: seq<Attribute>): (r: Written)
    ensures r.level == w.level
  {
    if attributes == [] then w
    else
      var attribute := attributes[|attributes| - 1];
      var before := NextLine(PutEachAttribute(w, attributes[..|attributes| - 1]));
      PutPattern(Literal(Literal(Literal(before, "."), attribute.id), " ="), attribute.value)
  }

  /** char::is_whitespace */
  predicate IsWhitespace(c: char) {
    || '\t' <= c <= '\r' || c == ' ' || c == '\U{85}' || c == '\U{A0}' || c == '\U{1680}'
    || '\U{2000}' <= c <= '\U{200A}' || c == '\U{2028}' || c == '\U{2029}' || c == '\U{202F}'
    || c == '\U{205F}' || c == '\U{3000}'
  }

  predicate IsBlank(line: string) { forall i :: 0 <= i < |line| ==> IsWhitespace(line[i]) }

  function PutLine(w: Written, line: string, prefix: string): (r: Written)
    ensures r.level == w.level
  {
    var before := Literal(w, prefix);
    NextLine(if IsBlank(line) then before else Literal(Literal(before, " "), line))
  }

  function PutComment(w: Written, content: seq<string>, prefix: string): (r: Written)
    ensures r.level == w.level
  {
    if content == [] then w
    else PutLine(PutComment(w, content[..|content| - 1], prefix), content[|content| - 1], prefix)
  }

  function PutOwnComment(w: Written, comment: Option<Comment>): (r: Written)
    ensures r.level == w.level
  {
    if comment.Some? then PutComment(w, comment.value.content, "#") else w
  }

  function PutFreeComment(w: Written, hasEntries: bool, comment: Comment, prefix: string): (r: Written)
    ensures r.level == w.level
  {
    NextLine(PutComment(if hasEntries then NextLine(w) else w, comment.content, prefix))
  }

  function PutMessage(w: Written, message: Message): (r: Written)
    ensures r.level == w.level
  {
    var head := Literal(Literal(PutOwnComment(w, message.comment), message.id), " =");
    var valued := if message.value.Some? then PutPattern(head, message.value.value) else head;
    NextLine(PutAttributes(valued, message.attributes))
  }

  function PutTerm(w: Written, term: Term): (r: Written)
    ensures r.level == w.level
  {
    var head := Literal(Literal(Literal(PutOwnComment(w, term.comment), "-"), term.id), " =");
    NextLine(PutAttributes(PutPattern(head, term.value), term.attributes))
  }

  function PutEntry(w: Written, hasEntries: bool, entry: Entry): (r: Written)
    ensures r.level == w.level
  {
    match entry
    case MessageEntry(message) => PutMessage(w, message)
    case TermEntry(term) => PutTerm(w, term)
    case CommentEntry(comment) => PutFreeComment(w, hasEntries, comment, "#")
    case GroupComment(comment) => PutFreeComment(w, hasEntries, comment, "##")
    case ResourceComment(comment) => PutFreeComment(w, hasEntries, comment, "###")
    case Junk(content) => Literal(w, content)
  }

  predicate Printed(entry: Entry, withJunk: bool) { entry.Junk? ==> withJunk }

  predicate SomePrinted(body: seq<Entry>, withJunk: bool) {
    exists entry :: entry in body && Printed(entry, withJunk)
  }

  function PutBody(body: seq<Entry>, withJunk: bool): (r: Written)
    ensures r.level == 0
  {
    if body == [] then EMPTY
    else
      var before, entry := body[..|body| - 1], body[|body| - 1];
      var w := PutBody(before, withJunk);
      if Printed(entry, withJunk) then PutEntry(w, SomePrinted(before, withJunk), entry) else w
  }

  // The serializer

  class Serializer {
    const writer: TextWriter
    const withJunk: bool
    var hasEntries: bool

    constructor (withJunk: bool)
      ensures fresh(writer) && writer.View() == EMPTY && this.withJunk == withJunk && !hasEntries
    {
      writer := new TextWriter();
      this.withJunk := withJunk;
      hasEntries := false;
    }

    method SerializeResource(resource: Resource)
      requires writer.View() == EMPTY && !hasEntries
      modifies this, writer
      ensures writer.View() == PutBody(resource.body, withJunk)
      ensures hasEntries == SomePrinted(resource.body, withJunk)
    {
      var body := resource.body;
      for i := 0 to |body|
        invariant writer.View() == PutBody(body[..i], withJunk)
        invariant hasEntries == SomePrinted(body[..i], withJunk)
      {
        assert body[..i + 1][..i] == body[..i];
        SerializeEntry(body[i]);
        PrintedSnoc(body, i, withJunk);
      }
      assert body[..|body|] == body;
    }

    method SerializeEntry(entry: Entry)
      modifies this, writer
      ensures writer.View()
           == if Printed(entry, withJunk) then PutEntry(old(writer.View()), old(hasEntries), entry)
              else old(writer.View())
      ensures hasEntries == (old(hasEntries) || Printed(entry, withJunk))
    {
      match entry {
        case MessageEntry(message) => SerializeMessage(message);
        case TermEntry(term) => SerializeTerm(term);
        case CommentEntry(comment) => SerializeFreeComment(comment, "#");
        case GroupComment(comment) => SerializeFreeComment(comment, "##");
        case ResourceComment(comment) => SerializeFreeComment(comment, "###");
        case Junk(content) =>
          if !withJunk {
            return;
          }
          writer.WriteLiteral(content);
      }
      hasEntries := true;
    }

    method SerializeFreeComment(comment: Comment, prefix: string)
      modifies writer
      ensures writer.View() == PutFreeComment(old(writer.View()), hasEntries, comment, prefix)
    {
      if hasEntries {
        writer.Newline();
      }
      SerializeComment(comment, prefix);
      writer.Newline();
    }

    method SerializeComment(comment: Comment, prefix: string)
      modifies writer
      ensures writer.View() == PutComment(old(writer.View()), comment.content, prefix)
    {
      var content := comment.content;
      for i := 0 to |content|
        invariant writer.View() == PutComment(old(writer.View()), content[..i], prefix)
      {
        assert content[..i + 1][..i] == content[..i];
        SerializeLine(content[i], prefix);
      }
      assert content[..|content|] == content;
    }

    method SerializeLine(line: string, prefix: string)
      modifies writer
      ensures writer.View() == PutLine(old(writer.View()), line, prefix)
    {
      writer.WriteLiteral(prefix);
      if !IsBlank(line) {
        writer.WriteLiteral(" ");
        writer.WriteLiteral(line);
      }
      writer.Newline();
    }

    method SerializeMessage(message: Message)
      modifies writer
      ensures writer.View() == PutMessage(old(writer.View()), message)
    {
      if message.comment.Some? {
        SerializeComment(message.comment.value, "#");
      }
      writer.WriteLiteral(message.id);
      writer.WriteLiteral(" =");
      if message.value.Some? {
        SerializePattern(message.value.value);
      }
      SerializeAttributes(message.attributes);
      writer.Newline();
    }

    method SerializeTerm(term: Term)
      modifies writer
      ensures writer.View() == PutTerm(old(writer.View()), term)
    {
      if term.comment.Some? {
        SerializeComment(term.comment.value, "#");
      }
      writer.WriteLiteral("-");
      writer.WriteLiteral(term.id);
      writer.WriteLiteral(" =");
      SerializePattern(term.value);
      SerializeAttributes(term.attributes);
      writer.Newline();
    }

    method SerializePattern(pattern: Pattern)
      modifies writer
      ensures writer.View() == PutPattern(old(writer.View()), pattern)
      decreases pattern
    {
      var elements := pattern.elements;
      var startOnNewline := StartsOnNewline(elements);
      if startOnNewline {
        writer.Newline();
        writer.Indent();
      } else {
        writer.WriteLiteral(" ");
      }
      ghost var start := writer.View();
      for i := 0 to |elements|
        invariant writer.View() == PutElements(start, elements[..i])
      {
        assert elements[..i + 1][..i] == elements[..i];
        SerializeElement(elements[i]);
      }
      assert elements[..|elements|] == elements;
      if startOnNewline {
        writer.Dedent();
      }
    }

    method SerializeAttributes(attributes: seq<Attribute>)
      modifies writer
      ensures writer.View() == PutAttributes(old(writer.View()), attributes)
    {
      if attributes == [] {
        return;
      }
      writer.Indent();
      ghost var start := writer.View();
      for i := 0 to |attributes|
        invariant writer.View() == PutEachAttribute(start, attributes[..i])
      {
        assert attributes[..i + 1][..i] == attributes[..i];
        writer.Newline();
        SerializeAttribute(attributes[i]);
      }
      assert attributes[..|attributes|] == attributes;
      writer.Dedent();
    }

    method SerializeAttribute(attribute: Attribute)
      modifies writer
      ensures writer.View()
           == PutPattern(Literal(Literal(Literal(old(writer.View()), "."), attribute.id), " ="), attribute.value)
    {
      writer.WriteLiteral(".");
      writer.WriteLiteral(attribute.id);
      writer.WriteLiteral(" =");
      SerializePattern(attribute.value);
    }

    method SerializeElement(element: Element)
      modifies writer
      ensures writer.View() == PutElement(old(writer.View()), element)
      decreases element
    {
      match element
      case Text(value) => writer.WriteLiteral(value);
      case Placed(InlineExpression(Placeable(inner))) =>
        writer.WriteLiteral("{{ ");
        SerializeExpression(inner);
        writer.WriteLiteral(" }}");
      case Placed(Select(selector, variants)) =>
        writer.WriteLiteral("{ ");
        SerializeExpression(element.expression);
        writer.WriteLiteral("}");
      case Placed(InlineExpression(_)) =>
        writer.WriteLiteral("{ ");
        SerializeExpression(element.expression);
        writer.WriteLiteral(" }");
    }

    method SerializeExpression(expression: Expression)
      modifies writer
      ensures writer.View() == PutExpression(old(writer.View()), expression)
      decreases expression, 1
    {
      match expression
      case InlineExpression(inline) => SerializeInline(inline);
      case Select(_, _) => SerializeSelect(expression);
    }

    method SerializeSelect(expression: Expression)
      requires expression.Select?
      modifies writer
      ensures writer.View() == PutExpression(old(writer.View()), expression)
      decreases expression, 0
    {
      SerializeInline(expression.selector);
      writer.WriteLiteral(" ->");
      writer.Newline();
      writer.Indent();
      SerializeVariants(expression.variants);
      writer.Dedent();
    }

    method SerializeVariants(variants: seq<Variant>)
      modifies writer
      ensures writer.View() == PutVariants(old(writer.View()), variants)
      decreases variants
    {
      for i := 0 to |variants|
        invariant writer.View() == PutVariants(old(writer.View()), variants[..i])
      {
        assert variants[..i + 1][..i] == variants[..i];
        SerializeVariant(variants[i]);
        writer.Newline();
      }
      assert variants[..|variants|] == variants;
    }

    method SerializeVariant(variant: Variant)
      modifies writer
      ensures writer.View() == PutVariant(old(writer.View()), variant)
      decreases variant
    {
      ghost var level := writer.indentLevel;
      if variant.isDefault {
        writer.WriteCharIntoIndent('*');
      }
      writer.WriteLiteral("[");
      writer.brackets := writer.brackets + [Bracket(|writer.buffer| - 1, level, variant.isDefault)];
      writer.WriteLiteral(variant.key);
      writer.WriteLiteral("]");
      SerializePattern(variant.value);
    }

    method SerializeInline(inline: Inline)
      modifies writer
      ensures writer.View() == PutInline(old(writer.View()), inline)
      decreases inline
    {
      match inline
      case StringLiteral(value) =>
        writer.WriteLiteral("\"");
        writer.WriteLiteral(value);
        writer.WriteLiteral("\"");
      case NumberLiteral(value) =>
        writer.WriteLiteral(value);
      case VariableReference(id) =>
        writer.WriteLiteral("$");
        writer.WriteLiteral(id);
      case FunctionReference(id, arguments) =>
        writer.WriteLiteral(id);
        SerializeArguments(arguments);
      case MessageReference(id, attribute) =>
        writer.WriteLiteral(id);
        SerializeAccessor(attribute);
      case TermReference(id, attribute, arguments) =>
        writer.WriteLiteral("-");
        writer.WriteLiteral(id);
        SerializeAccessor(attribute);
        if arguments.Some? {
          SerializeArguments(arguments.value);
        }
      case Placeable(expression) =>
        writer.WriteLiteral("{");
        SerializeExpression(expression);
        writer.WriteLiteral("}");
    }

    method SerializeAccessor(attribute: Option<string>)
      modifies writer
      ensures writer.View() == PutAccessor(old(writer.View()), attribute)
    {
      if attribute.Some? {
        writer.WriteLiteral(".");
        writer.WriteLiteral(attribute.value);
      }
    }

    method SerializeArguments(arguments: CallArguments)
      modifies writer
      ensures writer.View() == PutArguments(old(writer.View()), arguments)
      decreases arguments
    {
      writer.WriteLiteral("(");
      var argumentWritten := SerializePositional(arguments.positional);
      SerializeNamed(arguments.named, argumentWritten);
      writer.WriteLiteral(")");
    }

    method SerializePositional(positional: seq<Inline>) returns (argumentWritten: bool)
      modifies writer
      ensures writer.View() == PutPositional(old(writer.View()), positional)
      ensures argumentWritten == (positional != [])
      decreases positional
    {
      argumentWritten := false;
      for i := 0 to |positional|
        invariant writer.View() == PutPositional(old(writer.View()), positional[..i])
        invariant argumentWritten == (i > 0)
      {
        assert positional[..i + 1][..i] == positional[..i];
        if argumentWritten {
          writer.WriteLiteral(", ");
        }
        SerializeInline(positional[i]);
        argumentWritten := true;
      }
      assert positional[..|positional|] == positional;
    }

    method SerializeNamed(named: seq<NamedArgument>, before: bool)
      modifies writer
      ensures writer.View() == PutNamed(old(writer.View()), named, before)
      decreases named
    {
      var argumentWritten := before;
      for i := 0 to |named|
        invariant writer.View() == PutNamed(old(writer.View()), named[..i], before)
        invariant argumentWritten == (before || i > 0)
      {
        assert named[..i + 1][..i] == named[..i];
        if argumentWritten {
          writer.WriteLiteral(", ");
        }
        writer.WriteLiteral(named[i].name);
        writer.WriteLiteral(": ");
        SerializeInline(named[i].value);
        argumentWritten := true;
      }
      assert named[..|named|] == named;
    }
  }

  lemma PrintedSnoc(body: seq<Entry>, i: nat, withJunk: bool)
    requires i < |body|
    ensures SomePrinted(body[..i + 1], withJunk) <==> SomePrinted(body[..i], withJunk) || Printed(body[i], withJunk)
  {
    assert body[..i + 1] == body[..i] + [body[i]];
    assert body[i] in body[..i + 1];
  }

  method Serialize(resource: Resource, withJunk: bool) returns (text: string)
    ensures text == PutBody(resource.body, withJunk).text
  {
    var serializer := new Serializer(withJunk);
    serializer.SerializeResource(resource);
    text := serializer.writer.buffer;
    assert serializer.writer.View() == PutBody(resource.body, withJunk);
  }
}
