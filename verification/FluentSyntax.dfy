/** The Fluent syntax tree. */
module FluentSyntax {
  import opened Common

  datatype Resource = Resource(body: seq<Entry>)

  datatype Entry =
    | MessageEntry(message: Message)
    | TermEntry(term: Term)
    | CommentEntry(comment: Comment)
    | GroupComment(comment: Comment)
    | ResourceComment(comment: Comment)
    | Junk(content: string)

  datatype Comment = Comment(content: seq<string>)

  datatype Message = Message(id: string, value: Option<Pattern>, attributes: seq<Attribute>, comment: Option<Comment>)

  datatype Term = Term(id: string, value: Pattern, attributes: seq<Attribute>, comment: Option<Comment>)

  datatype Attribute = Attribute(id: string, value: Pattern)

  datatype Pattern = Pattern(elements: seq<Element>)

  datatype Element = Text(value: string) | Placed(expression: Expression)

  datatype Expression = Select(selector: Inline, variants: seq<Variant>) | InlineExpression(inline: Inline)

  datatype Variant = Variant(key: string, value: Pattern, isDefault: bool)

  datatype Inline =
    | StringLiteral(value: string)
    | NumberLiteral(value: string)
    | FunctionReference(id: string, arguments: CallArguments)
    | MessageReference(id: string, attribute: Option<string>)
    | TermReference(id: string, attribute: Option<string>, termArguments: Option<CallArguments>)
    | VariableReference(id: string)
    | Placeable(expression: Expression)

  datatype CallArguments = CallArguments(positional: seq<Inline>, named: seq<NamedArgument>)

  datatype NamedArgument = NamedArgument(name: string, value: Inline)

  predicate IsSelect(expression: Expression) {
    match expression
    case Select(_, _) => true
    case InlineExpression(Placeable(inner)) => IsSelect(inner)
    case InlineExpression(_) => false
  }
}
