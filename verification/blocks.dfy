/** The blocks a template is cut into, and the errors rendering reports. */
module Blocks {
  import opened Wrappers
  import opened Symbols

  /** Text is copied verbatim; Variable is `{{$name}}`; Value is a quoted
      literal `{{'text'}}`; Code is a function call `{{plugin.function args}}`. */
  datatype BlockType = Text | Variable | Value | Code

  /** A block as the tokenizer produces it.  For the three delimited kinds the
      content is the trimmed text between `{{` and `}}`. */
  datatype Block = Block(kind: BlockType, content: string)

  /** The kind a delimited block takes from the first character of its
      trimmed content. */
  function KindOf(content: string): BlockType
    requires content != []
  {
    if content[0] == VarPrefix then Variable
    else if IsQuote(content[0]) then Value
    else Code
  }

  /** What rendering can fail with.  A syntax error is found before any
      function runs; the other two are raised while the blocks are rendered. */
  datatype Error =
    | SyntaxError(message: string)
    | FunctionNotFound(pluginName: Option<string>, functionName: string)
    | InvocationFailed(message: string)

  const NamedArgPrefixMessage := "Named argument values need to be prefixed with a quote or $."
  const UnclosedBlockMessage := "Template block is not closed: '}}' is missing."
  const InvalidVariableMessage := "A variable name may only hold letters, digits and '_'."
  const InvalidValueMessage := "A value must be enclosed in matching quotes."
  const InvalidFunctionMessage := "A function name must be 'function' or 'plugin.function', made of letters, digits and '_'."
  const InvalidArgNameMessage := "A named argument needs a name made of letters, digits and '_'."
  const PositionalArgMessage := "Functions support up to one positional argument, given first."
  const EmptyCodeMessage := "A code block needs a function name."
}
