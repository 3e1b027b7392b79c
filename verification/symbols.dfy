/** The characters that carry meaning in a prompt template, and the character
    classes the tokenizers test for. */
module Symbols {

  const BlockStarter: char := '{'
  const BlockEnder: char := '}'
  const VarPrefix: char := '$'
  const SglQuote: char := '\''
  const DblQuote: char := '"'
  const EscapeChar: char := '\\'
  const NamedArgSeparator: char := '='
  const PluginSeparator: char := '.'

  /** A quote opens and closes a value literal; both kinds are accepted. */
  predicate IsQuote(c: char) {
    c == SglQuote || c == DblQuote
  }

  /** Inside a value literal a backslash escapes a quote or another backslash. */
  predicate CanBeEscaped(c: char) {
    IsQuote(c) || c == EscapeChar
  }

  /** The separators between the tokens of a code block: space, tab, line feed
      and carriage return. */
  predicate IsBlankSpace(c: char) {
    c == ' ' || c == '\t' || c == '\n' || c == '\r'
  }

  /** .NET's char.IsWhiteSpace: the Unicode space, line and paragraph
      separators plus the control characters U+0009..U+000D and U+0085.  This
      is what string.Trim and string.IsNullOrWhiteSpace strip or test. */
  predicate IsWhiteSpace(c: char) {
    || c == ' '
    || '\t' <= c <= '\r'
    || c == '\U{85}'
    || c == '\U{A0}'
    || c == '\U{1680}'
    || '\U{2000}' <= c <= '\U{200A}'
    || c == '\U{2028}'
    || c == '\U{2029}'
    || c == '\U{202F}'
    || c == '\U{205F}'
    || c == '\U{3000}'
  }

  /** Letters, digits and underscore: the characters of variable, argument,
      plugin and function names. */
  predicate IsNameChar(c: char) {
    ('a' <= c <= 'z') || ('A' <= c <= 'Z') || ('0' <= c <= '9') || c == '_'
  }

  predicate ValidName(s: string) {
    |s| > 0 && forall i :: 0 <= i < |s| ==> IsNameChar(s[i])
  }
}
