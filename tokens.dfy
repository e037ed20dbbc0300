/**
 * Tokens as the scanner produces them and the parser consumes them: a record
 * with a `type` string and a `value` string.
 */
module Tokens {
  datatype Token = Token(kind: string, value: string)

  const KEYWORD := "KEYWORD"
  const IDENTIFIER := "IDENTIFIER"
  const OPERATOR := "OPERATOR"
  const PUNCTUATION := "PUNCTUATION"
  const INTEGER := "INTEGER"
}
