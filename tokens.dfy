/**
 * Tokens as the scanner hands them to the parser, and the parser's cursor
 * primitives over a token sequence (reading past the end yields an
 * end-of-file sentinel; advancing never moves past the end).
 */
module Tokens {

  /** The token classes of the scanner. */
  datatype TokenType =
    | Keyword
    | Identifier
    | Number
    | String
    | Operator
    | Symbol
    | Boolean
    | EndOfFile
    | Unknown

  /** A lexeme with its class and the line it starts on. */
  datatype Token = Token(tokenType: TokenType, value: string, line: int)

  /** What the cursor sees once it is past the last token. */
  const EofToken: Token := Token(EndOfFile, "EOF", -1)

  /** The token under cursor position `p`. */
  function At(toks: seq<Token>, p: nat): (t: Token)
    ensures p >= |toks| ==> t == EofToken
    ensures p < |toks| ==> t == toks[p]
  {
    if p < |toks| then toks[p] else EofToken
  }

  /** The cursor position after one advance: one step forward, never past the end. */
  function Next(toks: seq<Token>, p: nat): (q: nat)
    requires p <= |toks|
    ensures q <= |toks|
    ensures p < |toks| ==> q == p + 1
    ensures p == |toks| ==> q == p
  {
    if p < |toks| then p + 1 else p
  }
}
