/**
 The token vocabulary shared by the scanner, the tag-balance driver and the
 writer: the closed set of element kinds, the token types, tokens as index
 ranges over the source text, and the entries of the open-element stack.
 */
module Html {

  /** `HtmlElementType`: None = not tag-shaped, Invalid = tag-shaped but malformed. */
  datatype HtmlElementType = None | Invalid | Other | Script | Style | Pre | P | Ul | Ol | Li | Br | Hr

  datatype TokenType = Text | HtmlEntity | HtmlOpenTag | HtmlCloseTag | HtmlSelfClosingTag | Eof

  /** A token is the range [start, start + length) of the source it was scanned from. */
  datatype Token = Token(tokenType: TokenType, kind: HtmlElementType, level: int, start: int, length: int)

  /** An open-element stack entry: the driver's block depth when the open tag was pushed. */
  datatype TokenInfo = TokenInfo(elementDepth: int, token: Token)

  const EofToken: Token := Token(Eof, None, 0, 0, 0)

  /** `default(Token)`: all fields zero, so a Text token of kind None. */
  const DefaultToken: Token := Token(Text, None, 0, 0, 0)

  predicate IsTagType(t: TokenType) {
    t == HtmlOpenTag || t == HtmlCloseTag || t == HtmlSelfClosingTag
  }

  ghost predicate SpanIn(tok: Token, src: seq<char>) {
    0 <= tok.start && 0 <= tok.length && tok.start + tok.length <= |src|
  }

  function Value(tok: Token, src: seq<char>): (r: seq<char>)
    requires SpanIn(tok, src)
    ensures |r| == tok.length
    ensures forall k :: 0 <= k < tok.length ==> r[k] == src[tok.start + k]
  {
    src[tok.start..tok.start + tok.length]
  }
}
