/** The output of an HTML tokenizer, as the extractor consumes it: one token
    at a time, each with its type, its tag name and its attributes in the
    order they appear in the markup. How markup bytes become tokens is not
    part of this model. */
module Html {

  /** The token types the tokenizer distinguishes. `ErrorToken` is what it
      yields at the end of the input and on a read error. */
  datatype TokenType =
    | ErrorToken
    | TextToken
    | StartTagToken
    | EndTagToken
    | SelfClosingTagToken
    | CommentToken
    | DoctypeToken

  /** One attribute of a tag, as `namespace`, `key` and (already tokenized) `val`. */
  datatype Attribute = Attribute(namespace: string, key: string, val: string)

  /** A token: for tags, `data` is the tag name and `attr` its attributes. */
  datatype Token = Token(tokenType: TokenType, data: string, attr: seq<Attribute>)

  /** The type of the token the tokenizer yields after `i` tokens of the
      stream `tokens` have been consumed: past the end it is `ErrorToken`. */
  function Next(tokens: seq<Token>, i: nat): TokenType
  {
    if i < |tokens| then tokens[i].tokenType else ErrorToken
  }
}
