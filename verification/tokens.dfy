/**
 * The token stream the consumers read. The tokenizer that produces it is not
 * part of this model: a source unit arrives as a sequence of (text, kind)
 * pairs, and consuming a token means continuing with a suffix of the sequence.
 */
module Tokens {

  /** The token kinds the namespace consumer tells apart. */
  datatype TokenKind =
    | Identifier          // T_STRING, including reserved-looking names classified upstream
    | NsSeparator         // T_NS_SEPARATOR, the `\` between namespace segments
    | Whitespace          // T_WHITESPACE
    | Named(name: string) // any other token type, e.g. Named("T_CLASS")
    | Untyped             // a single-character token such as `{` or `;`

  datatype Token = Token(text: string, kind: TokenKind)

  /**
   * How many tokens `consumeWhitespace` drops from the head of the queue:
   * the whole run of whitespace tokens there, and nothing after it.
   */
  function WhitespaceRun(ts: seq<Token>): (n: nat)
    ensures n <= |ts|
    ensures forall j :: 0 <= j < n ==> ts[j].kind.Whitespace?
    ensures n < |ts| ==> !ts[n].kind.Whitespace?
  {
    if |ts| > 0 && ts[0].kind.Whitespace? then 1 + WhitespaceRun(ts[1..]) else 0
  }

  predicate AllWhitespace(ts: seq<Token>) {
    forall j :: 0 <= j < |ts| ==> ts[j].kind.Whitespace?
  }
}
