/** The parser and the grammar agree. */
module Accepted {
  import opened Options
  import opened Tokens
  import opened Syntax
  import opened Grammar
  import opened Recognition

  /** The parser accepts exactly the token sequences of well-formed trees, and returns the tree. */
  lemma ParsesExactly(ts: seq<Token>, c: Cst)
    requires Canonical(ts)
    ensures ParseTokens(ts) == Some(c) <==> exists rest: seq<Token> :: Derives(ts, c, rest)
  {
    if ParseTokens(ts) == Some(c) {
      ParseSound(0, ts);
      assert Derives(ts, c, Parse(0, ts).value.1);
    }
    if rest: seq<Token> :| Derives(ts, c, rest) {
      ParseFull(c, 0, rest);
    }
  }

  predicate Derives(ts: seq<Token>, c: Cst, rest: seq<Token>) {
    ts == Flatten(c) + rest && Peek(rest) == EOF && Full(c, 0, EOF)
  }

  /** The grammar is unambiguous. */
  lemma Unambiguous(c: Cst, c': Cst)
    requires Full(c, 0, EOF) && Full(c', 0, EOF) && Flatten(c) == Flatten(c')
    ensures c == c'
  {
    ParseFull(c, 0, []);
    ParseFull(c', 0, []);
  }
}
