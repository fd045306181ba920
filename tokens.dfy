/**
 * The three input symbols of the game (indices 0, 1 and 2 in main.js) and
 * the key bindings that produce them.
 */
module Tokens {
  import opened Optional

  const TOKEN_COUNT: int := 3

  /** A token as the game stores it: 0 (the "u" call), 1 ("tatsu"), 2 ("mi"). */
  type Token = t: int | 0 <= t < TOKEN_COUNT

  /**
   * The keyboard binding: the up, left and right arrow keys, and nothing
   * else, produce a token.
   */
  function KeyToToken(key: string): (r: Option<Token>)
    ensures r.Some? <==> key in {"ArrowUp", "ArrowLeft", "ArrowRight"}
  {
    if key == "ArrowUp" then Some(0)
    else if key == "ArrowLeft" then Some(1)
    else if key == "ArrowRight" then Some(2)
    else None
  }

  /** Every token can be entered from the keyboard. */
  lemma EveryTokenHasAKey(t: Token)
    ensures exists key :: KeyToToken(key) == Some(t)
  {
    if t == 0 {
      assert KeyToToken("ArrowUp") == Some(t);
    } else if t == 1 {
      assert KeyToToken("ArrowLeft") == Some(t);
    } else {
      assert KeyToToken("ArrowRight") == Some(t);
    }
  }

  /** No two keys produce the same token. */
  lemma KeyToTokenInjective(k1: string, k2: string)
    requires KeyToToken(k1).Some? && KeyToToken(k1) == KeyToToken(k2)
    ensures k1 == k2
  {
  }

  /** The CSS class that colours a cell of the sequence track. */
  function TokenClass(t: Token): (r: string)
    ensures r in {"u", "ta", "mi"}
  {
    if t == 0 then "u" else if t == 1 then "ta" else "mi"
  }

  /** The arrow glyph printed under a cell: the key that enters its token. */
  function KeyLabel(t: Token): (r: string)
    ensures r in {"\U{2191}", "\U{2190}", "\U{2192}"}
  {
    if t == 0 then "\U{2191}" else if t == 1 then "\U{2190}" else "\U{2192}"
  }

  /** The arrow under a cell is the arrow key that enters the cell's token. */
  lemma KeyLabelNamesKey(t: Token)
    ensures KeyLabel(t) == "\U{2191}" <==> KeyToToken("ArrowUp") == Some(t)
    ensures KeyLabel(t) == "\U{2190}" <==> KeyToToken("ArrowLeft") == Some(t)
    ensures KeyLabel(t) == "\U{2192}" <==> KeyToToken("ArrowRight") == Some(t)
  {
  }

  /** Different tokens are drawn with different classes and labels. */
  lemma PresentationDistinguishesTokens(t1: Token, t2: Token)
    requires t1 != t2
    ensures TokenClass(t1) != TokenClass(t2)
    ensures KeyLabel(t1) != KeyLabel(t2)
  {
  }
}
