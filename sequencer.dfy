/**
 * The sequence of one loop: four random tokens followed by the fixed tail
 * "u, tatsu, mi" (main.js:17-18, 96-108).
 */
module Sequencer {
  import opened Tokens

  const SEQ_LENGTH: int := 7
  const RANDOM_HEAD: int := 4
  const TAIL: seq<Token> := [0, 1, 2]

  /**
   * The four tokens the random generator picks for the head of a sequence;
   * the model receives them instead of drawing them.
   */
  type Head = h: seq<Token> | |h| == RANDOM_HEAD witness [0, 0, 0, 0]

  /** The shape every generated sequence has. */
  ghost predicate WellFormed(s: seq<Token>) {
    |s| == SEQ_LENGTH && s[RANDOM_HEAD..] == TAIL
  }

  /** The sequence built from the given random head. */
  function Generated(head: Head): (r: seq<Token>)
    ensures WellFormed(r)
    ensures r[..RANDOM_HEAD] == head
  {
    head + TAIL
  }

  /** Every well-formed sequence is generated from exactly its own head. */
  lemma GeneratedIsOnto(s: seq<Token>)
    requires WellFormed(s)
    ensures Generated(s[..RANDOM_HEAD]) == s
  {
    assert s == s[..RANDOM_HEAD] + s[RANDOM_HEAD..];
  }

  /** Builds a loop's sequence by pushing the head tokens one by one, then the tail. */
  method GenerateSequence(head: Head) returns (s: seq<Token>)
    ensures |s| == SEQ_LENGTH && s[..RANDOM_HEAD] == head && s[RANDOM_HEAD..] == TAIL
    ensures s == Generated(head)
  {
    s := [];
    for i := 0 to RANDOM_HEAD
      invariant s == head[..i]
    {
      s := s + [head[i]];
    }
    s := s + [0, 1, 2];
  }
}
