/**
 * Tempo: the beats-per-minute value, its per-loop increase up to a cap, and
 * the beat interval derived from it (main.js:19-21, 260-262, 341).
 */
module Tempo {

  const INITIAL_BPM: int := 90
  const BPM_INC_PER_LOOP: int := 6
  const MAX_BPM: int := 220

  /** Any tempo the game can divide a minute by. */
  type Bpm = b: int | 0 < b witness INITIAL_BPM

  function Min(a: int, b: int): int { if a <= b then a else b }

  /** The tempo after one completed loop: six beats per minute faster, capped. */
  function NextBpm(bpm: Bpm): (r: Bpm)
    ensures r <= MAX_BPM
    ensures bpm <= MAX_BPM ==> bpm <= r
    ensures r < MAX_BPM ==> r == bpm + BPM_INC_PER_LOOP
    ensures bpm + BPM_INC_PER_LOOP <= MAX_BPM ==> r == bpm + BPM_INC_PER_LOOP
    ensures bpm + BPM_INC_PER_LOOP >= MAX_BPM ==> r == MAX_BPM
  {
    Min(bpm + BPM_INC_PER_LOOP, MAX_BPM)
  }

  /** The tempo after `loops` completed loops since the game was started. */
  function BpmAfterLoops(loops: nat): (r: Bpm)
    ensures INITIAL_BPM <= r <= MAX_BPM
  {
    if loops == 0 then INITIAL_BPM else NextBpm(BpmAfterLoops(loops - 1))
  }

  /** After N loops the tempo is min(90 + 6N, 220). */
  lemma {:induction false} BpmClosedForm(loops: nat)
    ensures BpmAfterLoops(loops) == Min(INITIAL_BPM + BPM_INC_PER_LOOP * loops, MAX_BPM)
  {
    if loops > 0 {
      BpmClosedForm(loops - 1);
    }
  }

  /** The tempo never decreases as loops are completed. */
  lemma {:induction false} BpmNeverDecreases(n: nat, m: nat)
    requires n <= m
    ensures BpmAfterLoops(n) <= BpmAfterLoops(m)
  {
    if n < m {
      BpmNeverDecreases(n, m - 1);
    }
  }

  /** From the 22nd completed loop on, the game runs at the cap. */
  lemma BpmReachesCap(loops: nat)
    ensures BpmAfterLoops(loops) == MAX_BPM <==> loops >= 22
  {
    BpmClosedForm(loops);
  }

  /** The length of one beat in milliseconds: one minute divided by the tempo. */
  function BeatIntervalMs(bpm: Bpm): (r: real)
    ensures 0.0 < r
    ensures r * (bpm as real) == 60000.0
  {
    60000.0 / (bpm as real)
  }

  /** A faster tempo gives a shorter beat. */
  lemma FasterTempoShorterBeat(slow: Bpm, fast: Bpm)
    requires slow <= fast
    ensures BeatIntervalMs(fast) <= BeatIntervalMs(slow)
  {
    var rs, rf := BeatIntervalMs(slow), BeatIntervalMs(fast);
    assert rf * (fast as real) == 60000.0 == rs * (slow as real);
    assert rs * (slow as real) <= rs * (fast as real);
    assert (rf - rs) * (fast as real) <= 0.0;
  }
}
