/**
 * Judging one beat: the buffered input is compared with a target placed a
 * fixed offset before the end of the beat (main.js:24-26, 299-313).
 */
module Judging {
  import opened Optional
  import opened Tokens
  import opened Tempo

  const HIT_TARGET_FROM_END_MS: real := 60.0
  const JUDGE_PERFECT_MS: real := 90.0
  const JUDGE_OK_MS: real := 180.0

  datatype Outcome = Perfect | Ok | Miss

  function Abs(x: real): real { if x < 0.0 then -x else x }

  /** The moment an input is measured against: 60 ms before the beat ends. */
  function TargetTime(beatStartAt: real, interval: real): real {
    beatStartAt + interval - HIT_TARGET_FROM_END_MS
  }

  /**
   * At every tempo the game reaches, the target lies strictly inside the
   * beat, and even the earliest input the OK window accepts comes after
   * the beat has started.
   */
  lemma TargetWithinBeat(beatStartAt: real, bpm: Bpm)
    requires bpm <= MAX_BPM
    ensures var interval := BeatIntervalMs(bpm);
      var target := TargetTime(beatStartAt, interval);
      && beatStartAt < target - JUDGE_OK_MS
      && target < beatStartAt + interval
  {
    FasterTempoShorterBeat(bpm, MAX_BPM);
    assert BeatIntervalMs(MAX_BPM) * (MAX_BPM as real) == 60000.0;
  }

  /**
   * The outcome of a beat that expected `expected`, given whether an input
   * was received, which token it was and when. An input of the right token
   * is PERFECT within 90 ms of the target on either side, OK within 180 ms,
   * and a MISS otherwise; anything else is a MISS.
   */
  function Judge(expected: Token, received: bool, token: Option<int>, at: real,
                 beatStartAt: real, interval: real): (r: Outcome)
    ensures !received || token != Some(expected) ==> r == Miss
    ensures received && token == Some(expected) ==>
      var target := TargetTime(beatStartAt, interval);
      && (r == Perfect <==> target - JUDGE_PERFECT_MS <= at <= target + JUDGE_PERFECT_MS)
      && (r != Miss <==> target - JUDGE_OK_MS <= at <= target + JUDGE_OK_MS)
  {
    if received && token == Some(expected) then
      var delta := at - TargetTime(beatStartAt, interval);
      var absDelta := Abs(delta);
      if absDelta <= JUDGE_PERFECT_MS then Perfect
      else if absDelta <= JUDGE_OK_MS then Ok
      else Miss
    else
      Miss
  }

  /** How good an outcome is, for comparing outcomes. */
  function Rank(o: Outcome): nat {
    match o
    case Perfect => 2
    case Ok => 1
    case Miss => 0
  }

  /** Being early by d is judged exactly like being late by d. */
  lemma JudgeSymmetric(expected: Token, received: bool, token: Option<int>,
                       beatStartAt: real, interval: real, d: real)
    ensures var target := TargetTime(beatStartAt, interval);
      Judge(expected, received, token, target - d, beatStartAt, interval)
      == Judge(expected, received, token, target + d, beatStartAt, interval)
  {
  }

  /** An input closer to the target is never judged worse. */
  lemma JudgeMonotone(expected: Token, received: bool, token: Option<int>,
                      closer: real, farther: real, beatStartAt: real, interval: real)
    requires var target := TargetTime(beatStartAt, interval);
      Abs(closer - target) <= Abs(farther - target)
    ensures Rank(Judge(expected, received, token, closer, beatStartAt, interval))
         >= Rank(Judge(expected, received, token, farther, beatStartAt, interval))
  {
  }

  /**
   * A one-second beat starting at 0 has its target at 940 ms: an input
   * there is PERFECT, 100 ms later OK, 260 ms later a MISS, and a wrong
   * token or no input is a MISS whenever it comes.
   */
  lemma JudgeAtOneSecondBeat(at: real)
    ensures Judge(0, true, Some(0), 940.0, 0.0, 1000.0) == Perfect
    ensures Judge(0, true, Some(0), 1040.0, 0.0, 1000.0) == Ok
    ensures Judge(0, true, Some(0), 1200.0, 0.0, 1000.0) == Miss
    ensures Judge(0, true, Some(1), at, 0.0, 1000.0) == Miss
    ensures Judge(0, false, None, at, 0.0, 1000.0) == Miss
  {
  }
}
