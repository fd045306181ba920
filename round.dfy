/**
 * The round state machine of main.js as functions on a value: the mutable
 * `state` record (main.js:74-94) becomes `RoundState`, and each handler that
 * changes it (`startGame`, `startCountIn`, `restartGame`, `onInput`, `loop`,
 * `advanceBeat`, `gameOver`) becomes a function from the old state to the new
 * one together with the events it hands to the presentation layer. The class
 * in module Engine executes these handlers in place and is proved to agree
 * with the functions here.
 */
module Round {
  import opened Optional
  import opened Tokens
  import opened Tempo
  import opened Sequencer
  import opened Judging

  const MAX_MISS: nat := 5
  const COUNT_IN_BEATS: int := 4
  /** The pause between the last beat of a loop and the first beat of the next. */
  const LEAD_IN_MS: real := 400.0

  /**
   * The engine's state. The audio context, voice buffers and animation-frame
   * handle of main.js are not part of it, and neither is the `paused` flag,
   * which nothing sets any more.
   */
  datatype RoundState = RoundState(
    running: bool,
    bpm: Bpm,
    sequence: seq<Token>,
    beatIndex: int,
    roundCount: nat,
    missCount: nat,
    awaitingInput: bool,
    receivedInput: bool,
    lastInputToken: Option<int>,
    lastInputAt: real,
    beatStartAt: real,
    inCountIn: bool,
    countInLeft: int)

  /** A click scheduled for the presentation layer: accented or not, and when it sounds. */
  datatype Cue = Cue(accent: bool, at: real)

  /** The outcome shown on the cell of the beat just judged. */
  datatype Judgement = Judgement(index: int, outcome: Outcome)

  /** The state after a handler, with the judgement and the click it emitted. */
  datatype Step = Step(next: RoundState, judged: Option<Judgement>, cue: Option<Cue>)

  /** The state before the first start. */
  function Initial(): RoundState {
    RoundState(false, INITIAL_BPM, [], 0, 0, 0, false, false, None, 0.0, 0.0, false, 0)
  }

  /** The state invariant every reachable state satisfies. */
  ghost predicate Inv(s: RoundState) {
    // the tempo is determined by the number of completed loops
    && s.bpm == BpmAfterLoops(s.roundCount)
    // misses stay below the limit while running; a stopped game has either
    // not started yet or reached the limit
    && s.missCount <= MAX_MISS
    && (s.running ==> s.missCount < MAX_MISS && WellFormed(s.sequence))
    && (!s.running ==> s.missCount == 0 || s.missCount == MAX_MISS)
    && (s.running && s.inCountIn ==>
          && s.beatIndex == -1 && 1 <= s.countInLeft <= COUNT_IN_BEATS
          && !s.awaitingInput && !s.receivedInput)
    && (s.running && !s.inCountIn ==>
          0 <= s.beatIndex < |s.sequence| && s.awaitingInput)
    && (s.receivedInput ==> s.lastInputToken.Some?)
  }

  predicate Playing(s: RoundState) {
    s.running && !s.inCountIn
  }

  /** The click for the current beat, aligned with that beat's judging target. */
  function CueFor(s: RoundState, accent: bool): Cue {
    Cue(accent, TargetTime(s.beatStartAt, BeatIntervalMs(s.bpm)))
  }

  /** Whether a tick at `ts` ends the current beat (or count-in beat). */
  predicate BeatElapsed(s: RoundState, ts: real) {
    ts - s.beatStartAt >= BeatIntervalMs(s.bpm)
  }

  /** `startCountIn`: four count-in beats, input disabled, first click scheduled. */
  function StartCountIn(s: RoundState, now: real): Step {
    var t := s.(inCountIn := true, countInLeft := COUNT_IN_BEATS, beatStartAt := now,
                beatIndex := -1, awaitingInput := false, receivedInput := false);
    Step(t, None, Some(CueFor(t, false)))
  }

  /** `startGame`: ignored while running; otherwise resets the counters and the tempo. */
  function Start(s: RoundState, now: real, head: Head): Step {
    if s.running then Step(s, None, None)
    else
      StartCountIn(s.(running := true, bpm := INITIAL_BPM, roundCount := 0, missCount := 0,
                      sequence := Generated(head)), now)
  }

  /** `restartGame`: stop, then start afresh. */
  function Restart(s: RoundState, now: real, head: Head): Step {
    Start(s.(running := false), now, head)
  }

  /** `gameOver`: the round stops. */
  function GameOver(s: RoundState): RoundState {
    s.(running := false)
  }

  /** `onInput`: the first input of a beat is buffered; every other input is ignored. */
  function OnInput(s: RoundState, token: int, at: real): RoundState {
    if !s.running || !s.awaitingInput || s.receivedInput then s
    else s.(receivedInput := true, lastInputToken := Some(token), lastInputAt := at)
  }

  /**
   * The outcome of the current beat. Outside the sequence JavaScript reads
   * `undefined`, which no recorded token equals: a miss.
   */
  function BeatOutcome(s: RoundState): Outcome {
    if 0 <= s.beatIndex < |s.sequence| then
      Judge(s.sequence[s.beatIndex], s.receivedInput, s.lastInputToken, s.lastInputAt,
            s.beatStartAt, BeatIntervalMs(s.bpm))
    else Miss
  }

  /** `advanceBeat`: judge the beat that ended at `ts` and move to the next one. */
  function AdvanceBeat(s: RoundState, ts: real, head: Head): Step {
    var outcome := BeatOutcome(s);
    var misses := if outcome == Miss then s.missCount + 1 else s.missCount;
    var judged := Some(Judgement(s.beatIndex, outcome));
    if outcome == Miss && misses >= MAX_MISS then
      Step(GameOver(s.(missCount := misses)), judged, None)
    else
      NextBeat(s.(missCount := misses), ts, head).(judged := judged)
  }

  /**
   * The second half of `advanceBeat`: clear the input buffer and start the
   * next beat at `ts`, or, after the last beat, a new loop after a lead-in.
   */
  function NextBeat(s: RoundState, ts: real, head: Head): Step {
    var t := s.(beatIndex := s.beatIndex + 1, receivedInput := false, lastInputToken := None,
                lastInputAt := 0.0, awaitingInput := true, beatStartAt := ts);
    if t.beatIndex >= |t.sequence| then CompleteLoop(t, ts, head)
    else Step(t, None, Some(CueFor(t, t.beatIndex == |t.sequence| - 1)))
  }

  /** A loop is complete: count it, speed up, draw a new sequence and pause before its first beat. */
  function CompleteLoop(s: RoundState, ts: real, head: Head): Step {
    var u := s.(roundCount := s.roundCount + 1, bpm := NextBpm(s.bpm),
                sequence := Generated(head), beatIndex := 0,
                beatStartAt := ts + LEAD_IN_MS);
    Step(u, None, Some(CueFor(u, false)))
  }

  /** One count-in beat has elapsed at `ts`. */
  function CountInTick(s: RoundState, ts: real): Step {
    var t := s.(countInLeft := s.countInLeft - 1, beatStartAt := ts);
    if t.countInLeft <= 0 then
      var u := t.(inCountIn := false, beatIndex := 0, awaitingInput := true,
                  receivedInput := false);
      Step(u, None, Some(CueFor(u, false)))
    else
      Step(t, None, Some(CueFor(t, t.countInLeft == 1)))
  }

  /** `loop`: one animation-frame tick at time `ts`. */
  function Tick(s: RoundState, ts: real, head: Head): Step {
    if !s.running then Step(s, None, None)
    else if s.inCountIn then
      if BeatElapsed(s, ts) then CountInTick(s, ts) else Step(s, None, None)
    else if BeatElapsed(s, ts) then AdvanceBeat(s, ts, head)
    else Step(s, None, None)
  }

  // ---------------------------------------------------------------------
  // The invariant holds initially and is kept by every handler.

  lemma InitialInv()
    ensures Inv(Initial())
  {
  }

  lemma StartInv(s: RoundState, now: real, head: Head)
    requires Inv(s) || !s.running
    ensures Inv(Start(s, now, head).next)
  {
  }

  lemma RestartInv(s: RoundState, now: real, head: Head)
    ensures Inv(Restart(s, now, head).next)
  {
  }

  lemma OnInputInv(s: RoundState, token: int, at: real)
    requires Inv(s)
    ensures Inv(OnInput(s, token, at))
  {
  }

  lemma AdvanceBeatInv(s: RoundState, ts: real, head: Head)
    requires Inv(s) && Playing(s)
    ensures Inv(AdvanceBeat(s, ts, head).next)
  {
  }

  lemma TickInv(s: RoundState, ts: real, head: Head)
    requires Inv(s)
    ensures Inv(Tick(s, ts, head).next)
  {
    if s.running && !s.inCountIn && BeatElapsed(s, ts) {
      AdvanceBeatInv(s, ts, head);
    }
  }
}
