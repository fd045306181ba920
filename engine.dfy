/**
 * The engine as main.js runs it: one object whose fields are the `state`
 * record (main.js:74-94), updated in place by the handlers. Each method is
 * proved to leave the object in the state, and to emit the judgement and
 * click, that the corresponding function of module Round prescribes. Each
 * public handler (`StartGame`, `RestartGame`, `OnInput`, `AdvanceBeat`,
 * `Tick`) also keeps the invariant `Round.Inv`; the helpers `StartCountIn`,
 * `GameOver`, `NextBeat` and `CompleteLoop` pass through intermediate states
 * and promise only their state change.
 */
module Engine {
  import opened Optional
  import opened Tokens
  import opened Tempo
  import opened Sequencer
  import opened Judging
  import opened Round

  class RoundEngine {
    var running: bool
    var bpm: Bpm
    var sequence: seq<Token>
    var beatIndex: int
    var roundCount: nat
    var missCount: nat
    var awaitingInput: bool
    var receivedInput: bool
    var lastInputToken: Option<int>
    var lastInputAt: real
    var beatStartAt: real
    var inCountIn: bool
    var countInLeft: int

    /** The fields as a `RoundState` value. */
    function State(): RoundState
      reads this
    {
      RoundState(running, bpm, sequence, beatIndex, roundCount, missCount, awaitingInput,
                 receivedInput, lastInputToken, lastInputAt, beatStartAt, inCountIn, countInLeft)
    }

    ghost predicate Valid()
      reads this
    {
      Inv(State())
    }

    /** The state record as the page loads. */
    constructor ()
      ensures State() == Initial() && Valid()
    {
      running, bpm, sequence, beatIndex := false, INITIAL_BPM, [], 0;
      roundCount, missCount := 0, 0;
      awaitingInput, receivedInput, lastInputToken, lastInputAt := false, false, None, 0.0;
      beatStartAt, inCountIn, countInLeft := 0.0, false, 0;
    }

    /** The click `scheduleBeatClick` sets up: at the judging target of the current beat. */
    function ScheduledClick(accent: bool): Cue
      reads this
    {
      Cue(accent, TargetTime(beatStartAt, BeatIntervalMs(bpm)))
    }

    method StartCountIn(now: real) returns (cue: Option<Cue>)
      modifies this
      ensures Step(State(), None, cue) == Round.StartCountIn(old(State()), now)
    {
      inCountIn := true;
      countInLeft := COUNT_IN_BEATS;
      beatStartAt := now;
      beatIndex := -1;
      awaitingInput := false;
      receivedInput := false;
      cue := Some(ScheduledClick(false));
    }

    method StartGame(now: real, head: Head) returns (cue: Option<Cue>)
      modifies this
      ensures old(Valid()) || !old(running) ==> Valid()
      ensures Step(State(), None, cue) == Start(old(State()), now, head)
    {
      if running {
        return None;
      }
      StartInv(State(), now, head);
      running := true;
      bpm := INITIAL_BPM;
      roundCount := 0;
      missCount := 0;
      sequence := GenerateSequence(head);
      cue := StartCountIn(now);
    }

    method RestartGame(now: real, head: Head) returns (cue: Option<Cue>)
      modifies this
      ensures Step(State(), None, cue) == Restart(old(State()), now, head)
      ensures Valid()
    {
      running := false;
      cue := StartGame(now, head);
    }

    method GameOver()
      modifies this
      ensures State() == Round.GameOver(old(State()))
    {
      running := false;
    }

    method OnInput(token: int, at: real)
      requires Valid()
      modifies this
      ensures State() == Round.OnInput(old(State()), token, at)
      ensures Valid()
    {
      if !running {
        return;
      }
      if !awaitingInput || receivedInput {
        return;
      }
      receivedInput := true;
      lastInputToken := Some(token);
      lastInputAt := at;
    }

    method AdvanceBeat(ts: real, head: Head) returns (judged: Option<Judgement>, cue: Option<Cue>)
      requires Valid() && Playing(State())
      modifies this
      ensures Step(State(), judged, cue) == Round.AdvanceBeat(old(State()), ts, head)
      ensures Valid()
    {
      AdvanceBeatInv(State(), ts, head);
      var expected := sequence[beatIndex];
      var judgedType := Judge(expected, receivedInput, lastInputToken, lastInputAt,
                              beatStartAt, BeatIntervalMs(bpm));
      judged := Some(Judgement(beatIndex, judgedType));
      if judgedType == Miss {
        missCount := missCount + 1;
        if missCount >= MAX_MISS {
          GameOver();
          return judged, None;
        }
      }
      cue := NextBeat(ts, head);
    }

    method NextBeat(ts: real, head: Head) returns (cue: Option<Cue>)
      modifies this
      ensures Step(State(), None, cue) == Round.NextBeat(old(State()), ts, head)
    {
      beatIndex := beatIndex + 1;
      receivedInput := false;
      lastInputToken := None;
      lastInputAt := 0.0;
      awaitingInput := true;
      beatStartAt := ts;
      if beatIndex >= |sequence| {
        cue := CompleteLoop(ts, head);
      } else {
        cue := Some(ScheduledClick(beatIndex == |sequence| - 1));
      }
    }

    method CompleteLoop(ts: real, head: Head) returns (cue: Option<Cue>)
      modifies this
      ensures Step(State(), None, cue) == Round.CompleteLoop(old(State()), ts, head)
    {
      roundCount := roundCount + 1;
      bpm := NextBpm(bpm);
      sequence := GenerateSequence(head);
      beatIndex := 0;
      beatStartAt := ts + LEAD_IN_MS;
      cue := Some(ScheduledClick(false));
    }

    method Tick(ts: real, head: Head) returns (judged: Option<Judgement>, cue: Option<Cue>)
      requires Valid()
      modifies this
      ensures Step(State(), judged, cue) == Round.Tick(old(State()), ts, head)
      ensures Valid()
    {
      TickInv(State(), ts, head);
      judged, cue := None, None;
      if !running {
        return;
      }
      var interval := BeatIntervalMs(bpm);
      if inCountIn {
        if ts - beatStartAt >= interval {
          countInLeft := countInLeft - 1;
          beatStartAt := ts;
          if countInLeft <= 0 {
            inCountIn := false;
            beatIndex := 0;
            awaitingInput := true;
            receivedInput := false;
            cue := Some(ScheduledClick(false));
          } else {
            cue := Some(ScheduledClick(countInLeft == 1));
          }
        }
        return;
      }
      if ts - beatStartAt >= interval {
        judged, cue := AdvanceBeat(ts, head);
      }
    }
  }

  /**
   * A client: start the game, let four count-in beats pass a second apart
   * (longer than a beat at the starting tempo) and press the expected key
   * right on target; the first beat is judged PERFECT.
   */
  method PerfectFirstBeat(head: Head)
  {
    var e := new RoundEngine();
    var cue := e.StartGame(0.0, head);
    var judged;
    judged, cue := e.Tick(1000.0, head);
    judged, cue := e.Tick(2000.0, head);
    judged, cue := e.Tick(3000.0, head);
    judged, cue := e.Tick(4000.0, head);
    assert Playing(e.State()) && e.beatIndex == 0 && e.beatStartAt == 4000.0;
    var target := TargetTime(4000.0, BeatIntervalMs(INITIAL_BPM));
    e.OnInput(head[0], target);
    judged, cue := e.Tick(5000.0, head);
    assert judged == Some(Judgement(0, Perfect));
    assert e.missCount == 0 && e.beatIndex == 1;
  }
}
