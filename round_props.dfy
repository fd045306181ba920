/**
 * What the round state machine of module Round promises: one handler at a
 * time (counting of misses, the end of the game, the per-beat input buffer,
 * loop completion, the count-in) and over runs of ticks.
 */
module RoundProps {
  import opened Optional
  import opened Tempo
  import opened Sequencer
  import opened Judging
  import opened Round

  // ---------------------------------------------------------------------
  // Starting and restarting

  /** Starting while running does nothing; otherwise it resets the round and begins the count-in. */
  lemma StartResets(s: RoundState, now: real, head: Head)
    ensures s.running ==> Start(s, now, head) == Step(s, None, None)
    ensures !s.running ==>
      var st := Start(s, now, head);
      var r := st.next;
      && r.running && r.bpm == INITIAL_BPM && r.roundCount == 0 && r.missCount == 0
      && r.sequence == Generated(head)
      && r.inCountIn && r.countInLeft == COUNT_IN_BEATS && r.beatIndex == -1
      && !r.awaitingInput && !r.receivedInput && r.beatStartAt == now
      && st.cue == Some(Cue(false, TargetTime(now, BeatIntervalMs(INITIAL_BPM))))
  {
  }

  /** A restart resets the counters and the tempo from any state, even at the tempo cap or after game over. */
  lemma RestartResets(s: RoundState, now: real, head: Head)
    ensures var r := Restart(s, now, head).next;
      && Inv(r) && r.running && r.inCountIn && r.countInLeft == COUNT_IN_BEATS
      && r.bpm == INITIAL_BPM && r.roundCount == 0 && r.missCount == 0
      && r.sequence == Generated(head)
  {
    RestartInv(s, now, head);
  }

  // ---------------------------------------------------------------------
  // The per-beat input buffer

  /**
   * An input is recorded exactly when the round is running, the beat awaits
   * input and none has been recorded yet; nothing but the buffer changes,
   * and an input that is not recorded changes nothing at all.
   */
  lemma InputRecordedOnlyWhenAwaited(s: RoundState, token: int, at: real)
    ensures var r := OnInput(s, token, at);
      && (r.receivedInput && !s.receivedInput <==> s.running && s.awaitingInput && !s.receivedInput)
      && (r.receivedInput && !s.receivedInput ==> r.lastInputToken == Some(token) && r.lastInputAt == at)
      && r.(receivedInput := s.receivedInput, lastInputToken := s.lastInputToken,
            lastInputAt := s.lastInputAt) == s
    ensures !(s.running && s.awaitingInput && !s.receivedInput) ==> OnInput(s, token, at) == s
  {
  }

  /** A second input in the same beat is ignored: the first token and time are kept. */
  lemma FirstInputWins(s: RoundState, t1: int, a1: real, t2: int, a2: real)
    ensures OnInput(OnInput(s, t1, a1), t2, a2) == OnInput(s, t1, a1)
  {
  }

  /**
   * A tick that does not end the beat, or that comes while the game is
   * stopped, changes nothing; in particular the buffered input survives
   * until the beat is judged, and a timestamp that goes backwards is harmless.
   */
  lemma QuietTickIsNoOp(s: RoundState, ts: real, head: Head)
    requires !s.running || !BeatElapsed(s, ts)
    ensures Tick(s, ts, head) == Step(s, None, None)
  {
  }

  // ---------------------------------------------------------------------
  // Judging, misses and the end of the game

  /**
   * A tick that ends a beat in play judges that beat with its buffered
   * input, counts one miss for a MISS and none otherwise, and keeps the
   * game running exactly while the misses stay under the limit.
   */
  lemma BeatEndJudgesAndCountsMisses(s: RoundState, ts: real, head: Head)
    requires Inv(s) && Playing(s) && BeatElapsed(s, ts)
    ensures var st := Tick(s, ts, head);
      && BeatOutcome(s) == Judge(s.sequence[s.beatIndex], s.receivedInput, s.lastInputToken,
                                 s.lastInputAt, s.beatStartAt, BeatIntervalMs(s.bpm))
      && st.judged == Some(Judgement(s.beatIndex, BeatOutcome(s)))
      && st.next.missCount == s.missCount + (if BeatOutcome(s) == Miss then 1 else 0)
      && (st.next.running <==> st.next.missCount < MAX_MISS)
  {
  }

  /**
   * The fifth miss stops the game before anything else happens: the beat
   * index, the input buffer and the beat start stay as they were and no
   * click is scheduled.
   */
  lemma FifthMissEndsGame(s: RoundState, ts: real, head: Head)
    requires Inv(s) && Playing(s) && BeatElapsed(s, ts)
    requires BeatOutcome(s) == Miss && s.missCount == MAX_MISS - 1
    ensures var st := Tick(s, ts, head);
      && st.next == s.(running := false, missCount := MAX_MISS)
      && st.cue == None
  {
  }

  /**
   * A beat end that does not finish the game clears the input buffer and
   * opens the next beat for input.
   */
  lemma BeatEndClearsBuffer(s: RoundState, ts: real, head: Head)
    requires Inv(s) && Playing(s) && BeatElapsed(s, ts)
    requires Tick(s, ts, head).next.running
    ensures var r := Tick(s, ts, head).next;
      && !r.receivedInput && r.lastInputToken == None && r.lastInputAt == 0.0
      && r.awaitingInput && !r.inCountIn
  {
  }

  /**
   * Within a loop, a beat end moves to the next beat starting at `ts`; its
   * click is accented exactly when that beat is the last of the sequence.
   */
  lemma BeatEndWithinLoop(s: RoundState, ts: real, head: Head)
    requires Inv(s) && Playing(s) && BeatElapsed(s, ts)
    requires Tick(s, ts, head).next.running && s.beatIndex < SEQ_LENGTH - 1
    ensures var st := Tick(s, ts, head);
      && st.next.beatIndex == s.beatIndex + 1 && st.next.beatStartAt == ts
      && st.next.sequence == s.sequence && st.next.bpm == s.bpm
      && st.next.roundCount == s.roundCount
      && st.cue.Some? && (st.cue.value.accent <==> st.next.beatIndex == SEQ_LENGTH - 1)
  {
  }

  /**
   * At the end of the last beat the loop completes: one more round, a
   * faster tempo, a fresh sequence, the first beat 400 ms after `ts`, and an
   * unaccented click.
   */
  lemma LoopCompletes(s: RoundState, ts: real, head: Head)
    requires Inv(s) && Playing(s) && BeatElapsed(s, ts)
    requires Tick(s, ts, head).next.running && s.beatIndex == SEQ_LENGTH - 1
    ensures var st := Tick(s, ts, head);
      && st.next.roundCount == s.roundCount + 1
      && st.next.bpm == NextBpm(s.bpm) && s.bpm <= st.next.bpm <= MAX_BPM
      && st.next.sequence == Generated(head)
      && st.next.beatIndex == 0 && st.next.beatStartAt == ts + LEAD_IN_MS
      && st.cue.Some? && !st.cue.value.accent
  {
  }

  /**
   * A tick processes at most one beat: the beat index stays, moves on by
   * one or wraps to the start of a new loop, and each counter grows by at
   * most one.
   */
  lemma AtMostOneBeatPerTick(s: RoundState, ts: real, head: Head)
    requires Inv(s) && Playing(s)
    ensures var r := Tick(s, ts, head).next;
      && (r.beatIndex == s.beatIndex || r.beatIndex == s.beatIndex + 1 || r.beatIndex == 0)
      && s.missCount <= r.missCount <= s.missCount + 1
      && s.roundCount <= r.roundCount <= s.roundCount + 1
  {
  }

  /**
   * Inputs and ticks are separate events. A beat is judged by the first tick
   * at least 60 ms after its target, and that tick reopens input at once. A
   * press that comes after that tick is buffered for the next beat and uses
   * up that beat's single input slot. If it is earlier than the next beat's
   * OK window, that beat is a MISS.
   */
  lemma LateInputCountsForNextBeat(s: RoundState, ts: real, head: Head, token: int, at: real)
    requires Inv(s) && Playing(s) && BeatElapsed(s, ts)
    requires Tick(s, ts, head).next.running
    ensures ts >= TargetTime(s.beatStartAt, BeatIntervalMs(s.bpm)) + HIT_TARGET_FROM_END_MS
    ensures var n := Tick(s, ts, head).next;
      var r := OnInput(n, token, at);
      && r.receivedInput && r.lastInputToken == Some(token) && r.lastInputAt == at
      && r.beatIndex == n.beatIndex
      && (at < TargetTime(n.beatStartAt, BeatIntervalMs(n.bpm)) - JUDGE_OK_MS ==>
            BeatOutcome(r) == Miss)
  {
  }

  /** Every click a tick schedules sounds at the judging target of the beat it announces. */
  lemma ClickOnTarget(s: RoundState, ts: real, head: Head)
    ensures var st := Tick(s, ts, head);
      st.cue.Some? ==>
        st.cue.value.at == TargetTime(st.next.beatStartAt, BeatIntervalMs(st.next.bpm))
  {
  }

  // ---------------------------------------------------------------------
  // Tempo

  /** The tempo of every reachable state is min(90 + 6 * rounds, 220). */
  lemma BpmOfState(s: RoundState)
    requires Inv(s)
    ensures s.bpm == Min(INITIAL_BPM + BPM_INC_PER_LOOP * s.roundCount, MAX_BPM)
    ensures INITIAL_BPM <= s.bpm <= MAX_BPM
  {
    BpmClosedForm(s.roundCount);
  }

  /** Ticks never slow the game down. */
  lemma TickNeverSlowsDown(s: RoundState, ts: real, head: Head)
    requires Inv(s)
    ensures s.bpm <= Tick(s, ts, head).next.bpm <= MAX_BPM
  {
  }

  // ---------------------------------------------------------------------
  // The count-in

  /** A count-in tick counts one beat down; the last one starts play at the first beat. */
  lemma CountInStep(s: RoundState, ts: real, head: Head)
    requires Inv(s) && s.running && s.inCountIn && BeatElapsed(s, ts)
    ensures var st := Tick(s, ts, head);
      && st.next.countInLeft == s.countInLeft - 1 && st.next.beatStartAt == ts
      && (st.next.inCountIn <==> st.next.countInLeft > 0)
      && (!st.next.inCountIn ==> st.next.beatIndex == 0 && st.next.awaitingInput && !st.next.receivedInput)
      && st.cue.Some?
      && (st.cue.value.accent <==> st.next.inCountIn && st.next.countInLeft == 1)
  {
  }

  // ---------------------------------------------------------------------
  // Runs of ticks

  /** The state after a tick at each of the timestamps `tss`, in order. */
  function Run(s: RoundState, tss: seq<real>, head: Head): RoundState
    decreases |tss|
  {
    if tss == [] then s else Run(Tick(s, tss[0], head).next, tss[1..], head)
  }

  /** Each timestamp is at least `gap` after the one before it (the first after `start`). */
  ghost predicate Spaced(start: real, tss: seq<real>, gap: real)
    decreases |tss|
  {
    tss == [] || (tss[0] - start >= gap && Spaced(tss[0], tss[1..], gap))
  }

  /** Each tick of the run ends a beat of the state it meets. */
  ghost predicate AllBeatsElapse(s: RoundState, tss: seq<real>, head: Head)
    decreases |tss|
  {
    tss == [] || (BeatElapsed(s, tss[0]) && AllBeatsElapse(Tick(s, tss[0], head).next, tss[1..], head))
  }

  /** Once the game has stopped, no tick changes anything. */
  lemma {:induction false} StoppedStaysStopped(s: RoundState, tss: seq<real>, head: Head)
    requires !s.running
    ensures Run(s, tss, head) == s
    decreases |tss|
  {
    if tss != [] {
      StoppedStaysStopped(s, tss[1..], head);
    }
  }

  /**
   * During the count-in, each tick a beat apart counts one beat down, and
   * the tick that uses up the count-in starts play at the first beat.
   */
  lemma {:induction false} CountInProgress(s: RoundState, tss: seq<real>, head: Head)
    requires Inv(s) && s.running && s.inCountIn
    requires |tss| <= s.countInLeft
    requires Spaced(s.beatStartAt, tss, BeatIntervalMs(s.bpm))
    ensures var r := Run(s, tss, head);
      && r.running && r.bpm == s.bpm && r.roundCount == s.roundCount
      && r.missCount == s.missCount && r.sequence == s.sequence
      && (|tss| < s.countInLeft ==>
            r.inCountIn && r.countInLeft == s.countInLeft - |tss| && r.beatIndex == -1)
      && (|tss| == s.countInLeft ==>
            && !r.inCountIn && r.beatIndex == 0 && r.awaitingInput && !r.receivedInput
            && r.beatStartAt == tss[|tss| - 1])
    decreases |tss|
  {
    if tss != [] {
      var t := Tick(s, tss[0], head).next;
      TickInv(s, tss[0], head);
      if |tss| > 1 {
        CountInProgress(t, tss[1..], head);
        assert tss[1..][|tss[1..]| - 1] == tss[|tss| - 1];
      }
    }
  }

  /**
   * After a start, play begins on exactly the fourth tick that comes a beat
   * after the one before it; up to the third the game is still counting in.
   */
  lemma StartCountsInFourBeats(s: RoundState, now: real, head: Head, tss: seq<real>)
    requires !s.running
    requires |tss| <= COUNT_IN_BEATS
    requires Spaced(now, tss, BeatIntervalMs(INITIAL_BPM))
    ensures var r := Run(Start(s, now, head).next, tss, head);
      && (Playing(r) <==> |tss| == COUNT_IN_BEATS)
      && (Playing(r) ==> r.beatIndex == 0 && r.awaitingInput && r.bpm == INITIAL_BPM)
  {
    StartInv(s, now, head);
    CountInProgress(Start(s, now, head).next, tss, head);
  }

  /**
   * Beats that end without any input are misses: from any beat in play, as
   * many such beats as the misses still allowed end the game with the miss
   * count at the limit.
   */
  lemma {:induction false} SilentBeatsEndGame(s: RoundState, tss: seq<real>, head: Head)
    requires Inv(s) && Playing(s) && !s.receivedInput
    requires |tss| == MAX_MISS - s.missCount
    requires AllBeatsElapse(s, tss, head)
    ensures !Run(s, tss, head).running
    ensures Run(s, tss, head).missCount == MAX_MISS
    decreases |tss|
  {
    var t := Tick(s, tss[0], head).next;
    assert BeatOutcome(s) == Miss;
    if |tss| > 1 {
      TickInv(s, tss[0], head);
      SilentBeatsEndGame(t, tss[1..], head);
    }
  }
}
