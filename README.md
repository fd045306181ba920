# Beat engine of the "u-tatsu-mi" rhythm game, in Dafny

The game (`main.js`) shows a looping sequence of seven tokens: four random
ones followed by the fixed tail "u, tatsu, mi" (tokens 0, 1, 2). The player
presses the matching arrow key for each beat. Each beat is judged PERFECT,
OK or MISS against a target 60 ms before the end of the beat. The tempo
starts at 90 BPM and rises by 6 per completed loop, up to 220. Five misses
end the game. A round starts with a four-beat count-in.

This project models the engine that drives all of this. That is the one
mutable `state` record and the handlers that change it: `startGame`,
`startCountIn`, `restartGame`, `onInput`, `loop`, `advanceBeat` and
`gameOver`. It also models the pure helpers those handlers use:
`generateSequence`, `getBeatIntervalMs`, the judging arithmetic, and the
key and token tables.

Layout:

- `option.dfy`: `Optional.Option`, which stands for JavaScript's `null`.
- `tokens.dfy`: module `Tokens`. The token type, the arrow-key binding and the
  cell class and key label of each token.
- `tempo.dfy`: module `Tempo`. The tempo constants, the per-loop increase with
  its cap, the tempo after N loops, and the beat interval.
- `sequencer.dfy`: module `Sequencer`. Building a loop's sequence from the
  four random head tokens, both as a function and as the `for`/`push` loop of
  the source.
- `judge.dfy`: module `Judging`. The judging target and the PERFECT/OK/MISS
  classification.
- `round.dfy`: module `Round`. The state record as a value (`RoundState`) and
  each handler as a function from the old state to the new one. Each
  function also returns the judgement and the click the handler emits. The
  module also holds the state invariant `Inv` and the proofs that every
  handler keeps it.
- `round_props.dfy`: module `RoundProps`. What the handlers promise, one step
  at a time and over runs of ticks.
- `engine.dfy`: module `Engine`. Class `RoundEngine` holds the state record's
  fields and updates them in place, as `main.js` does. Each method is proved
  to produce exactly the state and events that the matching function of
  `Round` prescribes. Each public handler (`StartGame`, `RestartGame`,
  `OnInput`, `AdvanceBeat`, `Tick`) also keeps the invariant. The helpers
  `StartCountIn`, `GameOver`, `NextBeat` and `CompleteLoop` pass through
  intermediate states and promise only their state change. The client method
  `PerfectFirstBeat` starts a game, lets the count-in pass and shows that an
  input on target in the first beat is judged PERFECT.

Time is a `real` number of milliseconds. The frame timestamp of `loop` and
the time `performance.now()` gives to `startGame` and `onInput` are
parameters. The four tokens `Math.random` would draw are also a parameter,
`head`. Every handler is deterministic given these inputs.

Two behaviours of the code that one might expect to be otherwise are
modelled as written:

- An input token outside the three symbols is not ignored. `onInput`
  (main.js:374-380) does not check the token: it records any number it is
  given, and that input uses up the beat's single input slot (the beat is
  then judged a MISS). The model's `OnInput` therefore takes any `int`.
- `startCountIn` (main.js:278-292) and the end of the count-in
  (main.js:401-406) clear `receivedInput` but leave `lastInputToken` and
  `lastInputAt` as they were. The model does the same. This is harmless,
  because judging only looks at the token when `receivedInput` is set.

## Model

| member | source | states |
|---|---|---|
| Tokens.KeyToToken | main.js:15 | exactly the up, left and right arrow keys produce a token |
| Tokens.EveryTokenHasAKey | main.js:15 | every token is produced by some key |
| Tokens.KeyToTokenInjective | main.js:15 | no two keys produce the same token |
| Tokens.TokenClass | main.js:110-112 | every token is drawn with one of the classes u, ta, mi |
| Tokens.KeyLabel | main.js:114-116 | every token is labelled with one of the up, left and right arrow glyphs |
| Tokens.KeyLabelNamesKey | main.js:114-116 | the arrow under a cell is the arrow key that enters its token |
| Tokens.PresentationDistinguishesTokens | main.js:110-116 | different tokens get different classes and different labels |
| Tempo.NextBpm | main.js:341 | after a loop the tempo is exactly 6 faster when that stays within 220, and exactly 220 otherwise; it is never above 220 and never slower |
| Tempo.BpmAfterLoops | main.js:19-21 | the tempo after any number of loops stays between 90 and 220 |
| Tempo.BpmClosedForm | main.js:339-341 | after N completed loops the tempo is min(90 + 6N, 220) |
| Tempo.BpmNeverDecreases | main.js:341 | the tempo never decreases from one loop count to a larger one |
| Tempo.BpmReachesCap | main.js:20-21 | the tempo is at the cap exactly from the 22nd loop on |
| Tempo.BeatIntervalMs | main.js:260-262 | the beat interval is positive, and interval times tempo is one minute |
| Tempo.FasterTempoShorterBeat | main.js:260-262 | a faster tempo never gives a longer beat |
| Sequencer.Generated | main.js:100-108 | a sequence has length 7, starts with the four drawn tokens and ends with 0, 1, 2 |
| Sequencer.GeneratedIsOnto | main.js:100-108 | every sequence of that shape is the one generated from its own first four tokens |
| Sequencer.GenerateSequence | main.js:100-108 | the push loop builds exactly the four drawn tokens followed by 0, 1, 2 |
| Judging.TargetWithinBeat | main.js:302 | at every tempo up to 220 the target lies strictly inside the beat, and the earliest OK input comes after the beat starts |
| Judging.Judge | main.js:299-313 | no input or the wrong token is a MISS; the right token is PERFECT within 90 ms of the target on either side, not a MISS within 180 ms, and a MISS beyond that |
| Judging.JudgeSymmetric | main.js:303-304 | early by d and late by d are judged the same |
| Judging.JudgeMonotone | main.js:304-311 | an input closer to the target is never judged worse |
| Judging.JudgeAtOneSecondBeat | main.js:299-313 | for a one-second beat from 0, inputs at 940, 1040 and 1200 ms are PERFECT, OK and MISS; a wrong token or no input is a MISS |
| Round.InitialInv | main.js:74-94 | the state record as the page loads satisfies the invariant |
| Round.StartInv | main.js:446-473 | starting keeps the invariant |
| Round.RestartInv | main.js:477-482 | a restart establishes the invariant from any state |
| Round.OnInputInv | main.js:374-380 | recording an input keeps the invariant |
| Round.AdvanceBeatInv | main.js:294-355 | judging and advancing a beat in play keeps the invariant |
| Round.TickInv | main.js:388-432 | every tick keeps the invariant: tempo determined by the loop count, misses under 5 while running, a well-formed sequence, beat index -1 in the count-in and in range in play |
| RoundProps.StartResets | main.js:446-473 | start is a no-op while running; otherwise tempo 90, zero rounds and misses, a fresh sequence, a count-in of 4 from `now` with input off, and an unaccented click on target |
| RoundProps.RestartResets | main.js:477-482 | a restart from any state, even at the tempo cap or after game over, resets tempo, rounds and misses and begins the count-in |
| RoundProps.InputRecordedOnlyWhenAwaited | main.js:374-380 | an input is recorded exactly when running, awaiting input and nothing recorded yet; it records that token and time and changes nothing else; an input that is not recorded leaves the whole state unchanged |
| RoundProps.FirstInputWins | main.js:376-380 | a second input in the same beat changes nothing: the first token and time are kept |
| RoundProps.QuietTickIsNoOp | main.js:388-432 | a tick while stopped, or before the beat interval has elapsed, changes nothing and emits nothing |
| RoundProps.BeatEndJudgesAndCountsMisses | main.js:294-323 | a beat end judges the current token with the buffered input, counts exactly one miss for a MISS and none otherwise, and the game runs on exactly while misses are under 5 |
| RoundProps.FifthMissEndsGame | main.js:314-323 | the fifth miss stops the game with beat index, input buffer and beat start untouched and no click |
| RoundProps.BeatEndClearsBuffer | main.js:328-334 | a beat end that does not stop the game clears the input buffer and awaits input again |
| RoundProps.BeatEndWithinLoop | main.js:349-354 | inside a loop the beat index moves on by one from `ts`, and the click is accented exactly for the last beat |
| RoundProps.LoopCompletes | main.js:336-348 | after the last beat: one more round, the next tempo, a fresh sequence, beat 0 starting 400 ms after `ts`, an unaccented click |
| RoundProps.AtMostOneBeatPerTick | main.js:427-429 | one tick moves the beat index by at most one (or wraps it to 0) and raises misses and rounds by at most one |
| RoundProps.LateInputCountsForNextBeat | main.js:427-428 | the tick that judges a beat comes at least 60 ms after its target and reopens input; a later press is buffered for the next beat, and is a MISS there if it comes before that beat's OK window |
| RoundProps.ClickOnTarget | main.js:197-206 | every scheduled click sounds at the judging target of the beat it announces |
| RoundProps.BpmOfState | main.js:339-341 | in every reachable state the tempo is min(90 + 6 * rounds, 220) |
| RoundProps.TickNeverSlowsDown | main.js:341 | no tick lowers the tempo or raises it above 220 |
| RoundProps.CountInStep | main.js:397-418 | a count-in tick counts one beat down from `ts`; reaching 0 starts play at beat 0 with input on; the click is accented exactly when one count-in beat is left |
| RoundProps.StoppedStaysStopped | main.js:388-389 | after the game has stopped, no run of ticks changes the state |
| RoundProps.CountInProgress | main.js:397-418 | ticks a beat apart count the count-in down one each, and the last of them starts play at beat 0 |
| RoundProps.StartCountsInFourBeats | main.js:278-292 | after a start, play begins on exactly the fourth tick a beat apart, and not before |
| RoundProps.SilentBeatsEndGame | main.js:314-323 | beats that end with no input are all misses; as many as the misses left end the game with 5 misses |
| Engine.RoundEngine.constructor | main.js:74-94 | the engine starts in the page-load state, which satisfies the invariant |
| Engine.RoundEngine.StartCountIn | main.js:278-292 | the fields become those of `Round.StartCountIn` and the click it schedules is returned |
| Engine.RoundEngine.StartGame | main.js:446-473 | the fields and click are those of `Round.Start`; the invariant holds afterwards |
| Engine.RoundEngine.RestartGame | main.js:477-482 | the fields and click are those of `Round.Restart`; the invariant holds afterwards |
| Engine.RoundEngine.GameOver | main.js:439-444 | only `running` changes, to false |
| Engine.RoundEngine.OnInput | main.js:374-386 | the fields become those of `Round.OnInput`; the invariant is kept |
| Engine.RoundEngine.AdvanceBeat | main.js:294-326 | the fields, judgement and click are those of `Round.AdvanceBeat`; the invariant is kept |
| Engine.RoundEngine.NextBeat | main.js:328-354 | the fields and click are those of `Round.NextBeat` |
| Engine.RoundEngine.CompleteLoop | main.js:337-348 | the fields and click are those of `Round.CompleteLoop` |
| Engine.RoundEngine.Tick | main.js:388-432 | the fields, judgement and click are those of `Round.Tick`; the invariant is kept |

## Left out

- Rendering and the HUD (`renderSequence`, `showJudgeOnCell`,
  `updateSequenceHighlight`, `updateStats`, `updateProgress`,
  `setButtonsEnabled`, `setControlStates`, `showOverlay`, `flashMiss`, the
  count-in number). These are presentation only. The judgement a beat end
  emits is returned as a `Judgement` value instead.
- Audio (`BeepSynth`, `loadVoices`, `playVoice`, the audio context created in
  `startGame`). This is Web Audio and fetch code with asynchronous loading.
  `scheduleBeatClick` is reduced to the click it schedules: whether it is
  accented, and the target time it aims at. The model reports that click
  even when the game runs without sound. In that case `main.js` schedules
  nothing, and judging is unaffected either way.
- The deferred `setTimeout` callback and its check of `running` when it
  fires. This is asynchronous.
- `requestAnimationFrame` and `cancelAnimationFrame`. `loop` becomes a
  `Tick(ts)` method called with each frame's timestamp.
- The `paused` flag and its branch in `loop` and `onInput`. Nothing sets the
  flag any more, because the pause feature was removed (main.js:475).
- `Math.random`. The four head tokens are a parameter instead.
- Event-listener wiring. The arrow-key table is kept as `KeyToToken`. The
  buttons' `data-token` attributes live in the page's HTML, which is not
  part of this model. `OnInput` accepts any integer token.
- The order of input events against ticks. Input times and tick times are
  independent parameters, so the model does not say which tick judges a
  given press. In `main.js` a beat is judged by the first frame at least
  60 ms after its target (main.js:427-428), and that frame reopens input
  (main.js:330-333). A press later than that counts for the next beat. So the
  late side of the windows, beyond 60 ms plus one frame, is in practice out
  of reach. `LateInputCountsForNextBeat` states what such a press does.
- IEEE doubles. Times and the beat interval `60000 / bpm` are exact `real`s.
- Runs of ticks use a single `head` for every loop they complete. The
  properties proved over runs (count-in, miss limit, stopped game) do not
  depend on the tokens drawn.
