/**
 * The lookahead progression scheduler: module state updated by startProgression,
 * stopProgression, toggleProgression and the self-rearming scheduleProgressionStep, which
 * hands one step at a time to scheduleSequence. The audio clock is the `now` argument, the
 * calls into the audio engine are recorded as a log of triggers, and `setTimeout` is the
 * delay of the armed timer.
 */
module Scheduler {
  import opened Wrappers
  import opened Text
  import opened Pitch
  import opened Events

  /** A call into the audio engine: playTak, playTone, stopAllSounds. */
  datatype Trigger =
    | Tak(time: real, isAlt: bool, isGhost: bool)
    | Play(freq: int, name: string, length: real, time: real)
    | Silence

  /** globalTempo in beats per minute. */
  type Tempo = t: real | t > 0.0 witness 100.0

  /** A progression step `{notes, localRepeats}`: missing notes are `[]`, a missing
    * localRepeats is 0. */
  datatype Step = Step(notes: seq<Event>, localRepeats: int)

  /** The module variables. `timer` is the delay in milliseconds of the armed
    * `progressionTimeoutId`, `None` once cleared. */
  datatype State = State(
    playing: bool, nextNoteTime: real, idx: nat, repeat: nat, loop: bool,
    chords: seq<Step>, tempo: Tempo, timer: Option<real>, log: seq<Trigger>)

  /** The state the module starts in. */
  const Initial := State(false, 0.0, 0, 0, true, [], 100.0, None, [])

  /** `60 / globalTempo / 2`, the length of an eighth note in seconds. */
  function Eighth(tempo: Tempo): (e: real)
    ensures e > 0.0
  {
    60.0 / tempo / 2.0
  }

  /** `localRepeats || 1`. */
  function EffRepeats(localRepeats: int): (n: int)
    ensures n != 0
    ensures localRepeats != 0 ==> n == localRepeats
    ensures localRepeats == 0 ==> n == 1
  {
    if localRepeats != 0 then localRepeats else 1
  }

  /** The running `localTime` after `events`: each step lasts `eighth * (duration || 1)`. */
  function Span(events: seq<Event>, eighth: real): real {
    if |events| == 0 then 0.0
    else Span(events[..|events| - 1], eighth) + eighth * StepLength(events[|events| - 1])
  }

  /** `n.freq || getFrequencyForNoteName(name)`. */
  function FreqOf(freq: Option<int>, name: string): (f: Option<int>)
    ensures freq.Some? ==> f == freq
    ensures freq.None? ==> f == FrequencyMidi(name)
  {
    if freq.Some? then freq else FrequencyMidi(name)
  }

  /** playTone for a 3.0-second sustain when the frequency is truthy, nothing otherwise. */
  function PlayTone(f: Option<int>, name: string, time: real): (r: seq<Trigger>)
    ensures f.Some? <==> |r| == 1
    ensures f.Some? ==> r[0] == Play(f.value, name, 3.0, time)
    ensures f.None? ==> r == []
  {
    if f.Some? then [Play(f.value, name, 3.0, time)] else []
  }

  /** The name a rest inside a group is looked up by: its `note` and `octave` are undefined. */
  const UndefinedName := "undefined" + "undefined"

  /** One alternative of a group: percussion is a tak (alternate iff the hand is `T`), a
    * pitch is a tone at its frequency, and a rest is looked up as `"undefinedundefined"`,
    * which has no frequency. */
  function AltTriggers(n: Sound, time: real): (r: seq<Trigger>)
    ensures n.Perc? ==> r == [Tak(time, n.hand == "T", n.isGhost)]
    ensures n.Rest? ==> r == []
    ensures n.Tone? ==> r == PlayTone(FreqOf(n.freq, n.note + NatToString(n.octave)), n.note + NatToString(n.octave), time)
  {
    match n
    case Perc(hand, isGhost) => [Tak(time, hand == "T", isGhost)]
    case Rest =>
      assert UndefinedName[0] == 'u';
      PlayTone(FreqOf(None, UndefinedName), UndefinedName, time)
    case Tone(note, octave, freq) =>
      var name := note + NatToString(octave);
      PlayTone(FreqOf(freq, name), name, time)
  }

  /** A trigger that sounds at `time`. */
  predicate SoundsAt(tr: Trigger, time: real) {
    !tr.Silence? && tr.time == time
  }

  /** `evt.notes.forEach(...)` for a group: one action per sounding alternative, all at once. */
  function GroupTriggers(alts: seq<Sound>, time: real): (r: seq<Trigger>)
    ensures |r| <= |alts|
    ensures forall i :: 0 <= i < |r| ==> SoundsAt(r[i], time)
  {
    if |alts| == 0 then []
    else GroupTriggers(alts[..|alts| - 1], time) + AltTriggers(alts[|alts| - 1], time)
  }

  /** What scheduleSequence does with one event at `time`: a rest nothing, percussion a
    * tak, a group its alternatives, a bare note (with a truthy `note`) a tone. */
  function Dispatch(e: Event, time: real): (r: seq<Trigger>)
    ensures forall i :: 0 <= i < |r| ==> SoundsAt(r[i], time)
  {
    match e
    case Single(Rest, _) => []
    case Single(Perc(hand, isGhost), _) => [Tak(time, hand == "T", isGhost)]
    case Single(Tone(note, octave, freq), _) =>
      if note != "" then
        var name := note + NatToString(octave);
        PlayTone(FreqOf(freq, name), name, time)
      else []
    case Group(alts, _) => GroupTriggers(alts, time)
  }

  /** Dispatch as a value, so that the timeline below is stated for any dispatcher. */
  function Dispatcher(): (Event, real) -> seq<Trigger> {
    (e: Event, time: real) => Dispatch(e, time)
  }

  /** A dispatcher that only plays sounds, all at the time it is given. */
  ghost predicate Simultaneous(play: (Event, real) -> seq<Trigger>) {
    forall e, time, i :: 0 <= i < |play(e, time)| ==> SoundsAt(play(e, time)[i], time)
  }

  /** A dispatcher whose number of triggers does not depend on the time. */
  ghost predicate TimeFree(play: (Event, real) -> seq<Trigger>) {
    forall e, a, b :: |play(e, a)| == |play(e, b)|
  }

  lemma DispatcherFacts()
    ensures Simultaneous(Dispatcher()) && TimeFree(Dispatcher())
  {
    forall e, a, b ensures |Dispatch(e, a)| == |Dispatch(e, b)| {
      if e.Group? {
        GroupCount(e.alts, a);
        GroupCount(e.alts, b);
      }
    }
  }

  /** One pass over `events` starting at `loopStart`: event k is played at
    * `loopStart + Span(events[..k])`. */
  function PassTriggers(events: seq<Event>, loopStart: real, eighth: real, play: (Event, real) -> seq<Trigger>): seq<Trigger> {
    if |events| == 0 then []
    else
      var k := |events| - 1;
      PassTriggers(events[..k], loopStart, eighth, play) + play(events[k], loopStart + Span(events[..k], eighth))
  }

  /** The `for (let r = 0; r < repeats; r++)` loop: pass r starts at `start + r * pass`. */
  function SequenceTriggers(events: seq<Event>, start: real, eighth: real, repeats: int, play: (Event, real) -> seq<Trigger>): seq<Trigger> {
    if repeats <= 0 then []
    else
      SequenceTriggers(events, start, eighth, repeats - 1, play)
        + PassTriggers(events, start + Times(repeats - 1, Span(events, eighth)), eighth, play)
  }

  /** Span and PassTriggers grow by one event at a time. */
  lemma SpanStep(events: seq<Event>, k: nat, eighth: real)
    requires k < |events|
    ensures Span(events[..k + 1], eighth) == Span(events[..k], eighth) + eighth * StepLength(events[k])
  {
    assert events[..k + 1][..k] == events[..k];
  }

  lemma PassStep(events: seq<Event>, k: nat, loopStart: real, eighth: real, time: real, play: (Event, real) -> seq<Trigger>)
    requires k < |events| && time == loopStart + Span(events[..k], eighth)
    ensures PassTriggers(events[..k + 1], loopStart, eighth, play) == PassTriggers(events[..k], loopStart, eighth, play) + play(events[k], time)
  {
    var prefix := events[..k + 1];
    assert prefix[..k] == events[..k];
    assert prefix[k] == events[k];
    assert loopStart + Span(prefix[..k], eighth) == time;
  }

  lemma SequenceStep(events: seq<Event>, start: real, eighth: real, r: nat, loopStart: real, play: (Event, real) -> seq<Trigger>)
    requires loopStart == start + Times(r, Span(events, eighth))
    ensures SequenceTriggers(events, start, eighth, r + 1, play)
      == SequenceTriggers(events, start, eighth, r, play) + PassTriggers(events, loopStart, eighth, play)
  {
    assert (r + 1) - 1 == r;
  }

  /** How far one step moves `nextNoteTime`: `repeats * singleSequenceDuration`. */
  function StepSpan(step: Step, eighth: real): real {
    Times(EffRepeats(step.localRepeats), Span(step.notes, eighth))
  }

  /** `repeats * singleSequenceDuration`, as repeated addition so that the solver meets no
    * product of two unknowns (`TimesProduct` relates it to `*`). */
  function Times(n: int, pass: real): real
    decreases if n < 0 then -n else n
  {
    if n == 0 then 0.0
    else if n > 0 then Times(n - 1, pass) + pass
    else Times(n + 1, pass) - pass
  }

  /** `Times` is multiplication. */
  lemma {:induction false} TimesProduct(n: int, pass: real)
    ensures Times(n, pass) == n as real * pass
    decreases if n < 0 then -n else n
  {
    if n > 0 {
      TimesProduct(n - 1, pass);
      assert (n - 1) as real * pass + pass == n as real * pass;
    } else if n < 0 {
      TimesProduct(n + 1, pass);
      assert (n + 1) as real * pass - pass == n as real * pass;
    }
  }

  /** A non-negative number of non-negative passes is non-negative. */
  lemma {:induction false} TimesNonNegative(n: int, pass: real)
    requires n >= 0 && pass >= 0.0
    ensures Times(n, pass) >= 0.0
    decreases n
  {
    if n > 0 {
      TimesNonNegative(n - 1, pass);
    }
  }

  /** The triggers of one step scheduled from `start`. */
  function StepTriggers(step: Step, start: real, eighth: real): seq<Trigger> {
    SequenceTriggers(step.notes, start, eighth, EffRepeats(step.localRepeats), Dispatcher())
  }

  /** `Math.max(10, (delay - 0.1) * 1000)` for `delay = nextNoteTime - now`. */
  function WakeDelay(next: real, now: real): (ms: real)
    ensures ms >= 10.0 && ms >= (next - now - 0.1) * 1000.0
    ensures ms == 10.0 || ms == (next - now - 0.1) * 1000.0
  {
    var d := (next - now - 0.1) * 1000.0;
    if d > 10.0 then d else 10.0
  }

  /** stopProgression: not playing, the timer cleared, all sounds stopped. */
  function Stopped(s: State): State {
    s.(playing := false, timer := None, log := s.log + [Silence])
  }

  /** The synchronous part of startProgression, up to `await audioCtx.resume()`. */
  function Started(s: State, chords: seq<Step>, loopSetting: Option<bool>): State {
    var t := if s.playing then Stopped(s) else s;
    t.(chords := chords, idx := 0, repeat := 0, loop := loopSetting.GetOr(true), playing := true)
  }

  /** The rest of startProgression once the context runs: abort if stopped meanwhile, else
    * start 50 ms ahead and wake at once. */
  function Resumed(s: State, now: real): State {
    if !s.playing then s else Woken(s.(nextNoteTime := now + 0.05), now)
  }

  /** scheduleProgressionStep at audio time `now`. */
  function Woken(s: State, now: real): State {
    if !s.playing then s
    else if |s.chords| == 0 then Stopped(s)
    else if s.idx >= |s.chords| && !s.loop then Stopped(s)
    else Scheduled(s, now)
  }

  /** The scheduling branch of a wake: the step at the index (or the first, on a loop) is
    * queued and the next wake is timed. */
  function Scheduled(s: State, now: real): State
    requires |s.chords| > 0
  {
    var i := if s.idx >= |s.chords| then 0 else s.idx;
    var eighth := Eighth(s.tempo);
    var next := s.nextNoteTime + StepSpan(s.chords[i], eighth);
    s.(idx := i + 1, nextNoteTime := next,
       log := s.log + StepTriggers(s.chords[i], s.nextNoteTime, eighth),
       timer := Some(WakeDelay(next, now)))
  }

  /** The scheduling branch of a wake, for the step at `i`. */
  lemma WokenStep(s: State, now: real, i: nat)
    requires s.playing && i < |s.chords| && (s.idx < |s.chords| || s.loop)
    requires i == if s.idx >= |s.chords| then 0 else s.idx
    ensures var next := s.nextNoteTime + StepSpan(s.chords[i], Eighth(s.tempo));
      Woken(s, now) == s.(idx := i + 1, nextNoteTime := next,
        log := s.log + StepTriggers(s.chords[i], s.nextNoteTime, Eighth(s.tempo)),
        timer := Some(WakeDelay(next, now)))
  {
  }

  lemma StepSpanOf(step: Step, eighth: real, repeats: int, length: real)
    requires repeats == EffRepeats(step.localRepeats)
    requires length == Times(repeats, Span(step.notes, eighth))
    ensures length == StepSpan(step, eighth)
  {
  }

  /** The timer firing once per entry of `nows`, each firing handled by `wake`. */
  function Wakes(s: State, nows: seq<real>, wake: (State, real) -> State): State
    decreases |nows|
  {
    if |nows| == 0 then s else Wakes(wake(s, nows[0]), nows[1..], wake)
  }

  /** The wake handler as a value. */
  function Waker(): (State, real) -> State {
    (s: State, now: real) => Woken(s, now)
  }

  /** The steps `steps` scheduled back to back from `start`, each step playing `play` and
    * lasting `span`. */
  function RunTriggers(steps: seq<Step>, start: real, play: (Step, real) -> seq<Trigger>, span: Step -> real): seq<Trigger>
    decreases |steps|
  {
    if |steps| == 0 then []
    else play(steps[0], start) + RunTriggers(steps[1..], start + span(steps[0]), play, span)
  }

  /** Their total length. */
  function RunSpan(steps: seq<Step>, span: Step -> real): real
    decreases |steps|
  {
    if |steps| == 0 then 0.0 else span(steps[0]) + RunSpan(steps[1..], span)
  }

  /** The triggers of one step at a tempo, as a value. */
  function StepPlayer(eighth: real): (Step, real) -> seq<Trigger> {
    (step: Step, start: real) => StepTriggers(step, start, eighth)
  }

  /** The length of one step at a tempo, as a value. */
  function StepLengths(eighth: real): Step -> real {
    (step: Step) => StepSpan(step, eighth)
  }

  /** The index never passes the end of the step list. */
  predicate InRange(s: State) {
    s.idx <= |s.chords|
  }

  // ---------------------------------------------------------------------------------------
  // Properties of the transitions

  /** A stopped scheduler ignores a wake and an interrupted start; a second stop changes
    * nothing but another stopAllSounds call. */
  lemma StopFinal(s: State, now: real)
    ensures !Stopped(s).playing && Stopped(s).timer.None?
    ensures Woken(Stopped(s), now) == Stopped(s)
    ensures Resumed(Stopped(s), now) == Stopped(s)
    ensures Stopped(Stopped(s)) == Stopped(s).(log := Stopped(s).log + [Silence])
  {
  }

  /** Starting a running scheduler stops it first (one stopAllSounds), then resets the
    * position, takes the loop setting (default true) and plays. */
  lemma StartResets(s: State, chords: seq<Step>, loopSetting: Option<bool>)
    ensures var t := Started(s, chords, loopSetting);
      t.playing && t.idx == 0 && t.repeat == 0 && t.chords == chords && InRange(t)
      && (loopSetting.None? ==> t.loop) && (loopSetting.Some? ==> t.loop == loopSetting.value)
      && t.log == (if s.playing then s.log + [Silence] else s.log)
      && t.timer == (if s.playing then None else s.timer)
  {
  }

  /** A wake on a playing scheduler stops it when the list is empty, or when it is past the
    * end and not looping. */
  lemma WakeStops(s: State, now: real)
    requires s.playing
    requires |s.chords| == 0 || (s.idx >= |s.chords| && !s.loop)
    ensures Woken(s, now) == Stopped(s)
  {
  }

  /** Otherwise it schedules exactly one step — the current one, or the first after
    * wrapping — advances the index past it and `nextNoteTime` by its length, and arms the
    * next wake at least 10 ms away. */
  lemma WakeSchedules(s: State, now: real)
    requires s.playing && |s.chords| > 0 && (s.idx < |s.chords| || s.loop)
    ensures var i := if s.idx < |s.chords| then s.idx else 0;
      var t := Woken(s, now);
      t.playing && t.idx == i + 1 && InRange(t)
      && t.chords == s.chords && t.loop == s.loop && t.tempo == s.tempo
      && t.nextNoteTime == s.nextNoteTime + StepSpan(s.chords[i], Eighth(s.tempo))
      && t.log == s.log + StepTriggers(s.chords[i], s.nextNoteTime, Eighth(s.tempo))
      && t.timer.Some? && t.timer.value >= 10.0
  {
  }

  /** Every transition keeps the index within the list. */
  lemma InRangeKept(s: State, now: real, chords: seq<Step>, loopSetting: Option<bool>)
    requires InRange(s)
    ensures InRange(Stopped(s)) && InRange(Started(s, chords, loopSetting))
    ensures InRange(Woken(s, now)) && InRange(Resumed(s, now))
  {
  }

  /** Start followed by a resume plays the first step 50 ms after `now`. */
  lemma {:induction false} StartPlaysFirst(s: State, chords: seq<Step>, loopSetting: Option<bool>, now: real)
    requires |chords| > 0
    ensures var t := Started(s, chords, loopSetting);
      var u := Resumed(t, now);
      u.playing && u.idx == 1
      && u.nextNoteTime == now + 0.05 + StepSpan(chords[0], Eighth(s.tempo))
      && u.log == t.log + StepTriggers(chords[0], now + 0.05, Eighth(s.tempo))
  {
    var t := Started(s, chords, loopSetting);
    WakeSchedules(t.(nextNoteTime := now + 0.05), now);
  }

  /** A run is its first step followed by the rest. */
  lemma RunCons(steps: seq<Step>, start: real, play: (Step, real) -> seq<Trigger>, span: Step -> real)
    requires |steps| > 0
    ensures RunSpan(steps, span) == span(steps[0]) + RunSpan(steps[1..], span)
    ensures RunTriggers(steps, start, play, span)
      == play(steps[0], start) + RunTriggers(steps[1..], start + span(steps[0]), play, span)
  {
  }

  /** `t` is `s` after playing the steps of `run` back to back from `s.nextNoteTime`, each
    * with `play` and lasting `span`: the index has moved past them, the list, loop flag and
    * tempo are kept, and the log and the clock have grown by exactly their triggers and
    * their length. */
  predicate RanWith(s: State, t: State, run: seq<Step>, play: (Step, real) -> seq<Trigger>, span: Step -> real) {
    t.playing && t.idx == s.idx + |run| && t.chords == s.chords && t.loop == s.loop && t.tempo == s.tempo
    && t.nextNoteTime == s.nextNoteTime + RunSpan(run, span)
    && t.log == s.log + RunTriggers(run, s.nextNoteTime, play, span)
  }

  /** The same, with the steps played as scheduleSequence plays them at the tempo of `s`. */
  predicate Ran(s: State, t: State, run: seq<Step>) {
    RanWith(s, t, run, StepPlayer(Eighth(s.tempo)), StepLengths(Eighth(s.tempo)))
  }

  /** One wake inside the list runs the one step at the index. */
  lemma WakeRan(s: State, now: real)
    requires s.playing && s.idx < |s.chords|
    ensures Ran(s, Woken(s, now), [s.chords[s.idx]])
  {
    var eighth := Eighth(s.tempo);
    var play := StepPlayer(eighth);
    var span := StepLengths(eighth);
    WakeSchedules(s, now);
    RunCons([s.chords[s.idx]], s.nextNoteTime, play, span);
    assert [s.chords[s.idx]][0] == s.chords[s.idx] && [s.chords[s.idx]][1..] == [];
  }

  /** Two runs back to back are one run of the joined steps. */
  lemma RanJoin(s: State, u: State, t: State, first: Step, rest: seq<Step>, play: (Step, real) -> seq<Trigger>, span: Step -> real)
    requires RanWith(s, u, [first], play, span) && RanWith(u, t, rest, play, span)
    ensures RanWith(s, t, [first] + rest, play, span)
  {
    var run := [first] + rest;
    assert run[0] == first && run[1..] == rest;
    assert [first][0] == first && [first][1..] == [];
    RunCons([first], s.nextNoteTime, play, span);
    RunCons(run, s.nextNoteTime, play, span);
    var a := play(first, s.nextNoteTime);
    var b := RunTriggers(rest, u.nextNoteTime, play, span);
    assert u.log == s.log + a;
    AppendAssoc(s.log, a, b);
  }

  lemma SliceFirst<T>(xs: seq<T>, i: nat, n: nat)
    requires 0 < n && i + n <= |xs|
    ensures xs[i..i + n] == [xs[i]] + xs[i + 1..i + n]
  {
  }

  /** A wake handler that, inside the list, runs the one step at the index, at a fixed
    * tempo. */
  ghost predicate StepsForward(wake: (State, real) -> State, tempo: Tempo, play: (Step, real) -> seq<Trigger>, span: Step -> real) {
    forall s: State, now: real :: s.playing && s.idx < |s.chords| && s.tempo == tempo ==>
      RanWith(s, wake(s, now), [s.chords[s.idx]], play, span)
  }

  lemma Forward(wake: (State, real) -> State, tempo: Tempo, play: (Step, real) -> seq<Trigger>, span: Step -> real, s: State, now: real)
    requires StepsForward(wake, tempo, play, span) && s.playing && s.idx < |s.chords| && s.tempo == tempo
    ensures RanWith(s, wake(s, now), [s.chords[s.idx]], play, span)
  {
  }

  /** Successive wakes of such a handler run the steps in order. */
  lemma {:induction false} RunThroughWith(s: State, nows: seq<real>, wake: (State, real) -> State, play: (Step, real) -> seq<Trigger>, span: Step -> real)
    requires StepsForward(wake, s.tempo, play, span)
    requires s.playing && s.idx + |nows| <= |s.chords|
    ensures RanWith(s, Wakes(s, nows, wake), s.chords[s.idx..s.idx + |nows|], play, span)
    decreases |nows|
  {
    if |nows| == 0 {
      assert s.chords[s.idx..s.idx] == [];
    } else {
      var u := wake(s, nows[0]);
      Forward(wake, s.tempo, play, span, s, nows[0]);
      RunThroughWith(u, nows[1..], wake, play, span);
      SliceFirst(s.chords, s.idx, |nows|);
      RanJoin(s, u, Wakes(u, nows[1..], wake), s.chords[s.idx], s.chords[s.idx + 1..s.idx + |nows|], play, span);
    }
  }

  /** Successive wakes that stay within the list play the steps in order, back to back: the
    * log gains their triggers, each step starting where the previous one ended. */
  lemma RunThrough(s: State, nows: seq<real>)
    requires s.playing && s.idx + |nows| <= |s.chords|
    ensures Ran(s, Wakes(s, nows, Waker()), s.chords[s.idx..s.idx + |nows|])
  {
    var eighth := Eighth(s.tempo);
    forall t: State, now: real | t.playing && t.idx < |t.chords| && t.tempo == s.tempo
      ensures RanWith(t, Waker()(t, now), [t.chords[t.idx]], StepPlayer(eighth), StepLengths(eighth))
    {
      WakeRan(t, now);
    }
    RunThroughWith(s, nows, Waker(), StepPlayer(eighth), StepLengths(eighth));
  }

  /** After the last step, a looping progression wraps to the first step and a non-looping
    * one stops. */
  lemma AtEnd(s: State, now: real)
    requires s.playing && |s.chords| > 0 && s.idx == |s.chords|
    ensures s.loop ==> (Woken(s, now).idx == 1
      && Woken(s, now).log == s.log + StepTriggers(s.chords[0], s.nextNoteTime, Eighth(s.tempo)))
    ensures !s.loop ==> Woken(s, now) == Stopped(s)
  {
  }

  // ---------------------------------------------------------------------------------------
  // Properties of scheduleSequence

  /** Every trigger of `ts` sounds in [lo, hi). */
  predicate Within(ts: seq<Trigger>, lo: real, hi: real) {
    forall i :: 0 <= i < |ts| ==> !ts[i].Silence? && lo <= ts[i].time < hi
  }

  /** Trigger times never decrease along `ts`. */
  predicate InTimeOrder(ts: seq<Trigger>) {
    forall i, j :: 0 <= i < j < |ts| && !ts[i].Silence? && !ts[j].Silence? ==> ts[i].time <= ts[j].time
  }

  lemma WithinOrderedConcat(a: seq<Trigger>, b: seq<Trigger>, lo: real, mid: real, hi: real)
    requires lo <= mid <= hi
    requires Within(a, lo, mid) && Within(b, mid, hi) && InTimeOrder(a) && InTimeOrder(b)
    ensures Within(a + b, lo, hi) && InTimeOrder(a + b)
  {
    forall i | 0 <= i < |a + b|
      ensures !(a + b)[i].Silence? && lo <= (a + b)[i].time < hi
    {
      if i < |a| {
        assert (a + b)[i] == a[i];
      } else {
        assert (a + b)[i] == b[i - |a|];
      }
    }
    forall i, j | 0 <= i < j < |a + b| && !(a + b)[i].Silence? && !(a + b)[j].Silence?
      ensures (a + b)[i].time <= (a + b)[j].time
    {
      if j < |a| {
        assert (a + b)[i] == a[i] && (a + b)[j] == a[j];
      } else if i >= |a| {
        assert (a + b)[i] == b[i - |a|] && (a + b)[j] == b[j - |a|];
      } else {
        assert (a + b)[i] == a[i] && (a + b)[j] == b[j - |a|];
      }
    }
  }

  lemma PositiveStep(e: Event, eighth: real)
    requires eighth > 0.0 && StepLength(e) > 0.0
    ensures eighth * StepLength(e) > 0.0
  {
  }

  /** With positive lengths the running time only grows. */
  lemma {:induction false} SpanPositive(events: seq<Event>, eighth: real)
    requires eighth > 0.0 && PositiveLengths(events)
    ensures Span(events, eighth) >= 0.0
    ensures |events| > 0 ==> Span(events, eighth) > 0.0
  {
    if |events| > 0 {
      var k := |events| - 1;
      assert PositiveLengths(events[..k]);
      SpanPositive(events[..k], eighth);
      PositiveStep(events[k], eighth);
    }
  }

  /** One pass sounds within [loopStart, loopStart + pass), in time order. */
  lemma {:induction false} PassTimes(events: seq<Event>, loopStart: real, eighth: real, play: (Event, real) -> seq<Trigger>, hi: real)
    requires eighth > 0.0 && PositiveLengths(events) && Simultaneous(play)
    requires hi == loopStart + Span(events, eighth)
    ensures Within(PassTriggers(events, loopStart, eighth, play), loopStart, hi)
    ensures InTimeOrder(PassTriggers(events, loopStart, eighth, play))
  {
    if |events| > 0 {
      var k := |events| - 1;
      var init := events[..k];
      assert PositiveLengths(init);
      var at := loopStart + Span(init, eighth);
      PassTimes(init, loopStart, eighth, play, at);
      LastStepBounds(events, loopStart, eighth, at, hi);
      var d := play(events[k], at);
      PlayWithin(play, events[k], at, hi);
      WithinOrderedConcat(PassTriggers(init, loopStart, eighth, play), d, loopStart, at, hi);
    }
  }

  /** The last event of a pass starts after the pass does and ends with it. */
  lemma LastStepBounds(events: seq<Event>, loopStart: real, eighth: real, at: real, hi: real)
    requires eighth > 0.0 && PositiveLengths(events) && |events| > 0
    requires at == loopStart + Span(events[..|events| - 1], eighth) && hi == loopStart + Span(events, eighth)
    ensures loopStart <= at < hi
  {
    var k := |events| - 1;
    assert PositiveLengths(events[..k]);
    SpanPositive(events[..k], eighth);
    PositiveStep(events[k], eighth);
  }

  /** What one event plays sounds at its own time. */
  lemma PlayWithin(play: (Event, real) -> seq<Trigger>, e: Event, at: real, hi: real)
    requires Simultaneous(play) && at < hi
    ensures Within(play(e, at), at, hi) && InTimeOrder(play(e, at))
  {
  }

  lemma PassShift(r: int, pass: real, start: real)
    ensures start + Times(r - 1, pass) + pass == start + Times(r, pass)
  {
  }

  /** Repeated passes sound within [start, start + repeats * pass), in time order. */
  lemma {:induction false} SequenceTimes(events: seq<Event>, start: real, eighth: real, repeats: int, play: (Event, real) -> seq<Trigger>, hi: real)
    requires eighth > 0.0 && PositiveLengths(events) && Simultaneous(play)
    requires hi == start + Times(repeats, Span(events, eighth))
    ensures Within(SequenceTriggers(events, start, eighth, repeats, play), start, hi)
    ensures InTimeOrder(SequenceTriggers(events, start, eighth, repeats, play))
    decreases if repeats < 0 then 0 else repeats
  {
    if repeats > 0 {
      var pass := Span(events, eighth);
      SpanPositive(events, eighth);
      var loopStart := start + Times(repeats - 1, pass);
      SequenceTimes(events, start, eighth, repeats - 1, play, loopStart);
      PassShift(repeats, pass, start);
      PassTimes(events, loopStart, eighth, play, hi);
      TimesNonNegative(repeats - 1, pass);
      WithinOrderedConcat(SequenceTriggers(events, start, eighth, repeats - 1, play), PassTriggers(events, loopStart, eighth, play),
        start, loopStart, hi);
    }
  }

  /**
   * All the triggers of one wake sound between `nextNoteTime` and the new
   * `nextNoteTime`, in time order, when the step's events have positive lengths.
   */
  lemma StepTimes(step: Step, start: real, tempo: Tempo)
    requires PositiveLengths(step.notes)
    ensures var ts := StepTriggers(step, start, Eighth(tempo));
      Within(ts, start, start + StepSpan(step, Eighth(tempo))) && InTimeOrder(ts)
  {
    DispatcherFacts();
    var hi := start + StepSpan(step, Eighth(tempo));
    SequenceTimes(step.notes, start, Eighth(tempo), EffRepeats(step.localRepeats), Dispatcher(), hi);
  }

  /** The number of triggers of a group is the number of its alternatives that sound: those
    * that are percussion or tones with a frequency. */
  predicate Sounds(n: Sound) {
    n.Perc? || (n.Tone? && FreqOf(n.freq, n.note + NatToString(n.octave)).Some?)
  }

  function CountSounding(alts: seq<Sound>): nat {
    if |alts| == 0 then 0
    else CountSounding(alts[..|alts| - 1]) + (if Sounds(alts[|alts| - 1]) then 1 else 0)
  }

  lemma {:induction false} GroupCount(alts: seq<Sound>, time: real)
    ensures |GroupTriggers(alts, time)| == CountSounding(alts)
  {
    if |alts| > 0 {
      GroupCount(alts[..|alts| - 1], time);
    }
  }

  lemma AppendAssoc<T>(a: seq<T>, b: seq<T>, c: seq<T>)
    ensures (a + b) + c == a + (b + c)
  {
  }

  lemma MulStep(r: int, p: int)
    ensures (r - 1) * p + p == r * p
  {
  }

  /** Every pass plays the same number of triggers, so the repeats multiply that number. */
  lemma {:induction false} SequenceCount(events: seq<Event>, start: real, eighth: real, repeats: int, play: (Event, real) -> seq<Trigger>)
    requires repeats >= 0 && TimeFree(play)
    ensures |SequenceTriggers(events, start, eighth, repeats, play)| == repeats * |PassTriggers(events, start, eighth, play)|
    decreases repeats
  {
    if repeats > 0 {
      SequenceCount(events, start, eighth, repeats - 1, play);
      MulStep(repeats, |PassTriggers(events, start, eighth, play)|);
      PassCountShift(events, start, start + Times(repeats - 1, Span(events, eighth)), eighth, play);
    }
  }

  /** The number of triggers in a pass does not depend on where it starts. */
  lemma {:induction false} PassCountShift(events: seq<Event>, a: real, b: real, eighth: real, play: (Event, real) -> seq<Trigger>)
    requires TimeFree(play)
    ensures |PassTriggers(events, a, eighth, play)| == |PassTriggers(events, b, eighth, play)|
  {
    if |events| > 0 {
      var k := |events| - 1;
      PassCountShift(events[..k], a, b, eighth, play);
      assert |play(events[k], a + Span(events[..k], eighth))| == |play(events[k], b + Span(events[..k], eighth))|;
    }
  }

  /** A step with a positive repeat count plays that many copies of one pass. */
  lemma StepCount(step: Step, start: real, tempo: Tempo)
    requires EffRepeats(step.localRepeats) > 0
    ensures |StepTriggers(step, start, Eighth(tempo))|
      == EffRepeats(step.localRepeats) * |PassTriggers(step.notes, start, Eighth(tempo), Dispatcher())|
  {
    DispatcherFacts();
    SequenceCount(step.notes, start, Eighth(tempo), EffRepeats(step.localRepeats), Dispatcher());
  }

  /** The first `notes.forEach` of scheduleSequence: the length of one pass. */
  method PassLength(notes: seq<Event>, eighthNote: real) returns (single: real)
    ensures single == Span(notes, eighthNote)
  {
    single := 0.0;
    for k := 0 to |notes|
      invariant single == Span(notes[..k], eighthNote)
    {
      SpanStep(notes, k, eighthNote);
      single := single + eighthNote * StepLength(notes[k]);
    }
    assert notes[..|notes|] == notes;
  }

  // ---------------------------------------------------------------------------------------
  // The module state and its operations

  class ProgressionScheduler {
    var playing: bool
    var nextNoteTime: real
    var idx: nat
    var repeat: nat
    var loop: bool
    var chords: seq<Step>
    var tempo: Tempo
    var timer: Option<real>
    var log: seq<Trigger>

    function Snapshot(): State
      reads this
    {
      State(playing, nextNoteTime, idx, repeat, loop, chords, tempo, timer, log)
    }

    /** The module as loaded. */
    constructor()
      ensures Snapshot() == Initial
    {
      playing, nextNoteTime, idx, repeat, loop := false, 0.0, 0, 0, true;
      chords, tempo, timer, log := [], 100.0, None, [];
    }

    /** setTempo. */
    method SetTempo(bpm: Tempo)
      modifies this
      ensures Snapshot() == old(Snapshot()).(tempo := bpm)
    {
      tempo := bpm;
    }

    /** stopProgression. */
    method Stop()
      modifies this
      ensures Snapshot() == Stopped(old(Snapshot()))
    {
      playing := false;
      timer := None;
      log := log + [Silence];
    }

    /** startProgression up to the awaited resume. */
    method StartBegin(steps: seq<Step>, loopSetting: Option<bool>)
      modifies this
      ensures Snapshot() == Started(old(Snapshot()), steps, loopSetting)
    {
      if playing {
        Stop();
      }
      chords := steps;
      idx := 0;
      repeat := 0;
      loop := loopSetting.GetOr(true);
      playing := true;
    }

    /** startProgression after the resume, with the audio clock at `now`. */
    method StartResume(now: real)
      modifies this
      ensures Snapshot() == Resumed(old(Snapshot()), now)
    {
      if !playing {
        return;
      }
      nextNoteTime := now + 0.05;
      Wake(now);
    }

    /** toggleProgression: stop and answer false, or start with the default settings and
      * answer true. */
    method Toggle(steps: seq<Step>) returns (started: bool)
      modifies this
      ensures started == !old(playing)
      ensures Snapshot() == if old(playing) then Stopped(old(Snapshot())) else Started(old(Snapshot()), steps, None)
    {
      if playing {
        Stop();
        return false;
      }
      StartBegin(steps, None);
      return true;
    }

    /** scheduleProgressionStep with the audio clock at `now`. */
    method Wake(now: real)
      modifies this
      ensures Snapshot() == Woken(old(Snapshot()), now)
    {
      if !playing {
        return;
      }
      if |chords| == 0 {
        Stop();
        return;
      }
      if idx >= |chords| {
        if !loop {
          Stop();
          return;
        }
        idx := 0;
      }
      PlayStep(now, old(Snapshot()));
    }

    /** The scheduling branch of scheduleProgressionStep, once the index is in range. */
    method PlayStep(now: real, ghost s: State)
      requires s.playing && idx < |s.chords| && (s.idx < |s.chords| || s.loop)
      requires idx == (if s.idx >= |s.chords| then 0 else s.idx)
      requires Snapshot() == s.(idx := idx)
      modifies this
      ensures Snapshot() == Scheduled(s, now)
    {
      var step := chords[idx];
      var repeats := EffRepeats(step.localRepeats);
      WokenStep(s, now, idx);
      ghost var eighth := Eighth(tempo);
      var length := ScheduleSequence(step.notes, nextNoteTime, repeats);
      assert Eighth(tempo) == eighth;
      StepSpanOf(step, eighth, repeats, length);
      nextNoteTime := nextNoteTime + length;
      idx := idx + 1;
      timer := Some(WakeDelay(nextNoteTime, now));
    }

    /** scheduleSequence: plays `repeats` passes of `notes` from `start` and answers their
      * total length. */
    method ScheduleSequence(notes: seq<Event>, start: real, repeats: int) returns (length: real)
      modifies this`log
      ensures length == Times(repeats, Span(notes, Eighth(tempo)))
      ensures log == old(log) + SequenceTriggers(notes, start, Eighth(tempo), repeats, Dispatcher())
    {
      var beatDuration := 60.0 / tempo;
      var eighthNote := beatDuration / 2.0;
      assert eighthNote == Eighth(tempo);
      var single := PassLength(notes, eighthNote);
      length := ScheduleRepeats(notes, start, repeats, eighthNote, single);
    }

    /** The `for (let r = 0; r < repeats; r++)` loop of scheduleSequence, given the length
      * `single` of one pass. */
    method ScheduleRepeats(notes: seq<Event>, start: real, repeats: int, eighthNote: real, single: real) returns (length: real)
      requires single == Span(notes, eighthNote)
      modifies this`log
      ensures length == Times(repeats, single)
      ensures log == old(log) + SequenceTriggers(notes, start, eighthNote, repeats, Dispatcher())
    {
      var r := 0;
      ghost var before := log;
      assert before + [] == before;
      while r < repeats
        invariant r <= repeats || r == 0
        invariant log == before + SequenceTriggers(notes, start, eighthNote, r, Dispatcher())
        decreases repeats - r
      {
        RepeatPass(notes, start, r, eighthNote, single, before);
        r := r + 1;
      }
      length := Total(repeats, single);
    }

    /** Turn `r` of that loop: one more pass, from `start + r * singleSequenceDuration`. */
    method RepeatPass(notes: seq<Event>, start: real, r: nat, eighthNote: real, single: real, ghost before: seq<Trigger>)
      requires single == Span(notes, eighthNote)
      requires log == before + SequenceTriggers(notes, start, eighthNote, r, Dispatcher())
      modifies this`log
      ensures log == before + SequenceTriggers(notes, start, eighthNote, r + 1, Dispatcher())
    {
      var loopStart := PassStart(start, r, single);
      SchedulePass(notes, loopStart, eighthNote);
      ghost var done := SequenceTriggers(notes, start, eighthNote, r, Dispatcher());
      ghost var played := PassTriggers(notes, loopStart, eighthNote, Dispatcher());
      SequenceStep(notes, start, eighthNote, r, loopStart, Dispatcher());
      AppendAssoc(before, done, played);
    }

    /** `start + r * singleSequenceDuration`. */
    static method PassStart(start: real, r: int, single: real) returns (loopStart: real)
      ensures loopStart == start + Times(r, single)
    {
      loopStart := start + r as real * single;
      TimesProduct(r, single);
    }

    /** `repeats * singleSequenceDuration`. */
    static method Total(repeats: int, single: real) returns (length: real)
      ensures length == Times(repeats, single)
    {
      length := repeats as real * single;
      TimesProduct(repeats, single);
    }

    /** One `notes.forEach` of scheduleSequence from `loopStart`. */
    method SchedulePass(notes: seq<Event>, loopStart: real, eighthNote: real)
      modifies this`log
      ensures log == old(log) + PassTriggers(notes, loopStart, eighthNote, Dispatcher())
    {
      var localTime := 0.0;
      assert old(log) + [] == old(log);
      for k := 0 to |notes|
        invariant localTime == Span(notes[..k], eighthNote)
        invariant log == old(log) + PassTriggers(notes[..k], loopStart, eighthNote, Dispatcher())
      {
        SpanStep(notes, k, eighthNote);
        var absTime := loopStart + localTime;
        PassStep(notes, k, loopStart, eighthNote, absTime, Dispatcher());
        var dur := eighthNote * StepLength(notes[k]);
        ghost var done := PassTriggers(notes[..k], loopStart, eighthNote, Dispatcher());
        ghost var played := Dispatch(notes[k], absTime);
        assert Dispatcher()(notes[k], absTime) == played;
        PlayEvent(notes[k], absTime);
        AppendAssoc(old(log), done, played);
        localTime := localTime + dur;
      }
      assert notes[..|notes|] == notes;
    }

    /** The dispatch on one event's type at `absTime`. */
    method PlayEvent(evt: Event, absTime: real)
      modifies this`log
      ensures log == old(log) + Dispatch(evt, absTime)
    {
      match evt
      case Single(Rest, _) =>
      case Single(Perc(hand, isGhost), _) =>
        log := log + [Tak(absTime, hand == "T", isGhost)];
      case Single(Tone(note, octave, freq), _) =>
        if note != "" {
          var name := note + NatToString(octave);
          log := log + PlayTone(FreqOf(freq, name), name, absTime);
        }
      case Group(alts, _) =>
        PlayGroup(alts, absTime);
    }

    /** `evt.notes.forEach(n => …)` for a group at `absTime`. */
    method PlayGroup(alts: seq<Sound>, absTime: real)
      modifies this`log
      ensures log == old(log) + GroupTriggers(alts, absTime)
    {
      for j := 0 to |alts|
        invariant log == old(log) + GroupTriggers(alts[..j], absTime)
      {
        ghost var done := GroupTriggers(alts[..j], absTime);
        var alt := AltTriggers(alts[j], absTime);
        assert GroupTriggers(alts[..j + 1], absTime) == done + alt by {
          assert alts[..j + 1][..j] == alts[..j];
        }
        AppendAssoc(old(log), done, alt);
        log := log + alt;
      }
      assert alts[..|alts|] == alts;
    }
  }
}
