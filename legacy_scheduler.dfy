/**
 * The progression player of the single-file build: the closure variables
 * isProgressionPlaying, nextNoteTime, progressionState and the armed timer, updated by
 * stopPlayback, scheduleProgressionStep (one pass of the current chord per wake, with a
 * per-chord repeat counter) and toggleProgressionPlayback. The audio clock is the `now`
 * argument, the value of the repeat-count input is the `input` argument, and the calls
 * into the audio engine are recorded as a log of triggers.
 */
module LegacyScheduler {
  import opened Wrappers
  import opened Text
  import opened Pitch
  import opened Events
  import Seqs
  import Scheduler

  /** A call into the audio engine: playTak, playTone (always 2.4 s long), and the fade-out
    * of every active node. */
  datatype Trigger =
    | Tak(time: real, isAlt: bool, isGhost: bool)
    | Play(freq: int, length: real, time: real)
    | Silence

  /** A staged chord's `localRepeats`: `undefined` when its `data-repeats` is absent or
    * empty, otherwise what parseInt reads, which may be NaN. */
  datatype Repeats = Unset | Count(n: int) | NaN

  /** The repeat target of a wake: a number, or NaN, which no comparison reaches. */
  datatype Bound = Num(n: int) | NotANumber

  /** A `.progression-item` as toggleProgressionPlayback reads it: `notes` is `None` when
    * `data-notes` is absent, empty or rejected by JSON.parse. */
  datatype StageItem = StageItem(notes: Option<seq<Event>>, repeats: string)

  /** An entry of `progressionState.chords`. */
  datatype Chord = Chord(notes: seq<Event>, local: Repeats)

  /** The closure variables. `audio` is whether the audio context exists, `timer` the
    * delay in milliseconds of the armed `progressionTimeoutId` (`None` once cleared). */
  datatype State = State(
    playing: bool, audio: bool, nextNoteTime: real, idx: nat, repeat: nat,
    chords: seq<Chord>, tempo: Scheduler.Tempo, timer: Option<real>, log: seq<Trigger>)

  /** The variables as the script starts: globalTempo 100, nothing staged. */
  const Initial := State(false, false, 0.0, 0, 0, [], 100.0, None, [])

  // ---------------------------------------------------------------------------------------
  // Repeat counts

  /** `item.dataset.repeats ? parseInt(item.dataset.repeats) : undefined`. */
  function LocalOf(repeats: string): (r: Repeats)
    ensures r.Unset? <==> repeats == []
    ensures r.Count? <==> repeats != [] && JsParseInt(repeats).Some?
    ensures r.Count? ==> r.n == JsParseInt(repeats).value
  {
    if repeats == [] then Unset
    else match JsParseInt(repeats)
      case Some(n) => Count(n)
      case None => NaN
  }

  /** `repeatsInput ? parseInt(repeatsInput.value) || 2 : 2`: NaN and 0 fall back to 2. */
  function RepeatsTarget(input: Option<string>): (n: int)
    ensures n != 0
    ensures n == 2 || (input.Some? && JsParseInt(input.value) == Some(n))
    ensures input.Some? && JsParseInt(input.value).Some? && JsParseInt(input.value).value != 0
      ==> n == JsParseInt(input.value).value
  {
    match input
    case None => 2
    case Some(v) =>
      match JsParseInt(v)
      case Some(n) => if n != 0 then n else 2
      case None => 2
  }

  /** `localRepeats !== undefined ? localRepeats : repeatsTarget`: a local 0 or negative
    * count is kept, unlike the global one. */
  function Target(local: Repeats, fallback: int): (b: Bound)
    ensures local.Unset? ==> b == Num(fallback)
    ensures local.Count? ==> b == Num(local.n)
    ensures b.NotANumber? <==> local.NaN?
  {
    match local
    case Unset => Num(fallback)
    case Count(n) => Num(n)
    case NaN => NotANumber
  }

  /** `repeat >= targetRepeats`, false whenever the target is NaN. */
  predicate Reaches(repeat: int, b: Bound) {
    b.Num? && repeat >= b.n
  }

  /** The "logic for next step": count one more pass of chord `i`, and once the target is
    * reached move to the next chord, wrapping to the first after the last. */
  function Advance(i: nat, repeat: nat, n: nat, b: Bound): (r: (nat, nat))
    requires i < n
    ensures r.0 < n
    ensures Reaches(repeat + 1, b) ==> r == ((i + 1) % n, 0)
    ensures !Reaches(repeat + 1, b) ==> r == (i, repeat + 1)
  {
    if Reaches(repeat + 1, b) then
      (if i + 1 >= n then 0 else i + 1, 0)
    else (i, repeat + 1)
  }

  // ---------------------------------------------------------------------------------------
  // One pass of a chord

  /** `getFrequencyForNoteName(note + octave)` and `if (freq) playTone(freq, 2.4, time)`;
    * the frequency is written as its MIDI number, `None` for the falsy results. */
  function ToneTriggers(note: string, octave: nat, time: real): (r: seq<Trigger>)
    ensures |r| <= 1
    ensures forall tr :: tr in r ==> tr.Play? && tr.time == time && tr.length == 2.4
  {
    match FrequencyMidi(note + NatToString(octave))
    case None => []
    case Some(f) => [Play(f, 2.4, time)]
  }

  /** The dispatch on one note's type: a tak with `hand === 'T'`, nothing for a rest, a
    * tone otherwise; a stored frequency is ignored. */
  function SoundTriggers(n: Sound, time: real): (r: seq<Trigger>)
    ensures |r| <= 1
    ensures n.Rest? ==> r == []
    ensures n.Perc? ==> r == [Tak(time, n.hand == "T", n.isGhost)]
    ensures forall tr :: tr in r ==> (tr.Tak? && tr.time == time) || (tr.Play? && tr.time == time)
  {
    match n
    case Perc(hand, isGhost) => [Tak(time, hand == "T", isGhost)]
    case Rest => []
    case Tone(note, octave, _) => ToneTriggers(note, octave, time)
  }

  /** SoundTriggers as a value: what one note plays in scheduleProgressionStep. The passes
    * below take it as a parameter `sound`, so that they can be reasoned about without
    * unfolding the note-name lookup. */
  function Instrument(): (Sound, real) -> seq<Trigger> {
    (n: Sound, time: real) => SoundTriggers(n, time)
  }

  /** `eventObj.notes.forEach(…)` for a group: every alternative sounds at once. */
  function GroupTriggers(alts: seq<Sound>, time: real, sound: (Sound, real) -> seq<Trigger>): seq<Trigger> {
    if |alts| == 0 then []
    else GroupTriggers(alts[..|alts| - 1], time, sound) + sound(alts[|alts| - 1], time)
  }

  /** What one event plays at `time`. */
  function Dispatch(e: Event, time: real, sound: (Sound, real) -> seq<Trigger>): seq<Trigger> {
    match e
    case Group(alts, _) => GroupTriggers(alts, time, sound)
    case Single(n, _) => sound(n, time)
  }

  /** The `notes.forEach` of scheduleProgressionStep from `start`: each event at `start`
    * plus the lengths of the events before it. */
  function Pass(events: seq<Event>, start: real, eighth: real, sound: (Sound, real) -> seq<Trigger>): seq<Trigger> {
    if |events| == 0 then []
    else
      var k := |events| - 1;
      Pass(events[..k], start, eighth, sound) + Dispatch(events[k], start + Scheduler.Span(events[..k], eighth), sound)
  }

  /** One more event of a prefix extends the pass by that event's triggers. */
  lemma PassStep(events: seq<Event>, k: nat, start: real, eighth: real, time: real, sound: (Sound, real) -> seq<Trigger>)
    requires k < |events| && time == start + Scheduler.Span(events[..k], eighth)
    ensures Pass(events[..k + 1], start, eighth, sound) == Pass(events[..k], start, eighth, sound) + Dispatch(events[k], time, sound)
  {
    var e := events[..k + 1];
    assert e[..k] == events[..k] && e[k] == events[k] && |e| - 1 == k;
  }

  /** A group plays at most one trigger per alternative, each at the group's time. */
  lemma {:induction false} GroupAt(alts: seq<Sound>, time: real)
    ensures |GroupTriggers(alts, time, Instrument())| <= |alts|
    ensures forall tr :: tr in GroupTriggers(alts, time, Instrument()) ==> (tr.Tak? && tr.time == time) || (tr.Play? && tr.time == time)
    decreases |alts|
  {
    if |alts| > 0 {
      var k := |alts| - 1;
      GroupAt(alts[..k], time);
      assert Instrument()(alts[k], time) == SoundTriggers(alts[k], time);
    }
  }

  /** A pass plays only takes and tones, never the fade-out. */
  lemma {:induction false} PassSounds(events: seq<Event>, start: real, eighth: real)
    ensures forall tr :: tr in Pass(events, start, eighth, Instrument()) ==> !tr.Silence?
    decreases |events|
  {
    if |events| > 0 {
      var k := |events| - 1;
      PassSounds(events[..k], start, eighth);
      var time := start + Scheduler.Span(events[..k], eighth);
      PassStep(events, k, start, eighth, time, Instrument());
      assert events[..k + 1] == events;
      match events[k]
      case Group(alts, _) =>
        GroupAt(alts, time);
      case Single(n, _) =>
        assert Instrument()(n, time) == SoundTriggers(n, time);
    }
  }

  /** `Math.max(0.1, currentOffset)`. */
  function PassLength(offset: real): (length: real)
    ensures length >= 0.1 && length >= offset
    ensures length == 0.1 || length == offset
  {
    if offset > 0.1 then offset else 0.1
  }

  // ---------------------------------------------------------------------------------------
  // Staging the chords

  predicate HasNotes(item: StageItem) {
    item.notes.Some?
  }

  /** `{ notes, localRepeats }` of an item that has notes. */
  function ChordOf(item: StageItem): Chord {
    Chord(item.notes.GetOr([]), LocalOf(item.repeats))
  }

  /** The chords `items.forEach` pushes, in document order. */
  function Staged(items: seq<StageItem>): seq<Chord> {
    if |items| == 0 then []
    else
      var last := items[|items| - 1];
      Staged(items[..|items| - 1]) + (if HasNotes(last) then [ChordOf(last)] else [])
  }

  /** The staged chords are exactly the items with notes, each read by ChordOf. */
  lemma {:induction false} StagedItems(items: seq<StageItem>)
    ensures Staged(items) == Seqs.Map(Seqs.Filter(items, HasNotes), ChordOf)
    decreases |items|
  {
    if |items| > 0 {
      var k := |items| - 1;
      StagedItems(items[..k]);
      assert items == items[..k] + [items[k]];
      Seqs.FilterAppend(items[..k], items[k], HasNotes);
      var kept := if HasNotes(items[k]) then [items[k]] else [];
      Seqs.MapConcat(Seqs.Filter(items[..k], HasNotes), kept, ChordOf);
      assert Seqs.Map(kept, ChordOf) == if HasNotes(items[k]) then [ChordOf(items[k])] else [];
    }
  }

  /** Nothing is staged exactly when no item has notes. */
  lemma {:induction false} StagedEmpty(items: seq<StageItem>)
    ensures |Staged(items)| == 0 <==> forall i :: 0 <= i < |items| ==> items[i].notes.None?
    decreases |items|
  {
    if |items| > 0 {
      var k := |items| - 1;
      StagedEmpty(items[..k]);
      assert forall i :: 0 <= i < k ==> items[..k][i] == items[i];
    }
  }

  // ---------------------------------------------------------------------------------------
  // The operations on the variables

  /** stopPlayback: not playing, the timer cleared, the state reset, and, once the audio
    * context exists, every active node faded out. */
  function Stopped(s: State): (r: State)
    ensures !r.playing && r.idx == 0 && r.repeat == 0 && r.chords == [] && r.timer.None?
    ensures r.nextNoteTime == s.nextNoteTime && r.tempo == s.tempo && r.audio == s.audio
    ensures r.log == if s.audio then s.log + [Silence] else s.log
  {
    s.(playing := false, idx := 0, repeat := 0, chords := [], timer := None,
       log := if s.audio then s.log + [Silence] else s.log)
  }

  /** The main branch of scheduleProgressionStep for the chord at `s.idx` with repeat
    * target `b`: one pass from nextNoteTime, the grid moved on by its length (at least a
    * tenth of a second), the counter advanced and the timer armed. */
  function Played(s: State, now: real, b: Bound): (r: State)
    requires s.idx < |s.chords|
    ensures r.playing == s.playing && r.audio == s.audio && r.chords == s.chords && r.tempo == s.tempo
    ensures (r.idx, r.repeat) == Advance(s.idx, s.repeat, |s.chords|, b)
    ensures r.nextNoteTime >= s.nextNoteTime + 0.1
    ensures r.timer.Some? && r.timer.value >= 10.0
    ensures r.log == s.log + Pass(s.chords[s.idx].notes, s.nextNoteTime, Scheduler.Eighth(s.tempo), Instrument())
  {
    var chord := s.chords[s.idx];
    var eighth := Scheduler.Eighth(s.tempo);
    var next := s.nextNoteTime + PassLength(Scheduler.Span(chord.notes, eighth));
    var moved := Advance(s.idx, s.repeat, |s.chords|, b);
    s.(nextNoteTime := next, idx := moved.0, repeat := moved.1,
       log := s.log + Pass(chord.notes, s.nextNoteTime, eighth, Instrument()),
       timer := Some(Scheduler.WakeDelay(next, now)))
  }

  /** scheduleProgressionStep at audio time `now` with the repeat-count input `input`. */
  function Woken(s: State, now: real, input: Option<string>): State {
    Stepped(s, now, RepeatsTarget(input))
  }

  /** scheduleProgressionStep once the repeat-count input has been read as `fallback`:
    * nothing once stopped, a stop when nothing is staged, otherwise a pass of the current
    * chord (the first one again once the index has run past the end). */
  function Stepped(s: State, now: real, fallback: int): (r: State)
    ensures !s.playing ==> r == s
    ensures s.playing && |s.chords| == 0 ==> r == Stopped(s)
    ensures s.playing && |s.chords| > 0 ==>
      r.playing && r.audio == s.audio && r.chords == s.chords && r.tempo == s.tempo &&
      r.idx < |s.chords| && r.nextNoteTime >= s.nextNoteTime + 0.1 &&
      r.timer.Some? && r.timer.value >= 10.0 && s.log <= r.log
  {
    if !s.playing then s
    else if |s.chords| == 0 then Stopped(s)
    else
      var i := if s.idx >= |s.chords| then 0 else s.idx;
      Played(s.(idx := i), now, Target(s.chords[i].local, fallback))
  }

  /** toggleProgressionPlayback at audio time `now`: stop if playing; otherwise stop, create
    * the audio context, stage the chords and, if any, start 50 ms ahead and wake at once. */
  function Toggled(s: State, items: seq<StageItem>, now: real, input: Option<string>): (r: State)
    ensures s.playing ==> r == Stopped(s)
    ensures !s.playing && |Staged(items)| == 0 ==> r == Stopped(s).(audio := true)
    ensures !s.playing && |Staged(items)| > 0 ==>
      r.playing && r.audio && r.chords == Staged(items) && r.tempo == s.tempo &&
      r.nextNoteTime >= now + 0.05 + 0.1 &&
      r.log == Stopped(s).log + Pass(Staged(items)[0].notes, now + 0.05, Scheduler.Eighth(s.tempo), Instrument())
  {
    if s.playing then Stopped(s)
    else
      var t := Stopped(s).(audio := true);
      var chords := Staged(items);
      if |chords| == 0 then t
      else Woken(Begun(t, chords, now), now, input)
  }

  /** The variables toggleProgressionPlayback sets before its first wake. */
  function Begun(s: State, chords: seq<Chord>, now: real): State {
    s.(playing := true, idx := 0, repeat := 0, chords := chords, nextNoteTime := now + 0.05)
  }

  /** The timer firing once per entry of `nows`, the repeat-count input reading as
    * `fallback` throughout. */
  function Wakes(s: State, nows: seq<real>, fallback: int): State
    decreases |nows|
  {
    if |nows| == 0 then s
    else Stepped(Wakes(s, nows[..|nows| - 1], fallback), nows[|nows| - 1], fallback)
  }

  // ---------------------------------------------------------------------------------------
  // What the wakes promise

  /** Below its target a chord is played again: the counter goes up by one per wake. */
  lemma {:induction false} CountsUp(s: State, nows: seq<real>, fallback: int, target: int)
    requires s.playing && s.idx < |s.chords|
    requires Target(s.chords[s.idx].local, fallback) == Num(target)
    requires s.repeat + |nows| < target
    ensures var t := Wakes(s, nows, fallback);
      t.playing && t.chords == s.chords && t.idx == s.idx && t.repeat == s.repeat + |nows|
    decreases |nows|
  {
    if |nows| > 0 {
      var k := |nows| - 1;
      CountsUp(s, nows[..k], fallback, target);
      var u := Wakes(s, nows[..k], fallback);
      assert Wakes(s, nows, fallback) == Stepped(u, nows[k], fallback);
      assert Stepped(u, nows[k], fallback) == Played(u, nows[k], Num(target));
    }
  }

  /** A chord is played exactly as many times as its target asks before the next one
    * (the first after the last) starts, with the counter back at 0. */
  lemma MovesOn(s: State, nows: seq<real>, fallback: int, target: int)
    requires s.playing && s.idx < |s.chords|
    requires Target(s.chords[s.idx].local, fallback) == Num(target)
    requires s.repeat < target && |nows| == target - s.repeat
    ensures var t := Wakes(s, nows, fallback);
      t.playing && t.chords == s.chords && t.idx == (s.idx + 1) % |s.chords| && t.repeat == 0
  {
    var k := |nows| - 1;
    CountsUp(s, nows[..k], fallback, target);
    var u := Wakes(s, nows[..k], fallback);
    assert Wakes(s, nows, fallback) == Stepped(u, nows[k], fallback);
    assert Stepped(u, nows[k], fallback) == Played(u, nows[k], Num(target));
  }

  /** A target already reached (a local count of 0 or below, say) moves on at every wake. */
  lemma OneWakeMoves(s: State, now: real, fallback: int, target: int)
    requires s.playing && s.idx < |s.chords|
    requires Target(s.chords[s.idx].local, fallback) == Num(target)
    requires s.repeat + 1 >= target
    ensures var t := Stepped(s, now, fallback);
      t.playing && t.idx == (s.idx + 1) % |s.chords| && t.repeat == 0
  {
    assert Stepped(s, now, fallback) == Played(s, now, Num(target));
  }

  /** A chord whose `data-repeats` reads as NaN is never left: no count reaches NaN. */
  lemma {:induction false} StuckOnNaN(s: State, nows: seq<real>, fallback: int)
    requires s.playing && s.idx < |s.chords|
    requires s.chords[s.idx].local.NaN?
    ensures var t := Wakes(s, nows, fallback);
      t.playing && t.chords == s.chords && t.idx == s.idx && t.repeat == s.repeat + |nows|
    decreases |nows|
  {
    if |nows| > 0 {
      var k := |nows| - 1;
      StuckOnNaN(s, nows[..k], fallback);
      var u := Wakes(s, nows[..k], fallback);
      assert Wakes(s, nows, fallback) == Stepped(u, nows[k], fallback);
      assert Stepped(u, nows[k], fallback) == Played(u, nows[k], NotANumber);
    }
  }

  /** While playing, every wake moves the grid on by at least a tenth of a second and
    * only appends to the log. */
  lemma {:induction false} TimeAdvances(s: State, nows: seq<real>, fallback: int)
    requires s.playing && |s.chords| > 0
    ensures var t := Wakes(s, nows, fallback);
      t.playing && t.chords == s.chords && s.log <= t.log &&
      t.nextNoteTime >= s.nextNoteTime + 0.1 * |nows| as real
    decreases |nows|
  {
    if |nows| > 0 {
      var k := |nows| - 1;
      TimeAdvances(s, nows[..k], fallback);
      var u := Wakes(s, nows[..k], fallback);
      assert Wakes(s, nows, fallback) == Stepped(u, nows[k], fallback);
    }
  }

  /** A stopped player stays stopped and silent whatever the timer does. */
  lemma {:induction false} StoppedStays(s: State, nows: seq<real>, fallback: int)
    requires !s.playing
    ensures Wakes(s, nows, fallback) == s
    decreases |nows|
  {
    if |nows| > 0 {
      StoppedStays(s, nows[..|nows| - 1], fallback);
    }
  }

  // ---------------------------------------------------------------------------------------
  // The variables and the functions that update them

  class LegacyPlayer {
    var playing: bool
    var audio: bool
    var nextNoteTime: real
    var idx: nat
    var repeat: nat
    var chords: seq<Chord>
    var tempo: Scheduler.Tempo
    var timer: Option<real>
    var log: seq<Trigger>

    function Snapshot(): State
      reads this
    {
      State(playing, audio, nextNoteTime, idx, repeat, chords, tempo, timer, log)
    }

    /** The variables as the script loads. */
    constructor()
      ensures Snapshot() == Initial
    {
      playing, audio, nextNoteTime, idx, repeat := false, false, 0.0, 0, 0;
      chords, tempo, timer, log := [], 100.0, None, [];
    }

    /** The tempo slider's input handler. */
    method SetTempo(bpm: Scheduler.Tempo)
      modifies this
      ensures Snapshot() == old(Snapshot()).(tempo := bpm)
    {
      tempo := bpm;
    }

    /** stopPlayback. */
    method Stop()
      modifies this
      ensures Snapshot() == Stopped(old(Snapshot()))
    {
      timer := None;
      playing := false;
      idx := 0;
      repeat := 0;
      chords := [];
      if audio {
        log := log + [Silence];
      }
    }

    /** toggleProgressionPlayback with the audio clock at `now`. */
    method Toggle(items: seq<StageItem>, now: real, input: Option<string>)
      modifies this
      ensures Snapshot() == Toggled(old(Snapshot()), items, now, input)
    {
      if playing {
        Stop();
        return;
      }
      Stop();
      audio := true;
      if |items| == 0 {
        return;
      }
      var staged := StageChords(items);
      if |staged| == 0 {
        return;
      }
      Begin(staged, now, input);
    }

    /** The end of toggleProgressionPlayback: playing from the first of `staged`, 50 ms
      * ahead of the audio clock, and a first wake at once. */
    method Begin(staged: seq<Chord>, now: real, input: Option<string>)
      modifies this
      ensures Snapshot() == Woken(Begun(old(Snapshot()), staged, now), now, input)
    {
      playing := true;
      idx := 0;
      repeat := 0;
      chords := staged;
      nextNoteTime := now + 0.05;
      Wake(now, input);
    }

    /** The `items.forEach` of toggleProgressionPlayback. */
    static method StageChords(items: seq<StageItem>) returns (staged: seq<Chord>)
      ensures staged == Staged(items)
    {
      staged := [];
      for k := 0 to |items|
        invariant staged == Staged(items[..k])
      {
        assert items[..k + 1][..k] == items[..k];
        if items[k].notes.Some? {
          staged := staged + [Chord(items[k].notes.value, LocalOf(items[k].repeats))];
        }
      }
      assert items[..|items|] == items;
    }

    /** scheduleProgressionStep with the audio clock at `now`. */
    method Wake(now: real, input: Option<string>)
      modifies this
      ensures Snapshot() == Woken(old(Snapshot()), now, input)
    {
      if !playing {
        return;
      }
      var repeatsTarget := RepeatsTarget(input);
      if |chords| == 0 {
        Stop();
        return;
      }
      if idx >= |chords| {
        idx := 0;
      }
      var target := Target(chords[idx].local, repeatsTarget);
      PlayChord(now, target);
    }

    /** The rest of scheduleProgressionStep, for the chord at `idx` and repeat target
      * `target`. */
    method PlayChord(now: real, target: Bound)
      requires idx < |chords|
      modifies this
      ensures Snapshot() == Played(old(Snapshot()), now, target)
    {
      var chord := chords[idx];
      var beatDuration := 60.0 / tempo;
      var baseNoteDuration := beatDuration / 2.0;
      assert baseNoteDuration == Scheduler.Eighth(tempo);
      var offset := SchedulePass(chord.notes, nextNoteTime, baseNoteDuration, Instrument());
      nextNoteTime := nextNoteTime + PassLength(offset);
      NextStep(target);
      timer := Some(Scheduler.WakeDelay(nextNoteTime, now));
    }

    /** The "logic for next step" of scheduleProgressionStep. */
    method NextStep(target: Bound)
      requires idx < |chords|
      modifies this`idx, this`repeat
      ensures (idx, repeat) == Advance(old(idx), old(repeat), |chords|, target)
    {
      repeat := repeat + 1;
      if Reaches(repeat, target) {
        idx := idx + 1;
        repeat := 0;
        if idx >= |chords| {
          idx := 0;
        }
      }
    }

    /** The `notes.forEach` of scheduleProgressionStep from `start`, each note played by
      * `sound`; answers the final `currentOffset`. */
    method SchedulePass(notes: seq<Event>, start: real, eighthNote: real, sound: (Sound, real) -> seq<Trigger>)
      returns (offset: real)
      modifies this`log
      ensures offset == Scheduler.Span(notes, eighthNote)
      ensures log == old(log) + Pass(notes, start, eighthNote, sound)
    {
      offset := 0.0;
      assert old(log) + [] == old(log);
      for k := 0 to |notes|
        invariant offset == Scheduler.Span(notes[..k], eighthNote)
        invariant log == old(log) + Pass(notes[..k], start, eighthNote, sound)
      {
        Scheduler.SpanStep(notes, k, eighthNote);
        var scheduledTime := start + offset;
        PlayNext(notes, k, start, eighthNote, sound, scheduledTime, old(log));
        offset := offset + eighthNote * StepLength(notes[k]);
      }
      assert notes[..|notes|] == notes;
    }

    /** Turn `k` of that loop: the event at `scheduledTime`, after the `k` before it. */
    method PlayNext(notes: seq<Event>, k: nat, start: real, eighthNote: real, sound: (Sound, real) -> seq<Trigger>,
                    scheduledTime: real, ghost before: seq<Trigger>)
      requires k < |notes| && scheduledTime == start + Scheduler.Span(notes[..k], eighthNote)
      requires log == before + Pass(notes[..k], start, eighthNote, sound)
      modifies this`log
      ensures log == before + Pass(notes[..k + 1], start, eighthNote, sound)
    {
      ghost var done := Pass(notes[..k], start, eighthNote, sound);
      ghost var played := Dispatch(notes[k], scheduledTime, sound);
      PassStep(notes, k, start, eighthNote, scheduledTime, sound);
      PlayEvent(notes[k], scheduledTime, sound);
      assert log == (before + done) + played;
      Scheduler.AppendAssoc(before, done, played);
    }

    /** One event at `time`. */
    method PlayEvent(evt: Event, time: real, sound: (Sound, real) -> seq<Trigger>)
      modifies this`log
      ensures log == old(log) + Dispatch(evt, time, sound)
    {
      match evt
      case Group(alts, _) =>
        PlayGroup(alts, time, sound);
      case Single(n, _) =>
        log := log + sound(n, time);
    }

    /** `eventObj.notes.forEach(…)` for a group at `time`. */
    method PlayGroup(alts: seq<Sound>, time: real, sound: (Sound, real) -> seq<Trigger>)
      modifies this`log
      ensures log == old(log) + GroupTriggers(alts, time, sound)
    {
      for j := 0 to |alts|
        invariant log == old(log) + GroupTriggers(alts[..j], time, sound)
      {
        assert alts[..j + 1][..j] == alts[..j];
        log := log + sound(alts[j], time);
      }
      assert alts[..|alts|] == alts;
    }
  }
}
