/**
 * The timed event objects shared by the parser, the scheduler, the editor and the
 * progression stage (they travel between them as JSON).
 */
module Events {
  import opened Wrappers

  /** One sounding element: `{type:'percussion', hand, isGhost}`, `{type:'rest'}`, or a pitched
    * note `{note, octave, freq?}` (`freq` as a MIDI number, `None` when absent or falsy). */
  datatype Sound =
    | Perc(hand: string, isGhost: bool)
    | Rest
    | Tone(note: string, octave: nat, freq: Option<int>)

  /**
   * A step of a sequence. The parser only builds `{isGroup: true, notes}` wrappers; chord
   * voicings put on the stage are bare note objects. `duration` is `None` when absent.
   */
  datatype Event =
    | Group(alts: seq<Sound>, duration: Option<real>)
    | Single(sound: Sound, duration: Option<real>)

  /** `evt.duration || 1`. */
  function StepLength(e: Event): (d: real)
    ensures d != 0.0
    ensures e.duration.Some? && e.duration.value != 0.0 ==> d == e.duration.value
    ensures e.duration.None? || e.duration.value == 0.0 ==> d == 1.0
  {
    match e.duration
    case Some(d) => if d != 0.0 then d else 1.0
    case None => 1.0
  }

  /** Every step has a positive length. */
  predicate PositiveLengths(events: seq<Event>) {
    forall i :: 0 <= i < |events| ==> StepLength(events[i]) > 0.0
  }
}
