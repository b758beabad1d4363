/** Note names and their pitch values (the pure helpers of the chord engine). */
module Pitch {
  import opened Wrappers
  import opened Text
  import opened Constants
  import opened Sorting

  /** `{note, octave, value}` as parseNoteName returns it; `value` is MIDI minus 48 (C3). */
  datatype NoteVal = NoteVal(note: string, octave: nat, value: int)

  /** The sharp spellings getNoteName indexes, one per pitch class. */
  const SharpNames: seq<string> := ["C", "C#", "D", "D#", "E", "F", "F#", "G", "G#", "A", "A#", "B"]

  /** JavaScript's `a % 12`: the remainder takes the sign of `a`. */
  function JsRem12(a: int): (r: int)
    ensures a >= 0 ==> r == a % 12
    ensures -12 < r < 12
    ensures (a - r) % 12 == 0
    ensures r < 0 ==> a < 0
  {
    if a >= 0 then a % 12 else -((-a) % 12)
  }

  /** getNoteName: `notes[value % 12]`, `undefined` for a negative index. */
  function GetNoteName(value: int): (name: Option<string>)
    ensures value >= 0 ==> name.Some? && NoteToMidi(name.value) == Some(value % 12)
    ensures value >= 0 ==> |name.value| == 1 || (|name.value| == 2 && name.value[1] == '#')
    ensures name.Some? <==> JsRem12(value) >= 0
  {
    var i := JsRem12(value);
    if i >= 0 then Some(SharpNames[i]) else None
  }

  predicate IsNoteLetter(c: char) { 'A' <= c <= 'G' }

  /**
   * The pitch pattern `/^([A-G][#b]?)(\d)$/`: the spelling as written and the octave digit.
   * `maxOctave` is 8 for the `[0-8]` variant; `anyCase` adds the `i` flag, under which
   * `[#b]` also accepts `B`.
   */
  function MatchPitch(s: string, maxOctave: nat, anyCase: bool): (m: Option<(string, nat)>)
    ensures m.Some? ==> 1 <= |m.value.0| <= 2 && m.value.1 <= maxOctave && m.value.1 <= 9
    ensures m.Some? ==> s == m.value.0 + [DigitChar(m.value.1)]
    ensures m.Some? && !anyCase ==> IsNoteLetter(m.value.0[0])
    ensures m.Some? && !anyCase && |m.value.0| == 2 ==> m.value.0[1] == '#' || m.value.0[1] == 'b'
  {
    if |s| == 2 && IsLetterIn(s[0], anyCase) && IsDigit(s[1]) && DigitValue(s[1]) <= maxOctave then
      Some(([s[0]], DigitValue(s[1])))
    else if |s| == 3 && IsLetterIn(s[0], anyCase) && IsAccidental(s[1], anyCase) && IsDigit(s[2])
      && DigitValue(s[2]) <= maxOctave then
      Some((s[..2], DigitValue(s[2])))
    else None
  }

  predicate IsLetterIn(c: char, anyCase: bool) {
    IsNoteLetter(c) || (anyCase && 'a' <= c <= 'g')
  }

  predicate IsAccidental(c: char, anyCase: bool) {
    c == '#' || c == 'b' || (anyCase && c == 'B')
  }

  /** `/^([A-G][#b]?)([0-8])$/` as parseNoteName and getFrequencyForNoteName use it. */
  function MatchNoteName(s: string): Option<(string, nat)> {
    MatchPitch(s, 8, false)
  }

  /** A spelling and octave digit written out are matched back. */
  lemma MatchPitchOf(note: string, octave: nat, maxOctave: nat, anyCase: bool)
    requires 1 <= |note| <= 2 && IsLetterIn(note[0], anyCase) && octave <= maxOctave && octave <= 9
    requires |note| == 2 ==> IsAccidental(note[1], anyCase)
    ensures MatchPitch(note + [DigitChar(octave)], maxOctave, anyCase) == Some((note, octave))
  {
    var s := note + [DigitChar(octave)];
    if |note| == 2 { assert s[..2] == note; } else { assert [s[0]] == note; }
  }

  /** parseNoteName: strips a leading `D:`, and reads the value with semitone 0 for an unknown spelling. */
  function ParseNoteName(name: string): (r: Option<NoteVal>)
    ensures r.Some? <==> MatchNoteName(StripDingPrefix(name)).Some?
    ensures r.Some? ==> -36 <= r.value.value <= 71 && r.value.octave <= 8
    ensures r.Some? ==> (r.value.note, r.value.octave) == MatchNoteName(StripDingPrefix(name)).value
  {
    match MatchNoteName(StripDingPrefix(name))
    case None => None
    case Some((note, octave)) =>
      Some(NoteVal(note, octave, (octave + 1) * 12 + NoteToMidi(note).GetOr(0) - 48))
  }

  /** The value is twelve per octave above C3 plus the semitone, 0 for spellings such as `E#`. */
  lemma ParseNoteNameValue(name: string)
    requires ParseNoteName(name).Some?
    ensures var n := ParseNoteName(name).value;
      n.value == 12 * n.octave + NoteToMidi(n.note).GetOr(0) - 36
    ensures var n := ParseNoteName(name).value;
      NoteToMidi(n.note).Some? ==> (n.value + 48) % 12 == NoteToMidi(n.note).value
  {
  }

  /** getNoteName and parseNoteName agree: a sharp name written with an octave reads back. */
  lemma {:induction false} NoteNameRoundTrip(value: int, octave: nat)
    requires value >= 0 && octave <= 8
    ensures var name := GetNoteName(value).value;
      ParseNoteName(name + NatToString(octave)) == Some(NoteVal(name, octave, 12 * octave + value % 12 - 36))
  {
    var name := GetNoteName(value).value;
    var s := name + NatToString(octave);
    assert !StartsWith(s, "D:") by {
      if |name| == 2 { assert s[1] == '#'; } else { assert s[1] == DigitChar(octave); }
    }
    MatchPitchOf(name, octave, 8, false);
  }

  /**
   * getFrequencyForNoteName as the MIDI number of the frequency it computes, which rises
   * strictly with MIDI. `None` stands for its two falsy results: 0 when the name does
   * not match, NaN when the spelling is missing from NOTE_TO_MIDI.
   */
  function FrequencyMidi(name: string): (m: Option<int>)
    ensures m.Some? ==> 12 <= m.value <= 119
  {
    match MatchNoteName(StripDingPrefix(name))
    case None => None
    case Some((note, octave)) =>
      match NoteToMidi(note)
      case None => None
      case Some(semitone) => Some((octave + 1) * 12 + semitone)
  }

  /** A frequency exists exactly for parseable names with a known spelling, at value + 48. */
  lemma FrequencyMatchesValue(name: string)
    ensures FrequencyMidi(name).Some? <==>
      ParseNoteName(name).Some? && NoteToMidi(ParseNoteName(name).value.note).Some?
    ensures FrequencyMidi(name).Some? ==> FrequencyMidi(name).value == ParseNoteName(name).value.value + 48
  {
  }

  /** The sort key of sortNotesByPitch: `octave * 12 + (NOTE_TO_MIDI[note] || 0)`. */
  function PitchKey(n: NoteVal): int {
    n.octave * 12 + NoteToMidi(n.note).GetOr(0)
  }

  function PitchOrder(): (NoteVal, NoteVal) -> bool {
    ByKey(PitchKey)
  }

  /** sortNotesByPitch: a sorted copy; the argument, a value, is untouched. */
  function SortNotesByPitch(notes: seq<NoteVal>): (r: seq<NoteVal>)
    ensures multiset(r) == multiset(notes)
    ensures forall i, j :: 0 <= i < j < |r| ==> PitchKey(r[i]) <= PitchKey(r[j])
    ensures forall y :: Ties(r, PitchOrder(), y) == Ties(notes, PitchOrder(), y)
  {
    ByKeyTotal(PitchKey);
    SortBySorted(notes, PitchOrder());
    SortByStableAll(notes, PitchOrder());
    SortBy(notes, PitchOrder())
  }
}
