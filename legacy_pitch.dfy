/**
 * The pitch helpers of the earlier single-file application: note names written from MIDI
 * numbers and read back, and scales laid out from a template and a ding key. Reading a name
 * (parseNoteName) and its frequency are the same code as the chord engine's and are shared
 * with the Pitch module.
 */
module LegacyPitch {
  import opened Wrappers
  import opened Text
  import opened Seqs
  import opened Constants
  import opened Pitch
  import opened Scales

  /** The spellings getNoteFromMIDI writes, one per pitch class: sharps for C#, F#, flats
    * for the others. */
  const MidiNames: seq<string> := ["C", "C#", "D", "Eb", "E", "F", "F#", "G", "Ab", "A", "Bb", "B"]

  /** Each spelling is known to NOTE_TO_MIDI at its own pitch class. */
  lemma MidiNameSemitone(i: int)
    requires 0 <= i < 12
    ensures NoteToMidi(MidiNames[i]) == Some(i)
  {
    if i < 6 {
      if i == 0 {} else if i == 1 {} else if i == 2 {} else if i == 3 {} else if i == 4 {} else {}
    } else {
      if i == 6 {} else if i == 7 {} else if i == 8 {} else if i == 9 {} else if i == 10 {} else {}
    }
  }

  /** Each spelling is a letter, optionally followed by `#` or `b`. */
  lemma MidiNamesShape()
    ensures forall i :: 0 <= i < 12 ==> 1 <= |MidiNames[i]| <= 2 && IsNoteLetter(MidiNames[i][0])
    ensures forall i :: 0 <= i < 12 && |MidiNames[i]| == 2 ==> MidiNames[i][1] == '#' || MidiNames[i][1] == 'b'
  {
  }

  /** getNoteFromMIDI: `names[midi % 12]` (undefined for a negative remainder) followed by
    * `Math.floor(midi / 12) - 1`. */
  function NoteFromMidi(midi: int): (name: string)
    ensures |name| >= 2
  {
    var i := JsRem12(midi);
    (if i >= 0 then MidiNames[i] else "undefined") + IntToString(midi / 12 - 1)
  }

  /** Every MIDI number from 12 (C0) to 119 (B8) is written as a name that reads back as
    * that number, 48 below as parseNoteName counts. */
  lemma MidiRoundTrip(m: int)
    requires 12 <= m <= 119
    ensures ParseNoteName(NoteFromMidi(m)) == Some(NoteVal(MidiNames[m % 12], m / 12 - 1, m - 48))
    ensures FrequencyMidi(NoteFromMidi(m)) == Some(m)
  {
    var o: nat := m / 12 - 1;
    var n := MidiNames[m % 12];
    MidiNamesShape();
    MidiNameSemitone(m % 12);
    assert NoteFromMidi(m) == n + [DigitChar(o)];
    MatchPitchOf(n, o, 8, false);
    assert !StartsWith(NoteFromMidi(m), "D:") by {
      assert NoteFromMidi(m)[1] != ':';
    }
    FrequencyMatchesValue(NoteFromMidi(m));
  }

  /** Outside 12..119 the name does not read back: the octave is negative or above 8. */
  lemma MidiOutOfRange(m: int)
    requires m < 12 || m > 119
    ensures ParseNoteName(NoteFromMidi(m)).None?
  {
    var s := NoteFromMidi(m);
    var i := JsRem12(m);
    var o := m / 12 - 1;
    var t := IntToString(o);
    MidiNamesShape();
    if i < 0 {
      assert |s| > 3 && s[1] == 'n';
    } else {
      var n := MidiNames[i];
      assert s == n + t;
      if o < 0 {
        assert t[0] == '-' && |t| >= 2;
        assert s[|n|] == '-';
      } else if o == 9 {
        assert t == "9";
      } else {
        assert o >= 10;
        assert |t| >= 2 && IsDigit(t[0]) by {
          assert t == NatToString(o / 10) + [DigitChar(o % 10)];
        }
        assert IsDigit(s[|n|]);
      }
      assert s[1] != ':';
    }
  }

  /** The name reads back exactly for 12..119. */
  lemma MidiReadsBack(m: int)
    ensures ParseNoteName(NoteFromMidi(m)).Some? <==> 12 <= m <= 119
  {
    if 12 <= m <= 119 { MidiRoundTrip(m); } else { MidiOutOfRange(m); }
  }

  // ---------------------------------------------------------------------------------
  // Scales from templates
  // ---------------------------------------------------------------------------------

  /** The ding's semitone: the key's NOTE_TO_MIDI entry, D when the key is unknown. */
  function DingOffset(dingKey: string): (r: int)
    ensures 0 <= r < 12
  {
    NoteToMidi(dingKey).GetOr(2)
  }

  function NameAbove(ding: int): int -> string {
    (offset: int) => NoteFromMidi(ding + offset)
  }

  /** The top notes: the ding, then one note per offset of the formula. */
  function TemplateTop(formula: seq<int>, ding: int): seq<string> {
    [NoteFromMidi(ding)] + Map(formula, NameAbove(ding))
  }

  /** The scale generateScaleFromTemplate builds: the ding in octave 3, then one note per
    * offset of the formula, no bottom notes. */
  function TemplateScale(t: Template, dingKey: string): Scale {
    Scale("auto-" + ToLower(t.name) + "-" + ToLower(dingKey), dingKey + " " + t.name,
          TemplateTop(t.formula, 48 + DingOffset(dingKey)), [])
  }

  /** generateScaleFromTemplate. */
  method GenerateScaleFromTemplate(t: Template, dingKey: string) returns (scale: Scale)
    ensures scale == TemplateScale(t, dingKey)
  {
    var rootOffset := 2;
    if NoteToMidi(dingKey).Some? {
      rootOffset := NoteToMidi(dingKey).value;
    }
    var dingMidi := 48 + rootOffset;
    var top := [NoteFromMidi(dingMidi)];
    var i := 0;
    while i < |t.formula|
      invariant 0 <= i <= |t.formula|
      invariant top == TemplateTop(t.formula[..i], dingMidi)
    {
      MapPrefix(t.formula, i, NameAbove(dingMidi));
      top := top + [NoteFromMidi(dingMidi + t.formula[i])];
      i := i + 1;
    }
    assert t.formula[..i] == t.formula;
    scale := Scale("auto-" + ToLower(t.name) + "-" + ToLower(dingKey), dingKey + " " + t.name, top, []);
  }

  /** The ding is written at the MIDI number given, and side note `i` at the ding plus the
    * formula's offset `i`, whenever that stays within 12..119. */
  lemma TemplateTopPitches(formula: seq<int>, ding: int)
    requires 12 <= ding <= 119
    ensures var top := TemplateTop(formula, ding);
      |top| == |formula| + 1 && ParseNoteName(top[0]).Some? && ParseNoteName(top[0]).value.value == ding - 48
    ensures var top := TemplateTop(formula, ding);
      forall i :: 0 <= i < |formula| && 12 <= ding + formula[i] <= 119 ==>
        ParseNoteName(top[i + 1]).Some? && ParseNoteName(top[i + 1]).value.value == ding + formula[i] - 48
  {
    var top := TemplateTop(formula, ding);
    MidiRoundTrip(ding);
    forall i | 0 <= i < |formula| && 12 <= ding + formula[i] <= 119
      ensures ParseNoteName(top[i + 1]).Some? && ParseNoteName(top[i + 1]).value.value == ding + formula[i] - 48
    {
      assert top[i + 1] == Map(formula, NameAbove(ding))[i];
      MidiRoundTrip(ding + formula[i]);
    }
  }

  /** The ding sits at MIDI 48 plus the key's semitone (D for an unknown key), named in
    * octave 3, and side note `i` at the ding plus the formula's offset `i` whenever that
    * stays within 12..119; there are no bottom notes. */
  lemma TemplateScalePitches(t: Template, dingKey: string)
    ensures var s := TemplateScale(t, dingKey);
      |s.top| == |t.formula| + 1 && s.bottom == [] &&
      ParseNoteName(s.top[0]) == Some(NoteVal(MidiNames[DingOffset(dingKey)], 3, DingOffset(dingKey)))
    ensures var s := TemplateScale(t, dingKey);
      forall i :: 0 <= i < |t.formula| && 12 <= 48 + DingOffset(dingKey) + t.formula[i] <= 119 ==>
        ParseNoteName(s.top[i + 1]).Some? &&
        ParseNoteName(s.top[i + 1]).value.value == DingOffset(dingKey) + t.formula[i]
  {
    var d := DingOffset(dingKey);
    var ding := 48 + d;
    assert ding % 12 == d && ding / 12 - 1 == 3;
    TemplateTopPitches(t.formula, ding);
    MidiRoundTrip(ding);
    assert ParseNoteName(TemplateScale(t, dingKey).top[0]) == ParseNoteName(NoteFromMidi(ding));
  }
}
