/** The musical lookup tables: note spellings, chord interval patterns and their priorities. */
module Constants {
  import opened Wrappers

  /** The 17 spellings NOTE_TO_MIDI knows, in its order. */
  const Spellings: seq<string> := [
    "C", "C#", "Db", "D", "D#", "Eb", "E", "F", "F#", "Gb", "G", "G#", "Ab", "A", "A#", "Bb", "B"
  ]

  /** `NOTE_TO_MIDI[name]`, the semitone above C; `None` stands for `undefined`. */
  function NoteToMidi(name: string): (r: Option<int>)
    ensures r.Some? ==> 0 <= r.value < 12
  {
    if name == "C" then Some(0)
    else if name == "C#" || name == "Db" then Some(1)
    else if name == "D" then Some(2)
    else if name == "D#" || name == "Eb" then Some(3)
    else if name == "E" then Some(4)
    else if name == "F" then Some(5)
    else if name == "F#" || name == "Gb" then Some(6)
    else if name == "G" then Some(7)
    else if name == "G#" || name == "Ab" then Some(8)
    else if name == "A" then Some(9)
    else if name == "A#" || name == "Bb" then Some(10)
    else if name == "B" then Some(11)
    else None
  }

  /** The table knows each of the 17 spellings. */
  lemma NoteToMidiKnown()
    ensures forall i :: 0 <= i < |Spellings| ==> NoteToMidi(Spellings[i]).Some?
  {
  }

  /** Enharmonic spellings agree. */
  lemma NoteToMidiEnharmonic()
    ensures NoteToMidi("C#") == NoteToMidi("Db") == Some(1)
    ensures NoteToMidi("D#") == NoteToMidi("Eb") == Some(3)
    ensures NoteToMidi("F#") == NoteToMidi("Gb") == Some(6)
    ensures NoteToMidi("G#") == NoteToMidi("Ab") == Some(8)
    ensures NoteToMidi("A#") == NoteToMidi("Bb") == Some(10)
  {
  }

  /** Spellings missing from the table, such as `E#`, are unknown. */
  lemma NoteToMidiUnknown(name: string)
    requires name !in Spellings
    ensures NoteToMidi(name).None?
  {
  }

  /** One entry of CHORD_TYPES: a name and the intervals (in semitones) above the root. */
  datatype ChordType = ChordType(name: string, intervals: seq<int>)

  /**
   * CHORD_TYPES in the order `Object.entries` yields them: ECMAScript enumerates the
   * integer-like keys `'5'` and `'7'` first (ascending), then the others in insertion order.
   */
  const ChordTypes: seq<ChordType> := [
    ChordType("5", [7]),
    ChordType("7", [4, 7, 10]),
    ChordType("Major", [4, 7]),
    ChordType("Minor", [3, 7]),
    ChordType("Diminished", [3, 6]),
    ChordType("Sus2", [2, 7]),
    ChordType("Sus4", [5, 7]),
    ChordType("Maj7", [4, 7, 11]),
    ChordType("Min7", [3, 7, 10]),
    ChordType("Dim7", [3, 6, 9]),
    ChordType("Min7b5", [3, 6, 10]),
    ChordType("M3", [4]),
    ChordType("m3", [3])
  ]

  /** CHORD_TYPE_PRIORITY; `None` stands for `undefined`. Lower sorts first. */
  function Priority(typeName: string): (r: Option<int>)
    ensures r.Some? ==> 1 <= r.value <= 8
  {
    if typeName == "Minor" then Some(1)
    else if typeName == "Major" then Some(2)
    else if typeName == "Sus2" || typeName == "Sus4" then Some(3)
    else if typeName == "5" then Some(4)
    else if typeName == "Min7" || typeName == "Maj7" then Some(5)
    else if typeName == "7" then Some(6)
    else if typeName == "Diminished" || typeName == "Dim7" || typeName == "Min7b5" then Some(7)
    else if typeName == "M3" || typeName == "m3" then Some(8)
    else None
  }

  predicate StrictlyAscending(s: seq<int>) {
    forall i, j :: 0 <= i < j < |s| ==> s[i] < s[j]
  }

  /** Every interval list is strictly ascending within 1..11. */
  lemma ChordTypeIntervals()
    ensures forall i :: 0 <= i < |ChordTypes| ==> StrictlyAscending(ChordTypes[i].intervals)
    ensures forall i, k :: 0 <= i < |ChordTypes| && 0 <= k < |ChordTypes[i].intervals| ==>
      1 <= ChordTypes[i].intervals[k] <= 11
  {
  }

  /** No two chord types share a name or an interval list. */
  lemma ChordTypesDistinct()
    ensures forall i, j :: 0 <= i < j < |ChordTypes| ==>
      ChordTypes[i].intervals != ChordTypes[j].intervals
    ensures forall i, j :: 0 <= i < j < |ChordTypes| ==> ChordTypes[i].name != ChordTypes[j].name
  {
    ChordIntervalsDistinct();
    ChordNamesDistinct();
  }

  lemma ChordIntervalsDistinct()
    ensures forall i, j :: 0 <= i < j < |ChordTypes| ==>
      ChordTypes[i].intervals != ChordTypes[j].intervals
  {
  }

  lemma ChordNamesDistinct()
    ensures forall i, j :: 0 <= i < j < |ChordTypes| ==> ChordTypes[i].name != ChordTypes[j].name
  {
  }

  /** A strictly ascending list is determined by its length and elements. */
  lemma {:induction false} AscendingByElements(a: seq<int>, b: seq<int>)
    requires StrictlyAscending(a) && StrictlyAscending(b) && |a| == |b|
    requires forall x :: x in a <==> x in b
    ensures a == b
  {
    if |a| > 0 && |b| > 0 {
      assert a[0] in b && b[0] in a;
      assert a[0] == b[0];
      forall x ensures x in a[1..] <==> x in b[1..] {
        assert x in a[1..] <==> x in a && x != a[0];
        assert x in b[1..] <==> x in b && x != b[0];
      }
      AscendingByElements(a[1..], b[1..]);
      assert a == [a[0]] + a[1..] && b == [b[0]] + b[1..];
    }
  }

  /** Only `5`, `M3` and `m3` have a single required interval. */
  lemma SingleIntervalTypes()
    ensures forall i :: 0 <= i < |ChordTypes| && |ChordTypes[i].intervals| == 1 ==>
      ChordTypes[i].name == "5" || ChordTypes[i].name == "M3" || ChordTypes[i].name == "m3"
  {
  }

  /** Every chord type has a priority, so the `|| 99` fallback never fires. */
  lemma PrioritiesCoverTypes()
    ensures forall i :: 0 <= i < |ChordTypes| ==> Priority(ChordTypes[i].name).Some?
  {
  }
}
