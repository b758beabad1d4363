/**
 * The chord table of the earlier single-file application. Its identifyChord is the chord
 * engine's code; only the table differs: it has no bare thirds.
 */
module LegacyChords {
  import opened Wrappers
  import opened Constants
  import opened Pitch
  import opened Sorting
  import opened Chords

  /** CHORD_TYPES in `Object.entries` order: the integer-like keys `'5'` and `'7'` first,
    * then the others as declared. */
  const LegacyChordTypes: seq<ChordType> := [
    ChordType("5", [7]),
    ChordType("7", [4, 7, 10]),
    ChordType("Major", [4, 7]),
    ChordType("Minor", [3, 7]),
    ChordType("Diminished", [3, 6]),
    ChordType("Sus2", [2, 7]),
    ChordType("Sus4", [5, 7]),
    ChordType("Maj7", [4, 7, 11]),
    ChordType("Min7", [3, 7, 10]),
    ChordType("Dim7", [3, 6, 9]),
    ChordType("Min7b5", [3, 6, 10])
  ]

  /** The current table is this one with the two thirds appended. */
  lemma CurrentTableExtends()
    ensures ChordTypes == LegacyChordTypes + [ChordType("M3", [4]), ChordType("m3", [3])]
  {
  }

  /** Only the power chord has a single required interval. */
  lemma LegacySingleInterval()
    ensures forall t :: 0 <= t < |LegacyChordTypes| && |LegacyChordTypes[t].intervals| == 1 ==>
      LegacyChordTypes[t].name == "5"
  {
  }

  /** Types appended to a table that cannot fit do not change the first fit. */
  lemma {:induction false} FirstFitIgnoresUnfit(a: seq<ChordType>, b: seq<ChordType>, ivs: seq<int>, arity: int, k: nat)
    requires k <= |a|
    requires forall t :: 0 <= t < |b| ==> |b[t].intervals| != arity
    ensures FirstFit(a + b, ivs, arity, k) == FirstFit(a, ivs, arity, k)
    decreases |a| - k
  {
    if k == |a| {
      forall t | |a| <= t < |a + b| ensures !Fits((a + b)[t], ivs, arity) {
        assert (a + b)[t] == b[t - |a|];
      }
    } else {
      assert (a + b)[k] == a[k];
      FirstFitIgnoresUnfit(a, b, ivs, arity, k + 1);
    }
  }

  /** Two tables that give every root the same first fit pick the same root and type. */
  lemma FindRootAgree(t1: seq<ChordType>, t2: seq<ChordType>, sorted: seq<NoteVal>)
    requires forall q :: 0 <= q < |sorted| ==>
      FirstFit(t1, RootIntervals(sorted, q), |sorted| - 1, 0) == FirstFit(t2, RootIntervals(sorted, q), |sorted| - 1, 0)
    ensures FindRoot(t1, sorted, 0) == FindRoot(t2, sorted, 0)
  {
    var r1 := FindRoot(t1, sorted, 0);
    var r2 := FindRoot(t2, sorted, 0);
    if r1.Some? && r2.Some? {
      var i1, i2 := r1.value.0, r2.value.0;
      if i1 < i2 {
        assert false;
      } else if i2 < i1 {
        assert false;
      }
    } else if r1.Some? {
      assert false;
    } else if r2.Some? {
      assert false;
    }
  }

  /** Except for two notes, the earlier table names every set of notes as the current one
    * does. */
  lemma LegacyAgrees(notes: seq<NoteVal>)
    requires |notes| != 2
    ensures IdentifyWith(LegacyChordTypes, notes) == Identify(notes)
  {
    var extra := [ChordType("M3", [4]), ChordType("m3", [3])];
    CurrentTableExtends();
    var sorted := SortBy(notes, ValueOrder());
    forall q | 0 <= q < |sorted|
      ensures FirstFit(ChordTypes, RootIntervals(sorted, q), |sorted| - 1, 0)
        == FirstFit(LegacyChordTypes, RootIntervals(sorted, q), |sorted| - 1, 0)
    {
      FirstFitIgnoresUnfit(LegacyChordTypes, extra, RootIntervals(sorted, q), |sorted| - 1, 0);
    }
    FindRootAgree(ChordTypes, LegacyChordTypes, sorted);
    match FindRoot(LegacyChordTypes, sorted, 0)
    case None =>
    case Some((i, k)) =>
      assert ChordTypes[k] == LegacyChordTypes[k];
  }

  /** Two notes are named by a type with a single required interval. */
  lemma TwoNoteSingleInterval(types: seq<ChordType>, notes: seq<NoteVal>)
    requires |notes| == 2 && IdentifyWith(types, notes).Some?
    ensures exists t :: 0 <= t < |types| && |types[t].intervals| == 1 && IdentifyWith(types, notes).value.typeName == types[t].name
  {
    IdentifySound(types, notes);
    var c := IdentifyWith(types, notes).value;
    var i, k :| Reported(types, c, i, k);
  }

  /** With the earlier table two notes can only be named a power chord. */
  lemma LegacyTwoNoteChord(notes: seq<NoteVal>)
    requires |notes| == 2 && IdentifyWith(LegacyChordTypes, notes).Some?
    ensures IdentifyWith(LegacyChordTypes, notes).value.typeName == "5"
  {
    TwoNoteSingleInterval(LegacyChordTypes, notes);
    LegacySingleInterval();
  }
}
