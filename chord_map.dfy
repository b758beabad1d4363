/**
 * generateChords as it runs: the recursive `combine` closure fills a `chordMap` in place,
 * then `results.forEach` sets each arpeggio and sorts each voicing list, and the results are
 * sorted. Each step is proved to compute the value `Generate` defines.
 */
module ChordMaps {
  import opened Wrappers
  import opened Seqs
  import opened Sorting
  import opened Constants
  import opened Pitch
  import opened Chords
  import opened Generate

  /** `const chordMap = new Map()`: entries in insertion order, keyed by chord name. */
  class ChordMap {
    var entries: seq<Entry>

    constructor()
      ensures entries == []
    {
      entries := [];
    }

    /** The grouping step for one identified chord: a new name gets an entry whose only
      * voicing is the chord's notes; a known name gets the notes pushed onto its voicings
      * unless a voicing with the same dedup key is already there. */
    method Record(ch: Chord)
      modifies this
      ensures entries == AddChord(old(entries), ch)
    {
      match FindName(entries, ch.name)
      case None =>
        entries := entries + [Entry(ch, [ch.notes], [])];
      case Some(i) =>
        var existing := entries[i];
        var hasVoicing := HasVoicing(existing.voicings, ch.notes);
        if !hasVoicing {
          entries := entries[i := Entry(existing.chord, existing.voicings + [ch.notes], existing.arpeggio)];
        }
    }

    /** The base case of combine: identifyChord on a copy of the chosen notes, and the
      * grouping step when it names them. */
    method Try(types: seq<ChordType>, notes: seq<NoteVal>, cur: seq<nat>)
      modifies this
      ensures entries == Collect(old(entries), Found(types, notes, [cur]))
    {
      var picked := Pick(notes, cur);
      var noteSet := new NoteVal[|picked|](a requires 0 <= a < |picked| => picked[a]);
      assert noteSet[..] == picked;
      var chord := IdentifyChordWith(types, noteSet);
      FoundOne(types, notes, cur);
      if chord.Some? {
        Record(chord.value);
        assert Collect(old(entries), [chord.value]) == entries;
      }
    }

    /** `combine(arr, k, start, current)`, with `current` held as positions into `notes`. */
    method Combine(types: seq<ChordType>, notes: seq<NoteVal>, k: nat, start: nat, cur: seq<nat>)
      requires |cur| <= k
      modifies this
      ensures entries == Collect(old(entries), Found(types, notes, Generate.Combine(|notes|, k, start, cur)))
      decreases k - |cur|, 2
    {
      if |cur| == k {
        Try(types, notes, cur);
      } else {
        Extend(types, notes, k, start, cur);
      }
    }

    /** The `for (let i = start; i < arr.length; i++)` loop of combine. */
    method Extend(types: seq<ChordType>, notes: seq<NoteVal>, k: nat, start: nat, cur: seq<nat>)
      requires |cur| < k
      modifies this
      ensures entries == Collect(old(entries), Found(types, notes, CombineFrom(|notes|, k, start, cur)))
      decreases k - |cur|, 1
    {
      if start >= |notes| {
        assert CombineFrom(|notes|, k, start, cur) == [];
        return;
      }
      for i := start to |notes|
        invariant Collect(entries, Found(types, notes, CombineFrom(|notes|, k, i, cur))) ==
                  Collect(old(entries), Found(types, notes, CombineFrom(|notes|, k, start, cur)))
      {
        Branch(types, notes, k, i, cur);
      }
      assert CombineFrom(|notes|, k, |notes|, cur) == [];
    }

    /** One turn of that loop: `combine(arr, k, i + 1, [...current, arr[i]])`. */
    method Branch(types: seq<ChordType>, notes: seq<NoteVal>, k: nat, i: nat, cur: seq<nat>)
      requires |cur| < k && i < |notes|
      modifies this
      ensures Collect(entries, Found(types, notes, CombineFrom(|notes|, k, i + 1, cur))) ==
              Collect(old(entries), Found(types, notes, CombineFrom(|notes|, k, i, cur)))
      decreases k - |cur|, 0
    {
      CombineFromStep(types, notes, k, i, cur, entries);
      Combine(types, notes, k, i + 1, cur + [i]);
    }
  }

  /** `chord.voicings.sort(...)` with the voicing comparator. */
  method SortVoicings(vs: array<seq<NoteVal>>, root: string)
    modifies vs
    ensures vs[..] == SortBy(old(vs[..]), VoicingOrder(root))
  {
    var sorted := SortBy(vs[..], VoicingOrder(root));
    forall p | 0 <= p < vs.Length {
      vs[p] := sorted[p];
    }
  }

  /** `results.sort(...)` with the priority-then-root comparator, on the array of results. */
  method SortResults(es: seq<Entry>) returns (r: seq<Entry>)
    ensures r == SortBy(es, ResultOrder())
  {
    var rs := new Entry[|es|](a requires 0 <= a < |es| => es[a]);
    assert rs[..] == es;
    var sorted := SortBy(rs[..], ResultOrder());
    forall p | 0 <= p < rs.Length {
      rs[p] := sorted[p];
    }
    r := rs[..];
  }

  /** The three `combine` calls, dyads, triads and tetrads, fill the map as `Grouped` says. */
  method CombineAll(types: seq<ChordType>, notes: seq<NoteVal>) returns (m: ChordMap)
    ensures m.entries == Grouped(types, notes)
  {
    var n := |notes|;
    m := new ChordMap();
    m.Combine(types, notes, 2, 0, []);
    m.Combine(types, notes, 3, 0, []);
    m.Combine(types, notes, 4, 0, []);
    var f2 := Found(types, notes, Generate.Combine(n, 2, 0, []));
    var f3 := Found(types, notes, Generate.Combine(n, 3, 0, []));
    var f4 := Found(types, notes, Generate.Combine(n, 4, 0, []));
    FoundConcat(types, notes, Generate.Combine(n, 2, 0, []), Generate.Combine(n, 3, 0, []));
    FoundConcat(types, notes, Generate.Combine(n, 2, 0, []) + Generate.Combine(n, 3, 0, []), Generate.Combine(n, 4, 0, []));
    CollectConcat([], f2, f3);
    CollectConcat([], f2 + f3, f4);
  }

  /** One pass of `results.forEach`: the arpeggio is assigned and the voicings sorted in
    * place. */
  method FinishEntry(notes: seq<NoteVal>, e: Entry) returns (r: Entry)
    ensures r == Finish(notes, e)
  {
    var vs := new seq<NoteVal>[|e.voicings|](a requires 0 <= a < |e.voicings| => e.voicings[a]);
    assert vs[..] == e.voicings;
    SortVoicings(vs, e.chord.root);
    var arpeggio := Filter(notes, (n: NoteVal) => n.note in NoteNames(e.chord.notes));
    r := Entry(e.chord, vs[..], arpeggio);
  }

  /** `results.forEach(chord => …)` over `Array.from(chordMap.values())`: each chord gets
    * its arpeggio and sorted voicings, in place. */
  method FinishAll(notes: seq<NoteVal>, es: seq<Entry>) returns (rs: seq<Entry>)
    ensures rs == Map(es, Finisher(notes))
  {
    rs := es;
    var i := 0;
    assert es[..0] == [];
    while i < |es|
      invariant 0 <= i <= |es|
      invariant rs == Map(es[..i], Finisher(notes)) + es[i..]
    {
      MapStep(es, i, Finisher(notes));
      var finished := FinishEntry(notes, rs[i]);
      rs := rs[i := finished];
      i := i + 1;
    }
    assert es[..i] == es;
  }

  /** generateChords(handpanNotes) against a chord-type table. */
  method GenerateChordsWith(types: seq<ChordType>, notes: seq<NoteVal>) returns (results: seq<Entry>)
    ensures results == GenerateWith(types, notes)
    ensures NamesDistinct(results) && Sorted(results, ResultOrder())
  {
    var m := CombineAll(types, notes);
    var finished := FinishAll(notes, m.entries);
    results := SortResults(finished);
    GenerateNamesDistinct(types, notes);
    GenerateSorted(types, notes);
  }

  /** generateChords(handpanNotes) with CHORD_TYPES. */
  method GenerateChordsMethod(notes: seq<NoteVal>) returns (results: seq<Entry>)
    ensures results == GenerateChords(notes)
  {
    results := GenerateChordsWith(ChordTypes, notes);
  }
}
