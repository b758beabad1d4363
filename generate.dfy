/**
 * generateChords: every 2-, 3- and 4-note combination of the handpan's notes is named by
 * identifyChord, the named ones are grouped by chord name, and the groups are finished with
 * an arpeggio and sorted.
 */
module Generate {
  import opened Wrappers
  import opened Seqs
  import opened Sorting
  import opened Text
  import opened Constants
  import opened Pitch
  import opened Chords

  /** A chordMap value `{...chord, voicings, arpeggio}`; the arpeggio is `[]` until the
    * finishing pass sets it. */
  datatype Entry = Entry(chord: Chord, voicings: seq<seq<NoteVal>>, arpeggio: seq<NoteVal>)

  // ---------------------------------------------------------------- combinations

  predicate Increasing(c: seq<nat>) {
    forall a, b :: 0 <= a < b < |c| ==> c[a] < c[b]
  }

  /** Strictly increasing positions of a list of length `n`. */
  predicate IsCombo(c: seq<nat>, n: nat) {
    Increasing(c) && forall a :: 0 <= a < |c| ==> c[a] < n
  }

  /** `combine(arr, k, start, current)` over positions: the `k`-combinations extending `cur`
    * with positions from `start` on, in the order the recursion reaches them. */
  function Combine(n: nat, k: nat, start: nat, cur: seq<nat>): seq<seq<nat>>
    requires |cur| <= k
    decreases k - |cur|, 1, 0
  {
    if |cur| == k then [cur] else CombineFrom(n, k, start, cur)
  }

  /** The `for (let i = start; …)` loop of combine, from position `i` on. */
  function CombineFrom(n: nat, k: nat, i: nat, cur: seq<nat>): seq<seq<nat>>
    requires |cur| < k
    decreases k - |cur|, 0, n - i
  {
    if i >= n then [] else Combine(n, k, i + 1, cur + [i]) + CombineFrom(n, k, i + 1, cur)
  }

  /** Every combination combine reaches has `k` increasing positions below `n` and extends
    * `cur`. */
  lemma {:induction false} CombineShape(n: nat, k: nat, start: nat, cur: seq<nat>)
    requires |cur| <= k && IsCombo(cur, n)
    requires forall a :: 0 <= a < |cur| ==> cur[a] < start
    ensures forall c :: c in Combine(n, k, start, cur) ==> |c| == k && IsCombo(c, n) && c[..|cur|] == cur
    decreases k - |cur|, 1, 0
  {
    if |cur| == k {
      assert cur[..|cur|] == cur;
    } else {
      CombineFromShape(n, k, start, cur);
    }
  }

  lemma {:induction false} CombineFromShape(n: nat, k: nat, i: nat, cur: seq<nat>)
    requires |cur| < k && IsCombo(cur, n)
    requires forall a :: 0 <= a < |cur| ==> cur[a] < i
    ensures forall c :: c in CombineFrom(n, k, i, cur) ==> |c| == k && IsCombo(c, n) && c[..|cur|] == cur
    decreases k - |cur|, 0, n - i
  {
    if i < n {
      var head := Combine(n, k, i + 1, cur + [i]);
      CombineShape(n, k, i + 1, cur + [i]);
      CombineFromShape(n, k, i + 1, cur);
      forall c | c in head ensures c[..|cur|] == cur {
        assert c[..|cur|] == c[..|cur| + 1][..|cur|];
      }
    }
  }

  /** All the combinations generateChords tries, dyads first, then triads, then tetrads. */
  function AllCombos(n: nat): seq<seq<nat>> {
    Combine(n, 2, 0, []) + Combine(n, 3, 0, []) + Combine(n, 4, 0, [])
  }

  /** Only 2-, 3- and 4-note combinations are tried. */
  lemma AllCombosShape(n: nat)
    ensures forall c :: c in AllCombos(n) ==> 2 <= |c| <= 4 && IsCombo(c, n)
  {
    CombineShape(n, 2, 0, []);
    CombineShape(n, 3, 0, []);
    CombineShape(n, 4, 0, []);
  }

  /** `[...current]`: the notes at the chosen positions (positions past the end, which
    * combine never produces, are skipped). */
  function Pick(notes: seq<NoteVal>, c: seq<nat>): (r: seq<NoteVal>)
    ensures IsCombo(c, |notes|) ==> |r| == |c| && forall a :: 0 <= a < |c| ==> r[a] == notes[c[a]]
  {
    if |c| == 0 then []
    else
      assert IsCombo(c, |notes|) ==> IsCombo(c[1..], |notes|);
      (if c[0] < |notes| then [notes[c[0]]] else []) + Pick(notes, c[1..])
  }

  /** `identifyChord([...current])` for a combination. */
  function Namer(types: seq<ChordType>, notes: seq<NoteVal>): seq<nat> -> Option<Chord> {
    c => IdentifyWith(types, Pick(notes, c))
  }

  /** The chords identifyChord names, combination by combination. */
  function Found(types: seq<ChordType>, notes: seq<NoteVal>, combos: seq<seq<nat>>): seq<Chord> {
    Somes(Map(combos, Namer(types, notes)))
  }

  lemma FoundConcat(types: seq<ChordType>, notes: seq<NoteVal>, a: seq<seq<nat>>, b: seq<seq<nat>>)
    ensures Found(types, notes, a + b) == Found(types, notes, a) + Found(types, notes, b)
  {
    MapConcat(a, b, Namer(types, notes));
    SomesConcat(Map(a, Namer(types, notes)), Map(b, Namer(types, notes)));
  }

  /** A single combination contributes the chord it is named, if any. */
  lemma FoundOne(types: seq<ChordType>, notes: seq<NoteVal>, c: seq<nat>)
    ensures Found(types, notes, [c]) ==
      if IdentifyWith(types, Pick(notes, c)).Some? then [IdentifyWith(types, Pick(notes, c)).value] else []
  {
    assert Map([c], Namer(types, notes)) == [Namer(types, notes)(c)];
  }

  // ---------------------------------------------------------------- voicings

  /** A voicing: 2 to 4 notes from distinct positions, as identifyChord leaves them. */
  ghost predicate IsVoicing(notes: seq<NoteVal>, v: seq<NoteVal>) {
    exists c :: 2 <= |c| <= 4 && IsCombo(c, |notes|) && v == SortBy(Pick(notes, c), ValueOrder())
  }

  /** identifyChord names the notes `name`. */
  predicate NamedBy(types: seq<ChordType>, v: seq<NoteVal>, name: string) {
    IdentifyWith(types, v).Some? && IdentifyWith(types, v).value.name == name
  }

  /** A chord found from a combination: identifyChord reports it again from its own notes. */
  ghost predicate FoundChord(types: seq<ChordType>, notes: seq<NoteVal>, ch: Chord) {
    IdentifyWith(types, ch.notes) == Some(ch) && IsVoicing(notes, ch.notes)
  }

  lemma IdentifyNotes(types: seq<ChordType>, notes: seq<NoteVal>)
    requires IdentifyWith(types, notes).Some?
    ensures IdentifyWith(types, notes).value.notes == SortBy(notes, ValueOrder())
  {
  }

  /** Every chord found comes from a 2- to 4-note combination and names its own notes. */
  lemma FoundChords(types: seq<ChordType>, notes: seq<NoteVal>, combos: seq<seq<nat>>)
    requires forall c :: c in combos ==> 2 <= |c| <= 4 && IsCombo(c, |notes|)
    ensures forall ch :: ch in Found(types, notes, combos) ==> FoundChord(types, notes, ch)
  {
    forall ch | ch in Found(types, notes, combos) ensures FoundChord(types, notes, ch) {
      FoundChordOf(types, notes, combos, ch);
    }
  }

  /** One chord found among the combinations comes from one of them. */
  lemma FoundChordOf(types: seq<ChordType>, notes: seq<NoteVal>, combos: seq<seq<nat>>, ch: Chord)
    requires forall c :: c in combos ==> 2 <= |c| <= 4 && IsCombo(c, |notes|)
    requires ch in Found(types, notes, combos)
    ensures FoundChord(types, notes, ch)
  {
    var opts := Map(combos, Namer(types, notes));
    SomesMembers(opts);
    var x :| 0 <= x < |Somes(opts)| && Somes(opts)[x] == ch;
    assert Some(ch) in opts;
    var k :| 0 <= k < |opts| && opts[k] == Some(ch);
    assert combos[k] in combos;
    NamedFound(types, notes, combos[k], ch);
  }

  /** A chord named from one combination is a found chord. */
  lemma NamedFound(types: seq<ChordType>, notes: seq<NoteVal>, c: seq<nat>, ch: Chord)
    requires 2 <= |c| <= 4 && IsCombo(c, |notes|)
    requires IdentifyWith(types, Pick(notes, c)) == Some(ch)
    ensures FoundChord(types, notes, ch)
  {
    IdentifyNotes(types, Pick(notes, c));
    IdentifyIdempotent(types, Pick(notes, c));
    assert IsVoicing(notes, ch.notes);
  }

  // ---------------------------------------------------------------- dedup key

  function ValuesOf(v: seq<NoteVal>): seq<int> {
    Map(v, ValueKey)
  }

  /** `v.map(n => n.value).sort()`: the values as strings, in default (string) order. The
    * `join('-')` that follows is left out: the list itself is the key. */
  function DedupKey(v: seq<NoteVal>): seq<string> {
    SortBy(Map(ValuesOf(v), IntToString), StringOrder())
  }

  lemma ValueStringsRoundTrip(xs: seq<int>)
    ensures Map(Map(xs, IntToString), StringToInt) == xs
  {
    forall a | 0 <= a < |xs| ensures Map(Map(xs, IntToString), StringToInt)[a] == xs[a] {
      IntToStringInverse(xs[a]);
    }
  }

  /** Although the values are sorted as strings, the key is canonical: two voicings get the
    * same key exactly when they hold the same multiset of values. */
  lemma DedupKeyCanonical(v: seq<NoteVal>, w: seq<NoteVal>)
    ensures DedupKey(v) == DedupKey(w) <==> multiset(ValuesOf(v)) == multiset(ValuesOf(w))
  {
    var sv, sw := Map(ValuesOf(v), IntToString), Map(ValuesOf(w), IntToString);
    if multiset(ValuesOf(v)) == multiset(ValuesOf(w)) {
      StringOrderTotal();
      MapMultiset(ValuesOf(v), ValuesOf(w), IntToString);
      SortBySorted(sv, StringOrder());
      SortBySorted(sw, StringOrder());
      SortedUnique(DedupKey(v), DedupKey(w), StringOrder());
    }
    if DedupKey(v) == DedupKey(w) {
      MapMultiset(sv, sw, StringToInt);
      ValueStringsRoundTrip(ValuesOf(v));
      ValueStringsRoundTrip(ValuesOf(w));
    }
  }

  // ---------------------------------------------------------------- grouping

  /** The position of the entry named `name`, if any (`chordMap.has(key)`). */
  function FindName(es: seq<Entry>, name: string): (r: Option<nat>)
    ensures r.Some? ==> r.value < |es| && es[r.value].chord.name == name
    ensures r.None? ==> forall i :: 0 <= i < |es| ==> es[i].chord.name != name
  {
    if |es| == 0 then None
    else if es[|es| - 1].chord.name == name then Some(|es| - 1)
    else FindName(es[..|es| - 1], name)
  }

  /** `existing.voicings.some(v => key(v) === key(notes))`. */
  predicate HasVoicing(vs: seq<seq<NoteVal>>, v: seq<NoteVal>) {
    exists a :: 0 <= a < |vs| && DedupKey(vs[a]) == DedupKey(v)
  }

  /** One step of combine's grouping: a new name opens an entry at the end of the map; a known
    * name gains the voicing unless one with the same key is already there. */
  function AddChord(es: seq<Entry>, ch: Chord): seq<Entry> {
    match FindName(es, ch.name)
    case None => es + [Entry(ch, [ch.notes], [])]
    case Some(i) =>
      if HasVoicing(es[i].voicings, ch.notes) then es
      else es[i := Entry(es[i].chord, es[i].voicings + [ch.notes], es[i].arpeggio)]
  }

  /** The chord map after recording `chords` in turn. */
  function Collect(es: seq<Entry>, chords: seq<Chord>): seq<Entry>
    decreases |chords|
  {
    if |chords| == 0 then es else Collect(AddChord(es, chords[0]), chords[1..])
  }

  lemma {:induction false} CollectConcat(es: seq<Entry>, a: seq<Chord>, b: seq<Chord>)
    ensures Collect(es, a + b) == Collect(Collect(es, a), b)
    decreases |a|
  {
    if |a| > 0 {
      assert (a + b)[0] == a[0] && (a + b)[1..] == a[1..] + b;
      CollectConcat(AddChord(es, a[0]), a[1..], b);
    } else {
      assert a + b == b;
    }
  }

  /** One turn of combine's loop: recurse on position `i`, then continue from `i + 1`. */
  lemma CombineFromStep(types: seq<ChordType>, notes: seq<NoteVal>, k: nat, i: nat, cur: seq<nat>, es: seq<Entry>)
    requires |cur| < k && i < |notes|
    ensures Collect(Collect(es, Found(types, notes, Combine(|notes|, k, i + 1, cur + [i]))),
                    Found(types, notes, CombineFrom(|notes|, k, i + 1, cur))) ==
            Collect(es, Found(types, notes, CombineFrom(|notes|, k, i, cur)))
  {
    var head := Combine(|notes|, k, i + 1, cur + [i]);
    var tail := CombineFrom(|notes|, k, i + 1, cur);
    assert CombineFrom(|notes|, k, i, cur) == head + tail;
    FoundConcat(types, notes, head, tail);
    CollectConcat(es, Found(types, notes, head), Found(types, notes, tail));
  }

  /** The chord map once every combination has been tried. */
  function Grouped(types: seq<ChordType>, notes: seq<NoteVal>): seq<Entry> {
    Collect([], Found(types, notes, AllCombos(|notes|)))
  }

  // ---------------------------------------------------------------- the map's invariant

  /** Every voicing comes from a combination and identifyChord names it `name`. */
  ghost predicate VoicingsNamed(types: seq<ChordType>, notes: seq<NoteVal>, vs: seq<seq<NoteVal>>, name: string) {
    forall a :: 0 <= a < |vs| ==> IsVoicing(notes, vs[a]) && NamedBy(types, vs[a], name)
  }

  /** No two voicings share a dedup key. */
  predicate KeysDistinct(vs: seq<seq<NoteVal>>) {
    forall a, b :: 0 <= a < b < |vs| ==> DedupKey(vs[a]) != DedupKey(vs[b])
  }

  /** One chordMap value: its chord is a found chord whose notes are the first voicing, its
    * voicings are named by the entry's name, and no two share a dedup key. */
  ghost predicate GoodEntry(types: seq<ChordType>, notes: seq<NoteVal>, e: Entry) {
    FoundChord(types, notes, e.chord) && |e.voicings| > 0 && e.voicings[0] == e.chord.notes &&
    VoicingsNamed(types, notes, e.voicings, e.chord.name) && KeysDistinct(e.voicings)
  }

  ghost function GoodOf(types: seq<ChordType>, notes: seq<NoteVal>): Entry -> bool {
    e => GoodEntry(types, notes, e)
  }

  predicate NamesDistinct(es: seq<Entry>) {
    forall i, j :: 0 <= i < j < |es| ==> es[i].chord.name != es[j].chord.name
  }

  /** The chord map: distinct names (it is keyed by name) and good values. */
  ghost predicate GoodEntries(types: seq<ChordType>, notes: seq<NoteVal>, es: seq<Entry>) {
    NamesDistinct(es) && All(es, GoodOf(types, notes))
  }

  /** A found chord names its own notes. */
  lemma FoundNamed(types: seq<ChordType>, notes: seq<NoteVal>, ch: Chord)
    requires FoundChord(types, notes, ch)
    ensures NamedBy(types, ch.notes, ch.name)
  {
  }

  lemma NewEntryGood(types: seq<ChordType>, notes: seq<NoteVal>, ch: Chord)
    requires FoundChord(types, notes, ch)
    ensures GoodEntry(types, notes, Entry(ch, [ch.notes], []))
  {
    FoundNamed(types, notes, ch);
  }

  lemma AppendNamed(types: seq<ChordType>, notes: seq<NoteVal>, vs: seq<seq<NoteVal>>, v: seq<NoteVal>, name: string)
    requires VoicingsNamed(types, notes, vs, name) && IsVoicing(notes, v) && NamedBy(types, v, name)
    ensures VoicingsNamed(types, notes, vs + [v], name)
  {
    var ws := vs + [v];
    forall a | 0 <= a < |ws| ensures IsVoicing(notes, ws[a]) && NamedBy(types, ws[a], name) {
      if a < |vs| {
        assert ws[a] == vs[a];
      } else {
        assert ws[a] == v;
      }
    }
  }

  lemma AppendKey(vs: seq<seq<NoteVal>>, v: seq<NoteVal>)
    requires KeysDistinct(vs) && !HasVoicing(vs, v)
    ensures KeysDistinct(vs + [v])
  {
    var ws := vs + [v];
    forall a, b | 0 <= a < b < |ws| ensures DedupKey(ws[a]) != DedupKey(ws[b]) {
      assert ws[a] == vs[a];
      if b < |vs| {
        assert ws[b] == vs[b];
      } else {
        assert ws[b] == v;
      }
    }
  }

  lemma ExtendEntryGood(types: seq<ChordType>, notes: seq<NoteVal>, e: Entry, ch: Chord)
    requires GoodEntry(types, notes, e) && FoundChord(types, notes, ch) && ch.name == e.chord.name
    requires !HasVoicing(e.voicings, ch.notes)
    ensures GoodEntry(types, notes, Entry(e.chord, e.voicings + [ch.notes], e.arpeggio))
  {
    FoundNamed(types, notes, ch);
    AppendNamed(types, notes, e.voicings, ch.notes, ch.name);
    AppendKey(e.voicings, ch.notes);
  }

  lemma AppendEntryGood(types: seq<ChordType>, notes: seq<NoteVal>, es: seq<Entry>, e: Entry)
    requires GoodEntries(types, notes, es) && GoodEntry(types, notes, e)
    requires forall i :: 0 <= i < |es| ==> es[i].chord.name != e.chord.name
    ensures GoodEntries(types, notes, es + [e])
  {
    AllAppend(es, e, GoodOf(types, notes));
    NamesAppend(es, e);
  }

  lemma NamesAppend(es: seq<Entry>, e: Entry)
    requires NamesDistinct(es) && forall i :: 0 <= i < |es| ==> es[i].chord.name != e.chord.name
    ensures NamesDistinct(es + [e])
  {
    assert forall i :: 0 <= i < |es| ==> (es + [e])[i] == es[i];
  }

  lemma ReplaceEntryGood(types: seq<ChordType>, notes: seq<NoteVal>, es: seq<Entry>, i: nat, e: Entry)
    requires GoodEntries(types, notes, es) && GoodEntry(types, notes, e)
    requires i < |es| && e.chord.name == es[i].chord.name
    ensures GoodEntries(types, notes, es[i := e])
  {
    AllUpdate(es, i, e, GoodOf(types, notes));
  }

  /** Recording a found chord keeps the map's invariant. */
  lemma AddChordGood(types: seq<ChordType>, notes: seq<NoteVal>, es: seq<Entry>, ch: Chord)
    requires GoodEntries(types, notes, es) && FoundChord(types, notes, ch)
    ensures GoodEntries(types, notes, AddChord(es, ch))
  {
    match FindName(es, ch.name)
    case None =>
      AddNewGood(types, notes, es, ch);
    case Some(i) =>
      if !HasVoicing(es[i].voicings, ch.notes) {
        AddVoicingGood(types, notes, es, ch, i);
      }
  }

  /** A chord under a new name is appended as a new entry. */
  lemma AddNewGood(types: seq<ChordType>, notes: seq<NoteVal>, es: seq<Entry>, ch: Chord)
    requires GoodEntries(types, notes, es) && FoundChord(types, notes, ch)
    requires FindName(es, ch.name).None?
    ensures GoodEntries(types, notes, AddChord(es, ch))
  {
    var e := Entry(ch, [ch.notes], []);
    NewEntryGood(types, notes, ch);
    AppendEntryGood(types, notes, es, e);
  }

  /** A new voicing of a known chord is added to its entry. */
  lemma AddVoicingGood(types: seq<ChordType>, notes: seq<NoteVal>, es: seq<Entry>, ch: Chord, i: nat)
    requires GoodEntries(types, notes, es) && FoundChord(types, notes, ch)
    requires FindName(es, ch.name) == Some(i) && !HasVoicing(es[i].voicings, ch.notes)
    ensures GoodEntries(types, notes, AddChord(es, ch))
  {
    var e := Entry(es[i].chord, es[i].voicings + [ch.notes], es[i].arpeggio);
    ExtendEntryGood(types, notes, es[i], ch);
    ReplaceEntryGood(types, notes, es, i, e);
  }

  /** Recording found chords one by one keeps the map's invariant. */
  lemma {:induction false} CollectGood(types: seq<ChordType>, notes: seq<NoteVal>, es: seq<Entry>, chords: seq<Chord>)
    requires GoodEntries(types, notes, es)
    requires forall ch :: ch in chords ==> FoundChord(types, notes, ch)
    ensures GoodEntries(types, notes, Collect(es, chords))
    decreases |chords|
  {
    if |chords| > 0 {
      AddChordGood(types, notes, es, chords[0]);
      assert forall ch :: ch in chords[1..] ==> ch in chords;
      CollectGood(types, notes, AddChord(es, chords[0]), chords[1..]);
    }
  }

  /** The grouped chord map satisfies the invariant. */
  lemma GroupedGood(types: seq<ChordType>, notes: seq<NoteVal>)
    ensures GoodEntries(types, notes, Grouped(types, notes))
  {
    AllCombosShape(|notes|);
    FoundChords(types, notes, AllCombos(|notes|));
    CollectGood(types, notes, [], Found(types, notes, AllCombos(|notes|)));
  }

  // ---------------------------------------------------------------- nothing found is lost

  /** `r` is `es` with possibly more entries and more voicings, and the same chords. */
  predicate Extends(es: seq<Entry>, r: seq<Entry>) {
    |es| <= |r| &&
    forall i :: 0 <= i < |es| ==>
      r[i].chord == es[i].chord && |es[i].voicings| <= |r[i].voicings| &&
      r[i].voicings[..|es[i].voicings|] == es[i].voicings
  }

  /** Some entry under the chord's name holds a voicing with the chord's dedup key. */
  predicate Recorded(es: seq<Entry>, ch: Chord) {
    exists i :: 0 <= i < |es| && es[i].chord.name == ch.name && HasVoicing(es[i].voicings, ch.notes)
  }

  lemma ExtendsAppend(es: seq<Entry>, e: Entry)
    ensures Extends(es, es + [e])
  {
    assert forall i :: 0 <= i < |es| ==> (es + [e])[i] == es[i];
  }

  lemma ExtendsAddVoicing(es: seq<Entry>, i: nat, v: seq<NoteVal>)
    requires i < |es|
    ensures Extends(es, es[i := Entry(es[i].chord, es[i].voicings + [v], es[i].arpeggio)])
  {
    assert (es[i].voicings + [v])[..|es[i].voicings|] == es[i].voicings;
  }

  /** The entry at `i` is under the chord's name and its voicing at `a` has the chord's key. */
  lemma RecordedAt(es: seq<Entry>, ch: Chord, i: nat, a: nat)
    requires i < |es| && a < |es[i].voicings|
    requires es[i].chord.name == ch.name && es[i].voicings[a] == ch.notes
    ensures Recorded(es, ch)
  {
    assert DedupKey(es[i].voicings[a]) == DedupKey(ch.notes);
    assert HasVoicing(es[i].voicings, ch.notes);
  }

  lemma AddChordExtends(es: seq<Entry>, ch: Chord)
    ensures Extends(es, AddChord(es, ch))
    ensures Recorded(AddChord(es, ch), ch)
  {
    match FindName(es, ch.name)
    case None =>
      ExtendsAppend(es, Entry(ch, [ch.notes], []));
      RecordedAt(es + [Entry(ch, [ch.notes], [])], ch, |es|, 0);
    case Some(i) =>
      if HasVoicing(es[i].voicings, ch.notes) {
        assert Extends(es, es);
      } else {
        var e := Entry(es[i].chord, es[i].voicings + [ch.notes], es[i].arpeggio);
        ExtendsAddVoicing(es, i, ch.notes);
        RecordedAt(es[i := e], ch, i, |es[i].voicings|);
      }
  }

  lemma ExtendsTransitive(a: seq<Entry>, b: seq<Entry>, c: seq<Entry>)
    requires Extends(a, b) && Extends(b, c)
    ensures Extends(a, c)
  {
    forall i | 0 <= i < |a|
      ensures c[i].voicings[..|a[i].voicings|] == a[i].voicings
    {
      assert c[i].voicings[..|a[i].voicings|] == c[i].voicings[..|b[i].voicings|][..|a[i].voicings|];
    }
  }

  lemma RecordedExtends(es: seq<Entry>, r: seq<Entry>, ch: Chord)
    requires Extends(es, r) && Recorded(es, ch)
    ensures Recorded(r, ch)
  {
    var i :| 0 <= i < |es| && es[i].chord.name == ch.name && HasVoicing(es[i].voicings, ch.notes);
    var a :| 0 <= a < |es[i].voicings| && DedupKey(es[i].voicings[a]) == DedupKey(ch.notes);
    assert r[i].voicings[a] == r[i].voicings[..|es[i].voicings|][a] == es[i].voicings[a];
  }

  /** Recording chords only ever adds, and every chord recorded can be found again under
    * its name by its dedup key. */
  lemma {:induction false} CollectRecords(es: seq<Entry>, chords: seq<Chord>)
    ensures Extends(es, Collect(es, chords))
    ensures forall ch :: ch in chords ==> Recorded(Collect(es, chords), ch)
    decreases |chords|
  {
    if |chords| == 0 {
      assert Extends(es, es);
    } else {
      var next := AddChord(es, chords[0]);
      AddChordExtends(es, chords[0]);
      CollectRecords(next, chords[1..]);
      ExtendsTransitive(es, next, Collect(next, chords[1..]));
      RecordedExtends(next, Collect(next, chords[1..]), chords[0]);
      assert forall ch :: ch in chords ==> ch == chords[0] || ch in chords[1..];
    }
  }

  // ---------------------------------------------------------------- every combination is tried

  /** A combination extending `cur` with positions from `start` on is reached by combine. */
  lemma {:induction false} CombineComplete(n: nat, k: nat, start: nat, cur: seq<nat>, c: seq<nat>)
    requires |cur| <= k && IsCombo(cur, n)
    requires forall a :: 0 <= a < |cur| ==> cur[a] < start
    requires |c| == k && IsCombo(c, n) && c[..|cur|] == cur
    requires forall a :: |cur| <= a < k ==> start <= c[a]
    ensures c in Combine(n, k, start, cur)
    decreases k - |cur|, 1, 0
  {
    if |cur| == k {
      assert c == c[..|cur|];
    } else {
      CombineFromComplete(n, k, start, cur, c);
    }
  }

  lemma {:induction false} CombineFromComplete(n: nat, k: nat, i: nat, cur: seq<nat>, c: seq<nat>)
    requires |cur| < k && IsCombo(cur, n)
    requires forall a :: 0 <= a < |cur| ==> cur[a] < i
    requires |c| == k && IsCombo(c, n) && c[..|cur|] == cur
    requires forall a :: |cur| <= a < k ==> i <= c[a]
    ensures c in CombineFrom(n, k, i, cur)
    decreases k - |cur|, 0, n - i
  {
    var m := |cur|;
    assert i <= c[m] < n;
    if c[m] == i {
      assert c[..m + 1] == cur + [i] by {
        assert c[..m + 1] == c[..m] + [c[m]];
      }
      assert IsCombo(cur + [i], n);
      CombineComplete(n, k, i + 1, cur + [i], c);
    } else {
      CombineFromComplete(n, k, i + 1, cur, c);
    }
  }

  /** Every 2-, 3- and 4-note combination of positions is tried. */
  lemma AllCombosComplete(n: nat, c: seq<nat>)
    requires 2 <= |c| <= 4 && IsCombo(c, n)
    ensures c in AllCombos(n)
  {
    assert c[..0] == [];
    CombineComplete(n, |c|, 0, [], c);
  }

  /** The chord identifyChord names for a tried combination is among those found. */
  lemma NamedIsFound(types: seq<ChordType>, notes: seq<NoteVal>, c: seq<nat>, ch: Chord)
    requires 2 <= |c| <= 4 && IsCombo(c, |notes|)
    requires IdentifyWith(types, Pick(notes, c)) == Some(ch)
    ensures ch in Found(types, notes, AllCombos(|notes|))
  {
    var combos := AllCombos(|notes|);
    AllCombosComplete(|notes|, c);
    var k :| 0 <= k < |combos| && combos[k] == c;
    var opts := Map(combos, Namer(types, notes));
    assert opts[k] == Some(ch);
    SomesMembers(opts);
  }

  // ---------------------------------------------------------------- finishing pass

  /** `new Set(chord.notes.map(n => n.note))`. */
  function NoteNames(v: seq<NoteVal>): set<string> {
    set n | n in v :: n.note
  }

  /** `handpanNotes.filter(n => allowedNotes.has(n.note))`: every handpan note, in handpan
    * order, whose name occurs in the chord, whatever its octave. (Both branches of the
    * `exists` test that follows assign this same list.) */
  function Arpeggio(notes: seq<NoteVal>, ch: Chord): seq<NoteVal> {
    Filter(notes, (n: NoteVal) => n.note in NoteNames(ch.notes))
  }

  /** The arpeggio holds exactly the handpan notes named like a note of the chord, each as
    * often as on the handpan. */
  lemma ArpeggioMembers(notes: seq<NoteVal>, ch: Chord)
    ensures forall n :: n in Arpeggio(notes, ch) <==> n in notes && n.note in NoteNames(ch.notes)
    ensures forall n :: n in Arpeggio(notes, ch) ==> multiset(Arpeggio(notes, ch))[n] == multiset(notes)[n]
  {
    var p := (n: NoteVal) => n.note in NoteNames(ch.notes);
    var q := (n: NoteVal) => !(n.note in NoteNames(ch.notes));
    var r := Arpeggio(notes, ch);
    assert forall n :: n in r ==> exists a :: 0 <= a < |r| && r[a] == n;
    assert forall n :: n in notes ==> exists a :: 0 <= a < |notes| && notes[a] == n;
    FilterPartition(notes, p, q);
    forall n | n in r ensures multiset(r)[n] == multiset(notes)[n] {
      assert p(n);
      assert n !in Filter(notes, q);
    }
  }

  /** The voicing starts with the chord's root (`vA[0].note === chord.root`). */
  predicate RootInBass(v: seq<NoteVal>, root: string) {
    |v| > 0 && v[0].note == root
  }

  /** The voicing comparator: voicings with the root in the bass first, then by the sum of
    * their values. */
  predicate VoicingLe(root: string, a: seq<NoteVal>, b: seq<NoteVal>) {
    (RootInBass(a, root) && !RootInBass(b, root)) ||
    (RootInBass(a, root) == RootInBass(b, root) && Sum(ValuesOf(a)) <= Sum(ValuesOf(b)))
  }

  function VoicingOrder(root: string): (seq<NoteVal>, seq<NoteVal>) -> bool {
    (a, b) => VoicingLe(root, a, b)
  }

  lemma VoicingOrderTotal(root: string)
    ensures TotalPreorder(VoicingOrder(root))
  {
  }

  /** `CHORD_TYPE_PRIORITY[type] || 99`. */
  function PriorityOf(e: Entry): int {
    Priority(e.chord.typeName).GetOr(99)
  }

  /** The result comparator: by priority, then by root name. */
  predicate ResultLe(a: Entry, b: Entry) {
    PriorityOf(a) < PriorityOf(b) || (PriorityOf(a) == PriorityOf(b) && LexLe(a.chord.root, b.chord.root))
  }

  function ResultOrder(): (Entry, Entry) -> bool {
    (a, b) => ResultLe(a, b)
  }

  lemma ResultOrderTotal()
    ensures TotalPreorder(ResultOrder())
  {
    forall a: Entry, b: Entry ensures ResultOrder()(a, b) || ResultOrder()(b, a) {
      LexTotal(a.chord.root, b.chord.root);
    }
    forall a: Entry, b: Entry, c: Entry | ResultOrder()(a, b) && ResultOrder()(b, c)
      ensures ResultOrder()(a, c)
    {
      if PriorityOf(a) == PriorityOf(b) == PriorityOf(c) {
        LexTransitive(a.chord.root, b.chord.root, c.chord.root);
      }
    }
  }

  /** One pass of `results.forEach`: the arpeggio is set and the voicings sorted in place. */
  function Finish(notes: seq<NoteVal>, e: Entry): Entry {
    Entry(e.chord, SortBy(e.voicings, VoicingOrder(e.chord.root)), Arpeggio(notes, e.chord))
  }

  function Finisher(notes: seq<NoteVal>): Entry -> Entry {
    e => Finish(notes, e)
  }

  /** generateChords over a chord-type table. */
  function GenerateWith(types: seq<ChordType>, notes: seq<NoteVal>): seq<Entry> {
    SortBy(Map(Grouped(types, notes), Finisher(notes)), ResultOrder())
  }

  /** generateChords(handpanNotes). */
  function GenerateChords(notes: seq<NoteVal>): seq<Entry> {
    GenerateWith(ChordTypes, notes)
  }

  // ---------------------------------------------------------------- what generateChords returns

  function NameOf(e: Entry): string {
    e.chord.name
  }

  /** A finished entry: a found chord, its own notes among the voicings, every voicing named
    * by the entry's name, no two voicings with the same dedup key, the voicings in comparator
    * order and the arpeggio drawn from the handpan. */
  ghost predicate GoodResult(types: seq<ChordType>, notes: seq<NoteVal>, e: Entry) {
    FoundChord(types, notes, e.chord) && e.chord.notes in e.voicings &&
    VoicingsNamed(types, notes, e.voicings, e.chord.name) && KeysDistinct(e.voicings) &&
    Sorted(e.voicings, VoicingOrder(e.chord.root)) && e.arpeggio == Arpeggio(notes, e.chord)
  }

  ghost function GoodResultOf(types: seq<ChordType>, notes: seq<NoteVal>): Entry -> bool {
    e => GoodResult(types, notes, e)
  }

  lemma NamedPermutation(types: seq<ChordType>, notes: seq<NoteVal>, vs: seq<seq<NoteVal>>, ws: seq<seq<NoteVal>>, name: string)
    requires VoicingsNamed(types, notes, vs, name) && multiset(vs) == multiset(ws)
    ensures VoicingsNamed(types, notes, ws, name)
  {
    forall a | 0 <= a < |ws| ensures IsVoicing(notes, ws[a]) && NamedBy(types, ws[a], name) {
      assert ws[a] in multiset(vs);
      var b :| 0 <= b < |vs| && vs[b] == ws[a];
    }
  }

  lemma KeysPermutation(vs: seq<seq<NoteVal>>, ws: seq<seq<NoteVal>>)
    requires KeysDistinct(vs) && multiset(vs) == multiset(ws)
    ensures KeysDistinct(ws)
  {
    MapMultiset(vs, ws, DedupKey);
    DistinctPermutation(Map(vs, DedupKey), Map(ws, DedupKey));
    forall a, b | 0 <= a < b < |ws| ensures DedupKey(ws[a]) != DedupKey(ws[b]) {
      assert Map(ws, DedupKey)[a] != Map(ws, DedupKey)[b];
    }
  }

  /** The finishing pass turns a good chordMap value into a good result. */
  lemma FinishGood(types: seq<ChordType>, notes: seq<NoteVal>, e: Entry)
    requires GoodEntry(types, notes, e)
    ensures GoodResult(types, notes, Finish(notes, e))
  {
    var sorted := SortBy(e.voicings, VoicingOrder(e.chord.root));
    VoicingOrderTotal(e.chord.root);
    SortBySorted(e.voicings, VoicingOrder(e.chord.root));
    NamedPermutation(types, notes, e.voicings, sorted, e.chord.name);
    KeysPermutation(e.voicings, sorted);
    assert e.voicings[0] in multiset(sorted);
  }

  lemma NamesPermutation(es: seq<Entry>, rs: seq<Entry>)
    requires NamesDistinct(es) && multiset(Map(es, NameOf)) == multiset(Map(rs, NameOf))
    ensures NamesDistinct(rs)
  {
    DistinctPermutation(Map(es, NameOf), Map(rs, NameOf));
    forall i, j | 0 <= i < j < |rs| ensures rs[i].chord.name != rs[j].chord.name {
      assert Map(rs, NameOf)[i] != Map(rs, NameOf)[j];
    }
  }

  /** generateChords returns one entry per name. */
  lemma GenerateNamesDistinct(types: seq<ChordType>, notes: seq<NoteVal>)
    ensures NamesDistinct(GenerateWith(types, notes))
  {
    var es := Grouped(types, notes);
    var fs := Map(es, Finisher(notes));
    GroupedGood(types, notes);
    assert Map(fs, NameOf) == Map(es, NameOf);
    MapMultiset(fs, GenerateWith(types, notes), NameOf);
    NamesPermutation(es, GenerateWith(types, notes));
  }

  lemma FinishAllGood(types: seq<ChordType>, notes: seq<NoteVal>, es: seq<Entry>)
    requires All(es, GoodOf(types, notes))
    ensures All(Map(es, Finisher(notes)), GoodResultOf(types, notes))
  {
    forall i | 0 <= i < |es| ensures GoodResult(types, notes, Finish(notes, es[i])) {
      assert GoodOf(types, notes)(es[i]);
      FinishGood(types, notes, es[i]);
    }
  }

  /** Every entry generateChords returns is a good result. */
  lemma GenerateGood(types: seq<ChordType>, notes: seq<NoteVal>)
    ensures All(GenerateWith(types, notes), GoodResultOf(types, notes))
  {
    var fs := Map(Grouped(types, notes), Finisher(notes));
    GroupedGood(types, notes);
    FinishAllGood(types, notes, Grouped(types, notes));
    AllPermutation(fs, GenerateWith(types, notes), GoodResultOf(types, notes));
  }

  /** The results come in comparator order: by priority, then by root name. */
  lemma GenerateSorted(types: seq<ChordType>, notes: seq<NoteVal>)
    ensures Sorted(GenerateWith(types, notes), ResultOrder())
  {
    ResultOrderTotal();
    SortBySorted(Map(Grouped(types, notes), Finisher(notes)), ResultOrder());
  }

  lemma RecordedFinish(notes: seq<NoteVal>, es: seq<Entry>, ch: Chord)
    requires Recorded(es, ch)
    ensures Recorded(Map(es, Finisher(notes)), ch)
  {
    var i :| 0 <= i < |es| && es[i].chord.name == ch.name && HasVoicing(es[i].voicings, ch.notes);
    var fs := Map(es, Finisher(notes));
    assert fs[i] == Finish(notes, es[i]);
    SortKeepsVoicing(es[i].voicings, es[i].chord.root, ch.notes);
    assert fs[i].chord.name == ch.name && HasVoicing(fs[i].voicings, ch.notes);
  }

  /** Sorting the voicings keeps every dedup key. */
  lemma SortKeepsVoicing(vs: seq<seq<NoteVal>>, root: string, v: seq<NoteVal>)
    requires HasVoicing(vs, v)
    ensures HasVoicing(SortBy(vs, VoicingOrder(root)), v)
  {
    var a :| 0 <= a < |vs| && DedupKey(vs[a]) == DedupKey(v);
    SortByKeepsKey(vs, VoicingOrder(root), DedupKey, a);
  }

  lemma RecordedPermutation(es: seq<Entry>, rs: seq<Entry>, ch: Chord)
    requires Recorded(es, ch) && multiset(es) == multiset(rs)
    ensures Recorded(rs, ch)
  {
    var i :| 0 <= i < |es| && es[i].chord.name == ch.name && HasVoicing(es[i].voicings, ch.notes);
    assert es[i] in multiset(rs);
    var j :| 0 <= j < |rs| && rs[j] == es[i];
  }

  /** Nothing is lost: whatever chord identifyChord names for any 2-, 3- or 4-note
    * combination is returned under its name, with a voicing holding the same values. */
  lemma GenerateComplete(types: seq<ChordType>, notes: seq<NoteVal>, c: seq<nat>, ch: Chord)
    requires 2 <= |c| <= 4 && IsCombo(c, |notes|)
    requires IdentifyWith(types, Pick(notes, c)) == Some(ch)
    ensures Recorded(GenerateWith(types, notes), ch)
  {
    var found := Found(types, notes, AllCombos(|notes|));
    NamedIsFound(types, notes, c, ch);
    CollectRecords([], found);
    RecordedFinish(notes, Grouped(types, notes), ch);
    RecordedPermutation(Map(Grouped(types, notes), Finisher(notes)), GenerateWith(types, notes), ch);
  }

  /** A found chord's type is a row of the table. */
  lemma FoundTypeInTable(types: seq<ChordType>, notes: seq<NoteVal>, ch: Chord)
    requires FoundChord(types, notes, ch)
    ensures exists k :: 0 <= k < |types| && ch.typeName == types[k].name
  {
    IdentifySound(types, ch.notes);
  }

  /** When every type of the table has a priority, so does every good result. */
  lemma ResultPriorities(types: seq<ChordType>, notes: seq<NoteVal>, rs: seq<Entry>)
    requires All(rs, GoodResultOf(types, notes))
    requires forall k :: 0 <= k < |types| ==> Priority(types[k].name).Some?
    ensures forall i :: 0 <= i < |rs| ==> PriorityOf(rs[i]) <= 8
  {
    forall i | 0 <= i < |rs| ensures PriorityOf(rs[i]) <= 8 {
      assert GoodResultOf(types, notes)(rs[i]);
      FoundTypeInTable(types, notes, rs[i].chord);
    }
  }

  /** With the app's table every result has a listed priority, so the fallback 99 is never
    * used. */
  lemma GenerateChordsPriorities(notes: seq<NoteVal>)
    ensures forall i :: 0 <= i < |GenerateChords(notes)| ==> PriorityOf(GenerateChords(notes)[i]) <= 8
  {
    GenerateGood(ChordTypes, notes);
    PrioritiesCoverTypes();
    ResultPriorities(ChordTypes, notes, GenerateChords(notes));
  }
}
