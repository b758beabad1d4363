/**
 * The chord engine: naming a set of notes (identifyChord) and collecting every chord a
 * handpan can play (generateChords).
 */
module Chords {
  import opened Wrappers
  import opened Seqs
  import opened Sorting
  import opened Constants
  import opened Pitch

  /** identifyChord's result `{root, type, name, notes, intervalSignature}`; the signature is
    * kept as the sorted interval list rather than its comma-joined text. */
  datatype Chord = Chord(root: string, typeName: string, name: string, notes: seq<NoteVal>, signature: seq<int>)

  function ValueKey(n: NoteVal): int { n.value }

  /** `(a, b) => a.value - b.value`. */
  function ValueOrder(): (NoteVal, NoteVal) -> bool { ByKey(ValueKey) }

  function IntKey(x: int): int { x }

  /** `(a, b) => a - b`. */
  function IntOrder(): (int, int) -> bool { ByKey(IntKey) }

  /** `(v - r) % 12`, plus 12 when negative: the interval from `r` up to `v` within an octave. */
  function Interval(v: int, r: int): (iv: int)
    ensures 0 <= iv < 12 && iv == (v - r) % 12
  {
    var x := JsRem12(v - r);
    if x < 0 then x + 12 else x
  }

  /** The intervals collected for the root at `i` from the notes before position `m`, in the
    * order they are pushed: nonzero, without repeats. */
  function IntervalsUpTo(notes: seq<NoteVal>, i: nat, m: nat): (ivs: seq<int>)
    requires i < |notes| && m <= |notes|
    ensures forall k :: 0 <= k < |ivs| ==> 1 <= ivs[k] < 12
    ensures Distinct(ivs)
    ensures |ivs| <= m
  {
    if m == 0 then []
    else
      var prev := IntervalsUpTo(notes, i, m - 1);
      if m - 1 == i then prev
      else
        var iv := Interval(notes[m - 1].value, notes[i].value);
        if iv !in prev && iv != 0 then prev + [iv] else prev
  }

  /** The interval list of the root at `i`. */
  function RootIntervals(notes: seq<NoteVal>, i: nat): seq<int>
    requires i < |notes|
  {
    IntervalsUpTo(notes, i, |notes|)
  }

  /** An interval is collected exactly when some other note lies that far above the root. */
  lemma {:induction false} IntervalsUpToMembers(notes: seq<NoteVal>, i: nat, m: nat, x: int)
    requires i < |notes| && m <= |notes|
    ensures x in IntervalsUpTo(notes, i, m) <==>
      x != 0 && exists j :: 0 <= j < m && j != i && x == (notes[j].value - notes[i].value) % 12
  {
    if m > 0 {
      IntervalsUpToMembers(notes, i, m - 1, x);
    }
  }

  /** The `i`-th root has fewer distinct intervals than there are notes. */
  lemma RootIntervalsFewer(notes: seq<NoteVal>, i: nat)
    requires i < |notes|
    ensures |RootIntervals(notes, i)| <= |notes| - 1
  {
    IntervalsUpToSkipsRoot(notes, i, |notes|);
  }

  lemma {:induction false} IntervalsUpToSkipsRoot(notes: seq<NoteVal>, i: nat, m: nat)
    requires i < |notes| && m <= |notes|
    ensures |IntervalsUpTo(notes, i, m)| <= if m > i then m - 1 else m
  {
    if m > 0 {
      IntervalsUpToSkipsRoot(notes, i, m - 1);
    }
  }

  /** `requiredIntervals.every(req => intervals.includes(req))` and the arity check. */
  predicate Fits(t: ChordType, ivs: seq<int>, arity: int) {
    (forall k :: 0 <= k < |t.intervals| ==> t.intervals[k] in ivs) && |t.intervals| == arity
  }

  /** The first entry of the type table at index `k` or later that fits. The table is a
    * parameter so that proofs do not unfold CHORD_TYPES; it is CHORD_TYPES in the model. */
  function FirstFit(types: seq<ChordType>, ivs: seq<int>, arity: int, k: nat): (r: Option<nat>)
    requires k <= |types|
    ensures r.Some? ==> k <= r.value < |types| && Fits(types[r.value], ivs, arity)
    ensures r.Some? ==> forall q :: k <= q < r.value ==> !Fits(types[q], ivs, arity)
    ensures r.None? ==> forall q :: k <= q < |types| ==> !Fits(types[q], ivs, arity)
    decreases |types| - k
  {
    if k == |types| then None
    else if Fits(types[k], ivs, arity) then Some(k)
    else FirstFit(types, ivs, arity, k + 1)
  }

  /** The first root (at `i` or later), in ascending value order, with a fitting type, and
    * that type. */
  function FindRoot(types: seq<ChordType>, sorted: seq<NoteVal>, i: nat): (r: Option<(nat, nat)>)
    requires i <= |sorted|
    ensures r.Some? ==> i <= r.value.0 < |sorted| && r.value.1 < |types|
    ensures r.Some? ==> FirstFit(types, RootIntervals(sorted, r.value.0), |sorted| - 1, 0) == Some(r.value.1)
    ensures r.Some? ==> forall q :: i <= q < r.value.0 ==>
      FirstFit(types, RootIntervals(sorted, q), |sorted| - 1, 0).None?
    ensures r.None? ==> forall q :: i <= q < |sorted| ==>
      FirstFit(types, RootIntervals(sorted, q), |sorted| - 1, 0).None?
    decreases |sorted| - i
  {
    if i == |sorted| then None
    else
      match FirstFit(types, RootIntervals(sorted, i), |sorted| - 1, 0)
      case Some(k) => Some((i, k))
      case None => FindRoot(types, sorted, i + 1)
  }

  /** What identifyChord reports for notes already sorted by value. */
  function Report(types: seq<ChordType>, sorted: seq<NoteVal>): Option<Chord> {
    match FindRoot(types, sorted, 0)
    case None => None
    case Some((i, k)) =>
      var root := sorted[i].note;
      Some(Chord(root, types[k].name, root + " " + types[k].name, sorted,
                 SortBy(RootIntervals(sorted, i), IntOrder())))
  }

  /** identifyChord against a type table, on the notes sorted by value (the sort it performs
    * first). */
  function IdentifyWith(types: seq<ChordType>, notes: seq<NoteVal>): Option<Chord> {
    Report(types, SortBy(notes, ValueOrder()))
  }

  /** identifyChord(noteSet) with CHORD_TYPES. */
  function Identify(notes: seq<NoteVal>): Option<Chord> {
    IdentifyWith(ChordTypes, notes)
  }

  /** Interval lists strictly ascending, and no two types with the same list. */
  predicate WellFormedTable(types: seq<ChordType>) {
    (forall i :: 0 <= i < |types| ==> StrictlyAscending(types[i].intervals)) &&
    (forall i, j :: 0 <= i < j < |types| ==> types[i].intervals != types[j].intervals)
  }

  lemma ChordTypesWellFormed()
    ensures WellFormedTable(ChordTypes)
  {
    ChordTypeIntervals();
    ChordTypesDistinct();
  }

  /** A list without repeats has as many elements as entries. */
  lemma {:induction false} DistinctCard(s: seq<int>)
    requires Distinct(s)
    ensures |(set x | x in s)| == |s|
  {
    if |s| > 0 {
      DistinctCard(s[1..]);
      assert (set x | x in s) == {s[0]} + (set x | x in s[1..]);
    }
  }

  /** A list has at most as many elements as entries. */
  lemma {:induction false} CardAtMost(s: seq<int>)
    ensures |(set x | x in s)| <= |s|
  {
    if |s| > 0 {
      CardAtMost(s[1..]);
      assert (set x | x in s) == {s[0]} + (set x | x in s[1..]);
    }
  }

  /** `a` has no repeats, lies inside `b` and is at least as long: so `b` lies inside `a`. */
  lemma Pigeonhole(a: seq<int>, b: seq<int>)
    requires Distinct(a) && |b| <= |a|
    requires forall k :: 0 <= k < |a| ==> a[k] in b
    ensures forall x :: x in b ==> x in a
  {
    var sa := set x | x in a;
    var sb := set x | x in b;
    DistinctCard(a);
    CardAtMost(b);
    assert sa <= sb;
    assert |sb - sa| == |sb| - |sa|;
    assert sb - sa == {};
    forall x | x in b ensures x in a {
      assert x in sb;
    }
  }

  /** At most one entry of a well-formed table fits a root's interval list: the order of the
    * table never matters. */
  lemma FitsUnique(types: seq<ChordType>, ivs: seq<int>, arity: int, p: nat, q: nat)
    requires WellFormedTable(types)
    requires Distinct(ivs) && |ivs| <= arity
    requires p < |types| && q < |types|
    requires Fits(types[p], ivs, arity) && Fits(types[q], ivs, arity)
    ensures p == q
  {
    var a, b := types[p].intervals, types[q].intervals;
    Pigeonhole(a, ivs);
    Pigeonhole(b, ivs);
    AscendingByElements(a, b);
  }

  /** What identifyChord reports: root `i` of the sorted notes with type `k`, every required
    * interval present and as many required as other notes, no earlier root fitting any type,
    * and the root's intervals in ascending order as the signature. */
  predicate Reported(types: seq<ChordType>, c: Chord, i: nat, k: nat) {
    i < |c.notes| && k < |types| &&
    c.root == c.notes[i].note && c.typeName == types[k].name &&
    c.name == c.root + " " + c.typeName &&
    Fits(types[k], RootIntervals(c.notes, i), |c.notes| - 1) &&
    (forall q, t :: 0 <= q < i && 0 <= t < |types| ==>
      !Fits(types[t], RootIntervals(c.notes, q), |c.notes| - 1)) &&
    Sorted(c.signature, IntOrder()) && multiset(c.signature) == multiset(RootIntervals(c.notes, i))
  }

  /** A reported chord carries the notes sorted by value, and its root and type are the first
    * fitting pair. */
  lemma IdentifySound(types: seq<ChordType>, notes: seq<NoteVal>)
    requires IdentifyWith(types, notes).Some?
    ensures Sorted(IdentifyWith(types, notes).value.notes, ValueOrder())
    ensures multiset(IdentifyWith(types, notes).value.notes) == multiset(notes)
    ensures exists i, k :: Reported(types, IdentifyWith(types, notes).value, i, k)
  {
    ByKeyTotal(ValueKey);
    SortBySorted(notes, ValueOrder());
    IdentifyReports(types, notes);
  }

  /** The chord found is reported at the root and type where the search stopped. */
  lemma IdentifyReports(types: seq<ChordType>, notes: seq<NoteVal>)
    requires IdentifyWith(types, notes).Some?
    ensures exists i, k :: Reported(types, IdentifyWith(types, notes).value, i, k)
  {
    var sorted := SortBy(notes, ValueOrder());
    var r := FindRoot(types, sorted, 0).value;
    ReportReported(types, sorted);
    assert Reported(types, Report(types, sorted).value, r.0, r.1);
  }

  lemma ReportReported(types: seq<ChordType>, sorted: seq<NoteVal>)
    requires Report(types, sorted).Some?
    ensures FindRoot(types, sorted, 0).Some?
    ensures Reported(types, Report(types, sorted).value, FindRoot(types, sorted, 0).value.0,
      FindRoot(types, sorted, 0).value.1)
  {
    var c := Report(types, sorted).value;
    var i, k := FindRoot(types, sorted, 0).value.0, FindRoot(types, sorted, 0).value.1;
    ByKeyTotal(IntKey);
    SortBySorted(RootIntervals(sorted, i), IntOrder());
    forall q, t | 0 <= q < i && 0 <= t < |types|
      ensures !Fits(types[t], RootIntervals(sorted, q), |sorted| - 1)
    {
      assert FirstFit(types, RootIntervals(sorted, q), |sorted| - 1, 0).None?;
    }
    assert Reported(types, c, i, k);
  }

  /** No root of the (sorted) notes fits any type of the table. */
  predicate NoFit(types: seq<ChordType>, sorted: seq<NoteVal>) {
    forall q, t :: 0 <= q < |sorted| && 0 <= t < |types| ==>
      !Fits(types[t], RootIntervals(sorted, q), |sorted| - 1)
  }

  /** identifyChord finds nothing exactly when no root of the sorted notes fits any type. */
  lemma IdentifyNone(types: seq<ChordType>, notes: seq<NoteVal>)
    ensures IdentifyWith(types, notes).None? <==> NoFit(types, SortBy(notes, ValueOrder()))
  {
    var sorted := SortBy(notes, ValueOrder());
    if FindRoot(types, sorted, 0).None? {
      forall q, t | 0 <= q < |sorted| && 0 <= t < |types|
        ensures !Fits(types[t], RootIntervals(sorted, q), |sorted| - 1)
      {
        assert FirstFit(types, RootIntervals(sorted, q), |sorted| - 1, 0).None?;
      }
    } else {
      var i, k := FindRoot(types, sorted, 0).value.0, FindRoot(types, sorted, 0).value.1;
      assert Fits(types[k], RootIntervals(sorted, i), |sorted| - 1);
    }
  }

  /** With a well-formed table, the type reported for a root is the only one that fits it. */
  lemma IdentifyOnlyType(types: seq<ChordType>, notes: seq<NoteVal>, i: nat, k: nat, t: nat)
    requires WellFormedTable(types)
    requires IdentifyWith(types, notes).Some? && Reported(types, IdentifyWith(types, notes).value, i, k)
    requires t < |types| && Fits(types[t], RootIntervals(IdentifyWith(types, notes).value.notes, i), |notes| - 1)
    ensures t == k
  {
    var c := IdentifyWith(types, notes).value;
    RootIntervalsFewer(c.notes, i);
    FitsUnique(types, RootIntervals(c.notes, i), |notes| - 1, t, k);
  }

  /** Identifying the reported notes again gives the same chord: they are already sorted. */
  lemma IdentifyIdempotent(types: seq<ChordType>, notes: seq<NoteVal>)
    requires IdentifyWith(types, notes).Some?
    ensures IdentifyWith(types, IdentifyWith(types, notes).value.notes) == IdentifyWith(types, notes)
  {
    var sorted := SortBy(notes, ValueOrder());
    ByKeyTotal(ValueKey);
    SortBySorted(notes, ValueOrder());
    SortBySortedIdentity(sorted, ValueOrder());
  }

  /** With CHORD_TYPES, two notes can only be named a power chord or a bare third. */
  lemma TwoNoteChord(notes: seq<NoteVal>)
    requires |notes| == 2 && Identify(notes).Some?
    ensures Identify(notes).value.typeName in {"5", "M3", "m3"}
  {
    IdentifySound(ChordTypes, notes);
    var c := Identify(notes).value;
    var i, k :| Reported(ChordTypes, c, i, k);
    SingleIntervalTypes();
  }

  /** The inner loop of identifyChord: the intervals of the root at `i` over the other notes. */
  method CollectIntervals(a: array<NoteVal>, i: int) returns (ivs: seq<int>)
    requires 0 <= i < a.Length
    ensures ivs == RootIntervals(a[..], i)
  {
    ivs := [];
    var j := 0;
    while j < a.Length
      invariant 0 <= j <= a.Length
      invariant ivs == IntervalsUpTo(a[..], i, j)
    {
      if i != j {
        var iv := JsRem12(a[j].value - a[i].value);
        if iv < 0 {
          iv := iv + 12;
        }
        if iv !in ivs && iv != 0 {
          ivs := ivs + [iv];
        }
      }
      j := j + 1;
    }
  }

  /** The dictionary loop of identifyChord: the first type of the table that fits. */
  method MatchType(types: seq<ChordType>, ivs: seq<int>, arity: int) returns (m: Option<nat>)
    ensures m == FirstFit(types, ivs, arity, 0)
  {
    var k := 0;
    while k < |types|
      invariant 0 <= k <= |types|
      invariant FirstFit(types, ivs, arity, 0) == FirstFit(types, ivs, arity, k)
    {
      var t := types[k];
      var matched := forall q :: 0 <= q < |t.intervals| ==> t.intervals[q] in ivs;
      if matched && |t.intervals| == arity {
        return Some(k);
      }
      k := k + 1;
    }
    return None;
  }

  /** `noteSet.sort((a, b) => a.value - b.value)`: the array takes its stable sorted order. */
  method SortByValue(a: array<NoteVal>)
    modifies a
    ensures a[..] == SortBy(old(a[..]), ValueOrder())
  {
    var sorted := SortBy(a[..], ValueOrder());
    forall p | 0 <= p < a.Length {
      a[p] := sorted[p];
    }
  }

  /** The root loop of identifyChord over the sorted array. */
  method SearchRoots(types: seq<ChordType>, a: array<NoteVal>) returns (r: Option<Chord>)
    ensures r == Report(types, a[..])
  {
    var i := 0;
    while i < a.Length
      invariant 0 <= i <= a.Length
      invariant FindRoot(types, a[..], 0) == FindRoot(types, a[..], i)
    {
      var ivs := CollectIntervals(a, i);
      var m := MatchType(types, ivs, a.Length - 1);
      if m.Some? {
        assert FindRoot(types, a[..], i) == Some((i, m.value));
        var t := types[m.value];
        var root := a[i].note;
        return Some(Chord(root, t.name, root + " " + t.name, a[..], SortBy(ivs, IntOrder())));
      }
      i := i + 1;
    }
    return None;
  }

  /** identifyChord(noteSet) against a type table. */
  method IdentifyChordWith(types: seq<ChordType>, a: array<NoteVal>) returns (r: Option<Chord>)
    modifies a
    ensures a[..] == SortBy(old(a[..]), ValueOrder())
    ensures r == IdentifyWith(types, old(a[..]))
  {
    SortByValue(a);
    r := SearchRoots(types, a);
  }

  /** identifyChord(noteSet) with CHORD_TYPES. */
  method IdentifyChord(a: array<NoteVal>) returns (r: Option<Chord>)
    modifies a
    ensures a[..] == SortBy(old(a[..]), ValueOrder())
    ensures r == Identify(old(a[..]))
  {
    r := IdentifyChordWith(ChordTypes, a);
  }
}
