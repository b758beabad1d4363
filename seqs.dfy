/** Array.prototype.filter and friends over sequences. */
module Seqs {
  import opened Wrappers


  /** `s.filter(p)`: the elements satisfying `p`, in their original order. */
  function Filter<T>(s: seq<T>, p: T -> bool): (r: seq<T>)
    ensures |r| <= |s|
    ensures forall i :: 0 <= i < |r| ==> r[i] in s && p(r[i])
    ensures forall i :: 0 <= i < |s| && p(s[i]) ==> s[i] in r
    ensures multiset(r) <= multiset(s)
  {
    if |s| == 0 then []
    else
      assert s == [s[0]] + s[1..];
      if p(s[0]) then [s[0]] + Filter(s[1..], p) else Filter(s[1..], p)
  }

  /** The first element counts towards a filter exactly when it satisfies the predicate. */
  lemma FilterHead<T>(s: seq<T>, p: T -> bool)
    requires |s| > 0
    ensures multiset(Filter(s, p)) ==
      (if p(s[0]) then multiset{s[0]} else multiset{}) + multiset(Filter(s[1..], p))
  {
    if p(s[0]) {
      assert Filter(s, p) == [s[0]] + Filter(s[1..], p);
    }
  }

  /** Splitting by a predicate and its negation loses and invents nothing. */
  lemma {:induction false} FilterPartition<T>(s: seq<T>, p: T -> bool, q: T -> bool)
    requires forall i :: 0 <= i < |s| ==> q(s[i]) == !p(s[i])
    ensures multiset(Filter(s, p)) + multiset(Filter(s, q)) == multiset(s)
  {
    if |s| > 0 {
      FilterPartition(s[1..], p, q);
      FilterHead(s, p);
      FilterHead(s, q);
      assert multiset(s) == multiset{s[0]} + multiset(s[1..]) by {
        assert s == [s[0]] + s[1..];
      }
      assert q(s[0]) == !p(s[0]);
    }
  }

  /** Filtering by a disjoint union is the union of the filters. */
  lemma {:induction false} FilterUnion<T>(s: seq<T>, p: T -> bool, q: T -> bool, r: T -> bool)
    requires forall i :: 0 <= i < |s| ==> r(s[i]) == (p(s[i]) || q(s[i])) && !(p(s[i]) && q(s[i]))
    ensures multiset(Filter(s, r)) == multiset(Filter(s, p)) + multiset(Filter(s, q))
  {
    if |s| > 0 {
      FilterUnion(s[1..], p, q, r);
      FilterHead(s, p);
      FilterHead(s, q);
      FilterHead(s, r);
    }
  }

  /** Predicates that agree on the elements filter alike. */
  lemma {:induction false} FilterCongruent<T>(s: seq<T>, p: T -> bool, q: T -> bool)
    requires forall i :: 0 <= i < |s| ==> p(s[i]) == q(s[i])
    ensures Filter(s, p) == Filter(s, q)
  {
    if |s| > 0 {
      FilterCongruent(s[1..], p, q);
    }
  }

  /** Filtering distributes over concatenation. */
  lemma {:induction false} FilterConcat<T>(a: seq<T>, b: seq<T>, p: T -> bool)
    ensures Filter(a + b, p) == Filter(a, p) + Filter(b, p)
  {
    if |a| > 0 {
      assert (a + b)[1..] == a[1..] + b;
      FilterConcat(a[1..], b, p);
    } else {
      assert a + b == b;
    }
  }

  /** Replacing an element the filter drops by another it drops changes nothing. */
  lemma {:induction false} FilterSkip<T>(s: seq<T>, i: nat, x: T, p: T -> bool)
    requires i < |s| && !p(s[i]) && !p(x)
    ensures Filter(s[i := x], p) == Filter(s, p)
  {
    var t := s[i := x];
    if i == 0 {
      assert t[1..] == s[1..];
      assert Filter(t, p) == Filter(t[1..], p);
    } else {
      assert t[1..] == s[1..][i - 1 := x];
      FilterSkip(s[1..], i - 1, x, p);
      assert t[0] == s[0];
      assert Filter(t, p) == (if p(s[0]) then [s[0]] else []) + Filter(t[1..], p);
    }
  }

  /** Appending an element the filter drops changes nothing. */
  lemma FilterAppendSkip<T>(s: seq<T>, x: T, p: T -> bool)
    requires !p(x)
    ensures Filter(s + [x], p) == Filter(s, p)
  {
    FilterConcat(s, [x], p);
    assert [x][1..] == [];
  }

  /** Pushing an element extends the filter by that element exactly when it passes. */
  lemma FilterAppend<T>(s: seq<T>, x: T, p: T -> bool)
    ensures Filter(s + [x], p) == Filter(s, p) + (if p(x) then [x] else [])
  {
    FilterConcat(s, [x], p);
    assert [x][1..] == [];
  }

  /** One more element of a prefix extends its filter by that element exactly when it passes. */
  lemma FilterPrefix<T>(s: seq<T>, i: nat, p: T -> bool)
    requires i < |s|
    ensures Filter(s[..i + 1], p) == Filter(s[..i], p) + (if p(s[i]) then [s[i]] else [])
  {
    assert s[..i + 1] == s[..i] + [s[i]];
    FilterAppend(s[..i], s[i], p);
  }

  /** `s.findIndex(p)`: the first position satisfying `p`, or -1. */
  function FindIndex<T>(s: seq<T>, p: T -> bool): (r: int)
    ensures -1 <= r < |s|
    ensures r >= 0 ==> p(s[r]) && forall j :: 0 <= j < r ==> !p(s[j])
    ensures r == -1 <==> forall j :: 0 <= j < |s| ==> !p(s[j])
  {
    if |s| == 0 then -1
    else if p(s[0]) then 0
    else
      var k := FindIndex(s[1..], p);
      if k == -1 then -1 else k + 1
  }

  /** The first position satisfying `p` is what findIndex reports. */
  lemma FindIndexAt<T>(s: seq<T>, p: T -> bool, i: nat)
    requires i < |s| && p(s[i]) && forall j :: 0 <= j < i ==> !p(s[j])
    ensures FindIndex(s, p) == i
  {
  }

  /** A filter no element passes is empty. */
  lemma {:induction false} FilterNone<T>(s: seq<T>, p: T -> bool)
    requires forall i :: 0 <= i < |s| ==> !p(s[i])
    ensures Filter(s, p) == []
  {
    if |s| > 0 {
      FilterNone(s[1..], p);
    }
  }

  /** The number of elements of `s` satisfying `p`. */
  function CountWhere<T>(s: seq<T>, p: T -> bool): nat {
    |Filter(s, p)|
  }

  /** `s.map(f)`. */
  function Map<T, U>(s: seq<T>, f: T -> U): (r: seq<U>)
    ensures |r| == |s|
    ensures forall i :: 0 <= i < |s| ==> r[i] == f(s[i])
  {
    if |s| == 0 then [] else [f(s[0])] + Map(s[1..], f)
  }

  /** A non-empty sequence is its front followed by its last element. */
  lemma SplitLast<T>(s: seq<T>)
    requires |s| > 0
    ensures s == s[..|s| - 1] + [s[|s| - 1]]
  {
  }

  /** One more element of a prefix extends its image by that element's image. */
  lemma MapPrefix<T, U>(s: seq<T>, i: nat, f: T -> U)
    requires i < |s|
    ensures Map(s[..i + 1], f) == Map(s[..i], f) + [f(s[i])]
  {
  }

  /** Mapping distributes over concatenation. */
  lemma MapConcat<T, U>(a: seq<T>, b: seq<T>, f: T -> U)
    ensures Map(a + b, f) == Map(a, f) + Map(b, f)
  {
    assert forall i :: 0 <= i < |a| + |b| ==> Map(a + b, f)[i] == (Map(a, f) + Map(b, f))[i];
  }

  lemma MapCons<T, U>(s: seq<T>, f: T -> U)
    requires |s| > 0
    ensures multiset(Map(s, f)) == multiset{f(s[0])} + multiset(Map(s[1..], f))
  {
    assert Map(s, f) == [f(s[0])] + Map(s[1..], f);
  }

  lemma SpliceCons<T>(b: seq<T>, j: nat)
    requires 0 < j < |b|
    ensures b[..j] + b[j + 1..] == [b[0]] + (b[1..][..j - 1] + b[1..][j..])
  {
    assert b[..j] == [b[0]] + b[1..][..j - 1];
    assert b[j + 1..] == b[1..][j..];
  }

  /** Taking out the element at `j` takes its image out of the mapped output. */
  lemma {:induction false} MapRemove<T, U>(b: seq<T>, j: nat, f: T -> U)
    requires j < |b|
    ensures multiset(Map(b, f)) == multiset{f(b[j])} + multiset(Map(b[..j] + b[j + 1..], f))
  {
    MapCons(b, f);
    if j == 0 {
      assert b[..j] + b[j + 1..] == b[1..];
    } else {
      var tail := b[1..];
      var shorter := tail[..j - 1] + tail[j..];
      MapRemove(tail, j - 1, f);
      SpliceCons(b, j);
      MapCons([b[0]] + shorter, f);
      assert ([b[0]] + shorter)[1..] == shorter;
    }
  }

  /** Taking out the element at `j` takes one occurrence of it out of the multiset. */
  lemma MultisetRemove<T>(b: seq<T>, j: nat)
    requires j < |b|
    ensures multiset(b[..j] + b[j + 1..]) == multiset(b) - multiset{b[j]}
  {
    assert b == b[..j] + [b[j]] + b[j + 1..];
    assert multiset(b) == multiset(b[..j]) + multiset{b[j]} + multiset(b[j + 1..]);
  }

  /** Rearranging the input rearranges the mapped output alike. */
  lemma {:induction false} MapMultiset<T, U>(a: seq<T>, b: seq<T>, f: T -> U)
    requires multiset(a) == multiset(b)
    ensures multiset(Map(a, f)) == multiset(Map(b, f))
  {
    if |a| > 0 {
      assert a[0] in multiset(b);
      var j :| 0 <= j < |b| && b[j] == a[0];
      MultisetRemove(b, j);
      MultisetRemove(a, 0);
      assert a[..0] + a[1..] == a[1..];
      MapMultiset(a[1..], b[..j] + b[j + 1..], f);
      MapRemove(b, j, f);
      MapCons(a, f);
      assert f(b[j]) == f(a[0]);
    }
  }

  /** One turn of a loop that maps a list in place: the prefix before `i` is mapped, the rest
    * is as it was. */
  lemma MapStep<T>(s: seq<T>, i: nat, f: T -> T)
    requires i < |s|
    ensures (Map(s[..i], f) + s[i..])[i := f(s[i])] == Map(s[..i + 1], f) + s[i + 1..]
  {
    assert s[..i + 1] == s[..i] + [s[i]];
    MapConcat(s[..i], [s[i]], f);
  }

  /** Every element satisfies `p`. */
  ghost predicate All<T>(s: seq<T>, p: T -> bool) {
    forall i :: 0 <= i < |s| ==> p(s[i])
  }

  lemma AllAppend<T>(s: seq<T>, x: T, p: T -> bool)
    requires All(s, p) && p(x)
    ensures All(s + [x], p)
  {
    assert forall i :: 0 <= i < |s| ==> (s + [x])[i] == s[i];
  }

  lemma AllUpdate<T>(s: seq<T>, i: nat, x: T, p: T -> bool)
    requires All(s, p) && i < |s| && p(x)
    ensures All(s[i := x], p)
  {
  }

  /** Rearranging keeps a property every element has. */
  lemma AllPermutation<T>(s: seq<T>, t: seq<T>, p: T -> bool)
    requires All(s, p) && multiset(s) == multiset(t)
    ensures All(t, p)
  {
    forall i | 0 <= i < |t| ensures p(t[i]) {
      assert t[i] in multiset(s);
    }
  }

  /** No element occurs twice. */
  predicate Distinct<T(==)>(s: seq<T>) {
    forall a, b :: 0 <= a < b < |s| ==> s[a] != s[b]
  }

  /** In a list without repeats every element occurs at most once. */
  lemma {:induction false} DistinctCount<T>(s: seq<T>, x: T)
    requires Distinct(s)
    ensures multiset(s)[x] <= 1
  {
    if |s| > 0 {
      DistinctCount(s[1..], x);
      assert s == [s[0]] + s[1..];
      assert s[0] !in s[1..];
    }
  }

  /** An element found at two positions occurs at least twice. */
  lemma TwiceCount<T>(s: seq<T>, a: nat, b: nat)
    requires a < b < |s| && s[a] == s[b]
    ensures multiset(s)[s[a]] >= 2
  {
    assert s == s[..b] + [s[b]] + s[b + 1..];
    assert s[a] in s[..b];
    assert multiset(s)[s[a]] == multiset(s[..b])[s[a]] + 1 + multiset(s[b + 1..])[s[a]];
  }

  /** Rearranging a list without repeats gives a list without repeats. */
  lemma DistinctPermutation<T>(s: seq<T>, t: seq<T>)
    requires Distinct(s) && multiset(s) == multiset(t)
    ensures Distinct(t)
  {
    forall a, b | 0 <= a < b < |t| ensures t[a] != t[b] {
      if t[a] == t[b] {
        TwiceCount(t, a, b);
        DistinctCount(s, t[a]);
      }
    }
  }

  /** The sum of an integer sequence (`reduce((a, b) => a + b, 0)`). */
  function Sum(s: seq<int>): int {
    if |s| == 0 then 0 else s[0] + Sum(s[1..])
  }

  /** The sum of a real sequence. */
  function SumReal(s: seq<real>): real {
    if |s| == 0 then 0.0 else s[0] + SumReal(s[1..])
  }

  /** Sums split over concatenation. */
  lemma {:induction false} SumRealConcat(a: seq<real>, b: seq<real>)
    ensures SumReal(a + b) == SumReal(a) + SumReal(b)
  {
    if |a| > 0 {
      assert (a + b)[1..] == a[1..] + b;
      SumRealConcat(a[1..], b);
    } else {
      assert a + b == b;
    }
  }

  /** The present values of a sequence of optional values, in order. */
  function Somes<T>(opts: seq<Option<T>>): (r: seq<T>)
    ensures |r| <= |opts|
  {
    if |opts| == 0 then []
    else (if opts[0].Some? then [opts[0].value] else []) + Somes(opts[1..])
  }

  lemma {:induction false} SomesConcat<T>(a: seq<Option<T>>, b: seq<Option<T>>)
    ensures Somes(a + b) == Somes(a) + Somes(b)
  {
    if |a| > 0 {
      assert (a + b)[0] == a[0] && (a + b)[1..] == a[1..] + b;
      SomesConcat(a[1..], b);
    } else {
      assert a + b == b;
    }
  }

  /** One more element of a prefix adds its value, when present, to the kept values. */
  lemma SomesMapPrefix<T, U>(s: seq<T>, i: nat, f: T -> Option<U>)
    requires i < |s|
    ensures Somes(Map(s[..i + 1], f)) == Somes(Map(s[..i], f)) + (if f(s[i]).Some? then [f(s[i]).value] else [])
  {
    MapPrefix(s, i, f);
    SomesConcat(Map(s[..i], f), [f(s[i])]);
    assert [f(s[i])][1..] == [];
  }

  /** Each kept value is present in the input, and each present value is kept. */
  lemma {:induction false} SomesMembers<T>(opts: seq<Option<T>>)
    ensures forall i :: 0 <= i < |Somes(opts)| ==> Some(Somes(opts)[i]) in opts
    ensures forall k :: 0 <= k < |opts| && opts[k].Some? ==> opts[k].value in Somes(opts)
  {
    if |opts| > 0 {
      SomesMembers(opts[1..]);
      assert forall k :: 1 <= k < |opts| ==> opts[k] == opts[1..][k - 1];
    }
  }

  /** Values whose key is their index come out with strictly increasing keys. */
  lemma {:induction false} SomesOrdered<T>(opts: seq<Option<T>>, key: T -> int, base: int)
    requires forall k :: 0 <= k < |opts| && opts[k].Some? ==> key(opts[k].value) == base + k
    ensures forall i :: 0 <= i < |Somes(opts)| ==> base <= key(Somes(opts)[i]) < base + |opts|
    ensures forall i, j :: 0 <= i < j < |Somes(opts)| ==> key(Somes(opts)[i]) < key(Somes(opts)[j])
  {
    if |opts| > 0 {
      assert forall k :: 1 <= k < |opts| ==> opts[k] == opts[1..][k - 1];
      SomesOrdered(opts[1..], key, base + 1);
    }
  }
}
