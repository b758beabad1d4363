/**
 * `Array.prototype.sort(compare)`, which ECMAScript requires to be stable, modelled as a
 * stable insertion sort under a "less or equal" relation derived from the comparator
 * (`le(a, b)` iff `compare(a, b) <= 0`).
 */
module Sorting {
  import opened Seqs

  /** The comparator orders every pair and is transitive, as a consistent one must be. */
  ghost predicate TotalPreorder<T(!new)>(le: (T, T) -> bool) {
    (forall a, b :: le(a, b) || le(b, a)) &&
    (forall a, b, c :: le(a, b) && le(b, c) ==> le(a, c))
  }

  predicate Sorted<T>(s: seq<T>, le: (T, T) -> bool) {
    forall i, j :: 0 <= i < j < |s| ==> le(s[i], s[j])
  }

  /** The comparator that orders by an integer key, as `(a, b) => key(a) - key(b)` does. */
  function ByKey<T>(key: T -> int): (T, T) -> bool {
    (a, b) => key(a) <= key(b)
  }

  lemma ByKeyTotal<T(!new)>(key: T -> int)
    ensures TotalPreorder(ByKey(key))
  {
  }

  /** `x` goes before the first element it is not greater than. */
  function Insert<T>(x: T, s: seq<T>, le: (T, T) -> bool): (r: seq<T>)
    ensures multiset(r) == multiset(s) + multiset{x}
    ensures |r| == |s| + 1
  {
    if |s| == 0 || le(x, s[0]) then [x] + s
    else
      assert s == [s[0]] + s[1..];
      [s[0]] + Insert(x, s[1..], le)
  }

  /** The sorted copy of `s`. */
  function SortBy<T>(s: seq<T>, le: (T, T) -> bool): (r: seq<T>)
    ensures multiset(r) == multiset(s)
    ensures |r| == |s|
  {
    if |s| == 0 then []
    else
      assert s == [s[0]] + s[1..];
      Insert(s[0], SortBy(s[1..], le), le)
  }

  lemma {:induction false} InsertSorted<T(!new)>(x: T, s: seq<T>, le: (T, T) -> bool)
    requires TotalPreorder(le) && Sorted(s, le)
    ensures Sorted(Insert(x, s, le), le)
  {
    if |s| > 0 && !le(x, s[0]) {
      InsertSorted(x, s[1..], le);
      var r := Insert(x, s, le);
      forall j | 0 < j < |r| ensures le(r[0], r[j]) {
        assert r[j] in multiset(s) + multiset{x};
        if r[j] != x {
          assert r[j] in s;
          var k :| 0 <= k < |s| && s[k] == r[j];
          if k > 0 { assert le(s[0], s[k]); }
        }
      }
    }
  }

  /** The result is ordered by the comparator. */
  lemma {:induction false} SortBySorted<T(!new)>(s: seq<T>, le: (T, T) -> bool)
    requires TotalPreorder(le)
    ensures Sorted(SortBy(s, le), le)
  {
    if |s| > 0 {
      SortBySorted(s[1..], le);
      InsertSorted(s[0], SortBy(s[1..], le), le);
    }
  }

  /** Sorting keeps every element, so every key some element has. */
  lemma SortByKeepsKey<T, K>(s: seq<T>, le: (T, T) -> bool, key: T -> K, a: nat)
    requires a < |s|
    ensures exists b :: 0 <= b < |SortBy(s, le)| && key(SortBy(s, le)[b]) == key(s[a])
  {
    var r := SortBy(s, le);
    assert s[a] in multiset(r);
    var b :| 0 <= b < |r| && r[b] == s[a];
  }

  lemma SortFilterMember<T>(s: seq<T>, p: T -> bool, le: (T, T) -> bool, x: T)
    requires x in SortBy(Filter(s, p), le)
    ensures x in s && p(x)
  {
    var f := Filter(s, p);
    assert x in multiset(SortBy(f, le));
    assert x in multiset(f);
    var k :| 0 <= k < |f| && f[k] == x;
  }

  /** Sorting an already sorted sequence changes nothing. */
  lemma {:induction false} SortBySortedIdentity<T>(s: seq<T>, le: (T, T) -> bool)
    requires Sorted(s, le)
    ensures SortBy(s, le) == s
  {
    if |s| > 0 {
      assert Sorted(s[1..], le);
      SortBySortedIdentity(s[1..], le);
      assert s == [s[0]] + s[1..];
    }
  }

  /** Two elements compare equal both ways. */
  predicate Equiv<T>(le: (T, T) -> bool, a: T, b: T) {
    le(a, b) && le(b, a)
  }

  /** The elements of `s` comparing equal to `y`, in their order in `s`. */
  function Ties<T>(s: seq<T>, le: (T, T) -> bool, y: T): seq<T> {
    if |s| == 0 then []
    else (if Equiv(le, s[0], y) then [s[0]] else []) + Ties(s[1..], le, y)
  }

  /** An element strictly above `x` cannot tie with anything `x` ties with. */
  lemma TiesExclusive<T(!new)>(le: (T, T) -> bool, x: T, z: T, y: T)
    requires TotalPreorder(le) && !le(x, z)
    ensures Equiv(le, x, y) ==> !Equiv(le, z, y)
  {
  }

  lemma {:induction false} InsertTies<T(!new)>(x: T, s: seq<T>, le: (T, T) -> bool, y: T)
    requires TotalPreorder(le)
    ensures Ties(Insert(x, s, le), le, y) ==
      (if Equiv(le, x, y) then [x] else []) + Ties(s, le, y)
  {
    var r := Insert(x, s, le);
    if |s| == 0 || le(x, s[0]) {
      assert r == [x] + s && r[1..] == s;
    } else {
      var t := Insert(x, s[1..], le);
      assert r == [s[0]] + t && r[1..] == t;
      InsertTies(x, s[1..], le, y);
      TiesExclusive(le, x, s[0], y);
      var tx := if Equiv(le, x, y) then [x] else [];
      var t0 := if Equiv(le, s[0], y) then [s[0]] else [];
      assert Ties(r, le, y) == t0 + Ties(t, le, y);
      assert Ties(s, le, y) == t0 + Ties(s[1..], le, y);
      var rest := Ties(s[1..], le, y);
      if Equiv(le, x, y) {
        assert t0 == [];
        assert t0 + (tx + rest) == tx + rest == tx + (t0 + rest);
      } else {
        assert tx == [];
        assert t0 + (tx + rest) == t0 + rest == tx + (t0 + rest);
      }
    }
  }

  /**
   * Stability: elements that compare equal keep their relative input order, i.e. for
   * every `y`, the ties of `y` appear in the result in the same order as in `s`.
   */
  lemma {:induction false} SortByStable<T(!new)>(s: seq<T>, le: (T, T) -> bool, y: T)
    requires TotalPreorder(le)
    ensures Ties(SortBy(s, le), le, y) == Ties(s, le, y)
  {
    if |s| > 0 {
      SortByStable(s[1..], le, y);
      InsertTies(s[0], SortBy(s[1..], le), le, y);
    }
  }

  /** Stability for every tie class at once. */
  lemma SortByStableAll<T(!new)>(s: seq<T>, le: (T, T) -> bool)
    requires TotalPreorder(le)
    ensures forall y :: Ties(SortBy(s, le), le, y) == Ties(s, le, y)
  {
    forall y ensures Ties(SortBy(s, le), le, y) == Ties(s, le, y) {
      SortByStable(s, le, y);
    }
  }

  /** Sorting commutes with any projection as far as the projected multiset goes. */
  lemma {:induction false} SortByMap<T, U>(s: seq<T>, le: (T, T) -> bool, f: T -> U)
    ensures multiset(Map(SortBy(s, le), f)) == multiset(Map(s, f))
  {
    if |s| > 0 {
      SortByMap(s[1..], le, f);
      InsertMap(s[0], SortBy(s[1..], le), le, f);
      assert Map(s, f) == [f(s[0])] + Map(s[1..], f);
    }
  }

  lemma {:induction false} InsertMap<T, U>(x: T, s: seq<T>, le: (T, T) -> bool, f: T -> U)
    ensures multiset(Map(Insert(x, s, le), f)) == multiset(Map(s, f)) + multiset{f(x)}
  {
    if |s| > 0 && !le(x, s[0]) {
      InsertMap(x, s[1..], le, f);
      assert Map(s, f) == [f(s[0])] + Map(s[1..], f);
      assert Map(Insert(x, s, le), f) == [f(s[0])] + Map(Insert(x, s[1..], le), f);
    } else {
      assert Map(Insert(x, s, le), f) == [f(x)] + Map(s, f);
    }
  }

  /** Elements that compare equal both ways are equal. */
  ghost predicate Antisymmetric<T(!new)>(le: (T, T) -> bool) {
    forall a, b :: le(a, b) && le(b, a) ==> a == b
  }

  /** Under an antisymmetric order there is only one sorted arrangement of a multiset. */
  lemma {:induction false} SortedUnique<T(!new)>(s: seq<T>, t: seq<T>, le: (T, T) -> bool)
    requires Antisymmetric(le)
    requires Sorted(s, le) && Sorted(t, le) && multiset(s) == multiset(t)
    ensures s == t
  {
    assert |s| == |multiset(s)| == |multiset(t)| == |t|;
    if |s| > 0 {
      SortedHead(s, t, le);
      MultisetTail(s, t);
      SortedUnique(s[1..], t[1..], le);
      assert s == [s[0]] + s[1..] && t == [t[0]] + t[1..];
    }
  }

  /** Both sorted arrangements start with the same least element. */
  lemma SortedHead<T(!new)>(s: seq<T>, t: seq<T>, le: (T, T) -> bool)
    requires Antisymmetric(le)
    requires Sorted(s, le) && Sorted(t, le) && multiset(s) == multiset(t)
    requires |s| > 0 && |t| > 0
    ensures s[0] == t[0]
  {
    assert s[0] in multiset(t) && t[0] in multiset(s);
    var i :| 0 <= i < |t| && t[i] == s[0];
    var j :| 0 <= j < |s| && s[j] == t[0];
    if i > 0 && j > 0 {
      assert le(t[0], t[i]) && le(s[0], s[j]);
    }
  }

  lemma MultisetTail<T>(s: seq<T>, t: seq<T>)
    requires multiset(s) == multiset(t) && |s| > 0 && |t| > 0 && s[0] == t[0]
    ensures multiset(s[1..]) == multiset(t[1..])
  {
    assert s == [s[0]] + s[1..] && t == [t[0]] + t[1..];
    assert multiset(s[1..]) == multiset(s) - multiset{s[0]};
    assert multiset(t[1..]) == multiset(t) - multiset{t[0]};
  }

  /** Code-unit order on strings, as the default `sort()` and, for ASCII names,
    * `localeCompare` use it: `a` comes first or ties when it is a prefix of `b` or is smaller
    * at the first difference. */
  predicate LexLe(a: string, b: string)
    decreases |a|
  {
    |a| == 0 || (|b| > 0 && (a[0] < b[0] || (a[0] == b[0] && LexLe(a[1..], b[1..]))))
  }

  function StringOrder(): (string, string) -> bool {
    (a, b) => LexLe(a, b)
  }

  lemma {:induction false} LexTotal(a: string, b: string)
    ensures LexLe(a, b) || LexLe(b, a)
    decreases |a|
  {
    if |a| > 0 && |b| > 0 && a[0] == b[0] {
      LexTotal(a[1..], b[1..]);
    }
  }

  lemma {:induction false} LexTransitive(a: string, b: string, c: string)
    requires LexLe(a, b) && LexLe(b, c)
    ensures LexLe(a, c)
    decreases |a|
  {
    if |a| > 0 && a[0] == b[0] && b[0] == c[0] {
      LexTransitive(a[1..], b[1..], c[1..]);
    }
  }

  lemma {:induction false} LexAntisymmetric(a: string, b: string)
    requires LexLe(a, b) && LexLe(b, a)
    ensures a == b
    decreases |a|
  {
    if |a| > 0 {
      LexAntisymmetric(a[1..], b[1..]);
      assert a == [a[0]] + a[1..] && b == [b[0]] + b[1..];
    }
  }

  /** String order is a total order. */
  lemma StringOrderTotal()
    ensures TotalPreorder(StringOrder()) && Antisymmetric(StringOrder())
  {
    forall a, b ensures LexLe(a, b) || LexLe(b, a) {
      LexTotal(a, b);
    }
    forall a, b, c | LexLe(a, b) && LexLe(b, c) ensures LexLe(a, c) {
      LexTransitive(a, b, c);
    }
    forall a, b | LexLe(a, b) && LexLe(b, a) ensures a == b {
      LexAntisymmetric(a, b);
    }
  }
}
