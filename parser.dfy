/**
 * The rhythm notation: text such as `K (1 3)/2 E3|G3 -` becomes a list of timed events.
 * Degrees (`D`, `0`, `1`, `2`, ...) resolve against the current scale layout, split into
 * dings and a pitch-sorted tone circle.
 */
module Parser {
  import opened Wrappers
  import opened Text
  import opened Seqs
  import opened Sorting
  import opened Pitch
  import opened Events
  import opened Constants

  // ---------------------------------------------------------------------------------
  // Tokens: the global regex /(\([^\)]+\)\/[\d.,]+|[^\s]+)/g
  // ---------------------------------------------------------------------------------

  /** Index of the first `c` in `s`, or `|s|`. */
  function IndexOf(s: string, c: char): (i: nat)
    ensures i <= |s| && c !in s[..i]
    ensures i < |s| ==> s[i] == c
  {
    if |s| == 0 || s[0] == c then 0
    else
      var i := 1 + IndexOf(s[1..], c);
      assert s[..i] == [s[0]] + s[1..][..i - 1];
      i
  }

  predicate IsDivisorChar(c: char) { IsDigit(c) || c == '.' || c == ',' }

  /** Length of the longest prefix made of `[\d.,]`. */
  function DivisorLen(s: string): (n: nat)
    ensures n <= |s| && forall k :: 0 <= k < n ==> IsDivisorChar(s[k])
    ensures n < |s| ==> !IsDivisorChar(s[n])
  {
    if |s| == 0 || !IsDivisorChar(s[0]) then 0 else 1 + DivisorLen(s[1..])
  }

  /** Length of the `\([^\)]+\)\/[\d.,]+` match at the start of `s`, 0 when there is none. */
  function GroupLen(s: string): (n: nat)
    ensures n <= |s|
    ensures n > 0 ==> s[0] == '(' && n >= 5
  {
    if |s| == 0 || s[0] != '(' then 0
    else
      var q := 1 + IndexOf(s[1..], ')');
      if q < 2 || q + 2 >= |s| || s[q + 1] != '/' || !IsDivisorChar(s[q + 2]) then 0
      else q + 2 + DivisorLen(s[q + 2..])
  }

  /** `text.match(regex) || []` for a regex `(group|[^\s]+)`: where `groupLen` finds a group
    * at the current position it wins; otherwise a maximal run of non-space characters;
    * whitespace between matches is skipped. Both notations share this shape and differ
    * only in the group alternative. */
  function TokenizeBy(groupLen: string -> nat, s: string): (tokens: seq<string>)
    requires forall x :: groupLen(x) <= |x|
    ensures forall t :: t in tokens ==> |t| > 0
    decreases |s|
  {
    if |s| == 0 then []
    else
      var g := groupLen(s);
      if g > 0 then [s[..g]] + TokenizeBy(groupLen, s[g..])
      else if IsSpace(s[0]) then TokenizeBy(groupLen, s[1..])
      else
        var w := WordLen(s);
        [s[..w]] + TokenizeBy(groupLen, s[w..])
  }

  /** The current notation's tokens: `/(\([^\)]+\)\/[\d.,]+|[^\s]+)/g`. */
  function Tokenize(s: string): (tokens: seq<string>)
    ensures forall t :: t in tokens ==> |t| > 0
  {
    TokenizeBy(GroupLen, s)
  }

  /** `token.match(/^\(([^\)]+)\)\/([\d.,]+)$/)`: the group content and the divisor text. */
  function GroupMatch(token: string): (m: Option<(string, string)>)
    ensures m.Some? ==> |m.value.0| > 0 && ')' !in m.value.0
    ensures m.Some? ==> |m.value.1| > 0 && forall k :: 0 <= k < |m.value.1| ==> IsDivisorChar(m.value.1[k])
    ensures m.Some? ==> token == "(" + m.value.0 + ")/" + m.value.1
  {
    var g := GroupLen(token);
    if g > 0 && g == |token| then
      var q := 1 + IndexOf(token[1..], ')');
      assert token[1..q] == token[1..][..q - 1];
      assert token == "(" + token[1..q] + ")/" + token[q + 2..];
      Some((token[1..q], token[q + 2..]))
    else None
  }

  // ---------------------------------------------------------------------------------
  // Divisors: replace(',', '.') then parseFloat, guarded to a positive number
  // ---------------------------------------------------------------------------------

  /** `s.replace(',', '.')`: only the first comma. */
  function ReplaceFirstComma(s: string): (r: string)
    ensures |r| == |s|
    ensures ',' !in s ==> r == s
  {
    if |s| == 0 then s
    else if s[0] == ',' then "." + s[1..]
    else [s[0]] + ReplaceFirstComma(s[1..])
  }

  function Pow10(n: nat): (p: nat)
    ensures p >= 1
  {
    if n == 0 then 1 else 10 * Pow10(n - 1)
  }

  /** The value of the fraction digits `ds` after a decimal point. */
  function Fraction(ds: string): real
    requires AllDigits(ds)
  {
    DigitsValue(ds) as real / Pow10(|ds|) as real
  }

  /**
   * `parseFloat` on a string of digits, dots and commas: the longest prefix of the form
   * `digits[.digits]`, `digits.` or `.digits`; `None` stands for NaN. (Rounding to the
   * nearest double is not modelled.)
   */
  function ParseFloat(s: string): (r: Option<real>)
    ensures r.Some? ==> r.value >= 0.0
  {
    var i := DigitRun(s);
    if i > 0 then
      var whole := DigitsValue(s[..i]) as real;
      if i < |s| && s[i] == '.' then
        var rest := s[i + 1..];
        Some(whole + Fraction(rest[..DigitRun(rest)]))
      else Some(whole)
    else if |s| >= 2 && s[0] == '.' && IsDigit(s[1]) then
      var rest := s[1..];
      Some(Fraction(rest[..DigitRun(rest)]))
    else None
  }

  /** `(divisor && divisor > 0) ? divisor : 1` after the comma replacement. */
  function SafeDivisor(raw: string): (d: real)
    ensures d > 0.0
    ensures ParseFloat(ReplaceFirstComma(raw)).Some? && ParseFloat(ReplaceFirstComma(raw)).value > 0.0 ==>
      d == ParseFloat(ReplaceFirstComma(raw)).value
    ensures ParseFloat(ReplaceFirstComma(raw)).None? || ParseFloat(ReplaceFirstComma(raw)).value == 0.0 ==>
      d == 1.0
  {
    match ParseFloat(ReplaceFirstComma(raw))
    case Some(v) => if v > 0.0 then v else 1.0
    case None => 1.0
  }

  /** An integer divisor `n` reads as `n`, and `0` falls back to 1. */
  lemma {:induction false} SafeDivisorInteger(ds: string)
    requires |ds| > 0 && AllDigits(ds)
    ensures SafeDivisor(ds) == if DigitsValue(ds) > 0 then DigitsValue(ds) as real else 1.0
  {
    assert ',' !in ds by {
      forall k | 0 <= k < |ds| ensures ds[k] != ',' { assert IsDigit(ds[k]); }
    }
    DigitRunAll(ds);
    assert ds[..|ds|] == ds;
  }

  /** A comma works as the decimal point: `a,b` reads as `a.b`. */
  lemma {:induction false} SafeDivisorComma(a: string, b: string)
    requires |a| > 0 && AllDigits(a) && AllDigits(b)
    ensures var v := DigitsValue(a) as real + Fraction(b);
      SafeDivisor(a + "," + b) == SafeDivisor(a + "." + b) == if v > 0.0 then v else 1.0
  {
    ReplaceCommaAfterDigits(a, b);
    DotUnchanged(a, b);
    ParseFloatDecimal(a, b);
  }

  /** Digits, a dot and digits hold no comma to replace. */
  lemma DotUnchanged(a: string, b: string)
    requires AllDigits(a) && AllDigits(b)
    ensures ReplaceFirstComma(a + "." + b) == a + "." + b
  {
    var t := "." + b;
    assert ',' !in t by {
      forall k | 0 < k < |t| ensures t[k] != ',' { assert t[k] == b[k - 1]; }
    }
    ReplaceNoComma(a, t);
    assert a + "." + b == a + t;
  }

  /** `parseFloat` reads `a.b` as the decimal number it denotes. */
  lemma {:induction false} ParseFloatDecimal(a: string, b: string)
    requires |a| > 0 && AllDigits(a) && AllDigits(b)
    ensures ParseFloat(a + "." + b) == Some(DigitsValue(a) as real + Fraction(b))
  {
    var s := a + "." + b;
    DigitRunPrefix(a, "." + b);
    assert s == a + ("." + b);
    assert s[..|a|] == a;
    assert s[|a|] == '.';
    assert s[|a| + 1..] == b;
    DigitRunAll(b);
    assert b[..|b|] == b;
  }

  lemma {:induction false} ReplaceCommaAfterDigits(a: string, b: string)
    requires AllDigits(a)
    ensures ReplaceFirstComma(a + "," + b) == a + "." + b
  {
    if |a| > 0 {
      assert (a + "," + b)[1..] == a[1..] + "," + b;
      ReplaceCommaAfterDigits(a[1..], b);
      assert a + "." + b == [a[0]] + (a[1..] + "." + b);
    } else {
      assert a + "," + b == "," + b;
      assert (a + "," + b)[1..] == b;
    }
  }

  lemma {:induction false} ReplaceNoComma(a: string, b: string)
    requires AllDigits(a) && |b| > 0 && b[0] == '.' && ',' !in b
    ensures ReplaceFirstComma(a + b) == a + b
  {
    if |a| > 0 {
      assert (a + b)[1..] == a[1..] + b;
      ReplaceNoComma(a[1..], b);
      assert a + b == [a[0]] + (a[1..] + b);
    } else {
      assert a + b == b;
      NoCommaUnchanged(b);
    }
  }

  lemma {:induction false} NoCommaUnchanged(s: string)
    requires ',' !in s
    ensures ReplaceFirstComma(s) == s
  {
  }

  // ---------------------------------------------------------------------------------
  // The scale layout split into dings and tone circle (getSortedScaleNotes)
  // ---------------------------------------------------------------------------------

  /** What the parser reads of a scale: `top || []`, and the keys of `bottom` in order. */
  datatype Layout = Layout(top: seq<string>, bottomKeys: seq<string>)

  /**
   * A parsed layout note `{note, octave, freq, name, isDing}`. `pos` is its index in
   * `[...top, ...bottomKeys]` and stands for the identity of the object.
   */
  datatype LayoutNote = LayoutNote(pos: nat, note: string, octave: nat, freq: Option<int>, name: string, isDing: bool)

  /** Whether the `parse` helper accepts a layout name. */
  predicate IsLayoutNote(s: string) {
    MatchPitch(if StartsWith(s, "D:") then s[2..] else s, 9, false).Some?
  }

  /** The `parse` helper: an optional `D:` marks a ding; then `/^([A-G][#b]?)(\d)$/`. */
  function ParseLayoutNote(pos: nat, s: string): (r: Option<LayoutNote>)
    ensures r.Some? <==> IsLayoutNote(s)
    ensures r.Some? ==> r.value.pos == pos && r.value.isDing == StartsWith(s, "D:")
    ensures r.Some? ==> r.value.name == StripDingPrefix(s)
  {
    var isDing := StartsWith(s, "D:");
    var clean := if isDing then s[2..] else s;
    match MatchPitch(clean, 9, false)
    case None => None
    case Some((note, octave)) => Some(LayoutNote(pos, note, octave, FrequencyMidi(clean), clean, isDing))
  }

  /** The parse of every name, numbered by its index. */
  function ParsedNames(names: seq<string>): (r: seq<Option<LayoutNote>>)
    ensures |r| == |names|
    ensures forall k :: 0 <= k < |r| ==> r[k] == ParseLayoutNote(k, names[k])
  {
    seq(|names|, k requires 0 <= k < |names| => ParseLayoutNote(k, names[k]))
  }

  /** `[...top, ...bottomKeys].forEach(n => { const p = parse(n); if (p) allNotes.push(p); })`. */
  function LayoutNotes(names: seq<string>): seq<LayoutNote> {
    Somes(ParsedNames(names))
  }

  /** Exactly the parseable names appear, once each, in their written order. */
  lemma LayoutNotesSpec(names: seq<string>)
    ensures forall n :: n in LayoutNotes(names) ==> n.pos < |names| && ParseLayoutNote(n.pos, names[n.pos]) == Some(n)
    ensures forall i, j :: 0 <= i < j < |LayoutNotes(names)| ==> LayoutNotes(names)[i].pos < LayoutNotes(names)[j].pos
    ensures forall k :: 0 <= k < |names| && IsLayoutNote(names[k]) ==> ParseLayoutNote(k, names[k]).value in LayoutNotes(names)
  {
    var opts := ParsedNames(names);
    SomesMembers(opts);
    SomesOrdered(opts, (n: LayoutNote) => n.pos, 0);
    forall n | n in LayoutNotes(names)
      ensures n.pos < |names| && ParseLayoutNote(n.pos, names[n.pos]) == Some(n)
    {
      var i :| 0 <= i < |LayoutNotes(names)| && LayoutNotes(names)[i] == n;
      assert Some(n) in opts;
    }
  }

  function AllNotes(layout: Layout): seq<LayoutNote> {
    LayoutNotes(layout.top + layout.bottomKeys)
  }

  /** The key of `(a, b) => a.freq - b.freq`, with MIDI numbers for frequencies. */
  function FreqKey(n: LayoutNote): int {
    n.freq.GetOr(0)
  }

  function FreqOrder(): (LayoutNote, LayoutNote) -> bool {
    ByKey(FreqKey)
  }

  /** `n.name === top0 || n.name === top0.replace('D:', '')`. */
  predicate NamedAs(n: LayoutNote, top0: string) {
    n.name == top0 || n.name == ReplaceFirstDing(top0)
  }

  /** `find`: the first note named as the main ding. */
  function FindNamed(s: seq<LayoutNote>, top0: string): (r: Option<LayoutNote>)
    ensures r.Some? ==> exists i :: 0 <= i < |s| && s[i] == r.value && NamedAs(r.value, top0) &&
                                    forall j :: 0 <= j < i ==> !NamedAs(s[j], top0)
    ensures r.None? ==> forall i :: 0 <= i < |s| ==> !NamedAs(s[i], top0)
  {
    if |s| == 0 then None
    else if NamedAs(s[0], top0) then Some(s[0])
    else
      var r := FindNamed(s[1..], top0);
      assert forall i :: 0 < i < |s| ==> s[i] == s[1..][i - 1];
      r
  }

  /** `find` succeeds whenever some note is named as asked. */
  lemma FindNamedFinds(s: seq<LayoutNote>, top0: string, n: LayoutNote)
    requires n in s && NamedAs(n, top0)
    ensures FindNamed(s, top0).Some?
  {
    var k :| 0 <= k < |s| && s[k] == n;
  }

  datatype ScaleNotes = ScaleNotes(dings: seq<LayoutNote>, toneCircle: seq<LayoutNote>)

  predicate IsMain(main: Option<LayoutNote>, n: LayoutNote) {
    main.Some? && n.pos == main.value.pos
  }

  /** `n.isDing && n !== mainDingObj`. */
  predicate OtherDing(main: Option<LayoutNote>, n: LayoutNote) {
    n.isDing && !IsMain(main, n)
  }

  /** `dings.includes(n)`, by identity. */
  predicate HasPos(s: seq<LayoutNote>, pos: nat) {
    exists i :: 0 <= i < |s| && s[i].pos == pos
  }

  /** `otherDings`, sorted by pitch. */
  function OtherDings(sorted: seq<LayoutNote>, main: Option<LayoutNote>): seq<LayoutNote> {
    SortBy(Filter(sorted, (n: LayoutNote) => OtherDing(main, n)), FreqOrder())
  }

  /** `[mainDingObj, ...otherDings]`. */
  function DingList(sorted: seq<LayoutNote>, main: Option<LayoutNote>): seq<LayoutNote> {
    (if main.Some? then [main.value] else []) + OtherDings(sorted, main)
  }

  /** `allNotes.filter(n => !dings.includes(n))`, sorted. */
  function ToneList(sorted: seq<LayoutNote>, dings: seq<LayoutNote>): seq<LayoutNote> {
    SortBy(Filter(sorted, (n: LayoutNote) => !HasPos(dings, n.pos)), FreqOrder())
  }

  /**
   * getSortedScaleNotes. Reading `top[0]` of an empty top list throws a TypeError once
   * some note parses (the bottom keys alone can supply one).
   */
  function Partition(layout: Layout): (r: Result<ScaleNotes>)
    ensures r.Failure? <==> |layout.top| == 0 && |AllNotes(layout)| > 0
  {
    var sorted := SortBy(AllNotes(layout), FreqOrder());
    if |sorted| == 0 then Success(ScaleNotes([], []))
    else if |layout.top| == 0 then Failure("TypeError")
    else
      var main := FindNamed(sorted, layout.top[0]);
      var dings := DingList(sorted, main);
      Success(ScaleNotes(dings, ToneList(sorted, dings)))
  }

  /** Notes at the same position are the same note, and none occurs twice. */
  lemma {:induction false} PositionsIdentify(s: seq<LayoutNote>)
    requires forall i, j :: 0 <= i < j < |s| ==> s[i].pos < s[j].pos
    ensures forall x :: multiset(s)[x] <= 1
  {
    if |s| > 0 {
      PositionsIdentify(s[1..]);
      assert s == [s[0]] + s[1..];
      assert s[0] !in s[1..];
    }
  }

  /** Two layout notes at one position are one note. */
  lemma SamePosSameNote(layout: Layout, a: LayoutNote, b: LayoutNote)
    requires a in AllNotes(layout) && b in AllNotes(layout) && a.pos == b.pos
    ensures a == b
  {
    LayoutNotesSpec(layout.top + layout.bottomKeys);
  }

  /** A position occurs in a concatenation when it occurs in either part. */
  lemma HasPosConcat(a: seq<LayoutNote>, b: seq<LayoutNote>, pos: nat)
    ensures HasPos(a + b, pos) == (HasPos(a, pos) || HasPos(b, pos))
  {
    if HasPos(a, pos) {
      var k :| 0 <= k < |a| && a[k].pos == pos;
      assert (a + b)[k] == a[k];
    }
    if HasPos(b, pos) {
      var k :| 0 <= k < |b| && b[k].pos == pos;
      assert (a + b)[|a| + k] == b[k];
    }
    if HasPos(a + b, pos) {
      var k :| 0 <= k < |a + b| && (a + b)[k].pos == pos;
      if k >= |a| {
        assert b[k - |a|] == (a + b)[k];
      } else {
        assert a[k] == (a + b)[k];
      }
    }
  }

  /** Reordering keeps the positions present. */
  lemma HasPosPermutation(a: seq<LayoutNote>, b: seq<LayoutNote>, pos: nat)
    requires multiset(a) == multiset(b)
    ensures HasPos(a, pos) == HasPos(b, pos)
  {
    if HasPos(a, pos) {
      var k :| 0 <= k < |a| && a[k].pos == pos;
      assert a[k] in multiset(b);
      var j :| 0 <= j < |b| && b[j] == a[k];
    }
    if HasPos(b, pos) {
      var k :| 0 <= k < |b| && b[k].pos == pos;
      assert b[k] in multiset(a);
      var j :| 0 <= j < |a| && a[j] == b[k];
    }
  }

  /** Where positions identify notes, a note's position survives filtering exactly when the
    * note passes the filter. */
  lemma HasPosFilter(sorted: seq<LayoutNote>, p: LayoutNote -> bool, n: LayoutNote)
    requires n in sorted
    requires forall a, b :: a in sorted && b in sorted && a.pos == b.pos ==> a == b
    ensures HasPos(Filter(sorted, p), n.pos) == p(n)
  {
    var f := Filter(sorted, p);
    if p(n) {
      var i :| 0 <= i < |sorted| && sorted[i] == n;
      var k :| 0 <= k < |f| && f[k] == n;
    }
    if HasPos(f, n.pos) {
      var k :| 0 <= k < |f| && f[k].pos == n.pos;
      assert f[k] in sorted && p(f[k]);
    }
  }

  /** A note is in the ding list exactly when it is the main ding or another ding. */
  lemma DingMembership(sorted: seq<LayoutNote>, main: Option<LayoutNote>, n: LayoutNote)
    requires n in sorted && (main.Some? ==> main.value in sorted)
    requires forall a, b :: a in sorted && b in sorted && a.pos == b.pos ==> a == b
    ensures HasPos(DingList(sorted, main), n.pos) == (IsMain(main, n) || OtherDing(main, n))
  {
    var isOther := (n: LayoutNote) => OtherDing(main, n);
    var filtered := Filter(sorted, isOther);
    var others := SortBy(filtered, FreqOrder());
    var head := if main.Some? then [main.value] else [];
    assert DingList(sorted, main) == head + others;
    HasPosConcat(head, others, n.pos);
    HasPosPermutation(filtered, others, n.pos);
    HasPosFilter(sorted, isOther, n);
    if main.Some? {
      assert head[0] == main.value;
    }
  }

  /** The ding list and the tone list together hold each note of `sorted` exactly once. */
  lemma SplitByDings(sorted: seq<LayoutNote>, main: Option<LayoutNote>)
    requires main.Some? ==> main.value in sorted
    requires forall a, b :: a in sorted && b in sorted && a.pos == b.pos ==> a == b
    requires forall x :: multiset(sorted)[x] <= 1
    ensures multiset(DingList(sorted, main)) + multiset(ToneList(sorted, DingList(sorted, main))) == multiset(sorted)
  {
    var dings := DingList(sorted, main);
    var isOther := (n: LayoutNote) => OtherDing(main, n);
    var isMain := (n: LayoutNote) => IsMain(main, n);
    var inDings := (n: LayoutNote) => HasPos(dings, n.pos);
    var notInDings := (n: LayoutNote) => !HasPos(dings, n.pos);
    forall i | 0 <= i < |sorted|
      ensures inDings(sorted[i]) == (isMain(sorted[i]) || isOther(sorted[i]))
      ensures !(isMain(sorted[i]) && isOther(sorted[i]))
    {
      DingMembership(sorted, main, sorted[i]);
    }
    FilterUnion(sorted, isMain, isOther, inDings);
    FilterPartition(sorted, inDings, notInDings);
    MainsFilter(sorted, main);
  }

  /** Filtering `sorted` for the main ding keeps exactly that one note. */
  lemma MainsFilter(sorted: seq<LayoutNote>, main: Option<LayoutNote>)
    requires main.Some? ==> main.value in sorted
    requires forall a, b :: a in sorted && b in sorted && a.pos == b.pos ==> a == b
    requires forall x :: multiset(sorted)[x] <= 1
    ensures multiset(Filter(sorted, (n: LayoutNote) => IsMain(main, n)))
      == multiset(if main.Some? then [main.value] else [])
  {
    var isMain := (n: LayoutNote) => IsMain(main, n);
    var mains := Filter(sorted, isMain);
    if main.Some? {
      var m := main.value;
      var i :| 0 <= i < |sorted| && sorted[i] == m;
      assert m in mains;
      assert multiset(mains)[m] <= multiset(sorted)[m] <= 1;
      forall x | x in multiset(mains) ensures x == m {
        var k :| 0 <= k < |mains| && mains[k] == x;
        assert x in sorted && isMain(x);
      }
      assert multiset(mains) == multiset{m};
    }
  }

  /**
   * The ding list and the tone circle split the parseable layout notes between them:
   * together they hold each exactly once.
   */
  lemma PartitionSplits(layout: Layout)
    requires Partition(layout).Success?
    ensures multiset(Partition(layout).value.dings) + multiset(Partition(layout).value.toneCircle)
      == multiset(AllNotes(layout))
  {
    var all := AllNotes(layout);
    var sorted := SortBy(all, FreqOrder());
    if |sorted| > 0 {
      var main := FindNamed(sorted, layout.top[0]);
      LayoutNotesSpec(layout.top + layout.bottomKeys);
      PositionsIdentify(all);
      forall a, b | a in sorted && b in sorted && a.pos == b.pos ensures a == b {
        assert a in multiset(all) && b in multiset(all);
        SamePosSameNote(layout, a, b);
      }
      SplitByDings(sorted, main);
    }
  }

  /** The tone list ascends by pitch. */
  lemma ToneListAscending(sorted: seq<LayoutNote>, dings: seq<LayoutNote>)
    ensures forall i, j :: 0 <= i < j < |ToneList(sorted, dings)| ==>
      FreqKey(ToneList(sorted, dings)[i]) <= FreqKey(ToneList(sorted, dings)[j])
  {
    ByKeyTotal(FreqKey);
    SortBySorted(Filter(sorted, (n: LayoutNote) => !HasPos(dings, n.pos)), FreqOrder());
  }

  /** The other dings are marked `D:` and are not at the main ding's position. */
  lemma OtherDingsMarked(sorted: seq<LayoutNote>, main: Option<LayoutNote>)
    ensures forall x :: x in OtherDings(sorted, main) ==> x.isDing && !IsMain(main, x)
  {
    forall x | x in OtherDings(sorted, main) ensures x.isDing && !IsMain(main, x) {
      SortFilterMember(sorted, (n: LayoutNote) => OtherDing(main, n), FreqOrder(), x);
    }
  }

  /** The main ding, when found, leads the ding list; the rest are marked `D:` and are not
    * at the main ding's position. */
  lemma DingListShape(sorted: seq<LayoutNote>, main: Option<LayoutNote>)
    ensures main.Some? ==> |DingList(sorted, main)| > 0 && DingList(sorted, main)[0] == main.value
    ensures forall i :: (if main.Some? then 1 else 0) <= i < |DingList(sorted, main)| ==>
      DingList(sorted, main)[i].isDing && !IsMain(main, DingList(sorted, main)[i])
  {
    var others := OtherDings(sorted, main);
    var dings := DingList(sorted, main);
    OtherDingsMarked(sorted, main);
    if main.Some? {
      assert dings == [main.value] + others;
      forall i | 1 <= i < |dings| ensures dings[i].isDing && !IsMain(main, dings[i]) {
        assert dings[i] == others[i - 1];
      }
    } else {
      assert dings == others;
    }
  }

  /** The tone circle ascends by pitch. */
  lemma PartitionAscending(layout: Layout)
    requires Partition(layout).Success?
    ensures forall i, j :: 0 <= i < j < |Partition(layout).value.toneCircle| ==>
      FreqKey(Partition(layout).value.toneCircle[i]) <= FreqKey(Partition(layout).value.toneCircle[j])
  {
    var sorted := SortBy(AllNotes(layout), FreqOrder());
    if |sorted| > 0 {
      var main := FindNamed(sorted, layout.top[0]);
      ToneListAscending(sorted, DingList(sorted, main));
    }
  }

  /** The first note, by pitch, named like `top[0]` leads the ding list when there is one,
    * and every other ding is marked `D:`. */
  lemma PartitionMainDing(layout: Layout)
    requires Partition(layout).Success?
    ensures |layout.top| > 0 && (exists n :: n in AllNotes(layout) && NamedAs(n, layout.top[0])) ==>
      |Partition(layout).value.dings| > 0 && NamedAs(Partition(layout).value.dings[0], layout.top[0])
    ensures forall i :: 0 < i < |Partition(layout).value.dings| ==> Partition(layout).value.dings[i].isDing
  {
    var all := AllNotes(layout);
    var sorted := SortBy(all, FreqOrder());
    if |sorted| > 0 {
      var top0 := layout.top[0];
      var main := FindNamed(sorted, top0);
      DingListShape(sorted, main);
      if exists n :: n in all && NamedAs(n, top0) {
        var n :| n in all && NamedAs(n, top0);
        assert n in multiset(sorted);
        FindNamedFinds(sorted, top0, n);
      }
    }
  }

  // ---------------------------------------------------------------------------------
  // Alternatives: one `|`-separated part of a token (parseNoteToken's loop body)
  // ---------------------------------------------------------------------------------

  /** A degree pushes the layout note object itself: its spelling as written, not upper-cased. */
  function ToneOf(n: LayoutNote): Sound {
    Tone(n.note, n.octave, n.freq)
  }

  /** `/^(\d+|D)$/i`. */
  predicate IsDegreeSymbol(raw: string) {
    raw == "D" || raw == "d" || (|raw| > 0 && AllDigits(raw))
  }

  /** `sorted.dings.sort((a, b) => a.freq - b.freq)[0]`. */
  function LowestDing(dings: seq<LayoutNote>): LayoutNote
    requires |dings| > 0
  {
    SortBy(dings, FreqOrder())[0]
  }

  /** The lowest ding is one of the dings, and none sits below it. */
  lemma LowestDingSpec(dings: seq<LayoutNote>)
    requires |dings| > 0
    ensures LowestDing(dings) in dings
    ensures forall d :: d in dings ==> FreqKey(LowestDing(dings)) <= FreqKey(d)
  {
    var sorted := SortBy(dings, FreqOrder());
    ByKeyTotal(FreqKey);
    SortBySorted(dings, FreqOrder());
    assert sorted[0] in multiset(dings);
    forall d | d in dings ensures FreqKey(sorted[0]) <= FreqKey(d) {
      assert d in multiset(sorted);
      var k :| 0 <= k < |sorted| && sorted[k] == d;
      if k > 0 {
        assert FreqOrder()(sorted[0], sorted[k]);
      }
    }
  }

  /**
   * One alternative, already trimmed, against the layout's partition: percussion, rest,
   * degree, or pitch; `Success(None)` when it resolves to nothing. The partition is only
   * consulted for a degree, so only a degree can raise the layout's TypeError.
   */
  function Alt(raw: string, scale: Result<ScaleNotes>): (r: Result<Option<Sound>>)
    ensures r.Failure? <==> IsDegreeSymbol(raw) && scale.Failure?
  {
    var clean := ToUpper(raw);
    if clean == "K" || clean == "T" then Success(Some(Perc(clean, raw == "k" || raw == "t")))
    else if clean == "-" then Success(Some(Rest))
    else if IsDegreeSymbol(raw) then
      match scale
      case Failure(e) => Failure(e)
      case Success(scale) =>
        if clean == "D" || clean == "0" then
          if |scale.dings| > 0 then Success(Some(ToneOf(LowestDing(scale.dings)))) else Success(None)
        else
          var idx := DigitsValue(clean) - 1;
          if 0 <= idx < |scale.toneCircle| then Success(Some(ToneOf(scale.toneCircle[idx])))
          else Success(None)
    else Success(PitchAlt(raw))
  }

  /** `raw.match(/^([A-G][#b]?)(\d)$/i)`: a note named upper-case, its frequency taken from
    * the spelling as written. */
  function PitchAlt(raw: string): (r: Option<Sound>)
    ensures r.Some? ==> r.value.Tone?
  {
    match MatchPitch(raw, 9, true)
    case Some((spelling, octave)) => Some(Tone(ToUpper(spelling), octave, FrequencyMidi(raw)))
    case None => None
  }

  /** What is neither percussion, rest nor degree is read as a pitch. */
  lemma AltOther(raw: string, scale: Result<ScaleNotes>)
    requires ToUpper(raw) != "K" && ToUpper(raw) != "T" && ToUpper(raw) != "-" && !IsDegreeSymbol(raw)
    ensures Alt(raw, scale) == Success(PitchAlt(raw))
  {
  }

  /** A string of two or more characters not starting with a digit is read as a pitch. */
  lemma AltLong(raw: string, scale: Result<ScaleNotes>)
    requires |raw| >= 2 && !IsDigit(raw[0])
    ensures Alt(raw, scale) == Success(PitchAlt(raw))
  {
    assert |ToUpper(raw)| >= 2;
    AltOther(raw, scale);
  }

  /** Some alternative raises exactly when the first does or one of the others does. */
  lemma RaisesCons(parts: seq<string>, scale: Result<ScaleNotes>)
    requires |parts| > 0
    ensures (exists k :: 0 <= k < |parts| && Raises(parts[k], scale)) <==>
      Raises(parts[0], scale) || exists k :: 0 <= k < |parts[1..]| && Raises(parts[1..][k], scale)
  {
    assert forall k :: 1 <= k < |parts| ==> parts[k] == parts[1..][k - 1];
  }

  /** parseNoteToken's loop body for the part `p` of a token. */
  function ParseAlt(p: string, layout: Layout): (r: Result<Option<Sound>>)
    ensures r.Failure? <==> IsDegreeSymbol(Trim(p)) && |layout.top| == 0 && |AllNotes(layout)| > 0
  {
    Alt(Trim(p), Partition(layout))
  }

  /** A one-character string whose upper-case form is `U` is `U` or its lower-case letter. */
  lemma UpperSingle(raw: string, u: char)
    requires ToUpper(raw) == [u] && 'A' <= u <= 'Z'
    ensures raw == [u] || raw == [(u as int + 32) as char]
  {
    assert |raw| == 1 && UpperChar(raw[0]) == u;
  }

  /** `K`, `T`, `k`, `t` and nothing else are percussion: the hand upper-cased, a ghost
    * stroke exactly when the letter is written lower-case. */
  lemma AltPercussion(raw: string, scale: Result<ScaleNotes>)
    ensures raw in ["K", "T", "k", "t"] ==>
      Alt(raw, scale) == Success(Some(Perc([UpperChar(raw[0])], raw == "k" || raw == "t")))
    ensures raw !in ["K", "T", "k", "t"] ==>
      !(Alt(raw, scale).Success? && Alt(raw, scale).value.Some? && Alt(raw, scale).value.value.Perc?)
  {
    var clean := ToUpper(raw);
    if clean == "K" {
      UpperSingle(raw, 'K');
    } else if clean == "T" {
      UpperSingle(raw, 'T');
    }
  }

  /** `-` and nothing else is a rest. */
  lemma AltRest(raw: string, scale: Result<ScaleNotes>)
    ensures raw == "-" ==> Alt(raw, scale) == Success(Some(Rest))
    ensures raw != "-" ==> !(Alt(raw, scale).Success? && Alt(raw, scale).value == Some(Rest))
  {
    var clean := ToUpper(raw);
    if clean == "-" {
      assert |raw| == 1 && UpperChar(raw[0]) == '-';
      assert raw == [raw[0]];
    }
  }

  /** `D`, `d` and `0` resolve to the lowest-pitched ding when the layout has one. */
  lemma AltDing(raw: string, scale: ScaleNotes)
    requires raw in ["D", "d", "0"]
    ensures |scale.dings| == 0 ==> Alt(raw, Success(scale)) == Success(None)
    ensures |scale.dings| > 0 ==>
      Alt(raw, Success(scale)).Success? && Alt(raw, Success(scale)).value.Some? &&
      exists d :: d in scale.dings && Alt(raw, Success(scale)).value.value == ToneOf(d) &&
        forall e :: e in scale.dings ==> FreqKey(d) <= FreqKey(e)
  {
    assert ToUpper(raw) == [UpperChar(raw[0])];
    if |scale.dings| > 0 {
      LowestDingSpec(scale.dings);
    }
  }

  /**
   * A number `n` other than `0` resolves to the `n`-th note of the tone circle (counting
   * from 1) when there is one, and to nothing otherwise.
   */
  lemma AltDegree(raw: string, scale: ScaleNotes)
    requires |raw| > 0 && AllDigits(raw) && raw != "0"
    ensures Alt(raw, Success(scale)) == Success(
      if 1 <= DigitsValue(raw) <= |scale.toneCircle|
      then Some(ToneOf(scale.toneCircle[DigitsValue(raw) - 1]))
      else None)
  {
    UpperDigits(raw);
    assert IsDigit(raw[0]);
    assert raw[0] != 'K' && raw[0] != 'T' && raw[0] != '-' && raw[0] != 'D';
    assert raw != "K" && raw != "T" && raw != "-" && raw != "D";
    assert IsDegreeSymbol(raw);
  }

  /** Digits have no case. */
  lemma UpperDigits(raw: string)
    requires AllDigits(raw)
    ensures ToUpper(raw) == raw
  {
    forall k | 0 <= k < |raw| ensures ToUpper(raw)[k] == raw[k] { assert IsDigit(raw[k]); }
  }

  /** `00` is a degree symbol, read as 0, that resolves to nothing. */
  lemma AltDoubleZero(scale: ScaleNotes)
    ensures Alt("00", Success(scale)) == Success(None)
  {
    AltDegree("00", scale);
    assert DigitsValue("00") == 0;
  }

  /**
   * A pitch (`[A-G][#b]?\d`, any case) stores its spelling upper-cased and its octave digit.
   */
  lemma AltPitch(raw: string, scale: Result<ScaleNotes>, spelling: string, octave: nat)
    requires MatchPitch(raw, 9, true) == Some((spelling, octave))
    ensures Alt(raw, scale) == Success(Some(Tone(ToUpper(spelling), octave, FrequencyMidi(raw))))
  {
    assert raw == spelling + [DigitChar(octave)];
    AltLong(raw, scale);
  }

  /**
   * The frequency of a written pitch comes from its spelling as written, so it exists only
   * for an upper-case letter, an accidental `#` or `b`, an octave up to 8 and a spelling the
   * table knows, and then it is the MIDI number of that spelling and octave.
   */
  lemma PitchFrequency(raw: string, spelling: string, octave: nat)
    requires MatchPitch(raw, 9, true) == Some((spelling, octave))
    ensures FrequencyMidi(raw).Some? <==>
      IsNoteLetter(spelling[0]) && (|spelling| == 1 || spelling[1] in "#b") && octave <= 8 &&
      NoteToMidi(spelling).Some?
    ensures FrequencyMidi(raw).Some? ==>
      FrequencyMidi(raw).value == 12 * (octave + 1) + NoteToMidi(spelling).value
  {
    assert raw == spelling + [DigitChar(octave)];
    assert raw[1] != ':';
    if IsNoteLetter(spelling[0]) && (|spelling| == 1 || spelling[1] in "#b") && octave <= 8 {
      MatchPitchOf(spelling, octave, 8, false);
    }
  }

  /** A pitch is made of a letter, an accidental and a digit only. */
  lemma PitchChars(raw: string)
    requires MatchPitch(raw, 9, true).Some?
    ensures '(' !in raw && ')' !in raw
  {
    var m := MatchPitch(raw, 9, true).value;
    assert raw == m.0 + [DigitChar(m.1)];
  }

  /** An alternative written with a parenthesis resolves to nothing. */
  lemma AltParenthesis(raw: string, scale: Result<ScaleNotes>)
    requires '(' in raw || ')' in raw
    ensures Alt(raw, scale) == Success(None)
  {
    var k :| 0 <= k < |raw| && (raw[k] == '(' || raw[k] == ')');
    assert !IsDigit(raw[k]);
    assert ToUpper(raw)[k] == raw[k];
    assert !IsDegreeSymbol(raw);
    AltOther(raw, scale);
    if MatchPitch(raw, 9, true).Some? {
      PitchChars(raw);
    }
  }

  // ---------------------------------------------------------------------------------
  // Tokens and the whole text
  // ---------------------------------------------------------------------------------

  /** The value an alternative resolves to, when it does not raise. */
  function Resolved(p: string, scale: Result<ScaleNotes>): Option<Sound> {
    match Alt(Trim(p), scale)
    case Success(o) => o
    case Failure(_) => None
  }

  /** Whether the alternative `p` raises the layout's TypeError: it is a degree and the
    * layout failed. */
  predicate Raises(p: string, scale: Result<ScaleNotes>) {
    IsDegreeSymbol(Trim(p)) && scale.Failure?
  }

  /** parseNoteToken's loop over `token.split('|')`: the resolved alternatives in order. */
  function ResolveAlts(parts: seq<string>, scale: Result<ScaleNotes>): (r: Result<seq<Sound>>)
    ensures r.Failure? <==> exists k :: 0 <= k < |parts| && Raises(parts[k], scale)
  {
    if |parts| == 0 then Success([])
    else
      var first := Alt(Trim(parts[0]), scale);
      var rest := ResolveAlts(parts[1..], scale);
      RaisesCons(parts, scale);
      if first.Failure? then Failure(first.error)
      else if rest.Failure? then Failure(rest.error)
      else Success((if first.value.Some? then [first.value.value] else []) + rest.value)
  }

  /** The alternatives kept are exactly the ones that resolve, in their written order; each
    * unresolved one is dropped on its own. */
  lemma {:induction false} ResolveAltsKeeps(parts: seq<string>, scale: Result<ScaleNotes>)
    requires ResolveAlts(parts, scale).Success?
    ensures ResolveAlts(parts, scale).value == Somes(Map(parts, (p: string) => Resolved(p, scale)))
  {
    if |parts| > 0 {
      ResolveAltsKeeps(parts[1..], scale);
      var f := (p: string) => Resolved(p, scale);
      assert Map(parts, f)[1..] == Map(parts[1..], f);
    }
  }

  /** parseNoteToken: a wrapper `{isGroup: true, notes}` when some alternative resolves
    * (its duration is set by the caller), nothing otherwise. */
  function NoteToken(token: string, scale: Result<ScaleNotes>): (r: Result<Option<Event>>)
    ensures r.Success? && r.value.Some? ==> r.value.value.Group? && |r.value.value.alts| > 0
  {
    match ResolveAlts(Split(token, '|'), scale)
    case Failure(e) => Failure(e)
    case Success(alts) => Success(if |alts| > 0 then Some(Group(alts, None)) else None)
  }

  /** A token or group sub-token with the duration the caller gives its event. */
  datatype Piece = Piece(text: string, length: real)

  lemma ReciprocalPositive(d: real)
    requires d > 0.0
    ensures 1.0 / d > 0.0
  {
  }

  /** The sub-tokens of a `(content)/divisor` group: its whitespace-separated words, each
    * lasting `1 / d` for the guarded divisor `d`. */
  function GroupPieces(content: string, divisor: string): (ps: seq<Piece>)
    ensures |ps| == |Words(content)|
    ensures forall k :: 0 <= k < |ps| ==> ps[k] == Piece(Words(content)[k], 1.0 / SafeDivisor(divisor))
  {
    var length := 1.0 / SafeDivisor(divisor);
    Map(Words(content), (w: string) => Piece(w, length))
  }

  /** The pieces of one token: a group gives its sub-tokens, any other token is one piece
    * of length 1. */
  function TokenPieces(token: string): (ps: seq<Piece>)
    ensures forall p :: p in ps ==> p.length > 0.0
    ensures GroupMatch(token).None? ==> ps == [Piece(token, 1.0)]
  {
    match GroupMatch(token)
    case Some((content, divisor)) =>
      var ps := GroupPieces(content, divisor);
      ReciprocalPositive(SafeDivisor(divisor));
      ps
    case None => [Piece(token, 1.0)]
  }

  /** The pieces of a token sequence, in order. */
  function Pieces(tokens: seq<string>): (ps: seq<Piece>)
    ensures forall p :: p in ps ==> p.length > 0.0
  {
    if |tokens| == 0 then [] else TokenPieces(tokens[0]) + Pieces(tokens[1..])
  }

  /** The event one piece contributes, when it raises nothing. */
  function PieceEvent(piece: Piece, scale: Result<ScaleNotes>): (r: Option<Event>)
    ensures r.Some? <==> NoteToken(piece.text, scale).Success? && NoteToken(piece.text, scale).value.Some?
    ensures r.Some? ==> r.value == Group(NoteToken(piece.text, scale).value.value.alts, Some(piece.length))
  {
    match NoteToken(piece.text, scale)
    case Success(Some(e)) => Some(Group(e.alts, Some(piece.length)))
    case _ => None
  }

  /** The events of a sequence of pieces; the first TypeError aborts the whole parse. */
  function ParsePieces(ps: seq<Piece>, scale: Result<ScaleNotes>): (r: Result<seq<Event>>)
    ensures r.Failure? <==> exists k :: 0 <= k < |ps| && NoteToken(ps[k].text, scale).Failure?
  {
    if |ps| == 0 then Success([])
    else
      var first := NoteToken(ps[0].text, scale);
      var rest := ParsePieces(ps[1..], scale);
      assert forall k :: 1 <= k < |ps| ==> ps[k] == ps[1..][k - 1];
      if first.Failure? then Failure(first.error)
      else if rest.Failure? then Failure(rest.error)
      else Success((if first.value.Some? then [Group(first.value.value.alts, Some(ps[0].length))] else []) + rest.value)
  }

  /** parseRhythmString. */
  function ParseRhythm(text: string, layout: Layout): Result<seq<Event>> {
    ParsePieces(Pieces(Tokenize(text)), Partition(layout))
  }

  /** Each piece contributes exactly one event when some alternative resolves and none
    * otherwise, in order. */
  lemma {:induction false} ParsePiecesKeeps(ps: seq<Piece>, scale: Result<ScaleNotes>)
    requires ParsePieces(ps, scale).Success?
    ensures ParsePieces(ps, scale).value == Somes(Map(ps, (p: Piece) => PieceEvent(p, scale)))
  {
    if |ps| > 0 {
      ParsePiecesKeeps(ps[1..], scale);
      var f := (p: Piece) => PieceEvent(p, scale);
      assert Map(ps, f)[1..] == Map(ps[1..], f);
    }
  }

  /**
   * Every event is a wrapper with at least one alternative and the length of the piece it
   * came from; there are at most as many events as pieces.
   */
  lemma {:induction false} ParsePiecesShape(ps: seq<Piece>, scale: Result<ScaleNotes>)
    requires ParsePieces(ps, scale).Success?
    ensures |ParsePieces(ps, scale).value| <= |ps|
    ensures forall e :: e in ParsePieces(ps, scale).value ==>
      e.Group? && |e.alts| > 0 && exists p :: p in ps && e.duration == Some(p.length)
  {
    if |ps| > 0 {
      ParsePiecesShape(ps[1..], scale);
      var rest := ParsePieces(ps[1..], scale).value;
      forall e | e in ParsePieces(ps, scale).value
        ensures e.Group? && |e.alts| > 0 && exists p :: p in ps && e.duration == Some(p.length)
      {
        if e !in rest {
          assert e.duration == Some(ps[0].length);
        } else {
          var p :| p in ps[1..] && e.duration == Some(p.length);
          assert p in ps;
        }
      }
    }
  }

  /** Some `|`-alternative of the token is a degree. */
  predicate HasDegree(token: string) {
    exists j :: 0 <= j < |Split(token, '|')| && IsDegreeSymbol(Trim(Split(token, '|')[j]))
  }

  /** A token raises exactly when the layout does and one of its alternatives is a degree. */
  lemma NoteTokenRaises(token: string, scale: Result<ScaleNotes>)
    ensures NoteToken(token, scale).Failure? <==> scale.Failure? && HasDegree(token)
  {
  }

  /** Some piece holds a degree. */
  predicate AnyDegree(ps: seq<Piece>) {
    exists k :: 0 <= k < |ps| && HasDegree(ps[k].text)
  }

  /** A sequence of pieces raises exactly when the layout does and some piece holds a degree. */
  lemma PiecesRaise(ps: seq<Piece>, scale: Result<ScaleNotes>)
    ensures ParsePieces(ps, scale).Failure? <==> scale.Failure? && AnyDegree(ps)
  {
    forall k | 0 <= k < |ps| {
      NoteTokenRaises(ps[k].text, scale);
    }
  }

  /** The text parses without raising whenever the layout names a first note. */
  lemma ParseRhythmTotal(text: string, layout: Layout)
    requires |layout.top| > 0
    ensures ParseRhythm(text, layout).Success?
  {
    PiecesRaise(Pieces(Tokenize(text)), Partition(layout));
  }

  /** It raises exactly when the layout has notes but no first note to name the main ding by,
    * and some alternative is a degree. */
  lemma ParseRhythmRaises(text: string, layout: Layout)
    ensures ParseRhythm(text, layout).Failure? <==>
      |layout.top| == 0 && |AllNotes(layout)| > 0 && AnyDegree(Pieces(Tokenize(text)))
  {
    PiecesRaise(Pieces(Tokenize(text)), Partition(layout));
  }

  /** Text with no `(` is split at whitespace only: its tokens are its words. A parenthesised
    * run without `/divisor` is split the same way around its `(`. */
  lemma {:induction false} TokenizeWords(s: string)
    requires '(' !in s
    ensures Tokenize(s) == Words(s)
    decreases |s|
  {
    if |s| > 0 {
      assert GroupLen(s) == 0;
      if IsSpace(s[0]) {
        WordsSkipSpace(s);
        TokenizeWords(s[1..]);
      } else {
        WordsFirst(s);
        TokenizeWords(s[WordLen(s)..]);
      }
    } else {
      assert SplitSpaces(s) == [""];
      assert NonEmpty([""]) == NonEmpty([""][1..]);
    }
  }
}
