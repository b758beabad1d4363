/** The JavaScript string built-ins the source relies on, over `seq<char>`. */
module Text {
  import opened Wrappers

  /** Membership in JavaScript's `\s` class (WhiteSpace and LineTerminator). */
  predicate IsSpace(c: char) {
    c == ' ' || c == '\t' || c == '\n' || c == '\r' || c == '\U{B}' || c == '\U{C}'
    || c == '\U{A0}' || c == '\U{1680}' || ('\U{2000}' <= c <= '\U{200A}')
    || c == '\U{2028}' || c == '\U{2029}' || c == '\U{202F}' || c == '\U{205F}'
    || c == '\U{3000}' || c == '\U{FEFF}'
  }

  predicate IsDigit(c: char) { '0' <= c <= '9' }

  predicate AllDigits(s: string) { forall i :: 0 <= i < |s| ==> IsDigit(s[i]) }

  predicate NoSpace(s: string) { forall i :: 0 <= i < |s| ==> !IsSpace(s[i]) }

  function DigitValue(c: char): (d: nat)
    requires IsDigit(c)
    ensures d < 10
  {
    c as int - '0' as int
  }

  function DigitChar(d: nat): (c: char)
    requires d < 10
    ensures IsDigit(c) && DigitValue(c) == d
  {
    ('0' as int + d) as char
  }

  /** The decimal value of a digit string (`parseInt` on digits only). */
  function DigitsValue(s: string): nat
    requires AllDigits(s)
  {
    if |s| == 0 then 0 else DigitsValue(s[..|s| - 1]) * 10 + DigitValue(s[|s| - 1])
  }

  /** `String(n)` for a natural number. */
  function NatToString(n: nat): (s: string)
    ensures |s| >= 1 && AllDigits(s)
    ensures DigitsValue(s) == n
    ensures n < 10 ==> s == [DigitChar(n)]
  {
    if n < 10 then [DigitChar(n)]
    else
      var s := NatToString(n / 10) + [DigitChar(n % 10)];
      assert s[..|s| - 1] == NatToString(n / 10);
      s
  }

  /** `String(x)` for an integer. */
  function IntToString(x: int): (s: string)
    ensures |s| >= 1
  {
    if x < 0 then "-" + NatToString(-x) else NatToString(x)
  }

  /** Reads back what IntToString writes. */
  function StringToInt(s: string): int {
    if |s| > 0 && s[0] == '-' && AllDigits(s[1..]) then 0 - DigitsValue(s[1..]) as int
    else if AllDigits(s) then DigitsValue(s)
    else 0
  }

  lemma IntToStringInverse(x: int)
    ensures StringToInt(IntToString(x)) == x
  {
    if x < 0 {
      assert IntToString(x)[1..] == NatToString(-x);
    } else {
      assert IsDigit(NatToString(x)[0]);
    }
  }

  /** `String.prototype.toUpperCase` restricted to the ASCII letters the notation uses. */
  function UpperChar(c: char): (u: char)
    ensures 'a' <= c <= 'z' ==> u as int == c as int - 32
    ensures !('a' <= c <= 'z') ==> u == c
  {
    if 'a' <= c <= 'z' then (c as int - 32) as char else c
  }

  function LowerChar(c: char): (l: char)
    ensures 'A' <= c <= 'Z' ==> l as int == c as int + 32
    ensures !('A' <= c <= 'Z') ==> l == c
  {
    if 'A' <= c <= 'Z' then (c as int + 32) as char else c
  }

  function ToUpper(s: string): (r: string)
    ensures |r| == |s| && forall i :: 0 <= i < |s| ==> r[i] == UpperChar(s[i])
  {
    if |s| == 0 then [] else [UpperChar(s[0])] + ToUpper(s[1..])
  }

  function ToLower(s: string): (r: string)
    ensures |r| == |s| && forall i :: 0 <= i < |s| ==> r[i] == LowerChar(s[i])
  {
    if |s| == 0 then [] else [LowerChar(s[0])] + ToLower(s[1..])
  }

  /** A capital letter that `String.prototype.toLowerCase` maps to one character `offset`
    * code points higher: ASCII A-Z, Latin-1 capitals (U+00C0-00DE without the sign U+00D7),
    * Greek capitals (U+0391-03A9 without the gap at U+03A2) and the Cyrillic capitals
    * U+0400-042F. */
  function CapitalOffset(c: char): (offset: nat)
    ensures offset == 0 || offset == 32 || offset == 80
  {
    if 'A' <= c <= 'Z' then 32
    else if '\U{00C0}' <= c <= '\U{00DE}' && c != '\U{00D7}' then 32
    else if '\U{0391}' <= c <= '\U{03A9}' && c != '\U{03A2}' then 32
    else if '\U{0400}' <= c <= '\U{040F}' then 80
    else if '\U{0410}' <= c <= '\U{042F}' then 32
    else 0
  }

  /** `toLowerCase` on one character: a capital moves to its small letter, anything else,
    * small letters included, stays. */
  function FoldChar(c: char): (l: char)
    ensures l as int == c as int + CapitalOffset(c)
    ensures CapitalOffset(l) == 0
  {
    (c as int + CapitalOffset(c)) as char
  }

  /** `String.prototype.toLowerCase` over the capitals `CapitalOffset` names. */
  function FoldCase(s: string): (r: string)
    ensures |r| == |s| && forall i :: 0 <= i < |s| ==> r[i] == FoldChar(s[i])
  {
    if |s| == 0 then [] else [FoldChar(s[0])] + FoldCase(s[1..])
  }

  /** Folding is idempotent: a folded string holds no capital any more. */
  lemma FoldCaseIdempotent(s: string)
    ensures FoldCase(FoldCase(s)) == FoldCase(s)
  {
  }

  /** Length of the longest prefix of `s` without whitespace. */
  function WordLen(s: string): (n: nat)
    ensures n <= |s| && NoSpace(s[..n])
    ensures n < |s| ==> IsSpace(s[n])
  {
    if |s| == 0 || IsSpace(s[0]) then 0 else 1 + WordLen(s[1..])
  }

  /** Length of the longest prefix of `s` made of whitespace. */
  function SpaceLen(s: string): (n: nat)
    ensures n <= |s| && forall i :: 0 <= i < n ==> IsSpace(s[i])
    ensures n < |s| ==> !IsSpace(s[n])
  {
    if |s| == 0 || !IsSpace(s[0]) then 0 else 1 + SpaceLen(s[1..])
  }

  /** `s.split(/\s+/)`: pieces between whitespace runs, with an empty piece before a
    * leading run and after a trailing one. */
  function SplitSpaces(s: string): (parts: seq<string>)
    ensures |parts| >= 1
    ensures forall p :: p in parts ==> NoSpace(p)
    decreases |s|
  {
    if WordLen(s) == |s| then [s]
    else [s[..WordLen(s)]] + SplitSpaces(AfterWord(s))
  }

  /** What follows the first word and the whitespace run after it. */
  function AfterWord(s: string): (r: string)
    requires WordLen(s) < |s|
    ensures |r| < |s|
  {
    var i := WordLen(s);
    s[i + SpaceLen(s[i..])..]
  }

  /** `s.split(/\s+/).filter(t => t.trim())`: the maximal runs of non-space characters. */
  function Words(s: string): (ws: seq<string>)
    ensures forall w :: w in ws ==> |w| > 0 && NoSpace(w)
  {
    NonEmpty(SplitSpaces(s))
  }

  function NonEmpty(parts: seq<string>): (r: seq<string>)
    ensures forall w :: w in r ==> w in parts && |w| > 0
    ensures forall w :: w in parts && |w| > 0 ==> w in r
  {
    if |parts| == 0 then []
    else if |parts[0]| > 0 then [parts[0]] + NonEmpty(parts[1..])
    else NonEmpty(parts[1..])
  }

  /** Dropping empty pieces, one piece at a time. */
  lemma NonEmptyCons(x: string, rest: seq<string>)
    ensures NonEmpty([x] + rest) == (if |x| > 0 then [x] else []) + NonEmpty(rest)
  {
    assert ([x] + rest)[1..] == rest;
  }

  /** Leading whitespace does not change the words. */
  lemma WordsSkipSpace(s: string)
    requires |s| > 0 && IsSpace(s[0])
    ensures Words(s) == Words(s[1..])
  {
    assert WordLen(s) == 0;
    var n := SpaceLen(s);
    assert s[0..] == s;
    assert AfterWord(s) == s[n..];
    NonEmptyCons("", SplitSpaces(AfterWord(s)));
    if |s| > 1 && IsSpace(s[1]) {
      assert WordLen(s[1..]) == 0 && SpaceLen(s[1..]) == n - 1;
      assert s[1..][0..] == s[1..];
      assert AfterWord(s[1..]) == s[1..][n - 1..] == s[n..];
      NonEmptyCons("", SplitSpaces(AfterWord(s[1..])));
    } else {
      assert n == 1;
    }
  }

  /** A word at the front is the first word. */
  lemma WordsFirst(s: string)
    requires |s| > 0 && !IsSpace(s[0])
    ensures WordLen(s) > 0
    ensures Words(s) == [s[..WordLen(s)]] + Words(s[WordLen(s)..])
  {
    if WordLen(s) < |s| {
      WordsFirstInner(s);
    } else {
      WordsFirstLast(s);
      assert s[..WordLen(s)] == s && s[WordLen(s)..] == [];
    }
  }

  /** `WordsFirst` when whitespace follows the first word. */
  lemma WordsFirstInner(s: string)
    requires |s| > 0 && !IsSpace(s[0]) && WordLen(s) < |s|
    ensures Words(s) == [s[..WordLen(s)]] + Words(s[WordLen(s)..])
  {
    var w := WordLen(s);
    var t := s[w..];
    assert WordLen(t) == 0 && SpaceLen(t) > 0;
    assert t[0..] == t;
    assert AfterWord(t) == AfterWord(s);
    var rest := SplitSpaces(AfterWord(s));
    NonEmptyCons("", rest);
    NonEmptyCons(s[..w], rest);
  }

  /** `WordsFirst` when the first word runs to the end. */
  lemma WordsFirstLast(s: string)
    requires |s| > 0 && !IsSpace(s[0]) && WordLen(s) == |s|
    ensures Words(s) == [s] + Words([])
  {
    assert SplitSpaces(s) == [s];
    assert [s][1..] == [];
    assert NonEmpty([s]) == [s] + NonEmpty([]);
    assert SplitSpaces([]) == [""];
    assert [""][1..] == [];
    assert NonEmpty([""]) == NonEmpty([]);
  }

  /** A word followed by whitespace or by nothing is the first word. */
  lemma {:induction false} WordLenOf(w: string, rest: string)
    requires NoSpace(w) && (|rest| == 0 || IsSpace(rest[0]))
    ensures WordLen(w + rest) == |w|
  {
    if |w| > 0 {
      assert (w + rest)[1..] == w[1..] + rest;
      WordLenOf(w[1..], rest);
    } else {
      assert w + rest == rest;
    }
  }

  /** Words joined by single spaces split back into the same words. */
  lemma {:induction false} WordsJoin(ws: seq<string>)
    requires forall i :: 0 <= i < |ws| ==> |ws[i]| > 0 && NoSpace(ws[i])
    ensures Words(Join(ws, " ")) == ws
    decreases |ws|
  {
    if |ws| == 0 {
      WordsEmpty();
    } else if |ws| == 1 {
      WordsOne(ws[0]);
    } else {
      var rest := ws[1..];
      var t := Join(rest, " ");
      assert Join(ws, " ") == ws[0] + " " + t;
      WordsCons(ws[0], t);
      assert forall i :: 0 <= i < |rest| ==> rest[i] == ws[i + 1];
      WordsJoin(rest);
      assert ws == [ws[0]] + rest;
    }
  }

  lemma WordsEmpty()
    ensures Words("") == []
  {
    assert SplitSpaces("") == [""];
    NonEmptyCons("", []);
  }

  lemma WordsOne(w: string)
    requires |w| > 0 && NoSpace(w)
    ensures Words(w) == [w]
  {
    WordLenOf(w, "");
    assert w + "" == w;
    WordsFirst(w);
    assert w[..|w|] == w && w[|w|..] == [];
    WordsEmpty();
  }

  lemma WordsCons(w: string, t: string)
    requires |w| > 0 && NoSpace(w)
    ensures Words(w + " " + t) == [w] + Words(t)
  {
    var s := w + (" " + t);
    assert w + " " + t == s;
    WordLenOf(w, " " + t);
    assert s[0] == w[0];
    WordsFirst(s);
    assert s[..|w|] == w && s[|w|..] == " " + t;
    WordsSkipSpace(" " + t);
    assert (" " + t)[1..] == t;
  }

  /** Joining non-empty pieces ends with the last character of the last piece. */
  lemma {:induction false} JoinLastChar(parts: seq<string>, sep: string)
    requires |parts| >= 1 && |parts[|parts| - 1]| > 0
    ensures var j := Join(parts, sep); |j| > 0 && j[|j| - 1] == parts[|parts| - 1][|parts[|parts| - 1]| - 1]
  {
    if |parts| > 1 {
      JoinLastChar(parts[1..], sep);
      assert parts[1..][|parts| - 2] == parts[|parts| - 1];
    }
  }

  /** Words joined by single spaces have nothing for trim to remove. */
  lemma JoinTrimmed(ws: seq<string>)
    requires forall i :: 0 <= i < |ws| ==> |ws[i]| > 0 && NoSpace(ws[i])
    ensures Trim(Join(ws, " ")) == Join(ws, " ")
  {
    if |ws| > 0 {
      JoinFirstChar(ws, " ");
      JoinLastChar(ws, " ");
      var w := ws[0];
      var v := ws[|ws| - 1];
      assert !IsSpace(w[0]) && !IsSpace(v[|v| - 1]);
      TrimTrimmed(Join(ws, " "));
    }
  }

  /** `s.split(sep)` for a one-character separator. */
  function Split(s: string, sep: char): (parts: seq<string>)
    ensures |parts| >= 1
    ensures forall p :: p in parts ==> sep !in p
    decreases |s|
  {
    if |s| == 0 then [""]
    else
      var rest := Split(s[1..], sep);
      if s[0] == sep then [""] + rest
      else [[s[0]] + rest[0]] + rest[1..]
  }

  /** `parts.join(sep)`. */
  function Join(parts: seq<string>, sep: string): string {
    if |parts| == 0 then ""
    else if |parts| == 1 then parts[0]
    else parts[0] + sep + Join(parts[1..], sep)
  }

  /** Splitting then joining with the same separator gives the text back. */
  lemma {:induction false} JoinSplit(s: string, sep: char)
    ensures Join(Split(s, sep), [sep]) == s
    decreases |s|
  {
    if |s| > 0 {
      var rest := Split(s[1..], sep);
      JoinSplit(s[1..], sep);
      if s[0] == sep {
        assert Split(s, sep)[1..] == rest;
      } else {
        var parts := Split(s, sep);
        if |rest| == 1 {
          assert parts == [[s[0]] + rest[0]];
        } else {
          assert parts[1..] == rest[1..];
          assert Join(rest, [sep]) == rest[0] + [sep] + Join(rest[1..], [sep]);
        }
        assert s == [s[0]] + s[1..];
      }
    }
  }

  /** A character other than the separator extends the first piece. */
  lemma SplitConsChar(c: char, s: string, sep: char)
    requires c != sep
    ensures Split([c] + s, sep) == [[c] + Split(s, sep)[0]] + Split(s, sep)[1..]
  {
    assert ([c] + s)[1..] == s;
  }

  /** A leading separator makes an empty first piece. */
  lemma SplitConsSep(s: string, sep: char)
    ensures Split([sep] + s, sep) == [""] + Split(s, sep)
  {
    assert ([sep] + s)[1..] == s;
  }

  /** Joining pieces whose first one is not empty starts with that piece's first character. */
  lemma JoinFirstChar(parts: seq<string>, sep: string)
    requires |parts| >= 1 && |parts[0]| > 0
    ensures Join(parts, sep) == [parts[0][0]] + Join([parts[0][1..]] + parts[1..], sep)
  {
    var p0 := parts[0];
    var tail := [p0[1..]] + parts[1..];
    assert p0 == [p0[0]] + p0[1..];
    if |parts| > 1 {
      assert tail[1..] == parts[1..];
    }
  }

  /** Joining separator-free pieces then splitting gives the pieces back. */
  lemma {:induction false} SplitJoin(parts: seq<string>, sep: char)
    requires |parts| >= 1
    requires forall p :: p in parts ==> sep !in p
    ensures Split(Join(parts, [sep]), sep) == parts
    decreases |parts|, |parts[0]|
  {
    if |parts[0]| > 0 {
      var p0 := parts[0];
      var tail := [p0[1..]] + parts[1..];
      assert forall p :: p in tail ==> sep !in p by {
        forall p | p in tail ensures sep !in p {
          if p == p0[1..] {
            assert p0 in parts;
            assert forall k :: 0 <= k < |p| ==> p[k] == p0[k + 1];
          } else {
            var k :| 0 <= k < |tail| && tail[k] == p;
            assert k >= 1 && p == parts[k];
          }
        }
      }
      SplitJoin(tail, sep);
      JoinFirstChar(parts, [sep]);
      assert p0 in parts && p0[0] in p0;
      SplitConsChar(p0[0], Join(tail, [sep]), sep);
      assert [p0[0]] + tail[0] == p0;
      assert parts == [p0] + tail[1..];
    } else if |parts| > 1 {
      SplitJoin(parts[1..], sep);
      assert Join(parts, [sep]) == [sep] + Join(parts[1..], [sep]);
      SplitConsSep(Join(parts[1..], [sep]), sep);
      assert parts == [""] + parts[1..];
    }
  }

  /** `s.trim()`. */
  function Trim(s: string): (r: string)
    ensures |r| <= |s|
    ensures |r| > 0 ==> !IsSpace(r[0]) && !IsSpace(r[|r| - 1])
  {
    var a := SpaceLen(s);
    TrimEnd(s[a..])
  }

  function TrimEnd(s: string): (r: string)
    ensures |r| <= |s| && r == s[..|r|]
    ensures |r| > 0 ==> !IsSpace(r[|r| - 1])
    ensures |s| > 0 && !IsSpace(s[0]) ==> |r| > 0 && r[0] == s[0]
  {
    if |s| == 0 || !IsSpace(s[|s| - 1]) then s else TrimEnd(s[..|s| - 1])
  }

  /** A string with no surrounding whitespace is its own trim. */
  lemma TrimNoSpace(s: string)
    requires NoSpace(s)
    ensures Trim(s) == s
  {
    assert s[0..] == s;
  }

  /** A string that neither starts nor ends with whitespace is its own trim. */
  lemma TrimTrimmed(s: string)
    requires |s| == 0 || (!IsSpace(s[0]) && !IsSpace(s[|s| - 1]))
    ensures Trim(s) == s
  {
    assert s[0..] == s;
  }

  /** Trimming twice is trimming once. */
  lemma TrimIdempotent(s: string)
    ensures Trim(Trim(s)) == Trim(s)
  {
    TrimTrimmed(Trim(s));
  }

  /** The first `n` characters (`s.substring(0, n)`). */
  function Take(s: string, n: nat): (r: string)
    ensures |r| == if n < |s| then n else |s|
  {
    if n < |s| then s[..n] else s
  }

  predicate StartsWith(s: string, prefix: string) {
    |prefix| <= |s| && s[..|prefix|] == prefix
  }

  /** `s.replace(/^D:/, '')`. */
  function StripDingPrefix(s: string): (r: string)
    ensures StartsWith(s, "D:") ==> s == "D:" + r
    ensures !StartsWith(s, "D:") ==> r == s
  {
    if StartsWith(s, "D:") then s[2..] else s
  }

  /** `s.replace('D:', '')`: removes the first occurrence of `D:` anywhere. */
  function ReplaceFirstDing(s: string): (r: string)
    ensures StartsWith(s, "D:") ==> r == s[2..]
    ensures |r| <= |s|
  {
    if |s| < 2 then s
    else if s[0] == 'D' && s[1] == ':' then s[2..]
    else [s[0]] + ReplaceFirstDing(s[1..])
  }

  // ---------------------------------------------------------------------------------
  // parseInt
  // ---------------------------------------------------------------------------------

  /** Length of the longest digit prefix. */
  function DigitRun(s: string): (n: nat)
    ensures n <= |s| && AllDigits(s[..n])
    ensures n < |s| ==> !IsDigit(s[n])
  {
    if |s| == 0 || !IsDigit(s[0]) then 0 else 1 + DigitRun(s[1..])
  }

  lemma {:induction false} DigitRunAll(s: string)
    requires AllDigits(s)
    ensures DigitRun(s) == |s|
  {
    if |s| > 0 { DigitRunAll(s[1..]); }
  }

  lemma {:induction false} DigitRunPrefix(a: string, b: string)
    requires AllDigits(a) && (|b| == 0 || !IsDigit(b[0]))
    ensures DigitRun(a + b) == |a|
  {
    if |a| > 0 {
      assert (a + b)[1..] == a[1..] + b;
      DigitRunPrefix(a[1..], b);
    } else {
      assert a + b == b;
    }
  }

  predicate IsHexDigit(c: char) { IsDigit(c) || 'a' <= c <= 'f' || 'A' <= c <= 'F' }

  predicate AllHex(s: string) { forall i :: 0 <= i < |s| ==> IsHexDigit(s[i]) }

  function HexDigitValue(c: char): (d: nat)
    requires IsHexDigit(c)
    ensures d < 16
  {
    if IsDigit(c) then DigitValue(c)
    else if 'a' <= c <= 'f' then c as int - 'a' as int + 10
    else c as int - 'A' as int + 10
  }

  /** The value of a string of hexadecimal digits. */
  function HexValue(s: string): nat
    requires AllHex(s)
  {
    if |s| == 0 then 0 else HexValue(s[..|s| - 1]) * 16 + HexDigitValue(s[|s| - 1])
  }

  /** Length of the longest hexadecimal-digit prefix. */
  function HexRun(s: string): (n: nat)
    ensures n <= |s| && AllHex(s[..n])
    ensures n < |s| ==> !IsHexDigit(s[n])
  {
    if |s| == 0 || !IsHexDigit(s[0]) then 0 else 1 + HexRun(s[1..])
  }

  /** What follows the leading whitespace and an optional `+` or `-`. */
  function Unsigned(s: string): (u: string)
    ensures |u| <= |s|
  {
    var t := s[SpaceLen(s)..];
    if |t| > 0 && (t[0] == '-' || t[0] == '+') then t[1..] else t
  }

  /** Whether the text after the leading whitespace starts with `-`. */
  predicate Negative(s: string) {
    SpaceLen(s) < |s| && s[SpaceLen(s)] == '-'
  }

  /** Whether the unsigned text starts with `0x` or `0X`, which selects base 16. */
  predicate HexPrefixed(u: string) {
    |u| >= 2 && u[0] == '0' && (u[1] == 'x' || u[1] == 'X')
  }

  /**
   * `parseInt(s)` with no radix: leading whitespace is skipped, then an optional sign, then
   * a `0x`/`0X` prefix selects base 16; the value is that of the longest run of digits of
   * the base, and `None` stands for NaN (no such digit). What follows the run is ignored.
   */
  function JsParseInt(s: string): (r: Option<int>)
    ensures r.Some? && !HexPrefixed(Unsigned(s)) ==> DigitRun(Unsigned(s)) > 0
    ensures r.Some? && Negative(s) ==> r.value <= 0
    ensures r.Some? && !Negative(s) ==> r.value >= 0
  {
    var u := Unsigned(s);
    var sign := if Negative(s) then -1 else 1;
    if HexPrefixed(u) then
      var h := u[2..][..HexRun(u[2..])];
      if |h| == 0 then None else Some(sign * HexValue(h))
    else
      var d := u[..DigitRun(u)];
      if |d| == 0 then None else Some(sign * DigitsValue(d))
  }

  /** Unsigned text starting with a digit and not `0x` is read in decimal. */
  lemma JsParseIntDecimal(s: string)
    requires |s| > 0 && IsDigit(s[0]) && !HexPrefixed(s)
    ensures JsParseInt(s) == Some(DigitsValue(s[..DigitRun(s)]))
  {
    assert SpaceLen(s) == 0;
    assert s[0..] == s;
  }

  /** A number written out in decimal is read back, whatever non-digit text follows it. */
  lemma JsParseIntNat(n: nat, rest: string)
    requires |rest| == 0 || (!IsDigit(rest[0]) && rest[0] != 'x' && rest[0] != 'X')
    ensures JsParseInt(NatToString(n) + rest) == Some(n)
  {
    var w := NatToString(n);
    var s := w + rest;
    assert s[0] == w[0];
    assert |w| >= 2 ==> s[1] == w[1];
    assert |w| == 1 && |s| >= 2 ==> s[1] == rest[0];
    JsParseIntDecimal(s);
    DigitRunPrefix(w, rest);
    assert s[..|w|] == w;
  }

  /** A number written out by `String(x)` is read back. */
  lemma JsParseIntInt(x: int)
    ensures JsParseInt(IntToString(x)) == Some(x)
  {
    if x < 0 {
      var w := NatToString(-x);
      var s := "-" + w;
      assert SpaceLen(s) == 0;
      assert s[0..] == s;
      assert Unsigned(s) == w;
      assert Negative(s);
      DigitRunAll(w);
      assert w[..|w|] == w;
    } else {
      JsParseIntNat(x, "");
      assert NatToString(x) + "" == NatToString(x);
    }
  }

  /** Leading whitespace does not change what is read. */
  lemma JsParseIntSpace(c: char, s: string)
    requires IsSpace(c)
    ensures JsParseInt([c] + s) == JsParseInt(s)
  {
    var t := [c] + s;
    assert t[1..] == s;
    assert SpaceLen(t) == 1 + SpaceLen(s);
    assert t[SpaceLen(t)..] == s[SpaceLen(s)..];
  }
}
