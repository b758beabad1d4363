/**
 * The rhythm notation as the earlier single-file application reads it, and the editor's
 * fallback that writes stored events back as text. Unlike the current parser, a group
 * divisor is an integer with no guard (`/0` gives an infinite length), and a written pitch
 * carries no frequency. Degrees resolve against the same layout partition as the current
 * parser's (getSortedScaleNotes is the same code in both).
 */
module LegacyParser {
  import opened Wrappers
  import opened Text
  import opened Seqs
  import opened Pitch
  import opened Events
  import Parser

  // ---------------------------------------------------------------------------------
  // Tokens: the global regex /(\([^\)]+\)\/\d+|[^\s]+)/g
  // ---------------------------------------------------------------------------------

  /** Length of the `\([^\)]+\)\/\d+` match at the start of `s`, 0 when there is none. */
  function GroupLen(s: string): (n: nat)
    ensures n <= |s|
    ensures n > 0 ==> s[0] == '(' && n >= 5
  {
    if |s| == 0 || s[0] != '(' then 0
    else
      var q := 1 + Parser.IndexOf(s[1..], ')');
      if q < 2 || q + 2 >= |s| || s[q + 1] != '/' || !IsDigit(s[q + 2]) then 0
      else q + 2 + DigitRun(s[q + 2..])
  }

  /** `text.match(regex) || []`: the shared tokenizer with this notation's group. */
  function Tokenize(s: string): (tokens: seq<string>)
    ensures forall t :: t in tokens ==> |t| > 0
  {
    Parser.TokenizeBy(GroupLen, s)
  }

  /** `token.match(/^\(([^\)]+)\)\/(\d+)$/)`: the group content and the divisor digits. */
  function GroupMatch(token: string): (m: Option<(string, string)>)
    ensures m.Some? ==> |m.value.0| > 0 && ')' !in m.value.0
    ensures m.Some? ==> |m.value.1| > 0 && AllDigits(m.value.1)
    ensures m.Some? ==> token == "(" + m.value.0 + ")/" + m.value.1
    ensures |token| > 0 && token[0] != '(' ==> m.None?
  {
    var g := GroupLen(token);
    if g > 0 && g == |token| then
      var q := 1 + Parser.IndexOf(token[1..], ')');
      assert token[1..q] == token[1..][..q - 1];
      assert token == "(" + token[1..q] + ")/" + token[q + 2..];
      assert token[q + 2..] == token[q + 2..][..DigitRun(token[q + 2..])];
      Some((token[1..q], token[q + 2..]))
    else None
  }

  /** A divisor with a fraction is not a group divisor: the match stops at the dot, and
    * the fraction becomes a token of its own. */
  lemma DecimalDivisorSplits()
    ensures Tokenize("(K)/1.5") == ["(K)/1", ".5"]
  {
    var s := "(K)/1.5";
    assert Parser.IndexOf(s[2..], ')') == 0;
    assert Parser.IndexOf(s[1..], ')') == 1;
    assert DigitRun(s[5..]) == 0;
    assert DigitRun(s[4..]) == 1;
    assert GroupLen(s) == 5;
    assert s[..5] == "(K)/1";
    var r := s[5..];
    assert r == ".5";
    assert WordLen(r[1..]) == 1;
    assert GroupLen(r) == 0 && WordLen(r) == 2;
    assert r[..2] == r && r[2..] == [];
    assert Tokenize(r) == [".5"];
  }

  // ---------------------------------------------------------------------------------
  // Lengths
  // ---------------------------------------------------------------------------------

  /** The length an event is given: `1 / divisor`, which is Infinity for a divisor of 0. */
  datatype Length = Finite(value: real) | Infinite

  /** `1 / parseInt(digits, 10)`. */
  function Multiplier(digits: string): (l: Length)
    requires AllDigits(digits)
    ensures DigitsValue(digits) == 0 <==> l.Infinite?
    ensures l.Finite? ==> l.value > 0.0 && l.value * DigitsValue(digits) as real == 1.0
  {
    var d := DigitsValue(digits);
    if d == 0 then Infinite else Finite(1.0 / d as real)
  }

  // ---------------------------------------------------------------------------------
  // Alternatives and tokens
  // ---------------------------------------------------------------------------------

  /** `raw.match(/^([A-G][#b]?)(\d)$/i)`: the note upper-cased and the octave, no frequency. */
  function PitchAlt(raw: string): (r: Option<Sound>)
    ensures r.Some? ==> r.value.Tone? && r.value.freq.None?
  {
    match MatchPitch(raw, 9, true)
    case Some((spelling, octave)) => Some(Tone(ToUpper(spelling), octave, None))
    case None => None
  }

  /** One trimmed alternative: percussion, rest, degree or pitch; `Success(None)` when it
    * resolves to nothing. Only a degree consults the layout, so only a degree can raise. */
  function Alt(raw: string, scale: Result<Parser.ScaleNotes>): (r: Result<Option<Sound>>)
    ensures r.Failure? <==> Parser.IsDegreeSymbol(raw) && scale.Failure?
  {
    var clean := ToUpper(raw);
    if clean == "K" || clean == "T" then Success(Some(Perc(clean, raw == "k" || raw == "t")))
    else if clean == "-" then Success(Some(Rest))
    else if Parser.IsDegreeSymbol(raw) then
      match scale
      case Failure(e) => Failure(e)
      case Success(scale) =>
        if clean == "D" || clean == "0" then
          if |scale.dings| > 0 then Success(Some(Parser.ToneOf(Parser.LowestDing(scale.dings)))) else Success(None)
        else
          var idx := DigitsValue(clean) - 1;
          if 0 <= idx < |scale.toneCircle| then Success(Some(Parser.ToneOf(scale.toneCircle[idx])))
          else Success(None)
    else Success(PitchAlt(raw))
  }

  /** A written pitch: neither percussion, rest nor degree, and matching the pitch pattern. */
  predicate WrittenPitch(raw: string) {
    var clean := ToUpper(raw);
    clean != "K" && clean != "T" && clean != "-" && !Parser.IsDegreeSymbol(raw) && MatchPitch(raw, 9, true).Some?
  }

  /** The earlier parser reads each alternative as the current one does, except that a
    * written pitch carries no frequency. */
  lemma AltAgreesWithCurrent(raw: string, scale: Result<Parser.ScaleNotes>)
    ensures !WrittenPitch(raw) ==> Alt(raw, scale) == Parser.Alt(raw, scale)
    ensures WrittenPitch(raw) ==> (Parser.Alt(raw, scale).Success? && Parser.Alt(raw, scale).value.Some? &&
      var t := Parser.Alt(raw, scale).value.value;
      Alt(raw, scale) == Success(Some(Tone(t.note, t.octave, None))))
  {
  }

  /** `Result` of a list whose first part is already known. */
  function Prepend<T>(done: seq<T>, r: Result<seq<T>>): (p: Result<seq<T>>)
    ensures p.Failure? <==> r.Failure?
    ensures p.Success? ==> p.value == done + r.value
  {
    match r
    case Success(rest) => Success(done + rest)
    case Failure(e) => Failure(e)
  }

  /**
   * The `forEach` loops of the parser: what each item yields is pushed in order, and the
   * first item that raises aborts the whole parse with its error.
   */
  function Gather<T>(rs: seq<Result<seq<T>>>): (r: Result<seq<T>>)
    ensures r.Success? <==> forall i :: 0 <= i < |rs| ==> rs[i].Success?
  {
    if |rs| == 0 then Success([])
    else
      assert forall i :: 1 <= i < |rs| ==> rs[i] == rs[1..][i - 1];
      match rs[0]
      case Failure(e) => Failure(e)
      case Success(v) => Prepend(v, Gather(rs[1..]))
  }

  /** Gathering from the start is gathering the whole list. */
  lemma GatherStart<T>(rs: seq<Result<seq<T>>>)
    ensures Prepend([], Gather(rs[0..])) == Gather(rs)
  {
    assert rs[0..] == rs;
    if Gather(rs).Success? {
      assert [] + Gather(rs).value == Gather(rs).value;
    }
  }

  /** One step of a gathering loop: the item at `i` either raises, or its values join the
    * ones pushed so far. */
  lemma GatherStep<T>(rs: seq<Result<seq<T>>>, i: nat, done: seq<T>)
    requires i < |rs|
    ensures rs[i].Failure? ==> Prepend(done, Gather(rs[i..])) == Failure(rs[i].error)
    ensures rs[i].Success? ==> Prepend(done, Gather(rs[i..])) == Prepend(done + rs[i].value, Gather(rs[i + 1..]))
  {
    assert rs[i..][0] == rs[i];
    assert rs[i..][1..] == rs[i + 1..];
    var rest := Gather(rs[i + 1..]);
    if rs[i].Success? && rest.Success? {
      assert done + (rs[i].value + rest.value) == (done + rs[i].value) + rest.value;
    }
  }

  /** A gathering loop that has passed every item holds the whole result. */
  lemma GatherEnd<T>(rs: seq<Result<seq<T>>>, done: seq<T>)
    ensures Prepend(done, Gather(rs[|rs|..])) == Success(done)
  {
    assert rs[|rs|..] == [];
    assert done + [] == done;
  }

  /** A single item gathers to itself. */
  lemma GatherOne<T>(r: Result<seq<T>>)
    ensures Gather([r]) == r
  {
    assert [r][1..] == [];
    if r.Success? {
      assert r.value + [] == r.value;
    }
  }

  /** Every value gathered comes from one of the items. */
  lemma {:induction false} GatherFrom<T>(rs: seq<Result<seq<T>>>, x: T)
    requires Gather(rs).Success? && x in Gather(rs).value
    ensures exists i :: 0 <= i < |rs| && rs[i].Success? && x in rs[i].value
  {
    assert rs[0].Success?;
    if x !in rs[0].value {
      GatherFrom(rs[1..], x);
      var i :| 0 <= i < |rs| - 1 && rs[1..][i].Success? && x in rs[1..][i].value;
      assert rs[i + 1] == rs[1..][i];
    }
  }

  /** Items that each each exactly one value gather to those values in order. */
  lemma {:induction false} GatherOnes<T>(rs: seq<Result<seq<T>>>)
    requires forall i :: 0 <= i < |rs| ==> rs[i].Success? && |rs[i].value| == 1
    ensures Gather(rs).Success? && |Gather(rs).value| == |rs|
    ensures forall i :: 0 <= i < |rs| ==> Gather(rs).value[i] == rs[i].value[0]
  {
    if |rs| > 0 {
      GatherOnes(rs[1..]);
      assert rs[0].value == [rs[0].value[0]];
      var rest := Gather(rs[1..]).value;
      assert Gather(rs).value == [rs[0].value[0]] + rest;
      forall i | 1 <= i < |rs| ensures Gather(rs).value[i] == rs[i].value[0] {
        assert rs[i] == rs[1..][i - 1];
      }
    }
  }

  /** What one alternative pushes into its group: its sound, or nothing. */
  function AltItems(raw: string, scale: Result<Parser.ScaleNotes>): (r: Result<seq<Sound>>)
    ensures r.Failure? <==> Parser.IsDegreeSymbol(Trim(raw)) && scale.Failure?
    ensures r.Success? ==> |r.value| <= 1
  {
    match Alt(Trim(raw), scale)
    case Failure(e) => Failure(e)
    case Success(o) => Success(if o.Some? then [o.value] else [])
  }

  function AltStep(scale: Result<Parser.ScaleNotes>): string -> Result<seq<Sound>> {
    raw => AltItems(raw, scale)
  }

  /** parseNoteToken's loop over `token.split('|')`: the resolved alternatives in order; the
    * first alternative that raises aborts. */
  function ResolveParts(parts: seq<string>, scale: Result<Parser.ScaleNotes>): (r: Result<seq<Sound>>)
    ensures r.Failure? <==> exists k :: 0 <= k < |parts| && Parser.IsDegreeSymbol(Trim(parts[k])) && scale.Failure?
  {
    var rs := Map(parts, AltStep(scale));
    assert forall k :: 0 <= k < |parts| ==> rs[k] == AltItems(parts[k], scale);
    Gather(rs)
  }

  /** A parsed event `{isGroup: true, notes}` with the duration its caller sets. */
  datatype Parsed = Parsed(alts: seq<Sound>, length: Length)

  /** What one sub-token pushes: an event of the given length when an alternative resolved. */
  function SubEvents(sub: string, length: Length, scale: Result<Parser.ScaleNotes>): (r: Result<seq<Parsed>>)
    ensures r.Success? ==> |r.value| <= 1
    ensures r.Success? ==> forall e :: e in r.value ==> e.length == length && |e.alts| > 0
  {
    match ResolveParts(Split(sub, '|'), scale)
    case Failure(e) => Failure(e)
    case Success(alts) => Success(if |alts| > 0 then [Parsed(alts, length)] else [])
  }

  function SubStep(length: Length, scale: Result<Parser.ScaleNotes>): string -> Result<seq<Parsed>> {
    sub => SubEvents(sub, length, scale)
  }

  /** The events of a token's sub-tokens (one sub-token for a bare token), in order. */
  function SubTokenEvents(subs: seq<string>, length: Length, scale: Result<Parser.ScaleNotes>): (r: Result<seq<Parsed>>)
    ensures r.Success? ==> forall e :: e in r.value ==> e.length == length && |e.alts| > 0
  {
    var rs: seq<Result<seq<Parsed>>> := Map(subs, SubStep(length, scale));
    var r: Result<seq<Parsed>> := Gather(rs);
    assert r.Success? ==> forall e: Parsed :: e in r.value ==> e.length == length && |e.alts| > 0 by {
      if r.Success? {
        forall e: Parsed | e in r.value ensures e.length == length && |e.alts| > 0 {
          GatherFrom(rs, e);
          var i :| 0 <= i < |rs| && rs[i].Success? && e in rs[i].value;
          assert rs[i] == SubEvents(subs[i], length, scale);
        }
      }
    }
    r
  }

  /** One token: a group gives its whitespace-separated sub-tokens the length `1 / divisor`;
    * any other token is read as one sub-token of length 1. */
  function TokenEvents(token: string, scale: Result<Parser.ScaleNotes>): Result<seq<Parsed>> {
    match GroupMatch(token)
    case Some((content, digits)) => SubTokenEvents(SplitSpaces(content), Multiplier(digits), scale)
    case None => SubTokenEvents([token], Finite(1.0), scale)
  }

  function TokenStep(scale: Result<Parser.ScaleNotes>): string -> Result<seq<Parsed>> {
    token => TokenEvents(token, scale)
  }

  /** The events of the tokens in order; the first raise aborts. */
  function ParseTokens(tokens: seq<string>, scale: Result<Parser.ScaleNotes>): Result<seq<Parsed>> {
    Gather(Map(tokens, TokenStep(scale)))
  }

  /** parseRhythmString against the layout of the current scale. */
  function ParseRhythm(text: string, layout: Parser.Layout): Result<seq<Parsed>> {
    ParseTokens(Tokenize(text), Parser.Partition(layout))
  }

  /** Every event of a group lasts `1 / divisor`: infinitely long for a divisor of 0. */
  lemma GroupLengths(token: string, scale: Result<Parser.ScaleNotes>, content: string, digits: string)
    requires GroupMatch(token) == Some((content, digits))
    requires TokenEvents(token, scale).Success?
    ensures forall e :: e in TokenEvents(token, scale).value ==> e.length == Multiplier(digits)
    ensures DigitsValue(digits) == 0 ==> forall e :: e in TokenEvents(token, scale).value ==> e.length.Infinite?
  {
  }

  /** A bare token is one sub-token of length 1: one event, or nothing when no alternative
    * resolves. */
  lemma BareLength(token: string, scale: Result<Parser.ScaleNotes>)
    requires GroupMatch(token).None?
    ensures TokenEvents(token, scale) == SubEvents(token, Finite(1.0), scale)
    ensures TokenEvents(token, scale).Success? ==> (|TokenEvents(token, scale).value| <= 1 &&
      forall e :: e in TokenEvents(token, scale).value ==> e.length == Finite(1.0) && |e.alts| > 0)
  {
    var rs := Map([token], SubStep(Finite(1.0), scale));
    assert rs == [SubEvents(token, Finite(1.0), scale)];
    GatherOne(rs[0]);
  }

  lemma SubTokensTotal(subs: seq<string>, length: Length, scale: Result<Parser.ScaleNotes>)
    requires scale.Success?
    ensures SubTokenEvents(subs, length, scale).Success?
  {
    var ss := Map(subs, SubStep(length, scale));
    forall j | 0 <= j < |ss| ensures ss[j].Success? {
      assert ss[j] == SubEvents(subs[j], length, scale);
      assert ResolveParts(Split(subs[j], '|'), scale).Success?;
    }
  }

  /** With a layout that names its main ding, nothing raises. */
  lemma ParseTokensTotal(tokens: seq<string>, scale: Result<Parser.ScaleNotes>)
    requires scale.Success?
    ensures ParseTokens(tokens, scale).Success?
  {
    var rs := Map(tokens, TokenStep(scale));
    forall i | 0 <= i < |rs| ensures rs[i].Success? {
      assert rs[i] == TokenEvents(tokens[i], scale);
      match GroupMatch(tokens[i])
      case Some((content, digits)) => SubTokensTotal(SplitSpaces(content), Multiplier(digits), scale);
      case None => SubTokensTotal([tokens[i]], Finite(1.0), scale);
    }
  }

  // ---------------------------------------------------------------------------------
  // The methods, as the source builds its arrays
  // ---------------------------------------------------------------------------------

  /**
   * `items.forEach(item => ...)` pushing what each item yields into one array; an item that
   * raises ends the loop and the exception propagates.
   */
  method ForEachPush<T>(items: seq<string>, each: string -> Result<seq<T>>) returns (r: Result<seq<T>>)
    ensures r == Gather(Map(items, each))
  {
    ghost var rs := Map(items, each);
    var result: seq<T> := [];
    var i := 0;
    GatherStart(rs);
    while i < |items|
      invariant 0 <= i <= |items|
      invariant Gather(rs) == Prepend(result, Gather(rs[i..]))
    {
      var pushed := each(items[i]);
      GatherStep(rs, i, result);
      if pushed.Failure? {
        return Failure(pushed.error);
      }
      result := result + pushed.value;
      i := i + 1;
    }
    GatherEnd(rs, result);
    return Success(result);
  }

  /** parseNoteToken: the alternatives of `token.split('|')` pushed into `noteGroup`. */
  method ParseNoteToken(token: string, scale: Result<Parser.ScaleNotes>) returns (r: Result<seq<Sound>>)
    ensures r == ResolveParts(Split(token, '|'), scale)
  {
    r := ForEachPush(Split(token, '|'), AltStep(scale));
  }

  /** parseRhythmString: the events of each token pushed into `result`. */
  method ParseRhythmString(text: string, scale: Result<Parser.ScaleNotes>) returns (r: Result<seq<Parsed>>)
    ensures r == ParseTokens(Tokenize(text), scale)
  {
    r := ForEachPush(Tokenize(text), TokenStep(scale));
  }

  // ---------------------------------------------------------------------------------
  // Storage and the editor's fallback reconstruction
  // ---------------------------------------------------------------------------------

  /** An event as JSON stores it on the stage: Infinity becomes null. */
  function Stored(p: Parsed): (e: Event)
    ensures e.Group? && e.alts == p.alts
    ensures p.length.Infinite? ==> StepLength(e) == 1.0
    ensures p.length.Finite? && p.length.value != 0.0 ==> StepLength(e) == p.length.value
  {
    Group(p.alts, if p.length.Finite? then Some(p.length.value) else None)
  }

  /** renderNote: a ghost stroke lower-case, a rest `-`, a note its name and octave. */
  function RenderSound(n: Sound): string {
    match n
    case Perc(hand, isGhost) => if isGhost then ToLower(hand) else hand
    case Rest => "-"
    case Tone(note, octave, _) => note + NatToString(octave)
  }

  /** A group's alternatives joined by `|`; any other event rendered alone. */
  function RenderEvent(e: Event): string {
    match e
    case Group(alts, _) => Join(Map(alts, RenderSound), "|")
    case Single(n, _) => RenderSound(n)
  }

  /** The fallback text of openEditorModal: the events rendered and joined by spaces. */
  function Reconstruct(events: seq<Event>): string {
    Join(Map(events, RenderEvent), " ")
  }

  /** An upper-case written pitch: a letter A to G, optionally `#` or `B`, and an octave digit. */
  predicate PlainPitch(a: string) {
    (|a| == 2 || (|a| == 3 && (a[1] == '#' || a[1] == 'B'))) && IsNoteLetter(a[0]) && IsDigit(a[|a| - 1])
  }

  /** An alternative the reconstruction writes back as it was read: `K`, `T`, `k`, `t`, `-`,
    * or an upper-case pitch. */
  predicate PlainAlt(a: string) {
    a == "K" || a == "T" || a == "k" || a == "t" || a == "-" || PlainPitch(a)
  }

  /** A token made of plain alternatives joined by `|`. */
  predicate PlainToken(alts: seq<string>) {
    |alts| > 0 && forall k :: 0 <= k < |alts| ==> PlainAlt(alts[k])
  }

  function JoinAlts(alts: seq<string>): string {
    Join(alts, "|")
  }

  lemma AltOfPitch(raw: string, scale: Result<Parser.ScaleNotes>)
    requires ToUpper(raw) == raw && |raw| >= 2 && !Parser.IsDegreeSymbol(raw)
    ensures Alt(raw, scale) == Success(PitchAlt(raw))
  {
  }

  lemma AltOfPerc(raw: string, scale: Result<Parser.ScaleNotes>)
    requires raw == "K" || raw == "T" || raw == "k" || raw == "t" || raw == "-"
    ensures Alt(raw, scale).Success? && Alt(raw, scale).value.Some?
    ensures RenderSound(Alt(raw, scale).value.value) == raw
  {
    var u := ToUpper(raw);
    assert u == [UpperChar(raw[0])];
    if raw == "k" {
      assert u == "K" && ToLower(u) == [LowerChar('K')];
    } else if raw == "t" {
      assert u == "T" && ToLower(u) == [LowerChar('T')];
    }
  }

  /** An upper-case pitch has no whitespace, `|`, `(` or lower-case letter. */
  lemma PlainPitchChars(a: string)
    requires PlainPitch(a)
    ensures NoSpace(a) && '|' !in a && a[0] != '(' && Trim(a) == a
    ensures forall i :: 0 <= i < |a| ==> !('a' <= a[i] <= 'z')
  {
    forall i | 0 <= i < |a| ensures !IsSpace(a[i]) {
    }
    TrimNoSpace(a);
  }

  /** An upper-case pitch is its own upper case, and so is its spelling. */
  lemma PlainPitchUpper(a: string)
    requires PlainPitch(a)
    ensures ToUpper(a) == a && ToUpper(a[..|a| - 1]) == a[..|a| - 1]
  {
    PlainPitchChars(a);
    var sp := a[..|a| - 1];
    assert forall i :: 0 <= i < |sp| ==> sp[i] == a[i];
  }

  /** An upper-case pitch is not a degree and matches the pitch pattern as its spelling and
    * octave digit. */
  lemma PlainPitchMatch(a: string)
    requires PlainPitch(a)
    ensures !Parser.IsDegreeSymbol(a)
    ensures MatchPitch(a, 9, true) == Some((a[..|a| - 1], DigitValue(a[|a| - 1])))
  {
    assert !IsDigit(a[0]);
    if |a| == 2 {
      assert [a[0]] == a[..1];
    }
  }

  /** An upper-case pitch reads as its spelling and octave, with no frequency. */
  lemma PlainPitchReads(a: string, scale: Result<Parser.ScaleNotes>)
    requires PlainPitch(a)
    ensures NoSpace(a) && '|' !in a && a[0] != '('
    ensures Alt(Trim(a), scale) == Success(Some(Tone(a[..|a| - 1], DigitValue(a[|a| - 1]), None)))
  {
    PlainPitchChars(a);
    PlainPitchUpper(a);
    PlainPitchMatch(a);
    AltOfPitch(a, scale);
  }

  /** A plain alternative has no whitespace, `|` or `(`, and resolves to what renders it. */
  lemma PlainAltReads(a: string, scale: Result<Parser.ScaleNotes>)
    requires PlainAlt(a)
    ensures |a| > 0 && NoSpace(a) && '|' !in a && a[0] != '('
    ensures Alt(Trim(a), scale).Success? && Alt(Trim(a), scale).value.Some?
    ensures RenderSound(Alt(Trim(a), scale).value.value) == a
  {
    if PlainPitch(a) {
      PlainPitchReads(a, scale);
      var c := a[|a| - 1];
      assert [DigitChar(DigitValue(c))] == [c];
      assert a == a[..|a| - 1] + [c];
    } else {
      TrimNoSpace(a);
      AltOfPerc(a, scale);
    }
  }

  /** The alternatives of a plain token resolve one for one and render back. */
  lemma PlainPartsRead(alts: seq<string>, scale: Result<Parser.ScaleNotes>)
    requires forall k :: 0 <= k < |alts| ==> PlainAlt(alts[k])
    ensures ResolveParts(alts, scale).Success?
    ensures Map(ResolveParts(alts, scale).value, RenderSound) == alts
  {
    var rs := Map(alts, AltStep(scale));
    forall k | 0 <= k < |rs| ensures rs[k].Success? && |rs[k].value| == 1 && RenderSound(rs[k].value[0]) == alts[k] {
      PlainAltReads(alts[k], scale);
      assert rs[k] == AltItems(alts[k], scale);
    }
    GatherOnes(rs);
  }

  /** A plain token reads as one event of length 1 that renders back to the token. */
  lemma PlainTokenReads(alts: seq<string>, scale: Result<Parser.ScaleNotes>)
    requires PlainToken(alts)
    ensures var w := JoinAlts(alts);
      |w| > 0 && NoSpace(w) && w[0] != '(' &&
      TokenEvents(w, scale).Success? && |TokenEvents(w, scale).value| == 1 &&
      RenderEvent(Stored(TokenEvents(w, scale).value[0])) == w
  {
    var w := JoinAlts(alts);
    forall k | 0 <= k < |alts| ensures |alts[k]| > 0 && NoSpace(alts[k]) && '|' !in alts[k] && alts[k][0] != '(' {
      PlainAltReads(alts[k], scale);
    }
    JoinFirstChar(alts, "|");
    JoinNoSpace(alts, "|");
    SplitJoin(alts, '|');
    assert GroupMatch(w).None?;
    PlainPartsRead(alts, scale);
    var sounds := ResolveParts(alts, scale).value;
    assert |sounds| > 0 by {
      assert |Map(sounds, RenderSound)| == |alts|;
    }
    var rs := Map([w], SubStep(Finite(1.0), scale));
    assert rs[0] == SubEvents(w, Finite(1.0), scale) == Success([Parsed(sounds, Finite(1.0))]);
    GatherOnes(rs);
  }

  /** Joining pieces without whitespace by a separator without whitespace leaves none. */
  lemma {:induction false} JoinNoSpace(parts: seq<string>, sep: string)
    requires NoSpace(sep)
    requires forall k :: 0 <= k < |parts| ==> NoSpace(parts[k])
    ensures NoSpace(Join(parts, sep))
  {
    if |parts| > 1 {
      JoinNoSpace(parts[1..], sep);
      var j := parts[0] + sep + Join(parts[1..], sep);
      forall i | 0 <= i < |j| ensures !IsSpace(j[i]) {
        if i < |parts[0]| {
          assert j[i] == parts[0][i];
        } else if i < |parts[0]| + |sep| {
          assert j[i] == sep[i - |parts[0]|];
        } else {
          assert j[i] == Join(parts[1..], sep)[i - |parts[0]| - |sep|];
        }
      }
    }
  }

  /** Tokens without whitespace that do not open with `(` come back from the tokenizer when
    * joined by single spaces. */
  lemma {:induction false} TokenizeJoined(ws: seq<string>)
    requires forall k :: 0 <= k < |ws| ==> |ws[k]| > 0 && NoSpace(ws[k]) && ws[k][0] != '('
    ensures Tokenize(Join(ws, " ")) == ws
  {
    if |ws| == 1 {
      var w := ws[0];
      WordLenOf(w, "");
      assert w + "" == w;
      assert w[..|w|] == w && w[|w|..] == [];
      assert Tokenize(w) == [w] + Parser.TokenizeBy(GroupLen, []);
    } else if |ws| > 1 {
      var w := ws[0];
      var t := Join(ws[1..], " ");
      var s := w + (" " + t);
      assert Join(ws, " ") == s;
      WordLenOf(w, " " + t);
      assert s[0] == w[0];
      assert s[..|w|] == w && s[|w|..] == " " + t;
      assert GroupLen(" " + t) == 0;
      assert (" " + t)[1..] == t;
      assert Tokenize(" " + t) == Tokenize(t);
      TokenizeJoined(ws[1..]);
      assert Tokenize(s) == [w] + Tokenize(t);
      assert ws == [w] + ws[1..];
    }
  }

  /** Plain tokens read one event each, and those events render back token for token. */
  lemma PlainTokensRead(tokens: seq<seq<string>>, scale: Result<Parser.ScaleNotes>)
    requires forall k :: 0 <= k < |tokens| ==> PlainToken(tokens[k])
    ensures ParseTokens(Map(tokens, JoinAlts), scale).Success?
    ensures Map(Map(ParseTokens(Map(tokens, JoinAlts), scale).value, Stored), RenderEvent) == Map(tokens, JoinAlts)
  {
    var ws := Map(tokens, JoinAlts);
    var rs := Map(ws, TokenStep(scale));
    forall k | 0 <= k < |rs| ensures rs[k].Success? && |rs[k].value| == 1 && RenderEvent(Stored(rs[k].value[0])) == ws[k] {
      PlainTokenReads(tokens[k], scale);
      assert rs[k] == TokenEvents(ws[k], scale);
    }
    GatherOnes(rs);
  }

  /**
   * Text made of plain tokens joined by single spaces parses without raising, and the
   * editor's fallback writes the stored events back as the same text.
   */
  lemma ReconstructRoundTrip(tokens: seq<seq<string>>, scale: Result<Parser.ScaleNotes>)
    requires forall k :: 0 <= k < |tokens| ==> PlainToken(tokens[k])
    ensures var text := Join(Map(tokens, JoinAlts), " ");
      ParseTokens(Tokenize(text), scale).Success? &&
      Reconstruct(Map(ParseTokens(Tokenize(text), scale).value, Stored)) == text
  {
    var ws := Map(tokens, JoinAlts);
    forall k | 0 <= k < |ws| ensures |ws[k]| > 0 && NoSpace(ws[k]) && ws[k][0] != '(' {
      PlainTokenReads(tokens[k], scale);
    }
    TokenizeJoined(ws);
    PlainTokensRead(tokens, scale);
  }
}
