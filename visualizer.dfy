/**
 * The handpan drawing's labelling: side notes are ordered by pitch, numbered in pitch order
 * in numbers mode, named by scale degree above the ding in degrees mode, and shown by
 * name otherwise. The geometry of the drawing is not part of this model.
 */
module Visualizer {
  import opened Wrappers
  import opened Text
  import opened Seqs
  import opened Sorting
  import opened Constants
  import opened Pitch
  import opened Scales
  import opened ScaleGen

  // ---------------------------------------------------------------------------------------
  // Sorting note strings by pitch
  // ---------------------------------------------------------------------------------------

  /** parseForSort's record: spelling, octave, sort value and the string it came from. */
  datatype SortEntry = SortEntry(note: string, octave: nat, value: int, original: string)

  /** parseForSort: twelve per octave plus the semitone (0 for an unknown spelling); a name
    * that does not match reads as C0 with value 0. */
  function ParseForSort(str: string): (e: SortEntry)
    ensures e.original == str
    ensures MatchNoteName(StripDingPrefix(str)).None? ==> e.value == 0
    ensures 0 <= e.value <= 107
  {
    match MatchNoteName(StripDingPrefix(str))
    case None => SortEntry("C", 0, 0, str)
    case Some((note, octave)) => SortEntry(note, octave, octave * 12 + NoteToMidi(note).GetOr(0), str)
  }

  /** The sort value of a note string. */
  function LocalValue(str: string): int {
    ParseForSort(str).value
  }

  /** For a name the chord engine can parse, the local sort value is the chord engine's pitch
    * key, which is its value shifted by three octaves. */
  lemma ParseForSortAgrees(str: string)
    requires ParseNoteName(str).Some?
    ensures LocalValue(str) == PitchKey(ParseNoteName(str).value)
    ensures LocalValue(str) == ParseNoteName(str).value.value + 36
  {
  }

  function EntryValue(e: SortEntry): int {
    e.value
  }

  function Original(e: SortEntry): string {
    e.original
  }

  /** The comparator `(a, b) => a.value - b.value`. */
  function EntryOrder(): (SortEntry, SortEntry) -> bool {
    ByKey(EntryValue)
  }

  lemma EntryOrderIs(a: SortEntry, b: SortEntry)
    ensures EntryOrder()(a, b) <==> a.value <= b.value
  {
    assert EntryOrder()(a, b) == ByKey(EntryValue)(a, b);
    assert ByKey(EntryValue)(a, b) <==> EntryValue(a) <= EntryValue(b);
  }

  /** A record whose value is the sort value of its string, as parseForSort makes it. */
  predicate Faithful(e: SortEntry) {
    LocalValue(e.original) == e.value
  }

  /** Ascending by sort value. */
  predicate PitchSorted(r: seq<string>) {
    forall i, j {:trigger LocalValue(r[i]), LocalValue(r[j])} :: 0 <= i < j < |r| ==> LocalValue(r[i]) <= LocalValue(r[j])
  }

  /** sortNotesByPitchLocal: parse, sort the records by value, and return their strings. */
  function SortNotesLocal(notes: seq<string>): (r: seq<string>)
    ensures multiset(r) == multiset(notes)
    ensures PitchSorted(r)
  {
    SortedByValue(notes);
    Map(SortBy(Map(notes, ParseForSort), EntryOrder()), Original)
  }

  /** The strings of the sorted records are the input strings, sorted by value. */
  lemma SortedByValue(notes: seq<string>)
    ensures multiset(Map(SortBy(Map(notes, ParseForSort), EntryOrder()), Original)) == multiset(notes)
    ensures PitchSorted(Map(SortBy(Map(notes, ParseForSort), EntryOrder()), Original))
  {
    var parsed := Map(notes, ParseForSort);
    var sorted := SortBy(parsed, EntryOrder());
    SortByMap(parsed, EntryOrder(), Original);
    OriginalsOfParsed(notes);
    ByKeyTotal(EntryValue);
    SortBySorted(parsed, EntryOrder());
    ParsedFaithful(notes);
    AllPermutation(parsed, sorted, Faithful);
    SortedOriginals(sorted);
  }

  /** Reading the strings back from their records gives the strings. */
  lemma OriginalsOfParsed(notes: seq<string>)
    ensures Map(Map(notes, ParseForSort), Original) == notes
  {
  }

  lemma ParsedFaithful(notes: seq<string>)
    ensures All(Map(notes, ParseForSort), Faithful)
  {
  }

  /** Records sorted by value give strings sorted by value. */
  lemma SortedOriginals(sorted: seq<SortEntry>)
    requires Sorted(sorted, EntryOrder())
    requires All(sorted, Faithful)
    ensures PitchSorted(Map(sorted, Original))
  {
    forall i, j | 0 <= i < j < |sorted|
      ensures LocalValue(Map(sorted, Original)[i]) <= LocalValue(Map(sorted, Original)[j])
    {
      EntryOrderIs(sorted[i], sorted[j]);
      assert Faithful(sorted[i]) && Faithful(sorted[j]);
    }
  }

  /** The strings whose sort value is `v`. */
  function ValueIs(v: int): string -> bool {
    s => LocalValue(s) == v
  }

  /** A record standing for the tie class of value `v`. */
  function Probe(v: int): SortEntry {
    SortEntry("C", 0, v, "")
  }

  /** The records tying with value `v` are the records of the strings of value `v`. */
  lemma {:induction false} TiesOriginals(es: seq<SortEntry>, v: int)
    requires All(es, Faithful)
    ensures Map(Ties(es, EntryOrder(), Probe(v)), Original) == Filter(Map(es, Original), ValueIs(v))
  {
    if |es| > 0 {
      var rest := es[1..];
      assert All(rest, Faithful);
      TiesOriginals(rest, v);
      var head := if Equiv(EntryOrder(), es[0], Probe(v)) then [es[0]] else [];
      assert Ties(es, EntryOrder(), Probe(v)) == head + Ties(rest, EntryOrder(), Probe(v));
      MapConcat(head, Ties(rest, EntryOrder(), Probe(v)), Original);
      var originals := Map(es, Original);
      assert originals[1..] == Map(rest, Original);
      assert Faithful(es[0]);
      EntryOrderIs(es[0], Probe(v));
      EntryOrderIs(Probe(v), es[0]);
      assert ValueIs(v)(originals[0]) <==> Equiv(EntryOrder(), es[0], Probe(v));
    }
  }

  /**
   * Stability: among notes of equal sort value (for instance an unparseable name and `C0`,
   * or `C#3` and `Db3`) the sorted list keeps the input order.
   */
  lemma SortNotesLocalStable(notes: seq<string>, v: int)
    ensures Filter(SortNotesLocal(notes), ValueIs(v)) == Filter(notes, ValueIs(v))
  {
    var parsed := Map(notes, ParseForSort);
    var sorted := SortBy(parsed, EntryOrder());
    ByKeyTotal(EntryValue);
    SortByStable(parsed, EntryOrder(), Probe(v));
    ParsedFaithful(notes);
    AllPermutation(parsed, sorted, Faithful);
    TiesOriginals(sorted, v);
    TiesOriginals(parsed, v);
    OriginalsOfParsed(notes);
  }

  // ---------------------------------------------------------------------------------------
  // The numbering map
  // ---------------------------------------------------------------------------------------

  /** The last position of `n` in `s`, -1 when absent. */
  function LastIndex(s: seq<string>, n: string): (k: int)
    ensures -1 <= k < |s|
    ensures k >= 0 ==> s[k] == n
    ensures k == -1 <==> n !in s
    decreases |s|
  {
    if |s| == 0 then -1
    else if s[|s| - 1] == n then |s| - 1
    else
      assert s == s[..|s| - 1] + [s[|s| - 1]];
      LastIndex(s[..|s| - 1], n)
  }

  /** No later position holds `n`. */
  lemma {:induction false} LastIndexIsLast(s: seq<string>, n: string, j: int)
    requires LastIndex(s, n) < j < |s|
    ensures s[j] != n
    decreases |s|
  {
    if s[|s| - 1] != n && j < |s| - 1 {
      LastIndexIsLast(s[..|s| - 1], n, j);
    }
  }

  /** `numberingMap` after `candidates.forEach((n, i) => numberingMap[n] = (i + 1).toString())`. */
  function NumberingOf(candidates: seq<string>): (m: map<string, string>)
    ensures forall n :: n in m <==> n in candidates
    decreases |candidates|
  {
    if |candidates| == 0 then map[]
    else
      NumberingOf(candidates[..|candidates| - 1])[candidates[|candidates| - 1] := NatToString(|candidates|)]
  }

  /** The numbering knows exactly the candidates; each reads the one-based position of its last
    * occurrence, so a repeated name keeps its later number. */
  lemma {:induction false} NumberingAt(candidates: seq<string>, n: string)
    ensures n in candidates ==> NumberingOf(candidates)[n] == NatToString(LastIndex(candidates, n) + 1)
    decreases |candidates|
  {
    if |candidates| > 0 && n in candidates {
      var init := candidates[..|candidates| - 1];
      if n == candidates[|candidates| - 1] {
        assert LastIndex(candidates, n) + 1 == |candidates|;
        assert NumberingOf(candidates)[n] == NatToString(|candidates|);
      } else {
        assert NumberingOf(candidates)[n] == NumberingOf(init)[n] && LastIndex(candidates, n) == LastIndex(init, n) by {
          LastIndexInit(candidates, n);
        }
        NumberingAt(init, n);
      }
    }
  }

  /** A name other than the last one keeps its last position and its number when the last
    * candidate is dropped. */
  lemma LastIndexInit(candidates: seq<string>, n: string)
    requires n in candidates && n != candidates[|candidates| - 1]
    ensures n in candidates[..|candidates| - 1]
    ensures LastIndex(candidates, n) == LastIndex(candidates[..|candidates| - 1], n)
    ensures NumberingOf(candidates)[n] == NumberingOf(candidates[..|candidates| - 1])[n]
  {
    var k :| 0 <= k < |candidates| && candidates[k] == n;
    assert candidates[..|candidates| - 1][k] == n;
  }

  /** Distinct candidates get distinct numbers. */
  lemma NumberingInjective(candidates: seq<string>, a: string, b: string)
    requires a in candidates && b in candidates && a != b
    ensures NumberingOf(candidates)[a] != NumberingOf(candidates)[b]
  {
    NumberingAt(candidates, a);
    NumberingAt(candidates, b);
    var ka := LastIndex(candidates, a);
    var kb := LastIndex(candidates, b);
    assert DigitsValue(NatToString(ka + 1)) == ka + 1;
    assert DigitsValue(NatToString(kb + 1)) == kb + 1;
  }

  /** Without repeats, the candidate at position `i` is numbered `i + 1`. */
  lemma NumberingDistinct(candidates: seq<string>, i: nat)
    requires Distinct(candidates) && i < |candidates|
    ensures NumberingOf(candidates)[candidates[i]] == NatToString(i + 1)
  {
    var n := candidates[i];
    NumberingAt(candidates, n);
    var k := LastIndex(candidates, n);
    assert k >= 0 by {
      assert n in candidates;
    }
    assert k == i by {
      assert candidates[k] == n;
      if k < i {
        LastIndexIsLast(candidates, n, i);
      }
    }
  }

  /** The forEach that fills `numberingMap`. */
  method FillNumbering(candidates: seq<string>) returns (numbering: map<string, string>)
    ensures numbering == NumberingOf(candidates)
  {
    numbering := map[];
    for i := 0 to |candidates|
      invariant numbering == NumberingOf(candidates[..i])
    {
      assert candidates[..i + 1][..i] == candidates[..i];
      numbering := numbering[candidates[i] := NatToString(i + 1)];
    }
    assert candidates[..|candidates|] == candidates;
  }

  // ---------------------------------------------------------------------------------------
  // Labels
  // ---------------------------------------------------------------------------------------

  /** The label mode; any mode string other than `numbers` and `degrees` labels by name. */
  datatype Mode = NotesMode | NumbersMode | DegreesMode

  /** getDingRoot: the `[A-G][#b]?` spelling at the head of the name without `D:`, else the
    * whole name without `D:`. */
  function DingRoot(str: string): (r: string)
    ensures MatchNoteName(StripDingPrefix(str)).Some? ==> r == MatchNoteName(StripDingPrefix(str)).value.0
    ensures StartsWith(StripDingPrefix(str), r)
  {
    SpellingHead(StripDingPrefix(str))
  }

  /** `str.match(/^([A-G][#b]?)/)`: the spelling at the head of `str`, else `str` itself. */
  function SpellingHead(str: string): (r: string)
    ensures StartsWith(str, r)
    ensures |str| >= 1 && IsNoteLetter(str[0]) ==> 1 <= |r| <= 2 && r[0] == str[0]
  {
    if |str| >= 2 && IsNoteLetter(str[0]) && (str[1] == '#' || str[1] == 'b') then str[..2]
    else if |str| >= 1 && IsNoteLetter(str[0]) then str[..1]
    else str
  }

  /** The roman numerals of degreeMap, by semitones above the ding. */
  const DegreeNames: seq<string> := ["I", "bII", "II", "bIII", "III", "IV", "bV", "V", "bVI", "VI", "bVII", "VII"]

  /** The degree label of a note of semitone `semitone` over a ding of semitone `ding`; both
    * come from NOTE_TO_MIDI, so the sum before `% 12` is positive and JavaScript's remainder
    * agrees with Dafny's. */
  function DegreeLabel(semitone: Option<int>, ding: Option<int>): (r: string)
    ensures r == "?" <==> semitone.None? || ding.None?
  {
    if semitone.None? || ding.None? then "?"
    else DegreeNames[Interval(semitone.value, ding.value)]
  }

  /** `(semitone - dingSemitone + 12) % 12`: semitones from the ding up to the note. */
  function Interval(semitone: int, ding: int): (k: int)
    ensures 0 <= k < 12
  {
    (semitone - ding + 12) % 12
  }

  /** The numeral names the interval `k` by which the note lies above the ding, counted in the
    * octave; the ding's own pitch class is `I`. */
  lemma DegreeLabelInterval(semitone: int, ding: int, k: int)
    requires 0 <= semitone < 12 && 0 <= ding < 12 && 0 <= k < 12
    requires (ding + k) % 12 == semitone
    ensures DegreeLabel(Some(semitone), Some(ding)) == DegreeNames[k]
  {
    assert Interval(semitone, ding) == k by {
      if ding + k >= 12 {
        assert (ding + k) % 12 == ding + k - 12;
      } else {
        assert (ding + k) % 12 == ding + k;
        assert (k + 12) % 12 == k;
      }
    }
  }

  /** What getLabel reads from its closure. */
  datatype LabelContext = LabelContext(mode: Mode, numbering: map<string, string>, dingSemitone: Option<int>)

  /** getLabel: index -1 is the centre ding. */
  function Label(ctx: LabelContext, noteStr: string, index: int): string
  {
    if index == -1 then StripDingPrefix(noteStr)
    else
      match ctx.mode
      case NumbersMode =>
        if StartsWith(noteStr, "D:") then StripDingPrefix(noteStr)
        else if noteStr in ctx.numbering then ctx.numbering[noteStr]
        else "?"
      case DegreesMode => DegreeLabel(NoteToMidi(DingRoot(noteStr)), ctx.dingSemitone)
      case NotesMode => StripDingPrefix(noteStr)
  }


  /** Away from the centre (index -1) the label does not depend on the position. */
  lemma LabelIndexFree(ctx: LabelContext, noteStr: string, index: int)
    requires index >= 0
    ensures Label(ctx, noteStr, index) == Label(ctx, noteStr, 0)
    ensures Label(ctx, noteStr, -1) == StripDingPrefix(noteStr)
  {
  }

  // ---------------------------------------------------------------------------------------
  // Rendering
  // ---------------------------------------------------------------------------------------

  /** A drawn note: its name (`data-note`) and its label text. */
  datatype Placed = Placed(note: string, text: string)

  /** The drawn notes: centre ding, top side notes, and bottom notes. */
  datatype Rendering = Rendering(ding: Placed, top: seq<Placed>, bottom: seq<Placed>)

  function KeyOf(entry: (string, string)): string {
    entry.0
  }

  function NoteOf(p: Placed): string {
    p.note
  }

  /** `Object.keys(bottom)`. */
  function BottomKeys(bottom: seq<(string, string)>): seq<string> {
    Map(bottom, KeyOf)
  }

  predicate NotDingName(n: string) {
    !StartsWith(n, "D:")
  }

  /** The numbering candidates: side notes without a `D:` prefix, sorted by pitch. */
  function NumberingCandidates(topSide: seq<string>, sortedBottom: seq<string>): (r: seq<string>)
    ensures forall n :: n in r <==> (n in topSide || n in sortedBottom) && NotDingName(n)
    ensures PitchSorted(r)
  {
    var kept := Filter(topSide + sortedBottom, NotDingName);
    KeptMembers(topSide + sortedBottom, SortNotesLocal(kept));
    SortNotesLocal(kept)
  }

  /** A rearrangement of the non-`D:` notes of `all` holds exactly those notes. */
  lemma KeptMembers(all: seq<string>, r: seq<string>)
    requires multiset(r) == multiset(Filter(all, NotDingName))
    ensures forall n :: n in r <==> n in all && NotDingName(n)
  {
    forall n ensures n in r <==> n in all && NotDingName(n) {
      assert n in r <==> n in multiset(Filter(all, NotDingName));
    }
  }

  /** The top side notes in pitch order (`topNotes.slice(1)` sorted). */
  function TopSide(scale: Scale): seq<string> {
    if |scale.top| == 0 then [] else SortNotesLocal(scale.top[1..])
  }

  /** The bottom keys in pitch order. */
  function SortedBottom(scale: Scale): seq<string> {
    SortNotesLocal(BottomKeys(scale.bottom))
  }

  /** The numbering candidates of a scale's drawing. */
  function CandidatesOf(scale: Scale): seq<string> {
    NumberingCandidates(TopSide(scale), SortedBottom(scale))
  }

  /** The label context renderHandpanSVG sets up for a scale whose top is non-empty. */
  function ContextOf(scale: Scale, mode: Mode): LabelContext
    requires |scale.top| > 0
  {
    LabelContext(mode, NumberingOf(CandidatesOf(scale)),
                 NoteToMidi(DingRoot(scale.top[0])))
  }

  lemma ContextOfFields(scale: Scale, mode: Mode)
    requires |scale.top| > 0
    ensures ContextOf(scale, mode).mode == mode
    ensures ContextOf(scale, mode).dingSemitone == NoteToMidi(DingRoot(scale.top[0]))
    ensures ContextOf(scale, mode).numbering == NumberingOf(CandidatesOf(scale))
  {
  }

  /** getLabel as the closure it is. */
  function LabelOf(ctx: LabelContext): (string, int) -> string {
    (n, i) => Label(ctx, n, i)
  }

  /** `notePositions[bottom[note]]` is set: the parent is the ding or a top side note. */
  predicate ParentDrawn(bottom: seq<(string, string)>, note: string, ding: string, topSide: seq<string>) {
    Lookup(bottom, note).Some? && (Lookup(bottom, note).value == ding || Lookup(bottom, note).value in topSide)
  }

  function Drawn(bottom: seq<(string, string)>, ding: string, topSide: seq<string>): string -> bool {
    n => ParentDrawn(bottom, n, ding, topSide)
  }

  /** The top side notes, each labelled with its position. */
  function PlaceTop(labelOf: (string, int) -> string, topSide: seq<string>): seq<Placed> {
    seq(|topSide|, i requires 0 <= i < |topSide| => Placed(topSide[i], labelOf(topSide[i], i)))
  }

  /** The notes whose parent was drawn, labelled at `index` onwards. */
  function PlaceBottom(labelOf: (string, int) -> string, notes: seq<string>, drawn: string -> bool,
                       index: nat): seq<Placed>
    decreases |notes|
  {
    if |notes| == 0 then []
    else
      (if drawn(notes[0]) then [Placed(notes[0], labelOf(notes[0], index))] else [])
      + PlaceBottom(labelOf, notes[1..], drawn, index + 1)
  }

  /** renderHandpanSVG's labelling; `None` where reading the ding of an empty top throws. */
  function Rendered(scale: Scale, mode: Mode): Option<Rendering> {
    if |scale.top| == 0 then None
    else
      var labelOf := LabelOf(ContextOf(scale, mode));
      var topSide := TopSide(scale);
      Some(Rendering(
        Placed(scale.top[0], labelOf(scale.top[0], -1)),
        PlaceTop(labelOf, topSide),
        PlaceBottom(labelOf, SortedBottom(scale), Drawn(scale.bottom, scale.top[0], topSide), |topSide|)))
  }

  /** renderHandpanSVG: sort, number, then label the ding, the top notes and the bottom notes in
    * turn. */
  method RenderHandpan(scale: Scale, mode: Mode) returns (r: Option<Rendering>)
    ensures r == Rendered(scale, mode)
  {
    if |scale.top| == 0 {
      return None;
    }
    var dingName := scale.top[0];
    var topSide := SortNotesLocal(scale.top[1..]);
    var sortedBottom := SortNotesLocal(BottomKeys(scale.bottom));
    var numbering := FillNumbering(NumberingCandidates(topSide, sortedBottom));
    var labelOf := LabelOf(LabelContext(mode, numbering, NoteToMidi(DingRoot(dingName))));
    var top := DrawTop(labelOf, topSide);
    var bottom := DrawBottom(labelOf, sortedBottom, Drawn(scale.bottom, dingName, topSide), |topSide|);
    r := Some(Rendering(Placed(dingName, labelOf(dingName, -1)), top, bottom));
  }

  /** `topSideNotes.forEach`: one labelled note per top side note. */
  method DrawTop(labelOf: (string, int) -> string, topSide: seq<string>) returns (top: seq<Placed>)
    ensures top == PlaceTop(labelOf, topSide)
  {
    top := [];
    for i := 0 to |topSide|
      invariant |top| == i
      invariant forall j :: 0 <= j < i ==> top[j] == Placed(topSide[j], labelOf(topSide[j], j))
    {
      top := top + [Placed(topSide[i], labelOf(topSide[i], i))];
    }
  }

  /** `sortedBottom.forEach`, returning early for a note whose parent was not drawn. */
  method DrawBottom(labelOf: (string, int) -> string, notes: seq<string>, drawn: string -> bool, index: nat)
    returns (bottom: seq<Placed>)
    ensures bottom == PlaceBottom(labelOf, notes, drawn, index)
  {
    bottom := [];
    for i := 0 to |notes|
      invariant bottom + PlaceBottom(labelOf, notes[i..], drawn, index + i) == PlaceBottom(labelOf, notes, drawn, index)
    {
      assert notes[i..][1..] == notes[i + 1..];
      if drawn(notes[i]) {
        bottom := bottom + [Placed(notes[i], labelOf(notes[i], index + i))];
      }
    }
    assert notes[|notes|..] == [];
  }

  // ---------------------------------------------------------------------------------------
  // What the drawing shows
  // ---------------------------------------------------------------------------------------

  /** The parent of a bottom note is drawn when it is the first top note or another one. */
  predicate ParentShown(scale: Scale, note: string) {
    |scale.top| > 0 && Lookup(scale.bottom, note).Some? &&
    (Lookup(scale.bottom, note).value == scale.top[0] || Lookup(scale.bottom, note).value in scale.top[1..])
  }

  function ShownIn(scale: Scale): string -> bool {
    n => ParentShown(scale, n)
  }

  /** The labels do not depend on the position. */
  ghost predicate IndexFree(labelOf: (string, int) -> string) {
    forall n, i :: i >= 0 ==> labelOf(n, i) == labelOf(n, 0)
  }

  lemma LabelOfIndexFree(ctx: LabelContext)
    ensures IndexFree(LabelOf(ctx))
  {
    forall n, i | i >= 0 ensures LabelOf(ctx)(n, i) == LabelOf(ctx)(n, 0) {
      LabelIndexFree(ctx, n, i);
    }
  }

  /** The bottom ring holds the notes whose parent is drawn, in their order. */
  lemma {:induction false} PlaceBottomNotes(labelOf: (string, int) -> string, notes: seq<string>,
                                            drawn: string -> bool, index: nat)
    ensures Map(PlaceBottom(labelOf, notes, drawn, index), NoteOf) == Filter(notes, drawn)
    decreases |notes|
  {
    if |notes| > 0 {
      PlaceBottomNotes(labelOf, notes[1..], drawn, index + 1);
      var head := if drawn(notes[0]) then [Placed(notes[0], labelOf(notes[0], index))] else [];
      MapConcat(head, PlaceBottom(labelOf, notes[1..], drawn, index + 1), NoteOf);
    }
  }

  /** Each note of the bottom ring is labelled as at any position. */
  lemma {:induction false} PlaceBottomTexts(labelOf: (string, int) -> string, notes: seq<string>,
                                            drawn: string -> bool, index: nat)
    requires IndexFree(labelOf)
    ensures forall p :: p in PlaceBottom(labelOf, notes, drawn, index) ==> p.text == labelOf(p.note, 0)
    decreases |notes|
  {
    if |notes| > 0 {
      PlaceBottomTexts(labelOf, notes[1..], drawn, index + 1);
    }
  }

  /** A top side note is drawn exactly where it is among the other top notes. */
  lemma TopSideMembers(scale: Scale, n: string)
    requires |scale.top| > 0
    ensures n in TopSide(scale) <==> n in scale.top[1..]
  {
    assert n in TopSide(scale) <==> n in multiset(scale.top[1..]);
  }

  /**
   * The drawing fails exactly for an empty top. Otherwise the centre is the first top note,
   * labelled by its name without `D:` in every mode; the top ring holds the other top notes
   * sorted by pitch; and the bottom ring holds, in pitch order, exactly the bottom notes whose
   * parent is drawn.
   */
  lemma RenderedLayout(scale: Scale, mode: Mode)
    ensures Rendered(scale, mode).None? <==> |scale.top| == 0
    ensures Rendered(scale, mode).Some? ==>
      var r := Rendered(scale, mode).value;
      r.ding == Placed(scale.top[0], StripDingPrefix(scale.top[0])) &&
      Map(r.top, NoteOf) == SortNotesLocal(scale.top[1..]) &&
      Map(r.bottom, NoteOf) == Filter(SortNotesLocal(BottomKeys(scale.bottom)), ShownIn(scale))
  {
    if |scale.top| > 0 {
      var labelOf := LabelOf(ContextOf(scale, mode));
      LabelIndexFree(ContextOf(scale, mode), scale.top[0], 0);
      PlaceTopNotes(labelOf, TopSide(scale));
      BottomRingShown(scale, labelOf);
    }
  }

  lemma PlaceTopNotes(labelOf: (string, int) -> string, topSide: seq<string>)
    ensures Map(PlaceTop(labelOf, topSide), NoteOf) == topSide
  {
  }

  /** The bottom ring holds the sorted bottom keys whose parent is shown. */
  lemma BottomRingShown(scale: Scale, labelOf: (string, int) -> string)
    requires |scale.top| > 0
    ensures Map(PlaceBottom(labelOf, SortedBottom(scale), Drawn(scale.bottom, scale.top[0], TopSide(scale)),
                            |TopSide(scale)|), NoteOf)
      == Filter(SortedBottom(scale), ShownIn(scale))
  {
    var drawn := Drawn(scale.bottom, scale.top[0], TopSide(scale));
    PlaceBottomNotes(labelOf, SortedBottom(scale), drawn, |TopSide(scale)|);
    forall n ensures drawn(n) == ShownIn(scale)(n) {
      TopSideMembers(scale, Lookup(scale.bottom, n).GetOr(""));
    }
    FilterCongruent(SortedBottom(scale), drawn, ShownIn(scale));
  }

  /** The drawn side notes: the top ring then the bottom ring. */
  function SideNotesOf(r: Rendering): seq<Placed> {
    r.top + r.bottom
  }

  /** Every drawn side note is labelled as getLabel labels a note that is not the centre. */
  lemma SideLabels(scale: Scale, mode: Mode, p: Placed)
    requires |scale.top| > 0
    requires p in SideNotesOf(Rendered(scale, mode).value)
    ensures p.text == Label(ContextOf(scale, mode), p.note, 0)
  {
    var ctx := ContextOf(scale, mode);
    var topSide := TopSide(scale);
    var r := Rendered(scale, mode).value;
    LabelOfIndexFree(ctx);
    if p in r.top {
      var k :| 0 <= k < |r.top| && r.top[k] == p;
      LabelIndexFree(ctx, p.note, k);
    } else {
      PlaceBottomTexts(LabelOf(ctx), SortedBottom(scale), Drawn(scale.bottom, scale.top[0], topSide), |topSide|);
    }
  }

  /** The two rings of a drawing. */
  lemma RenderedRings(scale: Scale, mode: Mode)
    requires |scale.top| > 0
    ensures SideNotesOf(Rendered(scale, mode).value) ==
      PlaceTop(LabelOf(ContextOf(scale, mode)), TopSide(scale)) +
      PlaceBottom(LabelOf(ContextOf(scale, mode)), SortedBottom(scale),
                  Drawn(scale.bottom, scale.top[0], TopSide(scale)), |TopSide(scale)|)
  {
  }

  lemma TopRingFromScale(scale: Scale, labelOf: (string, int) -> string, p: Placed)
    requires |scale.top| > 0
    requires p in PlaceTop(labelOf, TopSide(scale))
    ensures p.note in scale.top[1..]
  {
    var top := PlaceTop(labelOf, TopSide(scale));
    var k :| 0 <= k < |top| && top[k] == p;
    TopSideMembers(scale, p.note);
  }

  lemma BottomRingFromScale(scale: Scale, labelOf: (string, int) -> string, drawn: string -> bool,
                            index: nat, p: Placed)
    requires p in PlaceBottom(labelOf, SortedBottom(scale), drawn, index)
    ensures p.note in BottomKeys(scale.bottom)
  {
    var bottom := PlaceBottom(labelOf, SortedBottom(scale), drawn, index);
    var k :| 0 <= k < |bottom| && bottom[k] == p;
    PlaceBottomNotes(labelOf, SortedBottom(scale), drawn, index);
    assert Map(bottom, NoteOf)[k] == p.note;
    SortedBottomMembers(scale, p.note);
  }

  lemma SortedBottomMembers(scale: Scale, n: string)
    ensures n in SortedBottom(scale) <==> n in BottomKeys(scale.bottom)
  {
    assert n in SortedBottom(scale) <==> n in multiset(BottomKeys(scale.bottom));
  }

  /** A drawn side note is a top note after the first or a bottom key. */
  lemma SideNotesFromScale(scale: Scale, mode: Mode, p: Placed)
    requires |scale.top| > 0
    requires p in SideNotesOf(Rendered(scale, mode).value)
    ensures p.note in scale.top[1..] || p.note in BottomKeys(scale.bottom)
  {
    var labelOf := LabelOf(ContextOf(scale, mode));
    var drawn := Drawn(scale.bottom, scale.top[0], TopSide(scale));
    RenderedRings(scale, mode);
    if p in PlaceTop(labelOf, TopSide(scale)) {
      TopRingFromScale(scale, labelOf, p);
    } else {
      BottomRingFromScale(scale, labelOf, drawn, |TopSide(scale)|, p);
    }
  }

  /** The numbering candidates are the non-`D:` side notes in ascending pitch. */
  lemma NumberingCandidatesOfScale(scale: Scale, n: string)
    requires |scale.top| > 0
    ensures n in CandidatesOf(scale) <==> (n in scale.top[1..] || n in BottomKeys(scale.bottom)) && NotDingName(n)
    ensures PitchSorted(CandidatesOf(scale))
  {
    TopSideMembers(scale, n);
    SortedBottomMembers(scale, n);
  }

  /**
   * Numbers mode: a drawn side note with `D:` shows its name without the prefix; any other
   * is a numbering candidate and shows its entry in the numbering, which NumberingAt gives as
   * its one-based position among the candidates.
   */
  lemma NumbersModeLabels(scale: Scale, p: Placed)
    requires |scale.top| > 0
    requires p in SideNotesOf(Rendered(scale, NumbersMode).value)
    ensures StartsWith(p.note, "D:") ==> p.text == StripDingPrefix(p.note)
    ensures !StartsWith(p.note, "D:") ==>
      p.note in CandidatesOf(scale) && p.text == NumberingOf(CandidatesOf(scale))[p.note]
  {
    var ctx := ContextOf(scale, NumbersMode);
    assert p.text == Label(ctx, p.note, 0) by {
      SideLabels(scale, NumbersMode, p);
    }
    assert ctx.mode == NumbersMode && ctx.numbering == NumberingOf(CandidatesOf(scale)) by {
      ContextOfFields(scale, NumbersMode);
    }
    if !StartsWith(p.note, "D:") {
      assert p.note in CandidatesOf(scale) by {
        SideNotesFromScale(scale, NumbersMode, p);
        NumberingCandidatesOfScale(scale, p.note);
      }
      NumberLabel(ctx, p.note);
    }
  }

  /** A numbers-mode label away from the centre reads the numbering. */
  lemma NumberLabel(ctx: LabelContext, n: string)
    requires ctx.mode == NumbersMode && !StartsWith(n, "D:") && n in ctx.numbering
    ensures Label(ctx, n, 0) == ctx.numbering[n]
  {
  }

  /** Degrees mode: a drawn side note shows `?` when its spelling or the ding's is unknown, and
    * otherwise the numeral of its semitone distance above the ding. */
  lemma DegreesModeLabels(scale: Scale, p: Placed)
    requires |scale.top| > 0
    requires p in SideNotesOf(Rendered(scale, DegreesMode).value)
    ensures p.text == DegreeLabel(NoteToMidi(DingRoot(p.note)), NoteToMidi(DingRoot(scale.top[0])))
    ensures p.text == "?" <==> NoteToMidi(DingRoot(p.note)).None? || NoteToMidi(DingRoot(scale.top[0])).None?
  {
    var ctx := ContextOf(scale, DegreesMode);
    assert p.text == Label(ctx, p.note, 0) by {
      SideLabels(scale, DegreesMode, p);
    }
    assert ctx.mode == DegreesMode && ctx.dingSemitone == NoteToMidi(DingRoot(scale.top[0])) by {
      ContextOfFields(scale, DegreesMode);
    }
    DegreeLabelOf(ctx, p.note);
  }

  /** A degrees-mode label away from the centre is the degree of the note over the ding. */
  lemma DegreeLabelOf(ctx: LabelContext, n: string)
    requires ctx.mode == DegreesMode
    ensures Label(ctx, n, 0) == DegreeLabel(NoteToMidi(DingRoot(n)), ctx.dingSemitone)
  {
  }

  /** Notes mode: every drawn side note shows its name without `D:`. */
  lemma NotesModeLabels(scale: Scale, p: Placed)
    requires |scale.top| > 0
    requires p in SideNotesOf(Rendered(scale, NotesMode).value)
    ensures p.text == StripDingPrefix(p.note)
  {
    SideLabels(scale, NotesMode, p);
    ContextOfFields(scale, NotesMode);
  }
}
