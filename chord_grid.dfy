/**
 * The chord grid. renderChordGrid splits the generated chords into three categories, orders
 * each category by the pitch of the chord's root in its arpeggio, and draws one card per
 * chord: the root, its degree above the ding, the type, and the chord's note names ordered
 * by interval above the root. The voicing modal loops a voicing in eighth notes until the
 * same voicing is clicked again.
 */
module ChordGrid {
  import opened Wrappers
  import opened Seqs
  import opened Sorting
  import opened Text
  import opened Constants
  import opened Pitch
  import opened Chords
  import opened Generate
  import opened Visualizer
  import opened Scheduler

  // ---------------------------------------------------------------------------------------
  // Categories
  // ---------------------------------------------------------------------------------------

  /** The three sections of the grid. */
  datatype Category = MainTriads | BasicDyads | ColorChords

  /** Major and Minor are main chords; `5`, `M3` and `m3` are dyads; every other type is a
    * colour chord. */
  function CategoryOf(typeName: string): Category {
    if typeName == "Major" || typeName == "Minor" then MainTriads
    else if typeName == "5" || typeName == "M3" || typeName == "m3" then BasicDyads
    else ColorChords
  }

  function InCategory(c: Category): Entry -> bool {
    (e: Entry) => CategoryOf(e.chord.typeName) == c
  }

  /** The forEach that pushes each chord onto mainChords, dyadChords or colorChords. */
  method Categorize(chords: seq<Entry>) returns (main: seq<Entry>, dyads: seq<Entry>, color: seq<Entry>)
    ensures main == Filter(chords, InCategory(MainTriads))
    ensures dyads == Filter(chords, InCategory(BasicDyads))
    ensures color == Filter(chords, InCategory(ColorChords))
  {
    main, dyads, color := [], [], [];
    for i := 0 to |chords|
      invariant main == Filter(chords[..i], InCategory(MainTriads))
      invariant dyads == Filter(chords[..i], InCategory(BasicDyads))
      invariant color == Filter(chords[..i], InCategory(ColorChords))
    {
      var e := chords[i];
      FilterPrefix(chords, i, InCategory(MainTriads));
      FilterPrefix(chords, i, InCategory(BasicDyads));
      FilterPrefix(chords, i, InCategory(ColorChords));
      match CategoryOf(e.chord.typeName)
      case MainTriads => main := main + [e];
      case BasicDyads => dyads := dyads + [e];
      case ColorChords => color := color + [e];
    }
    assert chords[..|chords|] == chords;
  }

  /** The three categories together hold every chord exactly as often as the input does. */
  lemma {:induction false} CategoriesPartition(chords: seq<Entry>)
    ensures multiset(Filter(chords, InCategory(MainTriads))) + multiset(Filter(chords, InCategory(BasicDyads)))
      + multiset(Filter(chords, InCategory(ColorChords))) == multiset(chords)
  {
    if |chords| > 0 {
      assert multiset(chords) == multiset{chords[0]} + multiset(chords[1..]) by {
        assert chords == [chords[0]] + chords[1..];
      }
      CategoriesPartition(chords[1..]);
      FilterHead(chords, InCategory(MainTriads));
      FilterHead(chords, InCategory(BasicDyads));
      FilterHead(chords, InCategory(ColorChords));
    }
  }

  // ---------------------------------------------------------------------------------------
  // Ordering by root pitch
  // ---------------------------------------------------------------------------------------

  function IsNamed(name: string): NoteVal -> bool {
    (n: NoteVal) => n.note == name
  }

  /** getRootPitchValue: the value of the first arpeggio note named like the root, 999 when
    * there is none. */
  function RootPitchValue(e: Entry): (v: int)
    ensures (forall i :: 0 <= i < |e.arpeggio| ==> e.arpeggio[i].note != e.chord.root) ==> v == 999
    ensures forall i :: (0 <= i < |e.arpeggio| && e.arpeggio[i].note == e.chord.root &&
      forall j :: 0 <= j < i ==> e.arpeggio[j].note != e.chord.root) ==> v == e.arpeggio[i].value
  {
    var k := FindIndex(e.arpeggio, IsNamed(e.chord.root));
    if k >= 0 then e.arpeggio[k].value else 999
  }

  /** sortByRootPitch: `getRootPitchValue(a) - getRootPitchValue(b)`. */
  function RootOrder(): (Entry, Entry) -> bool {
    ByKey(RootPitchValue)
  }

  /** A category after `.sort(sortByRootPitch)`. */
  function Ordered(chords: seq<Entry>, c: Category): seq<Entry> {
    SortBy(Filter(chords, InCategory(c)), RootOrder())
  }

  lemma RootOrderIs(a: Entry, b: Entry)
    ensures RootOrder()(a, b) <==> RootPitchValue(a) <= RootPitchValue(b)
  {
  }

  /** Each category is a rearrangement of its chords, ascending by root pitch, and chords
    * whose roots sound at the same pitch keep their order from generateChords. */
  lemma OrderedCategory(chords: seq<Entry>, c: Category)
    ensures multiset(Ordered(chords, c)) == multiset(Filter(chords, InCategory(c)))
    ensures forall i, j :: 0 <= i < j < |Ordered(chords, c)| ==>
      RootPitchValue(Ordered(chords, c)[i]) <= RootPitchValue(Ordered(chords, c)[j])
    ensures forall y :: Ties(Ordered(chords, c), RootOrder(), y) == Ties(Filter(chords, InCategory(c)), RootOrder(), y)
  {
    ByKeyTotal(RootPitchValue);
    SortByStableAll(Filter(chords, InCategory(c)), RootOrder());
    OrderedByRoot(chords, c);
  }

  lemma OrderedByRoot(chords: seq<Entry>, c: Category)
    ensures forall i, j :: 0 <= i < j < |Ordered(chords, c)| ==>
      RootPitchValue(Ordered(chords, c)[i]) <= RootPitchValue(Ordered(chords, c)[j])
  {
    var r := Ordered(chords, c);
    ByKeyTotal(RootPitchValue);
    SortBySorted(Filter(chords, InCategory(c)), RootOrder());
    forall i, j | 0 <= i < j < |r| ensures RootPitchValue(r[i]) <= RootPitchValue(r[j]) {
      RootOrderIs(r[i], r[j]);
    }
  }

  /** generateChords' arpeggios hold real note values, all far below the 999 fallback. */
  predicate PlainArpeggio(e: Entry) {
    forall i :: 0 <= i < |e.arpeggio| ==> e.arpeggio[i].value < 999
  }

  predicate HasRootNote(e: Entry) {
    exists i :: 0 <= i < |e.arpeggio| && e.arpeggio[i].note == e.chord.root
  }

  /** A chord whose arpeggio lacks its root goes after every chord whose arpeggio has it. */
  lemma RootlessLast(chords: seq<Entry>, c: Category, i: nat, j: nat)
    requires forall e :: e in chords ==> PlainArpeggio(e)
    requires i < |Ordered(chords, c)| && j < |Ordered(chords, c)|
    requires HasRootNote(Ordered(chords, c)[i]) && !HasRootNote(Ordered(chords, c)[j])
    ensures i < j
  {
    var r := Ordered(chords, c);
    var x := r[i];
    assert x in chords by {
      SortFilterMember(chords, InCategory(c), RootOrder(), x);
    }
    assert RootPitchValue(x) < 999 by {
      assert PlainArpeggio(x);
      var w :| 0 <= w < |x.arpeggio| && x.arpeggio[w].note == x.chord.root;
      var k := FindIndex(x.arpeggio, IsNamed(x.chord.root));
      assert k >= 0 by {
        assert IsNamed(x.chord.root)(x.arpeggio[w]);
      }
    }
    assert RootPitchValue(r[j]) == 999;
    OrderedByRoot(chords, c);
    AscendingKeys(r, RootPitchValue, i, j);
  }

  /** In a list ascending by `key`, an element with a smaller key comes earlier. */
  lemma AscendingKeys<T>(s: seq<T>, key: T -> int, i: nat, j: nat)
    requires i < |s| && j < |s| && key(s[i]) < key(s[j])
    requires forall a, b :: 0 <= a < b < |s| ==> key(s[a]) <= key(s[b])
    ensures i < j
  {
  }

  // ---------------------------------------------------------------------------------------
  // Degree names
  // ---------------------------------------------------------------------------------------

  /** The ding's spelling: the head of `dingNotes[0]` when there is a ding, else `C`. */
  function DingRootOf(dingNotes: seq<string>): string {
    if |dingNotes| > 0 then SpellingHead(dingNotes[0]) else "C"
  }

  /** getDegreeName: blank when the note or the ding is missing from NOTE_TO_MIDI, else the
    * numeral of the interval above the ding. Both semitones lie in 0..11, so the map
    * lookup always succeeds and its `'?'` fallback is never taken. */
  function DegreeName(note: string, dingVal: Option<int>): (r: string)
    ensures r == "" <==> NoteToMidi(note).None? || dingVal.None?
  {
    if NoteToMidi(note).None? || dingVal.None? then ""
    else DegreeNames[Visualizer.Interval(NoteToMidi(note).value, dingVal.value)]
  }

  /** The grid and the handpan drawing name degrees alike; only the unknown case differs,
    * blank here and `?` there. */
  lemma DegreeNameAgrees(note: string, dingVal: Option<int>)
    ensures DegreeLabel(NoteToMidi(note), dingVal) == "?" ==> DegreeName(note, dingVal) == ""
    ensures DegreeLabel(NoteToMidi(note), dingVal) != "?" ==>
      DegreeName(note, dingVal) == DegreeLabel(NoteToMidi(note), dingVal)
  {
  }

  /** A chord rooted on the ding's own spelling is the tonic `I`. */
  lemma DingRootIsTonic(dingNotes: seq<string>)
    requires NoteToMidi(DingRootOf(dingNotes)).Some?
    ensures DegreeName(DingRootOf(dingNotes), NoteToMidi(DingRootOf(dingNotes))) == "I"
  {
    var v := NoteToMidi(DingRootOf(dingNotes)).value;
    assert Visualizer.Interval(v, v) == 0;
  }

  // ---------------------------------------------------------------------------------------
  // Note badges
  // ---------------------------------------------------------------------------------------

  function NoteName(n: NoteVal): string {
    n.note
  }

  /** `[...new Set(names)]`: each name once, at its first occurrence. */
  function Dedup(names: seq<string>): (r: seq<string>)
    ensures Distinct(r)
    ensures forall x :: x in r <==> x in names
    decreases |names|
  {
    if |names| == 0 then []
    else
      var init := names[..|names| - 1];
      var last := names[|names| - 1];
      assert names == init + [last];
      var d := Dedup(init);
      if last in d then d else d + [last]
  }

  /** `(NOTE_TO_MIDI[n] - rootVal + 12) % 12`, the badge sort key. */
  function IntervalAbove(root: string): string -> int {
    (n: string) => Visualizer.Interval(NoteToMidi(n).GetOr(0), NoteToMidi(root).GetOr(0))
  }

  /** The badge names of a chord card. */
  function Badges(e: Entry): seq<string> {
    SortBy(Dedup(Map(e.chord.notes, NoteName)), ByKey(IntervalAbove(e.chord.root)))
  }

  /** The badges name each note name of the chord once, ascending by interval above the root. */
  lemma BadgesOrdered(e: Entry)
    ensures Distinct(Badges(e))
    ensures forall x :: x in Badges(e) <==> x in Map(e.chord.notes, NoteName)
    ensures forall i, j :: 0 <= i < j < |Badges(e)| ==>
      IntervalAbove(e.chord.root)(Badges(e)[i]) <= IntervalAbove(e.chord.root)(Badges(e)[j])
  {
    var names := Dedup(Map(e.chord.notes, NoteName));
    var key := IntervalAbove(e.chord.root);
    var b := Badges(e);
    DistinctPermutation(names, b);
    forall x ensures x in b <==> x in names {
      assert x in b <==> x in multiset(b);
      assert x in names <==> x in multiset(names);
    }
    ByKeyTotal(key);
    SortBySorted(names, ByKey(key));
    forall i, j | 0 <= i < j < |b| ensures key(b[i]) <= key(b[j]) {
      assert ByKey(key)(b[i], b[j]);
    }
  }

  /** In a list ascending by `key`, the first element's key is at most any member's. */
  lemma AscendingFirst<T>(s: seq<T>, key: T -> int, x: T)
    requires x in s
    requires forall i, j :: 0 <= i < j < |s| ==> key(s[i]) <= key(s[j])
    ensures |s| > 0 && key(s[0]) <= key(x)
  {
    var k :| 0 <= k < |s| && s[k] == x;
    if k > 0 {
      assert key(s[0]) <= key(s[k]);
    }
  }

  lemma IntervalAboveSelf(root: string)
    ensures IntervalAbove(root)(root) == 0
  {
    var r := NoteToMidi(root).GetOr(0);
    assert Visualizer.Interval(r, r) == 0;
  }

  /** When the root itself is among the chord's notes, the first badge sits at the root's
    * pitch class. */
  lemma RootBadgeFirst(e: Entry)
    requires e.chord.root in Map(e.chord.notes, NoteName)
    ensures |Badges(e)| > 0 && IntervalAbove(e.chord.root)(Badges(e)[0]) == 0
  {
    var key := IntervalAbove(e.chord.root);
    IntervalAboveSelf(e.chord.root);
    var b := Badges(e);
    assert e.chord.root in b && forall i, j :: 0 <= i < j < |b| ==> key(b[i]) <= key(b[j]) by {
      BadgesOrdered(e);
    }
    AscendingFirst(b, key, e.chord.root);
  }

  // ---------------------------------------------------------------------------------------
  // The grid
  // ---------------------------------------------------------------------------------------

  /** A chord card: root, degree (blank when unknown), type and note badges. */
  datatype Card = Card(root: string, degree: string, typeName: string, badges: seq<string>)

  /** A titled category section. */
  datatype Section = Section(title: string, cards: seq<Card>)

  /** What the grid shows: the no-chords message, or the non-empty sections in order. */
  datatype GridView = NoChords | Sections(sections: seq<Section>)

  function CardOf(dingVal: Option<int>): Entry -> Card {
    (e: Entry) => Card(e.chord.root, DegreeName(e.chord.root, dingVal), e.chord.typeName, Badges(e))
  }

  /** renderChordList: nothing for an empty list, else one section with a card per chord. */
  function SectionOf(title: string, es: seq<Entry>, dingVal: Option<int>): seq<Section> {
    if |es| == 0 then [] else [Section(title, Map(es, CardOf(dingVal)))]
  }

  const MainTitle := "Main Chords (Triads)"
  const DyadTitle := "Basic Dyads"
  const ColorTitle := "Color Chords"

  /** renderChordGrid's drawing. */
  function RenderGrid(chords: seq<Entry>, dingNotes: seq<string>): GridView {
    if |chords| == 0 then NoChords
    else
      var d := NoteToMidi(DingRootOf(dingNotes));
      Sections(SectionOf(MainTitle, Ordered(chords, MainTriads), d)
        + SectionOf(DyadTitle, Ordered(chords, BasicDyads), d)
        + SectionOf(ColorTitle, Ordered(chords, ColorChords), d))
  }

  function AllCards(sections: seq<Section>): seq<Card> {
    if |sections| == 0 then [] else sections[0].cards + AllCards(sections[1..])
  }

  lemma {:induction false} AllCardsConcat(a: seq<Section>, b: seq<Section>)
    ensures AllCards(a + b) == AllCards(a) + AllCards(b)
  {
    if |a| > 0 {
      assert (a + b)[1..] == a[1..] + b;
      AllCardsConcat(a[1..], b);
    } else {
      assert a + b == b;
    }
  }

  lemma SectionCards(title: string, es: seq<Entry>, dingVal: Option<int>)
    ensures AllCards(SectionOf(title, es, dingVal)) == Map(es, CardOf(dingVal))
    ensures forall s :: s in SectionOf(title, es, dingVal) ==> s.title == title && |s.cards| > 0
  {
    if |es| > 0 {
      assert SectionOf(title, es, dingVal)[1..] == [];
    }
  }

  /** With chords to show, no section is empty and each carries one of the three titles. */
  lemma GridSections(chords: seq<Entry>, dingNotes: seq<string>)
    requires |chords| > 0
    ensures RenderGrid(chords, dingNotes).Sections?
    ensures forall s :: s in RenderGrid(chords, dingNotes).sections ==>
      |s.cards| > 0 && (s.title == MainTitle || s.title == DyadTitle || s.title == ColorTitle)
  {
    var d := NoteToMidi(DingRootOf(dingNotes));
    var sm := SectionOf(MainTitle, Ordered(chords, MainTriads), d);
    var sy := SectionOf(DyadTitle, Ordered(chords, BasicDyads), d);
    var sc := SectionOf(ColorTitle, Ordered(chords, ColorChords), d);
    assert RenderGrid(chords, dingNotes).sections == sm + sy + sc;
    SectionCards(MainTitle, Ordered(chords, MainTriads), d);
    SectionCards(DyadTitle, Ordered(chords, BasicDyads), d);
    SectionCards(ColorTitle, Ordered(chords, ColorChords), d);
    forall s: Section | s in sm + sy + sc
      ensures |s.cards| > 0 && (s.title == MainTitle || s.title == DyadTitle || s.title == ColorTitle)
    {
      assert s in sm || s in sy || s in sc;
    }
  }

  /** With chords to show, the sections together draw exactly one card per chord. */
  lemma EveryChordOnce(chords: seq<Entry>, dingNotes: seq<string>)
    requires |chords| > 0
    ensures RenderGrid(chords, dingNotes).Sections?
    ensures multiset(AllCards(RenderGrid(chords, dingNotes).sections)) ==
      multiset(Map(chords, CardOf(NoteToMidi(DingRootOf(dingNotes)))))
  {
    var d := NoteToMidi(DingRootOf(dingNotes));
    var f := CardOf(d);
    var m := Ordered(chords, MainTriads);
    var y := Ordered(chords, BasicDyads);
    var c := Ordered(chords, ColorChords);
    var sm, sy, sc := SectionOf(MainTitle, m, d), SectionOf(DyadTitle, y, d), SectionOf(ColorTitle, c, d);
    assert AllCards(RenderGrid(chords, dingNotes).sections) == Map(m, f) + Map(y, f) + Map(c, f) by {
      AllCardsConcat(sm + sy, sc);
      AllCardsConcat(sm, sy);
      SectionCards(MainTitle, m, d);
      SectionCards(DyadTitle, y, d);
      SectionCards(ColorTitle, c, d);
    }
    assert Map(m, f) + Map(y, f) + Map(c, f) == Map(m + y + c, f) by {
      MapConcat(m + y, c, f);
      MapConcat(m, y, f);
    }
    assert multiset(m + y + c) == multiset(chords) by {
      CategoriesPartition(chords);
    }
    MapMultiset(m + y + c, chords, f);
  }

  // ---------------------------------------------------------------------------------------
  // Grid state: the rendered-chords cache and the sort flag
  // ---------------------------------------------------------------------------------------

  /** What the grid element was last drawn from: its content is RenderGrid of these. */
  datatype Drawing = Drawing(chords: seq<Entry>, dingNotes: seq<string>)

  /** The module variables isSortedByPitch, lastRenderedChords and lastDingNotes, and what the
    * grid element was last drawn from (`None` before the first render). */
  datatype GridState = GridState(sortedByPitch: bool, lastChords: seq<Entry>, lastDings: seq<string>,
                                 drawn: Option<Drawing>)

  /** What the grid element shows. */
  function Shown(st: GridState): Option<GridView> {
    if st.drawn.None? then None else Some(RenderGrid(st.drawn.value.chords, st.drawn.value.dingNotes))
  }

  /** renderChordGrid(chords, dingNotes): the empty list returns before the cache is touched. */
  function AfterRender(st: GridState, chords: seq<Entry>, dingNotes: seq<string>): GridState {
    if |chords| == 0 then st.(drawn := Some(Drawing(chords, dingNotes)))
    else GridState(st.sortedByPitch, chords, dingNotes, Some(Drawing(chords, dingNotes)))
  }

  /** toggleChordSort: flips the flag and re-renders the cached chords when there are any. */
  function AfterToggle(st: GridState): GridState {
    var flipped := st.(sortedByPitch := !st.sortedByPitch);
    if |st.lastChords| > 0 then AfterRender(flipped, st.lastChords, st.lastDings) else flipped
  }

  /** A render caches exactly the non-empty chord lists and never touches the flag. */
  lemma RenderCaches(st: GridState, chords: seq<Entry>, dingNotes: seq<string>)
    ensures AfterRender(st, chords, dingNotes).sortedByPitch == st.sortedByPitch
    ensures |chords| > 0 ==>
      AfterRender(st, chords, dingNotes).lastChords == chords && AfterRender(st, chords, dingNotes).lastDings == dingNotes
    ensures |chords| == 0 ==>
      AfterRender(st, chords, dingNotes).lastChords == st.lastChords && AfterRender(st, chords, dingNotes).lastDings == st.lastDings
    ensures Shown(AfterRender(st, chords, dingNotes)) == Some(RenderGrid(chords, dingNotes))
    ensures |chords| == 0 ==> Shown(AfterRender(st, chords, dingNotes)) == Some(NoChords)
  {
  }

  /** The flag flips on every call, and it never decides what is drawn. */
  lemma ToggleFlipsOnly(st: GridState, flag: bool)
    ensures AfterToggle(st).sortedByPitch == !st.sortedByPitch
    ensures AfterToggle(AfterToggle(st)).sortedByPitch == st.sortedByPitch
    ensures Shown(AfterToggle(st.(sortedByPitch := flag))) == Shown(AfterToggle(st))
    ensures AfterToggle(st).lastChords == st.lastChords && AfterToggle(st).lastDings == st.lastDings
  {
  }

  /** As written: after an empty render the cache still holds the previous chords, so the
    * next toggle draws them again although the current scale has none. */
  lemma StaleGridAfterToggle(st: GridState, chords: seq<Entry>, dings: seq<string>, newDings: seq<string>)
    requires |chords| > 0
    ensures Shown(AfterRender(AfterRender(st, chords, dings), [], newDings)) == Some(NoChords)
    ensures Shown(AfterToggle(AfterRender(AfterRender(st, chords, dings), [], newDings))) ==
      Some(RenderGrid(chords, dings))
    ensures RenderGrid(chords, dings) != NoChords
  {
  }

  /** The evidently intended renderChordGrid: the cache follows every render, the empty one
    * included. */
  function AfterRenderCached(st: GridState, chords: seq<Entry>, dingNotes: seq<string>): (r: GridState)
    ensures r.drawn == Some(Drawing(chords, dingNotes))
    ensures r.lastChords == chords && r.lastDings == dingNotes && r.sortedByPitch == st.sortedByPitch
  {
    GridState(st.sortedByPitch, chords, dingNotes, Some(Drawing(chords, dingNotes)))
  }

  /** toggleChordSort over the corrected render. */
  function AfterToggleCached(st: GridState): (r: GridState)
    ensures r.sortedByPitch == !st.sortedByPitch
    ensures r.lastChords == st.lastChords && r.lastDings == st.lastDings
    ensures |st.lastChords| == 0 ==> r.drawn == st.drawn
  {
    var flipped := st.(sortedByPitch := !st.sortedByPitch);
    if |st.lastChords| > 0 then AfterRenderCached(flipped, st.lastChords, st.lastDings) else flipped
  }

  /** With the cache following every render, a toggle never changes what is drawn, and two
    * toggles restore the flag. */
  lemma ToggleKeepsGrid(st: GridState, chords: seq<Entry>, dingNotes: seq<string>)
    ensures Shown(AfterToggleCached(AfterRenderCached(st, chords, dingNotes))) ==
      Shown(AfterRenderCached(st, chords, dingNotes))
    ensures AfterToggleCached(AfterToggleCached(AfterRenderCached(st, chords, dingNotes))).sortedByPitch ==
      st.sortedByPitch
  {
  }

  /** The grid's module state. */
  class ChordGridPanel {
    var sortedByPitch: bool
    var lastChords: seq<Entry>
    var lastDings: seq<string>
    var drawn: Option<Drawing>

    function State(): GridState
      reads this
    {
      GridState(sortedByPitch, lastChords, lastDings, drawn)
    }

    constructor()
      ensures State() == GridState(false, [], [], None)
    {
      sortedByPitch := false;
      lastChords := [];
      lastDings := [];
      drawn := None;
    }

    /** renderChordGrid(chords, dingNotes). */
    method Render(chords: seq<Entry>, dingNotes: seq<string>)
      modifies this
      ensures State() == AfterRender(old(State()), chords, dingNotes)
    {
      if |chords| == 0 {
        drawn := Some(Drawing(chords, dingNotes));
        return;
      }
      lastChords := chords;
      lastDings := dingNotes;
      drawn := Some(Drawing(chords, dingNotes));
    }

    /** toggleChordSort. */
    method ToggleChordSort()
      modifies this
      ensures State() == AfterToggle(old(State()))
    {
      sortedByPitch := !sortedByPitch;
      if |lastChords| > 0 {
        Render(lastChords, lastDings);
      }
    }
  }

  /** The drawing part of renderChordGrid: categorise, sort each category, draw the
    * non-empty ones. */
  method DrawGrid(chords: seq<Entry>, dingNotes: seq<string>) returns (view: GridView)
    ensures view == RenderGrid(chords, dingNotes)
  {
    if |chords| == 0 {
      return NoChords;
    }
    var d := NoteToMidi(DingRootOf(dingNotes));
    var main, dyads, color := Categorize(chords);
    main := SortBy(main, RootOrder());
    dyads := SortBy(dyads, RootOrder());
    color := SortBy(color, RootOrder());
    var s1 := DrawSection(MainTitle, main, d);
    var s2 := DrawSection(DyadTitle, dyads, d);
    var s3 := DrawSection(ColorTitle, color, d);
    view := Sections(s1 + s2 + s3);
  }

  /** renderChordList: a card per chord, pushed in order. */
  method DrawSection(title: string, es: seq<Entry>, dingVal: Option<int>) returns (r: seq<Section>)
    ensures r == SectionOf(title, es, dingVal)
  {
    if |es| == 0 {
      return [];
    }
    var cards: seq<Card> := [];
    for i := 0 to |es|
      invariant cards == Map(es[..i], CardOf(dingVal))
    {
      MapPrefix(es, i, CardOf(dingVal));
      cards := cards + [CardOf(dingVal)(es[i])];
    }
    assert es[..|es|] == es;
    r := [Section(title, cards)];
  }

  // ---------------------------------------------------------------------------------------
  // The voicing modal's loop
  // ---------------------------------------------------------------------------------------

  /** `${n.note}${n.octave}`. */
  function FullName(n: NoteVal): string {
    n.note + NatToString(n.octave)
  }

  predicate Sounding(n: NoteVal) {
    FrequencyMidi(FullName(n)).Some?
  }

  /** One note of playModalSequence: playTone for 2.5 seconds when its frequency is truthy. */
  function ModalNote(n: NoteVal, t: real): seq<Trigger> {
    var f := FrequencyMidi(FullName(n));
    if f.Some? then [Play(f.value, FullName(n), 2.5, t)] else []
  }

  /** `play` sounds one tone at the given time for each note `sound` accepts and nothing for
    * the others. */
  ghost predicate OneToneEach(play: (NoteVal, real) -> seq<Trigger>, sound: NoteVal -> bool) {
    forall n, t :: |play(n, t)| == (if sound(n) then 1 else 0) &&
      (sound(n) ==> play(n, t)[0].Play? && play(n, t)[0].time == t)
  }

  lemma ModalNoteOneTone()
    ensures OneToneEach(ModalNote, Sounding)
  {
  }

  /** The notes handed one by one to `play`, note `i` at `now + i * eighth` (the product
    * written as `Times`, so that the solver meets no product of two unknowns). */
  function Spaced(notes: seq<NoteVal>, now: real, eighth: real, play: (NoteVal, real) -> seq<Trigger>): seq<Trigger>
    decreases |notes|
  {
    if |notes| == 0 then []
    else Spaced(notes[..|notes| - 1], now, eighth, play) + play(notes[|notes| - 1], now + Times(|notes| - 1, eighth))
  }

  /** playModalSequence's tones. */
  function ModalTriggers(notes: seq<NoteVal>, now: real, eighth: real): seq<Trigger> {
    Spaced(notes, now, eighth, ModalNote)
  }

  lemma SpacedStep(notes: seq<NoteVal>, i: nat, now: real, eighth: real, play: (NoteVal, real) -> seq<Trigger>)
    requires i < |notes|
    ensures Spaced(notes[..i + 1], now, eighth, play) ==
      Spaced(notes[..i], now, eighth, play) + play(notes[i], now + Times(i, eighth))
  {
    assert notes[..i + 1][..i] == notes[..i];
  }

  /** The forEach of playModalSequence: note `i` is handed to `play` at `now + i * eighth`. */
  method PlaySpaced(notes: seq<NoteVal>, now: real, eighth: real, play: (NoteVal, real) -> seq<Trigger>)
    returns (triggers: seq<Trigger>)
    ensures triggers == Spaced(notes, now, eighth, play)
  {
    triggers := [];
    for i := 0 to |notes|
      invariant triggers == Spaced(notes[..i], now, eighth, play)
    {
      var t := now + i as real * eighth;
      assert t == now + Times(i, eighth) by {
        TimesProduct(i, eighth);
      }
      SpacedStep(notes, i, now, eighth, play);
      triggers := triggers + play(notes[i], t);
    }
    assert notes[..|notes|] == notes;
  }

  /** playModalSequence at audio time `now`: stopProgression halts the stage and stops every
    * sound, then the voicing's tones are queued one eighth apart at the stage's tempo
    * (getTempo). The stage's log is the audio engine's. */
  function ModalPass(st: State, notes: seq<NoteVal>, now: real): State {
    var s := Stopped(st);
    s.(log := s.log + ModalTriggers(notes, now, Eighth(st.tempo)))
  }

  /** playModalSequence, with `noteDuration = 60 / bpm / 2`. */
  method PlayModalSequence(stage: ProgressionScheduler, notes: seq<NoteVal>, now: real)
    modifies stage
    ensures stage.Snapshot() == ModalPass(old(stage.Snapshot()), notes, now)
  {
    stage.Stop();
    var noteDuration := 60.0 / stage.tempo / 2.0;
    var tones := PlaySpaced(notes, now, noteDuration, ModalNote);
    stage.log := stage.log + tones;
  }

  /** Every trigger is a tone starting in `[lo, hi)`. */
  predicate TonesWithin(ts: seq<Trigger>, lo: real, hi: real) {
    forall k :: 0 <= k < |ts| ==> ts[k].Play? && lo <= ts[k].time < hi
  }

  /** Tones start strictly one after the other. */
  predicate OneAfterAnother(ts: seq<Trigger>) {
    forall i, j :: 0 <= i < j < |ts| && ts[i].Play? && ts[j].Play? ==> ts[i].time < ts[j].time
  }

  lemma TonesConcat(a: seq<Trigger>, b: seq<Trigger>, lo: real, mid: real, hi: real)
    requires lo <= mid <= hi
    requires TonesWithin(a, lo, mid) && TonesWithin(b, mid, hi) && OneAfterAnother(a) && OneAfterAnother(b)
    ensures TonesWithin(a + b, lo, hi) && OneAfterAnother(a + b)
  {
    forall i, j | 0 <= i < j < |a + b| && (a + b)[i].Play? && (a + b)[j].Play?
      ensures (a + b)[i].time < (a + b)[j].time
    {
      if j < |a| {
        assert (a + b)[i] == a[i] && (a + b)[j] == a[j];
      } else if i < |a| {
        assert (a + b)[i] == a[i] && (a + b)[j] == b[j - |a|];
      } else {
        assert (a + b)[i] == b[i - |a|] && (a + b)[j] == b[j - |a|];
      }
    }
    forall k | 0 <= k < |a + b| ensures (a + b)[k].Play? && lo <= (a + b)[k].time < hi {
      if k < |a| {
        assert (a + b)[k] == a[k];
      } else {
        assert (a + b)[k] == b[k - |a|];
      }
    }
  }

  /** `play` passes every note once, in order, one eighth apart, all before `notes.length`
    * eighths have passed. */
  lemma {:induction false} SpacedTiming(notes: seq<NoteVal>, now: real, eighth: real,
                                        play: (NoteVal, real) -> seq<Trigger>, sound: NoteVal -> bool)
    requires eighth > 0.0 && OneToneEach(play, sound)
    ensures |Spaced(notes, now, eighth, play)| == CountWhere(notes, sound)
    ensures TonesWithin(Spaced(notes, now, eighth, play), now, now + Times(|notes|, eighth))
    ensures OneAfterAnother(Spaced(notes, now, eighth, play))
    decreases |notes|
  {
    if |notes| > 0 {
      var init := notes[..|notes| - 1];
      var last := notes[|notes| - 1];
      var t := now + Times(|notes| - 1, eighth);
      SpacedTiming(init, now, eighth, play, sound);
      assert CountWhere(notes, sound) == CountWhere(init, sound) + (if sound(last) then 1 else 0) by {
        assert notes == init + [last];
        FilterAppend(init, last, sound);
      }
      TimesNonNegative(|notes| - 1, eighth);
      var b := play(last, t);
      assert Spaced(notes, now, eighth, play) == Spaced(init, now, eighth, play) + b;
      assert now <= t <= now + Times(|notes|, eighth);
      assert TonesWithin(Spaced(init, now, eighth, play), now, t);
      assert TonesWithin(b, t, now + Times(|notes|, eighth)) && OneAfterAnother(b);
      TonesConcat(Spaced(init, now, eighth, play), b, now, t, now + Times(|notes|, eighth));
    }
  }

  /**
   * The modal's notes sound in order, one eighth apart, each before the loop period
   * `notes.length * noteDuration` has passed, and one tone per sounding note.
   */
  lemma ModalTiming(notes: seq<NoteVal>, now: real, eighth: real)
    requires eighth > 0.0
    ensures |ModalTriggers(notes, now, eighth)| == CountWhere(notes, Sounding)
    ensures TonesWithin(ModalTriggers(notes, now, eighth), now, now + Times(|notes|, eighth))
    ensures OneAfterAnother(ModalTriggers(notes, now, eighth))
  {
    ModalNoteOneTone();
    SpacedTiming(notes, now, eighth, ModalNote, Sounding);
  }

  /**
   * A modal pass stops the progression for good (a later wake of the stage does nothing) and
   * cuts whatever was sounding before it queues its own tones: one per sounding note, in
   * order, all within `notes.length` eighths of the stage's tempo.
   */
  lemma ModalPassHaltsStage(st: State, notes: seq<NoteVal>, now: real, later: real)
    ensures !ModalPass(st, notes, now).playing && ModalPass(st, notes, now).timer.None?
    ensures Woken(ModalPass(st, notes, now), later) == ModalPass(st, notes, now)
    ensures ModalPass(st, notes, now).chords == st.chords && ModalPass(st, notes, now).tempo == st.tempo
    ensures ModalPass(st, notes, now).log[..|st.log| + 1] == st.log + [Silence]
    ensures |ModalPass(st, notes, now).log| == |st.log| + 1 + CountWhere(notes, Sounding)
    ensures TonesWithin(ModalPass(st, notes, now).log[|st.log| + 1..], now, now + Times(|notes|, Eighth(st.tempo)))
    ensures OneAfterAnother(ModalPass(st, notes, now).log[|st.log| + 1..])
  {
    var tones := ModalTriggers(notes, now, Eighth(st.tempo));
    ModalTiming(notes, now, Eighth(st.tempo));
    var r := ModalPass(st, notes, now);
    assert r.log == st.log + [Silence] + tones;
    assert r.log[..|st.log| + 1] == st.log + [Silence];
    assert r.log[|st.log| + 1..] == tones;
  }

  /** `notes.length * noteDuration * 1000`, the delay in milliseconds before playLoop runs
    * again. */
  function LoopPeriodMs(count: nat, tempo: Tempo): real {
    Times(count, Eighth(tempo)) * 1000.0
  }

  /** The last tone of a pass starts before the next pass: the period in seconds exceeds every
    * offset at which the pass plays. */
  lemma PassBeforeRearm(notes: seq<NoteVal>, now: real, tempo: Tempo)
    ensures TonesWithin(ModalTriggers(notes, now, Eighth(tempo)), now, now + LoopPeriodMs(|notes|, tempo) / 1000.0)
  {
    ModalTiming(notes, now, Eighth(tempo));
  }

  /** The modal loop's module state: the voicing playing (by identity of its notes array), its
    * button, the notes the armed playLoop replays and the armed timeout's delay. `stage` is
    * the progression scheduler that stopProgression and getTempo act on; its log is the
    * audio engine's. */
  class ModalLoop {
    const stage: ProgressionScheduler
    var current: Option<nat>
    var button: Option<nat>
    var loopNotes: seq<NoteVal>
    var timer: Option<real>

    constructor(stage: ProgressionScheduler)
      ensures this.stage == stage
      ensures current.None? && button.None? && timer.None? && loopNotes == []
    {
      this.stage := stage;
      current := None;
      button := None;
      loopNotes := [];
      timer := None;
    }

    /** stopModalLoop: clears the timeout, forgets the voicing, resets its button and calls
      * stopProgression. */
    method Stop()
      modifies this, stage
      ensures current.None? && button.None? && timer.None? && loopNotes == old(loopNotes)
      ensures stage.Snapshot() == Stopped(old(stage.Snapshot()))
    {
      timer := None;
      current := None;
      button := None;
      stage.Stop();
    }

    /** playLoop: reads the tempo, plays the notes once and arms itself again after their
      * period. */
    method PlayLoop(now: real)
      modifies this, stage
      ensures stage.Snapshot() == ModalPass(old(stage.Snapshot()), loopNotes, now)
      ensures timer == Some(LoopPeriodMs(|loopNotes|, old(stage.tempo)))
      ensures current == old(current) && button == old(button) && loopNotes == old(loopNotes)
    {
      var tempo := stage.tempo;
      PlayModalSequence(stage, loopNotes, now);
      timer := Some(LoopPeriodMs(|loopNotes|, tempo));
    }

    /**
     * startModalLoop(notes, pills, btn): the voicing already playing stops; any other stops
     * what was playing, becomes current with its button, and starts looping.
     */
    method Start(id: nat, notes: seq<NoteVal>, btn: nat, now: real)
      modifies this, stage
      ensures old(current) == Some(id) ==>
        current.None? && button.None? && timer.None? &&
        stage.Snapshot() == Stopped(old(stage.Snapshot()))
      ensures old(current) != Some(id) ==>
        current == Some(id) && button == Some(btn) && loopNotes == notes &&
        timer == Some(LoopPeriodMs(|notes|, old(stage.tempo))) &&
        stage.Snapshot() == ModalPass(Stopped(old(stage.Snapshot())), notes, now)
    {
      if current == Some(id) {
        Stop();
        return;
      }
      Stop();
      current := Some(id);
      button := Some(btn);
      loopNotes := notes;
      PlayLoop(now);
    }

    /** The armed timeout fires: playLoop runs again at the tempo of that moment. */
    method Fire(now: real)
      requires timer.Some?
      modifies this, stage
      ensures stage.Snapshot() == ModalPass(old(stage.Snapshot()), loopNotes, now)
      ensures timer == Some(LoopPeriodMs(|loopNotes|, old(stage.tempo)))
      ensures current == old(current) && button == old(button) && loopNotes == old(loopNotes)
    {
      PlayLoop(now);
    }
  }
}
