/**
 * The scale dialogs: a scale generated from a template and a key, with the side notes
 * spelled so that neighbours avoid sharing a letter, and a custom scale read from the
 * fields of the custom-scale form.
 */
module ScaleGen {
  import opened Wrappers
  import opened Text
  import opened Seqs
  import opened Constants
  import opened Pitch
  import opened Scales

  /** The flat spellings, one per pitch class; `SharpNames` holds the sharp ones. */
  const FlatNames: seq<string> := ["C", "Db", "D", "Eb", "E", "F", "Gb", "G", "Ab", "A", "Bb", "B"]

  /** Keys spelled with flats in a major-like style. */
  const MajorFlatKeys: seq<string> := ["F", "Bb", "Eb", "Ab", "Db", "Gb"]

  /** Keys spelled with flats in every other style. */
  const MinorFlatKeys: seq<string> := ["C", "F", "Bb", "Eb", "Ab", "Db", "Gb", "D", "G", "A"]

  /** The octave of the ding. */
  const RootOctave: int := 3

  function Is(key: string): string -> bool {
    (n: string) => n == key
  }

  /** `names.indexOf(key)`. */
  function IndexOf(names: seq<string>, key: string): (i: int)
    ensures -1 <= i < |names|
    ensures i >= 0 ==> names[i] == key && forall j :: 0 <= j < i ==> names[j] != key
    ensures i == -1 <==> key !in names
  {
    FindIndex(names, Is(key))
  }

  /** The key's position in the sharp list, else in the flat list, else -1. */
  function RootIndex(key: string): int {
    var i := IndexOf(SharpNames, key);
    if i == -1 then IndexOf(FlatNames, key) else i
  }

  /** A spelling `[A-G][#b]?` that NOTE_TO_MIDI knows as pitch class `c`. */
  predicate SpellsClass(name: string, c: int) {
    1 <= |name| <= 2 && IsNoteLetter(name[0]) && (|name| == 2 ==> name[1] == '#' || name[1] == 'b')
    && NoteToMidi(name) == Some(c)
  }

  /** Both lists spell pitch class `c` at position `c`, and differ only where a class has
    * two spellings, which then start with different letters. */
  lemma SpellingTables()
    ensures |SharpNames| == 12 && |FlatNames| == 12
    ensures forall c :: 0 <= c < 12 ==> SpellsClass(SharpNames[c], c) && SpellsClass(FlatNames[c], c)
    ensures forall c :: 0 <= c < 12 && SharpNames[c] != FlatNames[c] ==> SharpNames[c][0] != FlatNames[c][0]
  {
    SharpTable();
    FlatTable();
  }

  lemma SharpTable()
    ensures forall c :: 0 <= c < |SharpNames| ==> SpellsClass(SharpNames[c], c)
  {
  }

  lemma FlatTable()
    ensures forall c :: 0 <= c < |FlatNames| ==> SpellsClass(FlatNames[c], c)
  {
  }

  /** A spelling written with an octave digit parses to twelve per octave above C3 plus its class. */
  lemma SpelledValue(name: string, c: int, octave: nat)
    requires SpellsClass(name, c) && octave <= 8
    ensures ParseNoteName(name + IntToString(octave)) == Some(NoteVal(name, octave, 12 * octave + c - 36))
  {
    assert IntToString(octave) == [DigitChar(octave)];
    MatchPitchOf(name, octave, 8, false);
    var s := name + [DigitChar(octave)];
    assert !StartsWith(s, "D:") by {
      if |name| == 2 { assert s[1] == name[1]; } else { assert s[1] == DigitChar(octave); }
    }
  }

  /** The root index of a key from either list is its pitch class, and any other key has none. */
  lemma RootIndexPitchClass(key: string)
    ensures key in SharpNames || key in FlatNames ==> NoteToMidi(key) == Some(RootIndex(key))
    ensures key !in SharpNames && key !in FlatNames ==> RootIndex(key) == -1
  {
    SpellingTables();
    var i := RootIndex(key);
    if key in SharpNames || key in FlatNames {
      assert 0 <= i < 12;
      assert key == SharpNames[i] || key == FlatNames[i];
    }
  }

  /** `s.includes(sub)`. */
  predicate Includes(s: string, sub: string)
    decreases |s|
  {
    StartsWith(s, sub) || (|s| > 0 && Includes(s[1..], sub))
  }

  /** A style counts as major when its type mentions Major, Mixolydian or Dominant. */
  predicate IsMajorKind(kind: string) {
    Includes(kind, "Major") || Includes(kind, "Mixolydian") || Includes(kind, "Dominant")
  }

  /** Whether ties between two spellings go to the flat one. */
  function UseFlats(kind: string, key: string): bool {
    if IsMajorKind(kind) then key in MajorFlatKeys else key in MinorFlatKeys
  }

  /** getSpellings: the sharp and the flat spelling of a pitch class, once when they agree;
    * a negative index reads `undefined` from both lists. */
  function Spellings(idx: int): (cands: seq<string>)
    ensures 1 <= |cands| <= 2
  {
    var i := JsRem12(idx);
    if i < 0 then ["undefined"] else SpellingPairs[i]
  }

  /** The candidate spellings of each pitch class. */
  const SpellingPairs: seq<seq<string>> := [
    ["C"], ["C#", "Db"], ["D"], ["D#", "Eb"], ["E"], ["F"],
    ["F#", "Gb"], ["G"], ["G#", "Ab"], ["A"], ["A#", "Bb"], ["B"]
  ]

  /** The table lists the sharp spelling, then the flat one when it differs. */
  lemma SpellingPairsOfLists()
    ensures |SpellingPairs| == 12
    ensures forall c :: 0 <= c < 12 ==>
      SpellingPairs[c] == if SharpNames[c] == FlatNames[c] then [SharpNames[c]] else [SharpNames[c], FlatNames[c]]
  {
  }

  /** `s.charAt(0)`. */
  function FirstChar(s: string): (r: string)
    ensures |r| <= 1
  {
    if |s| > 0 then [s[0]] else ""
  }

  /** The spelling picked for a side note, given the previous note's letter. */
  function Choose(cands: seq<string>, prevLetter: string, useFlats: bool): (chosen: string)
    requires |cands| >= 1
  {
    if |cands| > 1 then
      if FirstChar(cands[0]) == prevLetter then cands[1]
      else if FirstChar(cands[1]) == prevLetter then cands[0]
      else if useFlats then cands[1] else cands[0]
    else cands[0]
  }

  /**
   * Between two spellings with different letters, a clash with the previous letter forces
   * the other spelling, otherwise the flat one is taken exactly when flats are preferred;
   * either way the chosen letter differs from the previous one.
   */
  lemma ChooseSpelling(cands: seq<string>, prevLetter: string, useFlats: bool)
    requires |cands| == 2 && FirstChar(cands[0]) != FirstChar(cands[1])
    ensures FirstChar(Choose(cands, prevLetter, useFlats)) != prevLetter
    ensures FirstChar(cands[0]) == prevLetter ==> Choose(cands, prevLetter, useFlats) == cands[1]
    ensures FirstChar(cands[1]) == prevLetter ==> Choose(cands, prevLetter, useFlats) == cands[0]
    ensures FirstChar(cands[0]) != prevLetter && FirstChar(cands[1]) != prevLetter ==>
      (Choose(cands, prevLetter, useFlats) == cands[1] <==> useFlats)
  {
  }

  /** One side note: spelling and octave of the ding's index plus `semitones`. */
  function SideNote(rootIndex: int, semitones: int, previous: string, useFlats: bool): string {
    var absIndex := rootIndex + semitones;
    var octave := RootOctave + absIndex / 12;
    var chromaticIndex := JsRem12(absIndex);
    Choose(Spellings(chromaticIndex), FirstChar(previous), useFlats) + IntToString(octave)
  }

  /** The side notes of a formula, each spelled against the note before it. */
  function SideNotes(rootIndex: int, formula: seq<int>, previous: string, useFlats: bool): (notes: seq<string>)
    ensures |notes| == |formula|
  {
    if |formula| == 0 then []
    else
      var note := SideNote(rootIndex, formula[0], previous, useFlats);
      [note] + SideNotes(rootIndex, formula[1..], note, useFlats)
  }

  /** `s.replace(/\s+/g, '-')`. */
  function DashSpaces(s: string): (r: string)
    ensures NoSpace(r) && |r| <= |s|
    ensures NoSpace(s) ==> r == s
    decreases |s|
  {
    if |s| == 0 then ""
    else if IsSpace(s[0]) then "-" + DashSpaces(s[SpaceLen(s)..])
    else [s[0]] + DashSpaces(s[1..])
  }

  function GeneratedId(templateName: string, key: string): string {
    DashSpaces(ToLower("gen-" + templateName + "-" + key))
  }

  /** The scale generateAndSelectScale hands to the selection callback. */
  function Generated(t: Template, key: string): Scale {
    var ding := key + IntToString(RootOctave);
    var notes := SideNotes(RootIndex(key), t.formula, ding, UseFlats(t.kind, key));
    Scale(GeneratedId(t.name, key), key + " " + t.name, [ding] + notes, [])
  }

  method GenerateScale(t: Template, key: string) returns (scale: Scale)
    ensures scale == Generated(t, key)
  {
    var rootIndex := IndexOf(SharpNames, key);
    if rootIndex == -1 {
      var flatIndex := IndexOf(FlatNames, key);
      if flatIndex != -1 {
        rootIndex := flatIndex;
      }
    }
    var useFlats := false;
    if IsMajorKind(t.kind) {
      if key in MajorFlatKeys { useFlats := true; }
    } else {
      if key in MinorFlatKeys { useFlats := true; }
    }
    var ding := key + IntToString(RootOctave);
    var sideNotes := SpellSideNotes(rootIndex, t.formula, ding, useFlats);
    scale := Scale(GeneratedId(t.name, key), key + " " + t.name, [ding] + sideNotes, []);
  }

  /** The `formula.map` of generateAndSelectScale, which carries the previous note along. */
  method SpellSideNotes(rootIndex: int, formula: seq<int>, ding: string, useFlats: bool)
    returns (sideNotes: seq<string>)
    ensures sideNotes == SideNotes(rootIndex, formula, ding, useFlats)
  {
    var previousNote := ding;
    sideNotes := [];
    var i := 0;
    while i < |formula|
      invariant 0 <= i <= |formula|
      invariant sideNotes + SideNotes(rootIndex, formula[i..], previousNote, useFlats)
        == SideNotes(rootIndex, formula, ding, useFlats)
    {
      var noteName := SideNote(rootIndex, formula[i], previousNote, useFlats);
      SideNotesStep(rootIndex, formula, i, previousNote, useFlats, sideNotes);
      sideNotes := sideNotes + [noteName];
      previousNote := noteName;
      i := i + 1;
    }
    assert formula[i..] == [];
  }

  /** One turn of the loop in GenerateScale: the next note moves from the pending part to
    * the notes spelled so far. */
  lemma SideNotesStep(rootIndex: int, formula: seq<int>, i: nat, previous: string, useFlats: bool,
                      done: seq<string>)
    requires i < |formula|
    ensures var note := SideNote(rootIndex, formula[i], previous, useFlats);
      done + SideNotes(rootIndex, formula[i..], previous, useFlats)
      == (done + [note]) + SideNotes(rootIndex, formula[i + 1..], note, useFlats)
  {
    SideNotesCons(rootIndex, formula[i..], previous, useFlats);
    assert formula[i..][1..] == formula[i + 1..];
  }

  /** A generated scale has the ding then one note per offset, and no bottom notes. */
  lemma GeneratedLayout(t: Template, key: string)
    ensures |Generated(t, key).top| == |t.formula| + 1
    ensures Generated(t, key).top[0] == key + "3"
    ensures Generated(t, key).bottom == []
    ensures NoSpace(Generated(t, key).id)
  {
  }

  /** A side note at a known root sounds `semitones` above the ding, whichever spelling it gets. */
  lemma SideNotePitch(rootIndex: int, semitones: int, previous: string, useFlats: bool)
    requires 0 <= rootIndex < 12 && 0 <= semitones && rootIndex + semitones < 72
    ensures PitchedAbove(SideNote(rootIndex, semitones, previous, useFlats), rootIndex, semitones)
  {
    var absIndex := rootIndex + semitones;
    var octave := RootOctave + absIndex / 12;
    var c := absIndex % 12;
    assert JsRem12(absIndex) == c;
    var chosen := Choose(Spellings(c), FirstChar(previous), useFlats);
    CandidatesSpell(c, FirstChar(previous), useFlats);
    OctaveSplit(absIndex);
    SpelledValue(chosen, c, octave);
  }

  /** An index below 72 splits into an octave from 3 to 8 and a pitch class. */
  lemma OctaveSplit(absIndex: int)
    requires 0 <= absIndex < 72
    ensures 3 <= RootOctave + absIndex / 12 <= 8
    ensures 12 * (RootOctave + absIndex / 12) + absIndex % 12 - 36 == absIndex
  {
  }

  /** Whichever candidate is chosen spells the pitch class. */
  lemma CandidatesSpell(c: int, prevLetter: string, useFlats: bool)
    requires 0 <= c < 12
    ensures SpellsClass(Choose(Spellings(c), prevLetter, useFlats), c)
  {
    SpellingsOf(c);
    var name := Choose(Spellings(c), prevLetter, useFlats);
    ChooseIn(Spellings(c), prevLetter, useFlats);
    PairSpells(c);
    assert name in SpellingPairs[c];
  }

  /** A pitch class in range takes its candidates from the table. */
  lemma SpellingsOf(c: int)
    requires 0 <= c < 12
    ensures Spellings(c) == SpellingPairs[c]
  {
    assert JsRem12(c) == c;
  }

  /** The chosen spelling is one of the candidates. */
  lemma ChooseIn(cands: seq<string>, prevLetter: string, useFlats: bool)
    requires |cands| >= 1
    ensures Choose(cands, prevLetter, useFlats) in cands
  {
  }

  /** Every candidate listed for pitch class `c` spells it. */
  lemma PairSpells(c: int)
    requires 0 <= c < 12
    ensures forall name :: name in SpellingPairs[c] ==> SpellsClass(name, c)
  {
    SpellingTables();
    SpellingPairsOfLists();
  }

  /** `note` parses to the pitch value `base + offset`. */
  predicate PitchedAbove(note: string, base: int, offset: int) {
    ParseNoteName(note).Some? && ParseNoteName(note).value.value == base + offset
  }

  /** Every side note sounds its offset above a ding at pitch value `rootIndex`. */
  lemma {:induction false} SideNotesPitch(rootIndex: int, formula: seq<int>, previous: string, useFlats: bool)
    requires 0 <= rootIndex < 12
    requires forall i :: 0 <= i < |formula| ==> 0 <= formula[i] && rootIndex + formula[i] < 72
    ensures forall i :: 0 <= i < |formula| ==>
      PitchedAbove(SideNotes(rootIndex, formula, previous, useFlats)[i], rootIndex, formula[i])
  {
    if |formula| > 0 {
      var note := SideNote(rootIndex, formula[0], previous, useFlats);
      var rest := SideNotes(rootIndex, formula[1..], note, useFlats);
      SideNotesCons(rootIndex, formula, previous, useFlats);
      SideNotePitch(rootIndex, formula[0], previous, useFlats);
      assert forall i :: 0 <= i < |formula| - 1 ==> formula[1..][i] == formula[i + 1];
      SideNotesPitch(rootIndex, formula[1..], note, useFlats);
      var notes := [note] + rest;
      assert forall i :: 1 <= i < |formula| ==> notes[i] == rest[i - 1] && formula[i] == formula[1..][i - 1];
    }
  }

  /** The first side note is spelled against `previous`, the others against the note before. */
  lemma SideNotesCons(rootIndex: int, formula: seq<int>, previous: string, useFlats: bool)
    requires |formula| > 0
    ensures SideNotes(rootIndex, formula, previous, useFlats) ==
      [SideNote(rootIndex, formula[0], previous, useFlats)] +
      SideNotes(rootIndex, formula[1..], SideNote(rootIndex, formula[0], previous, useFlats), useFlats)
  {
  }

  /** A side note whose pitch class has two spellings never repeats the previous note's letter. */
  lemma SideNoteLetter(rootIndex: int, semitones: int, previous: string, useFlats: bool)
    requires 0 <= rootIndex + semitones
    requires |Spellings(JsRem12(rootIndex + semitones))| == 2
    ensures FirstChar(SideNote(rootIndex, semitones, previous, useFlats)) != FirstChar(previous)
  {
    var absIndex := rootIndex + semitones;
    var c := JsRem12(absIndex);
    var cands := Spellings(c);
    PairLetters(c);
    var chosen := Choose(cands, FirstChar(previous), useFlats);
    ChooseSpelling(cands, FirstChar(previous), useFlats);
    ChooseIn(cands, FirstChar(previous), useFlats);
    var note := chosen + IntToString(RootOctave + absIndex / 12);
    assert note[0] == chosen[0];
  }

  /** The two spellings of a pitch class that has two are non-empty and start with
    * different letters. */
  lemma PairLetters(c: int)
    requires 0 <= c < 12 && |SpellingPairs[c]| == 2
    ensures |SpellingPairs[c][0]| > 0 && |SpellingPairs[c][1]| > 0
    ensures FirstChar(SpellingPairs[c][0]) != FirstChar(SpellingPairs[c][1])
  {
    SpellingTables();
    SpellingPairsOfLists();
  }

  /** Every key a template offers is a spelling of one of the two lists. */
  lemma TemplateKeysKnown()
    ensures forall t, k :: 0 <= t < |Templates| && 0 <= k < |Templates[t].keys| ==>
      Templates[t].keys[k] in SharpNames || Templates[t].keys[k] in FlatNames
  {
  }

  /**
   * For every template and every key it offers, the generated ding is at the key's pitch
   * class in octave 3 and side note `i` sounds `formula[i]` semitones above it.
   */
  lemma TemplateScalesPitched(t: nat, k: nat)
    requires t < |Templates| && k < |Templates[t].keys|
    ensures var tm := Templates[t]; var s := Generated(tm, tm.keys[k]);
      ParseNoteName(s.top[0]).Some? &&
      forall i :: 0 <= i < |tm.formula| ==> PitchedAbove(s.top[i + 1], ParseNoteName(s.top[0]).value.value, tm.formula[i])
  {
    var tm := Templates[t];
    var key := tm.keys[k];
    TemplateKeysKnown();
    TemplateFormulasAscending();
    FormulaBounded(t);
    GeneratedPitched(tm, key);
  }

  /** For a key from either list and offsets that stay below octave 9, side note `i` sounds
    * `formula[i]` semitones above the ding. */
  lemma GeneratedPitched(tm: Template, key: string)
    requires key in SharpNames || key in FlatNames
    requires forall i :: 0 <= i < |tm.formula| ==> 0 <= tm.formula[i] <= 60
    ensures var s := Generated(tm, key);
      ParseNoteName(s.top[0]).Some? &&
      forall i :: 0 <= i < |tm.formula| ==> PitchedAbove(s.top[i + 1], ParseNoteName(s.top[0]).value.value, tm.formula[i])
  {
    var root := RootIndex(key);
    RootIndexPitchClass(key);
    DingPitch(key, root);
    SideNotesPitch(root, tm.formula, key + IntToString(RootOctave), UseFlats(tm.kind, key));
  }

  /** No template offset exceeds 22 semitones. */
  lemma FormulaBounded(t: nat)
    requires t < |Templates|
    ensures forall i :: 0 <= i < |Templates[t].formula| ==> Templates[t].formula[i] <= 22
  {
  }

  /** A key from either list, put in octave 3, has its pitch class as value. */
  lemma DingPitch(key: string, root: int)
    requires key in SharpNames || key in FlatNames
    requires root == RootIndex(key)
    ensures 0 <= root < 12
    ensures PitchedAbove(key + IntToString(RootOctave), root, 0)
  {
    SpellingTables();
    RootIndexPitchClass(key);
    assert key == SharpNames[root] || key == FlatNames[root];
    SpelledValue(key, root, 3);
  }

  // ---------------------------------------------------------------------------------
  // The custom-scale form.

  /** A bottom token `n:p`: the first two `:`-pieces when both are non-empty. */
  function PairOf(token: string): (r: Option<(string, string)>)
    ensures r.Some? ==> |r.value.0| > 0 && |r.value.1| > 0 && ':' !in r.value.0
  {
    var parts := Split(token, ':');
    if |parts| >= 2 && |parts[0]| > 0 && |parts[1]| > 0 then Some((parts[0], parts[1])) else None
  }

  /** `bottom[n]` on the object built so far. */
  function Lookup(bottom: seq<(string, string)>, n: string): Option<string> {
    if |bottom| == 0 then None
    else if bottom[0].0 == n then Some(bottom[0].1)
    else Lookup(bottom[1..], n)
  }

  /** `bottom[n] = p`: an existing key keeps its place and takes the new value, a new key
    * goes last. */
  function Upsert(bottom: seq<(string, string)>, n: string, p: string): seq<(string, string)> {
    if |bottom| == 0 then [(n, p)]
    else if bottom[0].0 == n then [(n, p)] + bottom[1..]
    else [bottom[0]] + Upsert(bottom[1..], n, p)
  }

  predicate DistinctKeys(bottom: seq<(string, string)>) {
    forall i, j :: 0 <= i < j < |bottom| ==> bottom[i].0 != bottom[j].0
  }

  /** After `bottom[n] = p` the key `n` reads `p`, the other keys read as before, and no key
    * appears twice. */
  lemma {:induction false} UpsertLookup(bottom: seq<(string, string)>, n: string, p: string, m: string)
    requires DistinctKeys(bottom)
    ensures Lookup(Upsert(bottom, n, p), m) == if m == n then Some(p) else Lookup(bottom, m)
    ensures DistinctKeys(Upsert(bottom, n, p))
    ensures forall i :: 0 <= i < |Upsert(bottom, n, p)| ==>
      Upsert(bottom, n, p)[i].0 == n || exists j :: 0 <= j < |bottom| && bottom[j].0 == Upsert(bottom, n, p)[i].0
  {
    if |bottom| > 0 && bottom[0].0 != n {
      var rest := Upsert(bottom[1..], n, p);
      UpsertLookup(bottom[1..], n, p, m);
      var u := Upsert(bottom, n, p);
      assert u == [bottom[0]] + rest;
      forall i | 1 <= i < |u| ensures u[i].0 != bottom[0].0 {
        assert u[i] == rest[i - 1];
        if rest[i - 1].0 != n {
          var j :| 0 <= j < |bottom[1..]| && bottom[1..][j].0 == rest[i - 1].0;
          assert bottom[1..][j] == bottom[j + 1];
        }
      }
      forall i | 0 <= i < |u| ensures u[i].0 == n || exists j :: 0 <= j < |bottom| && bottom[j].0 == u[i].0 {
        if i > 0 && u[i].0 != n {
          var j :| 0 <= j < |bottom[1..]| && bottom[1..][j].0 == rest[i - 1].0;
          assert bottom[j + 1].0 == u[i].0;
        }
      }
    } else if |bottom| > 0 {
      var u := Upsert(bottom, n, p);
      assert forall i :: 1 <= i < |u| ==> u[i] == bottom[i];
      if m != n {
        assert Lookup(u, m) == Lookup(bottom[1..], m);
      }
    }
  }

  /** The bottom object built from the tokens one at a time, each read into a pair by
    * `read` and written with `bottom[n] = p`. */
  function BottomBy(read: string -> Option<(string, string)>, tokens: seq<string>): seq<(string, string)> {
    if |tokens| == 0 then []
    else
      var bottom := BottomBy(read, tokens[..|tokens| - 1]);
      match read(tokens[|tokens| - 1])
      case Some((n, p)) => Upsert(bottom, n, p)
      case None => bottom
  }

  /** The bottom object handleCustomSave builds from its tokens. */
  function BottomOf(tokens: seq<string>): seq<(string, string)> {
    BottomBy(PairOf, tokens)
  }

  method FillBottom(tokens: seq<string>) returns (bottom: seq<(string, string)>)
    ensures bottom == BottomOf(tokens)
  {
    bottom := [];
    var i := 0;
    while i < |tokens|
      invariant 0 <= i <= |tokens|
      invariant bottom == BottomOf(tokens[..i])
    {
      assert tokens[..i + 1][..i] == tokens[..i];
      var pair := tokens[i];
      var parts := Split(pair, ':');
      if |parts| >= 2 && |parts[0]| > 0 && |parts[1]| > 0 {
        bottom := Upsert(bottom, parts[0], parts[1]);
      }
      i := i + 1;
    }
    assert tokens[..i] == tokens;
  }

  /** The bottom object has each key once; the last token naming a key decides its parent. */
  lemma {:induction false} BottomLastWins(tokens: seq<string>, m: string)
    ensures DistinctKeys(BottomOf(tokens))
    ensures |tokens| > 0 && PairOf(tokens[|tokens| - 1]).Some? && PairOf(tokens[|tokens| - 1]).value.0 == m ==>
      Lookup(BottomOf(tokens), m) == Some(PairOf(tokens[|tokens| - 1]).value.1)
    ensures |tokens| > 0 && (PairOf(tokens[|tokens| - 1]).None? || PairOf(tokens[|tokens| - 1]).value.0 != m) ==>
      Lookup(BottomOf(tokens), m) == Lookup(BottomOf(tokens[..|tokens| - 1]), m)
  {
    if |tokens| > 0 {
      var init := tokens[..|tokens| - 1];
      BottomLastWins(init, m);
      match PairOf(tokens[|tokens| - 1]) {
        case Some((n, p)) => UpsertLookup(BottomOf(init), n, p, m);
        case None =>
      }
    }
  }

  /** The scale handleCustomSave saves, or `None` when the trimmed name is empty; `now` is
    * the clock reading behind a new id. */
  function CustomScale(idField: string, nameField: string, dingField: string, topField: string,
                       bottomField: string, now: nat): (r: Option<Scale>)
    ensures r.None? <==> Trim(nameField) == ""
    ensures r.Some? ==> |r.value.top| >= 1 && r.value.name == Trim(nameField) && DistinctKeys(r.value.bottom)
    ensures r.Some? && idField == "" ==> StartsWith(r.value.id, "custom-")
    ensures r.Some? && idField != "" ==> r.value.id == idField
  {
    var name := Trim(nameField);
    if name == "" then None
    else
      var id := if idField != "" then idField else "custom-" + NatToString(now);
      var top := Words(Trim(topField));
      var tokens := Words(Trim(bottomField));
      BottomLastWins(tokens, "");
      Some(Scale(id, name, [Trim(dingField)] + top, BottomOf(tokens)))
  }

  /** handleCustomSave: reads the form, saves the scale under its id, and returns it to be
    * selected; with an empty name nothing is saved. */
  method HandleCustomSave(store: ScaleStore, idField: string, nameField: string, dingField: string,
                          topField: string, bottomField: string, now: nat) returns (saved: Option<Scale>)
    modifies store
    ensures saved == CustomScale(idField, nameField, dingField, topField, bottomField, now)
    ensures saved.None? ==> store.stored == old(store.stored)
    ensures saved.Some? ==> store.stored == Some(SavedScale(old(store.Custom()), saved.value.id, saved.value))
  {
    var name := Trim(nameField);
    if name == "" {
      return None;
    }
    var ding := Trim(dingField);
    var top := Words(Trim(topField));
    var bottomRaw := Words(Trim(bottomField));
    var bottom := FillBottom(bottomRaw);
    var id := if idField != "" then idField else "custom-" + NatToString(now);
    var scale := Scale(id, name, [ding] + top, bottom);
    store.SaveCustomScale(id, scale);
    saved := Some(scale);
  }

  /** One bottom entry as the edit form writes it. */
  function PairText(pair: (string, string)): string {
    pair.0 + ":" + pair.1
  }

  /** The five fields openCustomModal fills when editing a scale: id, name, ding, top notes
    * and `note:parent` pairs, each list joined by spaces. */
  function EditFields(s: Scale): (string, string, string, string, string) {
    (s.id, s.name, if |s.top| > 0 then s.top[0] else "undefined",
     if |s.top| > 0 then Join(s.top[1..], " ") else "", Join(Map(s.bottom, PairText), " "))
  }

  /** A word: non-empty and without whitespace. */
  predicate Plain(w: string) {
    |w| > 0 && NoSpace(w)
  }

  /** A scale whose fields the edit form writes out word by word: a saved id, a trimmed
    * name, words for notes, parents without `:`, each bottom note once. A bottom note may
    * hold a `:`, as the `D:` extra dings do. */
  predicate Writable(s: Scale) {
    s.id != "" && |s.name| > 0 && !IsSpace(s.name[0]) && !IsSpace(s.name[|s.name| - 1]) && |s.top| >= 1 && NoSpace(s.top[0]) &&
    (forall i :: 1 <= i < |s.top| ==> Plain(s.top[i])) &&
    (forall i :: 0 <= i < |s.bottom| ==> Plain(s.bottom[i].0) && Plain(s.bottom[i].1) && ':' !in s.bottom[i].1) &&
    DistinctKeys(s.bottom)
  }

  /** A writable scale with no `:` in its bottom notes either. */
  predicate Editable(s: Scale) {
    Writable(s) && forall i :: 0 <= i < |s.bottom| ==> ':' !in s.bottom[i].0
  }

  /** Opening a writable scale for editing and saving the form unchanged keeps its id, name
    * and top notes; its bottom is what handleCustomSave reads back from the `n:p` pairs. */
  lemma EditKeepsAllButBottom(s: Scale, now: nat)
    requires Writable(s)
    ensures var (id, name, ding, top, bottom) := EditFields(s);
      CustomScale(id, name, ding, top, bottom, now) == Some(s.(bottom := BottomOf(Map(s.bottom, PairText))))
  {
    TrimTrimmed(s.name);
    TrimNoSpace(s.top[0]);
    EditTopRoundTrip(s.top);
    BottomFieldTokens(s.bottom);
  }

  /** Opening a scale for editing and saving the form unchanged gives the same scale back,
    * when no bottom note holds a `:`. */
  lemma EditRoundTrip(s: Scale, now: nat)
    requires Editable(s)
    ensures var (id, name, ding, top, bottom) := EditFields(s);
      CustomScale(id, name, ding, top, bottom, now) == Some(s)
  {
    EditKeepsAllButBottom(s, now);
    EditBottomRoundTrip(s.bottom);
  }

  /** As written, the starter scale does not survive an unchanged edit: `D:F#3:F#4` reads as
    * `D` over `F#3` and `D:G3:G4` as `D` over `G3`, so both extra dings are lost and one
    * entry `D` takes their place. */
  lemma StarterEditLosesDings(now: nat)
    ensures var (id, name, ding, top, bottom) := EditFields(Starter);
      CustomScale(id, name, ding, top, bottom, now) == Some(Starter.(bottom := [("D", "G3"), ("E5", "B4")]))
    ensures Starter.bottom != [("D", "G3"), ("E5", "B4")]
  {
    StarterWritable();
    EditKeepsAllButBottom(Starter, now);
    StarterBottomRead();
  }

  /** The starter's bottom tokens as handleCustomSave reads them. */
  lemma StarterBottomRead()
    ensures BottomOf(Map(Starter.bottom, PairText)) == [("D", "G3"), ("E5", "B4")]
  {
    var tokens := Map(Starter.bottom, PairText);
    StarterPairs();
    assert |tokens| == 3;
    assert tokens[0] == PairText(Starter.bottom[0]) && tokens[1] == PairText(Starter.bottom[1]) &&
      tokens[2] == PairText(Starter.bottom[2]);
    assert tokens[..1][..0] == [] && tokens[..2][..1] == tokens[..1] && tokens[..3][..2] == tokens[..2];
    assert tokens[..3] == tokens;
    BottomByLast(PairOf, tokens[..1], "D", "F#3");
    BottomByLast(PairOf, tokens[..2], "D", "G3");
    BottomByLast(PairOf, tokens, "E5", "B4");
  }

  /** `split(':')` of the starter's three tokens keeps the first two parts of each. */
  lemma StarterPairs()
    ensures PairOf(PairText(Starter.bottom[0])) == Some(("D", "F#3"))
    ensures PairOf(PairText(Starter.bottom[1])) == Some(("D", "G3"))
    ensures PairOf(PairText(Starter.bottom[2])) == Some(("E5", "B4"))
  {
    assert Starter.bottom[0].0 == "D" + ":" + "F#3";
    assert Starter.bottom[1].0 == "D" + ":" + "G3";
    PairOfThree("D", "F#3", "F#4");
    PairOfThree("D", "G3", "G4");
    PairOfText(("E5", "B4"));
  }

  /** A token `n:p:q` reads as `n` over `p`: split keeps the first two parts. */
  lemma PairOfThree(n: string, p: string, q: string)
    requires |n| > 0 && |p| > 0 && ':' !in n && ':' !in p && ':' !in q
    ensures PairOf(n + ":" + p + ":" + q) == Some((n, p))
  {
    var parts := [n, p, q];
    assert Join(parts, [':']) == n + ":" + p + ":" + q by {
      assert parts[1..] == [p, q] && [p, q][1..] == [q];
      assert Join([q], [':']) == q;
      assert Join([p, q], [':']) == p + [':'] + q;
      assert n + [':'] + (p + [':'] + q) == n + ":" + p + ":" + q;
    }
    SplitJoin(parts, ':');
  }

  lemma StarterWritable()
    ensures Writable(Starter)
  {
    forall i | 0 <= i < |Starter.top| ensures Plain(Starter.top[i]) {
      NoteWordPlain(Starter.top[i]);
    }
    forall i | 0 <= i < |Starter.bottom| ensures Plain(Starter.bottom[i].0) && Plain(Starter.bottom[i].1) {
      NoteWordPlain(Starter.bottom[i].0);
      NoteWordPlain(Starter.bottom[i].1);
    }
    StarterKeysDistinct();
  }

  /** Letters, accidentals, digits and `:` are no white space. */
  lemma NoteWordPlain(w: string)
    requires |w| > 0 && forall i :: 0 <= i < |w| ==> 'A' <= w[i] <= 'G' || w[i] == '#' || '0' <= w[i] <= ':'
    ensures Plain(w)
  {
  }

  lemma StarterKeysDistinct()
    ensures DistinctKeys(Starter.bottom)
  {
    var b := Starter.bottom;
    assert b[0].0[2] == 'F' && b[1].0[2] == 'G' && b[2].0[0] == 'E' && b[0].0[0] == 'D' && b[1].0[0] == 'D';
  }

  // The evidently intended reading of a bottom token: at the last `:`.

  /** The position of the last `:` in `s`, or -1. */
  function LastColon(s: string): (k: int)
    ensures -1 <= k < |s|
    ensures k >= 0 ==> s[k] == ':' && forall j :: k < j < |s| ==> s[j] != ':'
    ensures k == -1 ==> ':' !in s
    decreases |s|
  {
    if |s| == 0 then -1
    else if s[|s| - 1] == ':' then |s| - 1
    else LastColon(s[..|s| - 1])
  }

  /** A bottom token `n:p` read at its last `:`, so that a note such as `D:F#3` keeps its
    * prefix: both parts non-empty, the parent without `:`. */
  function PairAtLastColon(token: string): (r: Option<(string, string)>)
    ensures r.Some? ==> |r.value.0| > 0 && |r.value.1| > 0 && ':' !in r.value.1 && PairText(r.value) == token
    ensures r.None? ==> ':' !in token || token[0] == ':' || token[|token| - 1] == ':'
  {
    var k := LastColon(token);
    if 0 < k < |token| - 1 then
      assert token[..k] + ":" + token[k + 1..] == token by {
        assert token == token[..k] + [token[k]] + token[k + 1..];
      }
      Some((token[..k], token[k + 1..]))
    else None
  }

  /** A pair whose parent has no `:`, written `n:p`, reads back as itself. */
  lemma PairAtLastColonText(pair: (string, string))
    requires |pair.0| > 0 && |pair.1| > 0 && ':' !in pair.1
    ensures PairAtLastColon(PairText(pair)) == Some(pair)
  {
    var t := PairText(pair);
    var k := LastColon(t);
    assert t[|pair.0|] == ':';
    assert forall j :: |pair.0| < j < |t| ==> t[j] == pair.1[j - |pair.0| - 1];
    assert k == |pair.0|;
    assert t[..k] == pair.0 && t[k + 1..] == pair.1;
  }

  /** handleCustomSave reading each bottom token at its last `:`. */
  function CustomScaleAtLastColon(idField: string, nameField: string, dingField: string, topField: string,
                                  bottomField: string, now: nat): Option<Scale> {
    match CustomScale(idField, nameField, dingField, topField, bottomField, now)
    case None => None
    case Some(s) => Some(s.(bottom := BottomBy(PairAtLastColon, Words(Trim(bottomField)))))
  }

  /** With tokens read at their last `:`, every writable scale survives an unchanged edit,
    * `D:` extra dings included. */
  lemma EditRoundTripAtLastColon(s: Scale, now: nat)
    requires Writable(s)
    ensures var (id, name, ding, top, bottom) := EditFields(s);
      CustomScaleAtLastColon(id, name, ding, top, bottom, now) == Some(s)
  {
    EditKeepsAllButBottom(s, now);
    BottomFieldTokens(s.bottom);
    forall i | 0 <= i < |s.bottom| ensures ReadsBack(PairAtLastColon, s.bottom[i]) {
      PairAtLastColonText(s.bottom[i]);
    }
    ReadBack(PairAtLastColon, s.bottom);
  }

  /** The starter scale, extra dings included, survives an unchanged edit once tokens are
    * read at their last `:`. */
  lemma StarterEditKept(now: nat)
    ensures var (id, name, ding, top, bottom) := EditFields(Starter);
      CustomScaleAtLastColon(id, name, ding, top, bottom, now) == Some(Starter)
  {
    StarterWritable();
    EditRoundTripAtLastColon(Starter, now);
  }

  /** The top notes after the ding, joined into the form field, read back unchanged. */
  lemma EditTopRoundTrip(top: seq<string>)
    requires |top| >= 1 && forall i :: 1 <= i < |top| ==> Plain(top[i])
    ensures [top[0]] + Words(Trim(Join(top[1..], " "))) == top
  {
    var rest := top[1..];
    PlainRest(top, rest);
    WordsOfJoin(rest);
    assert [top[0]] + rest == top;
  }

  /** Plain words joined by single spaces split back into themselves. */
  lemma WordsOfJoin(rest: seq<string>)
    requires forall i :: 0 <= i < |rest| ==> |rest[i]| > 0 && NoSpace(rest[i])
    ensures Words(Trim(Join(rest, " "))) == rest
  {
    JoinTrimmed(rest);
    WordsJoin(rest);
  }

  lemma PlainRest(top: seq<string>, rest: seq<string>)
    requires |top| >= 1 && rest == top[1..] && forall i :: 1 <= i < |top| ==> Plain(top[i])
    ensures forall i :: 0 <= i < |rest| ==> |rest[i]| > 0 && NoSpace(rest[i])
  {
    assert forall i :: 0 <= i < |rest| ==> rest[i] == top[i + 1];
  }

  /** The bottom field splits back into the `n:p` tokens it was written from. */
  lemma BottomFieldTokens(bottom: seq<(string, string)>)
    requires forall i :: 0 <= i < |bottom| ==> Plain(bottom[i].0) && Plain(bottom[i].1)
    ensures Words(Trim(Join(Map(bottom, PairText), " "))) == Map(bottom, PairText)
  {
    var tokens := Map(bottom, PairText);
    forall i | 0 <= i < |tokens| ensures Plain(tokens[i]) {
      PairTextPlain(bottom[i]);
    }
    JoinTrimmed(tokens);
    WordsJoin(tokens);
  }

  /** The bottom pairs, written into the form field, read back unchanged when neither note
    * nor parent holds a `:`. */
  lemma EditBottomRoundTrip(bottom: seq<(string, string)>)
    requires forall i :: 0 <= i < |bottom| ==>
      Plain(bottom[i].0) && Plain(bottom[i].1) && ':' !in bottom[i].0 && ':' !in bottom[i].1
    requires DistinctKeys(bottom)
    ensures BottomOf(Words(Trim(Join(Map(bottom, PairText), " ")))) == bottom
  {
    BottomFieldTokens(bottom);
    BottomOfPairs(bottom);
  }

  lemma PairTextPlain(pair: (string, string))
    requires Plain(pair.0) && Plain(pair.1)
    ensures Plain(PairText(pair))
  {
    var t := PairText(pair);
    assert forall k :: 0 <= k < |t| ==>
      t[k] == ':' || (k < |pair.0| && t[k] == pair.0[k]) || (k > |pair.0| && t[k] == pair.1[k - |pair.0| - 1]);
  }

  /** A pair written as `n:p` reads back as itself. */
  lemma PairOfText(pair: (string, string))
    requires |pair.0| > 0 && |pair.1| > 0 && ':' !in pair.0 && ':' !in pair.1
    ensures PairOf(PairText(pair)) == Some(pair)
  {
    SplitJoin([pair.0, pair.1], ':');
    assert [pair.0, pair.1][1..] == [pair.1];
    assert Join([pair.0, pair.1], [':']) == PairText(pair);
  }

  /** The pairs of a bottom object with distinct keys and no `:` anywhere, written out and
    * read back, are the same pairs in the same order. */
  lemma BottomOfPairs(bottom: seq<(string, string)>)
    requires DistinctKeys(bottom)
    requires forall i :: 0 <= i < |bottom| ==>
      |bottom[i].0| > 0 && |bottom[i].1| > 0 && ':' !in bottom[i].0 && ':' !in bottom[i].1
    ensures BottomOf(Map(bottom, PairText)) == bottom
  {
    forall i | 0 <= i < |bottom| ensures ReadsBack(PairOf, bottom[i]) {
      PairOfText(bottom[i]);
    }
    ReadBack(PairOf, bottom);
  }

  /** `read` takes the token `n:p` back to the pair. */
  predicate ReadsBack(read: string -> Option<(string, string)>, pair: (string, string)) {
    read(PairText(pair)) == Some(pair)
  }

  /** A bottom object with distinct keys, written out as `n:p` tokens, is rebuilt by any
    * reader that reads each token back as its pair. */
  lemma {:induction false} ReadBack(read: string -> Option<(string, string)>, bottom: seq<(string, string)>)
    requires DistinctKeys(bottom)
    requires forall i :: 0 <= i < |bottom| ==> ReadsBack(read, bottom[i])
    ensures BottomBy(read, Map(bottom, PairText)) == bottom
    decreases |bottom|
  {
    if |bottom| > 0 {
      var k := |bottom| - 1;
      var init := bottom[..k];
      var (n, p) := bottom[k];
      var tokens := Map(bottom, PairText);
      PairsPrefix(read, bottom, init);
      ReadBack(read, init);
      assert tokens[..k] == Map(init, PairText);
      assert read(tokens[k]) == Some((n, p));
      BottomByLast(read, tokens, n, p);
      NewLastKey(bottom, init);
      UpsertAppend(init, n, p);
      SplitLast(bottom);
    }
  }

  /** What the induction step of ReadBack needs of the shorter bottom object: its keys
    * are distinct, and its pairs read back. */
  lemma PairsPrefix(read: string -> Option<(string, string)>, bottom: seq<(string, string)>,
                    init: seq<(string, string)>)
    requires |bottom| > 0 && DistinctKeys(bottom) && init == bottom[..|bottom| - 1]
    requires forall i :: 0 <= i < |bottom| ==> ReadsBack(read, bottom[i])
    ensures DistinctKeys(init)
    ensures forall i :: 0 <= i < |init| ==> ReadsBack(read, init[i])
  {
    assert forall i :: 0 <= i < |init| ==> init[i] == bottom[i];
  }

  /** The last pair's key is new to the pairs before it. */
  lemma NewLastKey(bottom: seq<(string, string)>, init: seq<(string, string)>)
    requires |bottom| > 0 && DistinctKeys(bottom) && init == bottom[..|bottom| - 1]
    ensures forall i :: 0 <= i < |init| ==> init[i].0 != bottom[|bottom| - 1].0
  {
    assert forall i :: 0 <= i < |init| ==> init[i] == bottom[i];
  }

  /** The last token, read as `(n, p)`, is written onto the object built from the others. */
  lemma BottomByLast(read: string -> Option<(string, string)>, tokens: seq<string>, n: string, p: string)
    requires |tokens| > 0 && read(tokens[|tokens| - 1]) == Some((n, p))
    ensures BottomBy(read, tokens) == Upsert(BottomBy(read, tokens[..|tokens| - 1]), n, p)
  {
  }

  /** Writing a key that is not there yet appends it. */
  lemma {:induction false} UpsertAppend(bottom: seq<(string, string)>, n: string, p: string)
    requires forall i :: 0 <= i < |bottom| ==> bottom[i].0 != n
    ensures Upsert(bottom, n, p) == bottom + [(n, p)]
  {
    if |bottom| > 0 {
      UpsertAppend(bottom[1..], n, p);
      assert bottom + [(n, p)] == [bottom[0]] + (bottom[1..] + [(n, p)]);
    }
  }
}
