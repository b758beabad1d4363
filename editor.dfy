/**
 * The sequence editor modal: opening it on a stage item (or on a new one), the fallback
 * that rebuilds a sequence's text from its stored events, and the save that hands the
 * trimmed form back to the stage.
 */
module Editor {
  import opened Wrappers
  import opened Text
  import opened Seqs
  import opened Pitch
  import opened Events
  import opened Parser

  // ---------------------------------------------------------------------------------
  // What the editor reads from a stage item and hands back
  // ---------------------------------------------------------------------------------

  /**
   * A stage item as the editor sees it: the text of its `.prog-label` element (`None` when
   * there is none), its `data-source-text` and `data-repeats` attributes (`""` when absent),
   * and its `data-notes` attribute read as JSON (`None` when it does not parse).
   */
  datatype StageItem = StageItem(progLabel: Option<string>, sourceText: string, notes: Option<seq<Event>>, repeats: string)

  /** The object given to the save callback. */
  datatype SaveData = SaveData(name: string, text: string, repeats: int, originalItem: Option<StageItem>)

  // ---------------------------------------------------------------------------------
  // reconstructText
  // ---------------------------------------------------------------------------------

  /** renderNote: a ghost stroke lower-cased, a rest as `-`, a pitch as spelling and octave. */
  function RenderNote(n: Sound): string {
    match n
    case Perc(hand, isGhost) => if isGhost then ToLower(hand) else hand
    case Rest => "-"
    case Tone(note, octave, _) => note + NatToString(octave)
  }

  /** One event: a wrapper's alternatives space-separated in parentheses, a bare note as itself. */
  function RenderEvent(e: Event): string {
    match e
    case Group(alts, _) => "(" + Join(Map(alts, RenderNote), " ") + ")"
    case Single(s, _) => RenderNote(s)
  }

  /** reconstructText: `""` when the stored events do not parse, the rendered events
    * space-separated otherwise. */
  function Reconstruct(notes: Option<seq<Event>>): string {
    match notes
    case None => ""
    case Some(events) => Join(Map(events, RenderEvent), " ")
  }

  // Reading the rebuilt text back with the parser.

  /** A token the tokenizer takes whole: no whitespace, and when it opens a parenthesis,
    * closed by its last character with no `)` before it (so it has no `/divisor`). */
  predicate Word(w: string) {
    |w| > 0 && NoSpace(w) &&
    (w[0] == '(' ==> |w| >= 2 && w[|w| - 1] == ')' && ')' !in w[1..|w| - 1])
  }

  /** A word followed by nothing or by a space is not a `(…)/divisor` group. */
  lemma GroupLenWord(w: string, rest: string)
    requires Word(w) && (|rest| == 0 || rest[0] == ' ')
    ensures GroupLen(w + rest) == 0
  {
    var s := w + rest;
    if s[0] == '(' {
      var i := IndexOf(s[1..], ')');
      assert s[1..][|w| - 2] == ')';
      assert s[1..][..|w| - 2] == w[1..|w| - 1];
      assert i == |w| - 2;
    }
  }

  /** Whitespace between tokens is skipped. */
  lemma TokenizeSpace(rest: string)
    ensures Tokenize(" " + rest) == Tokenize(rest)
  {
    var s := " " + rest;
    assert GroupLen(s) == 0;
    assert s[1..] == rest;
  }

  /** A word followed by nothing or by a space is the first word of the text. */
  lemma WordLenWord(w: string, rest: string)
    requires Word(w) && (|rest| == 0 || rest[0] == ' ')
    ensures WordLen(w + rest) == |w|
  {
    var s := w + rest;
    assert s[..|w|] == w;
  }

  /** Where no group starts, the tokenizer takes the first word. */
  lemma TokenizeFirstWord(s: string)
    requires |s| > 0 && GroupLen(s) == 0 && !IsSpace(s[0])
    ensures Tokenize(s) == [s[..WordLen(s)]] + Tokenize(s[WordLen(s)..])
  {
  }

  /** The tokenizer takes a word followed by a space, then goes on after the space. */
  lemma TokenizeCons(w: string, rest: string)
    requires Word(w)
    ensures Tokenize(w + " " + rest) == [w] + Tokenize(rest)
  {
    var s := w + (" " + rest);
    assert w + " " + rest == s;
    GroupLenWord(w, " " + rest);
    WordLenWord(w, " " + rest);
    assert !IsSpace(s[0]) by { assert s[0] == w[0]; }
    TokenizeFirstWord(s);
    assert s[..|w|] == w;
    assert s[|w|..] == " " + rest;
    TokenizeSpace(rest);
  }

  /** The tokenizer takes a lone word whole. */
  lemma TokenizeOne(w: string)
    requires Word(w)
    ensures Tokenize(w) == [w]
  {
    GroupLenWord(w, "");
    assert w + "" == w;
    assert w[..|w|] == w && w[|w|..] == [];
    assert Tokenize(w) == [w] + Parser.TokenizeBy(GroupLen, []);
  }

  /** Space-separated words are tokenized back into the same words. */
  lemma {:induction false} TokenizeJoin(ws: seq<string>)
    requires forall w :: w in ws ==> Word(w)
    ensures Tokenize(Join(ws, " ")) == ws
  {
    if |ws| == 1 {
      TokenizeOne(ws[0]);
    } else if |ws| > 1 {
      TokenizeJoin(ws[1..]);
      TokenizeCons(ws[0], Join(ws[1..], " "));
      assert ws == [ws[0]] + ws[1..];
    }
  }

  /** A string without `|` is one `|`-alternative. */
  lemma SplitNoBar(w: string)
    requires '|' !in w
    ensures Split(w, '|') == [w]
  {
    SplitJoin([w], '|');
  }

  /** What a rendered alternative needs to stay one alternative inside `(…)`. */
  predicate Plain(x: string) {
    NoSpace(x) && ')' !in x && '|' !in x
  }

  /** A parenthesised plain word. */
  predicate Boxed(w: string) {
    |w| >= 2 && w[0] == '(' && w[|w| - 1] == ')' && Plain(w[1..|w| - 1])
  }

  /** A token without whitespace and `|` is one alternative, read as `Alt` reads it. */
  lemma NoteTokenOne(w: string, scale: Result<ScaleNotes>)
    requires NoSpace(w) && '|' !in w
    ensures Alt(w, scale).Failure? ==> NoteToken(w, scale) == Failure(Alt(w, scale).error)
    ensures Alt(w, scale) == Success(None) ==> NoteToken(w, scale) == Success(None)
    ensures Alt(w, scale).Success? && Alt(w, scale).value.Some? ==>
      NoteToken(w, scale) == Success(Some(Group([Alt(w, scale).value.value], None)))
  {
    SplitNoBar(w);
    TrimNoSpace(w);
    assert [w][1..] == [];
    var a := Alt(w, scale);
    assert ResolveAlts([], scale) == Success([]);
    if a.Success? && a.value.Some? {
      assert ResolveAlts([w], scale) == Success([a.value.value] + []);
      assert [a.value.value] + [] == [a.value.value];
    }
  }

  /** A parenthesised plain word is a word without `|`. */
  lemma BoxedWord(w: string)
    requires Boxed(w)
    ensures Word(w) && '|' !in w
  {
    var x := w[1..|w| - 1];
    forall k | 0 < k < |w| - 1 ensures !IsSpace(w[k]) && w[k] != '|' {
      assert w[k] == x[k - 1];
    }
  }

  /** A parenthesised word is one piece of length 1 that resolves to no event. */
  lemma BoxedPiece(w: string, scale: Result<ScaleNotes>)
    requires Boxed(w)
    ensures Word(w)
    ensures TokenPieces(w) == [Piece(w, 1.0)]
    ensures NoteToken(w, scale) == Success(None)
  {
    BoxedWord(w);
    GroupLenWord(w, "");
    assert w + "" == w;
    assert w[0] == '(';
    AltParenthesis(w, scale);
    NoteTokenOne(w, scale);
  }

  /** Parenthesised words, read as pieces, yield no event at all. */
  lemma {:induction false} BoxedVanish(ws: seq<string>, scale: Result<ScaleNotes>)
    requires forall w :: w in ws ==> Boxed(w)
    ensures ParsePieces(Pieces(ws), scale) == Success([])
  {
    if |ws| > 0 {
      BoxedPiece(ws[0], scale);
      BoxedVanish(ws[1..], scale);
      var ps := Pieces(ws);
      assert ps == [Piece(ws[0], 1.0)] + Pieces(ws[1..]);
      assert ps[1..] == Pieces(ws[1..]);
    }
  }

  /** A wrapper of one alternative whose rendering is plain. */
  predicate SingleAlt(e: Event) {
    e.Group? && |e.alts| == 1 && Plain(RenderNote(e.alts[0]))
  }

  /** A wrapper of one alternative renders as that alternative in parentheses. */
  lemma RenderSingleAlt(e: Event)
    requires SingleAlt(e)
    ensures Boxed(RenderEvent(e))
  {
    var x := RenderNote(e.alts[0]);
    assert Map(e.alts, RenderNote) == [x];
    var w := RenderEvent(e);
    assert w == "(" + x + ")";
    assert w[1..|w| - 1] == x;
  }

  /**
   * The rebuilt text is lossy: what the parser makes of a plain text — a wrapper of one
   * alternative per token — comes back as `(K) (t) (E3)`, and reading that again drops
   * every token, since a parenthesis makes an alternative resolve to nothing.
   */
  lemma ReconstructSingleAltsVanish(events: seq<Event>, layout: Layout)
    requires forall e :: e in events ==> SingleAlt(e)
    ensures ParseRhythm(Reconstruct(Some(events)), layout) == Success([])
  {
    var ws := Map(events, RenderEvent);
    forall w | w in ws ensures Boxed(w) && Word(w) {
      var k :| 0 <= k < |ws| && ws[k] == w;
      RenderSingleAlt(events[k]);
      BoxedPiece(w, Partition(layout));
    }
    TokenizeJoin(ws);
    BoxedVanish(ws, Partition(layout));
  }

  /** A pitch spelling the parser reads in any case: a letter, then perhaps `#`, `b` or `B`. */
  predicate Spelled(note: string) {
    1 <= |note| <= 2 && IsLetterIn(note[0], true) && (|note| == 2 ==> IsAccidental(note[1], true))
  }

  /** A sound whose rendering the parser reads back as one alternative. */
  predicate Rereadable(s: Sound) {
    match s
    case Perc(hand, _) => hand == "K" || hand == "T"
    case Rest => true
    case Tone(note, octave, _) => Spelled(note) && octave <= 9
  }

  /** What the parser makes of a rendered sound: percussion and rests come back as they
    * were; a pitch comes back upper-cased, its frequency recomputed from the rendering. */
  function Reread(s: Sound): Sound {
    match s
    case Tone(note, octave, _) => Tone(ToUpper(note), octave, FrequencyMidi(RenderNote(s)))
    case _ => s
  }

  /** The rendering of a readable sound is a word and a single alternative. */
  lemma RenderWord(s: Sound)
    requires Rereadable(s)
    ensures Word(RenderNote(s)) && RenderNote(s)[0] != '('
    ensures '|' !in RenderNote(s)
  {
    match s
    case Perc(hand, isGhost) =>
      assert ToLower("K") == "k" && ToLower("T") == "t";
    case Rest =>
    case Tone(note, octave, _) =>
      var w := RenderNote(s);
      assert w == note + [DigitChar(octave)];
      assert forall k :: 0 <= k < |w| ==> k == |w| - 1 || IsLetterIn(w[k], true) || IsAccidental(w[k], true);
  }

  /** Each readable sound, rendered, is read back by the parser as `Reread` says. */
  lemma AltRender(s: Sound, scale: Result<ScaleNotes>)
    requires Rereadable(s)
    ensures Alt(RenderNote(s), scale) == Success(Some(Reread(s)))
  {
    match s
    case Perc(hand, isGhost) =>
      assert ToLower("K") == "k" && ToLower("T") == "t";
      AltPercussion(RenderNote(s), scale);
      assert [UpperChar(RenderNote(s)[0])] == hand;
    case Rest =>
      AltRest("-", scale);
    case Tone(note, octave, _) =>
      MatchPitchOf(note, octave, 9, true);
      assert RenderNote(s) == note + [DigitChar(octave)];
      AltPitch(RenderNote(s), scale, note, octave);
  }

  /** A bare note whose rendering the parser reads back. */
  predicate ReadableSingle(e: Event) {
    e.Single? && Rereadable(e.sound)
  }

  /** What a rebuilt bare note becomes when parsed again: a wrapper of its re-read sound
    * lasting one step. (A wrapper is left as it is.) */
  function Reparsed(e: Event): Event {
    match e
    case Single(s, _) => Group([Reread(s)], Some(1.0))
    case Group(_, _) => e
  }

  /** The words of bare notes, parsed as pieces, give one wrapper each. */
  lemma {:induction false} SinglesParse(events: seq<Event>, scale: Result<ScaleNotes>)
    requires forall e :: e in events ==> ReadableSingle(e)
    ensures ParsePieces(Pieces(Map(events, RenderEvent)), scale) ==
            Success(Map(events, Reparsed))
  {
    if |events| > 0 {
      var e := events[0];
      assert e in events;
      var w := RenderEvent(e);
      RenderWord(e.sound);
      GroupLenWord(w, "");
      assert w + "" == w;
      AltRender(e.sound, scale);
      NoteTokenOne(w, scale);
      SinglesParse(events[1..], scale);
      var ws := Map(events, RenderEvent);
      assert ws == [w] + Map(events[1..], RenderEvent);
      var ps := Pieces(ws);
      assert ps == [Piece(w, 1.0)] + Pieces(Map(events[1..], RenderEvent));
      assert ps[1..] == Pieces(Map(events[1..], RenderEvent));
      assert Map(events, Reparsed) == [Reparsed(e)] + Map(events[1..], Reparsed);
    }
  }

  /**
   * Bare notes (chord voicings put on the stage) rebuild into text the parser reads back
   * note for note: each becomes a wrapper of its one re-read sound, lasting one step.
   */
  lemma ReconstructSinglesReparse(events: seq<Event>, layout: Layout)
    requires forall e :: e in events ==> ReadableSingle(e)
    ensures ParseRhythm(Reconstruct(Some(events)), layout) ==
            Success(Map(events, Reparsed))
  {
    var ws := Map(events, RenderEvent);
    forall w | w in ws ensures Word(w) {
      var k :| 0 <= k < |ws| && ws[k] == w;
      assert events[k] in events;
      RenderWord(events[k].sound);
    }
    TokenizeJoin(ws);
    SinglesParse(events, Partition(layout));
  }

  /** B flat in octave 3 written `Bb3` has MIDI number 58. */
  lemma FlatFrequency()
    ensures FrequencyMidi("Bb3") == Some(58)
  {
    MatchPitchOf("Bb", 3, 8, false);
    assert "Bb" + [DigitChar(3)] == "Bb3";
    assert StripDingPrefix("Bb3") == "Bb3";
  }

  /** `Bb3` is stored as `BB`, with the frequency of B flat in octave 3. */
  lemma FlatStored(scale: Result<ScaleNotes>)
    ensures Alt("Bb3", scale) == Success(Some(Tone("BB", 3, Some(58))))
  {
    MatchPitchOf("Bb", 3, 9, true);
    assert "Bb" + [DigitChar(3)] == "Bb3";
    AltPitch("Bb3", scale, "Bb", 3);
    FlatFrequency();
    assert ToUpper("Bb") == "BB";
  }

  /**
   * A flat written with a lower-case `b` loses its frequency on the way: the stored `BB`
   * is rebuilt as `BB3` and read back with none.
   */
  lemma FlatLosesFrequency(scale: Result<ScaleNotes>)
    ensures Alt(RenderNote(Tone("BB", 3, Some(58))), scale) == Success(Some(Tone("BB", 3, None)))
  {
    MatchPitchOf("BB", 3, 9, true);
    assert "BB" + [DigitChar(3)] == "BB3";
    assert RenderNote(Tone("BB", 3, Some(58))) == "BB3";
    assert StripDingPrefix("BB3") == "BB3";
    assert MatchNoteName("BB3") == None;
    AltPitch("BB3", scale, "BB", 3);
    assert ToUpper("BB") == "BB";
  }

  // ---------------------------------------------------------------------------------
  // The form
  // ---------------------------------------------------------------------------------

  /** The name field when the modal opens: the item's label, or the default name for a
    * new item. */
  function OpenedName(item: Option<StageItem>, defaultName: string): string {
    match item
    case Some(it) => it.progLabel.GetOr("")
    case None => defaultName
  }

  /** The text field when the modal opens: the item's source text when it has one, the
    * rebuilt text otherwise, and nothing for a new item. */
  function OpenedText(item: Option<StageItem>): string {
    match item
    case Some(it) => if it.sourceText != "" then it.sourceText else Reconstruct(it.notes)
    case None => ""
  }

  /** The repeats field when the modal opens: `item.dataset.repeats || 1`. */
  function OpenedRepeats(item: Option<StageItem>): string {
    match item
    case Some(it) => if it.repeats != "" then it.repeats else "1"
    case None => "1"
  }

  /** `editorName.value.trim() || 'Untitled'`. */
  function SavedName(raw: string): (name: string)
    ensures name != ""
    ensures !IsSpace(name[0]) && !IsSpace(name[|name| - 1])
    ensures Trim(raw) != "" ==> name == Trim(raw)
    ensures Trim(raw) == "" ==> name == "Untitled"
  {
    var t := Trim(raw);
    if t != "" then t else "Untitled"
  }

  /** `parseInt(editorRepeats.value) || 1`: NaN and 0 both fall back to 1. */
  function SavedRepeats(raw: string): (repeats: int)
    ensures repeats != 0
    ensures JsParseInt(raw).Some? && JsParseInt(raw).value != 0 ==> repeats == JsParseInt(raw).value
    ensures JsParseInt(raw).None? || JsParseInt(raw).value == 0 ==> repeats == 1
  {
    match JsParseInt(raw)
    case Some(n) => if n != 0 then n else 1
    case None => 1
  }

  /** The data a save hands back for the given field values and edited item. */
  function Saved(name: string, input: string, repeats: string, item: Option<StageItem>): SaveData {
    SaveData(SavedName(name), Trim(input), SavedRepeats(repeats), item)
  }

  /** Any non-zero repeat count written out as `String(n)` is read back. */
  lemma SavedRepeatsOf(n: int)
    requires n != 0
    ensures SavedRepeats(IntToString(n)) == n
  {
    JsParseIntInt(n);
  }

  /**
   * Opening an item and saving it untouched gives back its label trimmed (or `Untitled`),
   * its source text trimmed, its repeat count (1 when it has none) and the item itself.
   */
  lemma SaveOpenedItem(it: StageItem, defaultName: string, n: int)
    requires n != 0
    ensures var d := Saved(OpenedName(Some(it), defaultName), OpenedText(Some(it)), OpenedRepeats(Some(it)), Some(it));
      d.originalItem == Some(it) &&
      (it.progLabel.Some? && Trim(it.progLabel.value) != "" ==> d.name == Trim(it.progLabel.value)) &&
      (it.progLabel.None? ==> d.name == "Untitled") &&
      (it.sourceText != "" ==> d.text == Trim(it.sourceText)) &&
      (it.repeats == "" ==> d.repeats == 1) &&
      (it.repeats == IntToString(n) ==> d.repeats == n)
  {
    assert Trim("") == "";
    SavedRepeatsOf(n);
    SavedRepeatsOf(1);
    assert IntToString(1) == "1";
  }

  /** Saving the form of a new item untouched gives its default name trimmed (or
    * `Untitled`), no text, one repeat, and no item. */
  lemma SaveNewItem(defaultName: string)
    ensures Saved(OpenedName(None, defaultName), OpenedText(None), OpenedRepeats(None), None) ==
            SaveData(SavedName(defaultName), "", 1, None)
  {
    assert Trim("") == "";
    SavedRepeatsOf(1);
    assert IntToString(1) == "1";
  }

  /**
   * An item that holds what a save produced (its label the saved name, its source text the
   * saved text, its repeats written out) opens and saves to the same values.
   */
  lemma ResaveUnchanged(name: string, input: string, repeats: string, notes: Option<seq<Event>>, defaultName: string)
    requires Trim(input) != ""
    ensures var d := Saved(name, input, repeats, None);
      var it := StageItem(Some(d.name), d.text, notes, IntToString(d.repeats));
      Saved(OpenedName(Some(it), defaultName), OpenedText(Some(it)), OpenedRepeats(Some(it)), Some(it)) ==
      SaveData(d.name, d.text, d.repeats, Some(it))
  {
    var d := Saved(name, input, repeats, None);
    TrimIdempotent(name);
    TrimIdempotent(input);
    TrimTrimmed("Untitled");
    SavedRepeatsOf(d.repeats);
  }

  /** The editor modal's module state. */
  class EditorModal {
    /** Whether initEditor found the modal and its fields (`editorModal` is not null). */
    var mounted: bool
    /** Whether initEditor was given a save callback. */
    var hasSaveCallback: bool
    /** Whether the modal is displayed. */
    var visible: bool
    /** The name, text and repeats fields. */
    var name: string
    var input: string
    var repeats: string
    /** `currentEditItem`. */
    var current: Option<StageItem>

    /** The module state before initEditor. */
    constructor()
      ensures !mounted && !hasSaveCallback && !visible && current.None?
      ensures name == "" && input == "" && repeats == ""
    {
      mounted := false;
      hasSaveCallback := false;
      visible := false;
      name := "";
      input := "";
      repeats := "";
      current := None;
    }

    /** initEditor(onSave): records the callback and looks the modal up; `found` says
      * whether the page has it. */
    method Init(hasCallback: bool, found: bool)
      modifies this
      ensures hasSaveCallback == hasCallback && mounted == found
      ensures visible == old(visible) && current == old(current)
      ensures name == old(name) && input == old(input) && repeats == old(repeats)
    {
      hasSaveCallback := hasCallback;
      mounted := found;
    }

    /**
     * openEditor(item, defaultName): nothing happens before the modal is found; otherwise
     * the item becomes the one edited, the fields are reset and filled from it (or from the
     * default name for a new item), and the modal is shown.
     */
    method Open(item: Option<StageItem>, defaultName: string)
      modifies this
      ensures !old(mounted) ==> unchanged(this)
      ensures old(mounted) ==> mounted && visible && current == item && hasSaveCallback == old(hasSaveCallback)
      ensures old(mounted) ==> name == OpenedName(item, defaultName)
      ensures old(mounted) ==> input == OpenedText(item) && repeats == OpenedRepeats(item)
    {
      if !mounted {
        return;
      }
      current := item;
      name := "";
      input := "";
      repeats := "1";
      match item {
        case Some(it) =>
          if it.progLabel.Some? {
            name := it.progLabel.value;
          }
          if it.sourceText != "" {
            input := it.sourceText;
          } else {
            input := Reconstruct(it.notes);
          }
          repeats := if it.repeats != "" then it.repeats else "1";
        case None =>
          name := defaultName;
          repeats := "1";
      }
      visible := true;
    }

    /** closeEditor: hides the modal when there is one, and forgets the edited item. */
    method Close()
      modifies this
      ensures visible == (old(visible) && !mounted) && current.None?
      ensures mounted == old(mounted) && hasSaveCallback == old(hasSaveCallback)
      ensures name == old(name) && input == old(input) && repeats == old(repeats)
    {
      if mounted {
        visible := false;
      }
      current := None;
    }

    /**
     * handleSave: without a callback nothing happens; otherwise the trimmed fields and the
     * edited item are handed back (the callback's argument) and the modal is closed.
     */
    method Save() returns (data: Option<SaveData>)
      modifies this
      ensures !old(hasSaveCallback) ==> data.None? && unchanged(this)
      ensures old(hasSaveCallback) ==> data == Some(Saved(old(name), old(input), old(repeats), old(current)))
      ensures old(hasSaveCallback) ==> visible == (old(visible) && !mounted) && current.None?
      ensures mounted == old(mounted) && hasSaveCallback == old(hasSaveCallback)
      ensures name == old(name) && input == old(input) && repeats == old(repeats)
    {
      if !hasSaveCallback {
        return None;
      }
      var savedName := Trim(name);
      if savedName == "" {
        savedName := "Untitled";
      }
      var text := Trim(input);
      var count := 1;
      var parsed := JsParseInt(repeats);
      if parsed.Some? && parsed.value != 0 {
        count := parsed.value;
      }
      data := Some(SaveData(savedName, text, count, current));
      Close();
    }
  }
}
