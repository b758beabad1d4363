/**
 * The progression stage: the row of step cards the player builds from chords, voicings and
 * typed phrases. Each card keeps its title, the source text of the step, its events (as the
 * JSON in `data-notes`), an optional repeat count (`data-repeats`), a short preview and a
 * repeat badge. The stage hands its steps to the scheduler, exports them for saving and
 * loads them back.
 */
module ProgressionUi {
  import opened Wrappers
  import opened Text
  import opened Seqs
  import opened Sorting
  import opened Constants
  import opened Pitch
  import opened Chords
  import opened Generate
  import opened Events
  import opened Editor

  // ---------------------------------------------------------------------------------
  // Default names: A, B, ..., Z, A2, B2, ...
  // ---------------------------------------------------------------------------------

  /** `String.fromCharCode(65 + count % 26)`. */
  function Letter(count: nat): (c: char)
    ensures 'A' <= c <= 'Z'
  {
    (65 + count % 26) as char
  }

  /** getNextDefaultName for a stage holding `count` cards. */
  function DefaultName(count: nat): (name: string)
    ensures |name| >= 1 && 'A' <= name[0] <= 'Z'
    ensures |name| == 1 <==> count < 26
    ensures AllDigits(name[1..])
  {
    [Letter(count)] + (if count >= 26 then NatToString(count / 26 + 1) else "")
  }

  /** Different stage sizes never propose the same name. */
  lemma DefaultNameInjective(a: nat, b: nat)
    requires DefaultName(a) == DefaultName(b)
    ensures a == b
  {
    assert Letter(a) == DefaultName(a)[0] == DefaultName(b)[0] == Letter(b);
    assert a % 26 == b % 26;
    if a >= 26 {
      assert b >= 26;
      assert DefaultName(a)[1..] == NatToString(a / 26 + 1);
      assert DefaultName(b)[1..] == NatToString(b / 26 + 1);
      assert a / 26 + 1 == DigitsValue(NatToString(a / 26 + 1)) == DigitsValue(NatToString(b / 26 + 1)) == b / 26 + 1;
    }
  }

  /** The name proposed for the card after the first 26 reads back, after its letter, as
    * the number of the round of the alphabet. */
  lemma DefaultNameRound(count: nat)
    requires count >= 26
    ensures JsParseInt(DefaultName(count)[1..]) == Some(count / 26 + 1)
  {
    assert DefaultName(count)[1..] == NatToString(count / 26 + 1);
    JsParseIntNat(count / 26 + 1, "");
    assert NatToString(count / 26 + 1) + "" == NatToString(count / 26 + 1);
  }

  // ---------------------------------------------------------------------------------
  // What a new card is made of
  // ---------------------------------------------------------------------------------

  /** The `{name: "Copy", notes: []}` object the duplicate button passes as its chord. */
  const CopyChord: Entry := Entry(Chord("", "", "Copy", [], []), [], [])

  /** A chord note as the stage stores it: `{note, octave}` with no `freq`. */
  function AsEvent(n: NoteVal): Event {
    Single(Tone(n.note, n.octave, None), None)
  }

  /** The sort key of sortNotesByPitch on a stored event; objects with no note or octave
    * are keyed 0. */
  function EventKey(e: Event): int {
    match e
    case Single(Tone(note, octave, _), _) => octave * 12 + NoteToMidi(note).GetOr(0)
    case _ => 0
  }

  /** sortNotesByPitch over stored events. */
  function PitchSorted(es: seq<Event>): (r: seq<Event>)
    ensures multiset(r) == multiset(es)
    ensures forall i, j :: 0 <= i < j < |r| ==> EventKey(r[i]) <= EventKey(r[j])
  {
    ByKeyTotal(EventKey);
    SortBySorted(es, ByKey(EventKey));
    SortBy(es, ByKey(EventKey))
  }

  /** A chord note keeps its sort key when the stage stores it. */
  lemma AsEventKey(n: NoteVal)
    ensures EventKey(AsEvent(n)) == PitchKey(n)
  {
  }

  /** The voicing a chord card plays when no notes are given: the first three-note voicing
    * starting on the root, else the first voicing, else the arpeggio. */
  function BaseVoicing(c: Entry): (v: seq<NoteVal>)
    ensures (exists k :: 0 <= k < |c.voicings| && |c.voicings[k]| == 3 && c.voicings[k][0].note == c.chord.root) ==>
      |v| == 3 && v[0].note == c.chord.root && v in c.voicings
    ensures |c.voicings| == 0 ==> v == c.arpeggio
  {
    var k := FindIndex(c.voicings, (w: seq<NoteVal>) => |w| == 3 && w[0].note == c.chord.root);
    if k >= 0 then c.voicings[k]
    else if |c.voicings| > 0 then c.voicings[0]
    else c.arpeggio
  }

  /** The given notes are kept as they are (raw text, a `Copy` title or a `Copy` chord). */
  predicate KeptAsGiven(c: Entry, title: Option<string>, rawText: string) {
    rawText != "" || title == Some("Copy") || c.chord.name == "Copy"
  }

  /** The events a new card stores, before cloning. */
  function ActualNotes(chord: Option<Entry>, specific: Option<seq<Event>>, title: Option<string>, rawText: string): seq<Event> {
    match chord
    case Some(c) =>
      (match specific
       case Some(es) => if KeptAsGiven(c, title, rawText) then es else PitchSorted(es)
       case None => PitchSorted(Map(BaseVoicing(c), AsEvent)))
    case None => specific.GetOr([])
  }

  /** Display token of a kept event: `GRP` for a group, the hand for a stroke, the note
    * and octave for a pitch, `-` otherwise. */
  function CopyToken(e: Event): string {
    match e
    case Group(_, _) => "GRP"
    case Single(Perc(hand, _), _) => hand
    case Single(Tone(note, octave, _), _) => if note != "" then note + NatToString(octave) else "-"
    case Single(Rest, _) => "-"
  }

  /** Display token of a sorted chord note: `${n.note}${n.octave}`, where a missing
    * field prints as `undefined`. */
  function PitchToken(e: Event): string {
    match e
    case Single(Tone(note, octave, _), _) => note + NatToString(octave)
    case _ => "undefinedundefined"
  }

  /** renderN of a phrase: a ghost stroke lower-cased, a pitch as note and octave. */
  function PhraseSound(s: Sound): string {
    match s
    case Perc(hand, isGhost) => if isGhost then ToLower(hand) else hand
    case Rest => "undefinedundefined"
    case Tone(note, octave, _) => note + NatToString(octave)
  }

  /** Display token of a phrase event: a group's alternatives joined by `|`. */
  function PhraseToken(e: Event): string {
    match e
    case Group(alts, _) => Join(Map(alts, PhraseSound), "|")
    case Single(s, _) => PhraseSound(s)
  }

  /** The display tokens of a new card. */
  function DisplayTokens(chord: Option<Entry>, specific: Option<seq<Event>>, title: Option<string>, rawText: string): seq<string> {
    var actual := ActualNotes(chord, specific, title, rawText);
    if chord.None? then Map(actual, PhraseToken)
    else if specific.Some? && KeptAsGiven(chord.value, title, rawText) then Map(actual, CopyToken)
    else Map(actual, PitchToken)
  }

  /** `rawText || displayNotes.join(' ')`. */
  function SourceText(rawText: string, tokens: seq<string>): (t: string)
    ensures rawText != "" ==> t == rawText
    ensures rawText == "" ==> t == Join(tokens, " ")
  {
    if rawText != "" then rawText else Join(tokens, " ")
  }

  /** The copy stored in `data-notes`: `duration: evt.duration || 1`, alternatives copied. */
  function Clone(e: Event): (c: Event)
    ensures c.duration == Some(StepLength(e))
    ensures StepLength(c) == StepLength(e)
    ensures c.Group? == e.Group?
    ensures c.Group? ==> c.alts == e.alts
    ensures c.Single? ==> c.sound == e.sound
  {
    e.(duration := Some(StepLength(e)))
  }

  /** Cloning a clone changes nothing. */
  lemma CloneIdempotent(e: Event)
    ensures Clone(Clone(e)) == Clone(e)
  {
  }

  /** The cloned events of a card last exactly as long as the events it was given. */
  lemma {:induction false} ClonesKeepLengths(es: seq<Event>)
    ensures Map(Map(es, Clone), StepLength) == Map(es, StepLength)
    ensures PositiveLengths(es) ==> PositiveLengths(Map(es, Clone))
  {
    if |es| > 0 {
      ClonesKeepLengths(es[1..]);
      assert Map(es, Clone)[1..] == Map(es[1..], Clone);
    }
  }

  // ---------------------------------------------------------------------------------
  // Labels
  // ---------------------------------------------------------------------------------

  /** A title the stage replaces: missing, empty, or one of the placeholder names. */
  predicate IsGeneric(title: Option<string>) {
    title.None? || title.value == "" || title.value == "Untitled" || title.value == "Custom Arp" ||
    title.value == "Custom Chord" || title.value == "Musical Phrase"
  }

  /** The chord's own name is used: the chord is given, named, and not `Custom Chord`. */
  predicate NamedChord(chord: Option<Entry>) {
    chord.Some? && chord.value.chord.name != "" && chord.value.chord.name != "Custom Chord"
  }

  /** The title of a new card on a stage already holding `count` cards. */
  function FinalLabel(title: Option<string>, chord: Option<Entry>, count: nat): (r: string)
    ensures r != "" && r != "Custom Chord"
    ensures !IsGeneric(title) ==> r == title.value
    ensures IsGeneric(title) && NamedChord(chord) ==> r == chord.value.chord.name
  {
    if !IsGeneric(title) then title.value
    else if NamedChord(chord) then chord.value.chord.name
    else
      var d := DefaultName(count);
      assert |d| == 1 || d[1..][0] != "Custom Chord"[1];
      d
  }

  /** A card added with a placeholder title and no named chord takes the name the stage
    * proposes next, so two such cards added one after the other get different names. */
  lemma FinalLabelIsNext(title: Option<string>, chord: Option<Entry>, count: nat)
    requires IsGeneric(title) && !NamedChord(chord)
    ensures FinalLabel(title, chord, count) == DefaultName(count)
    ensures FinalLabel(title, chord, count) != FinalLabel(title, chord, count + 1)
  {
    if DefaultName(count) == DefaultName(count + 1) {
      DefaultNameInjective(count, count + 1);
    }
  }

  // ---------------------------------------------------------------------------------
  // Previews
  // ---------------------------------------------------------------------------------

  const MaxNotes: nat := 6
  const MaxText: nat := 20

  /** One element of the notes preview. */
  datatype Pill = NotePill(sound: Sound) | GroupPill(alts: seq<Sound>) | MorePill | EmptyPill

  function PillOf(e: Event): Pill {
    match e
    case Group(alts, _) => GroupPill(alts)
    case Single(s, _) => NotePill(s)
  }

  /** generateTruncatedNotesHTML: an `Empty...` pill for no events, otherwise the first
    * six events followed by an ellipsis when there are more. */
  function NotesPreview(notes: seq<Event>): seq<Pill> {
    if |notes| == 0 then [EmptyPill]
    else
      var n := if |notes| < MaxNotes then |notes| else MaxNotes;
      Map(notes[..n], PillOf) + (if |notes| > MaxNotes then [MorePill] else [])
  }

  /** The preview holds at most seven pills, ends in an ellipsis exactly when some events
    * are not shown, and shows every event, in order, when there are at most six. */
  lemma NotesPreviewBounds(notes: seq<Event>)
    ensures 1 <= |NotesPreview(notes)| <= MaxNotes + 1
    ensures MorePill in NotesPreview(notes) <==> |notes| > MaxNotes
    ensures 0 < |notes| <= MaxNotes ==> NotesPreview(notes) == Map(notes, PillOf)
    ensures forall i :: 0 <= i < |notes| && i < MaxNotes ==> NotesPreview(notes)[i] == PillOf(notes[i])
  {
    if 0 < |notes| <= MaxNotes {
      assert notes[..|notes|] == notes;
    }
  }

  /** The preview built one event at a time, as the loop appends to the HTML. */
  method RenderPreview(notes: seq<Event>) returns (pills: seq<Pill>)
    ensures pills == NotesPreview(notes)
  {
    if |notes| == 0 {
      return [EmptyPill];
    }
    var n := if |notes| < MaxNotes then |notes| else MaxNotes;
    pills := [];
    for i := 0 to n
      invariant pills == Map(notes[..i], PillOf)
    {
      MapPrefix(notes, i, PillOf);
      pills := pills + [PillOf(notes[i])];
    }
    if |notes| > MaxNotes {
      pills := pills + [MorePill];
    }
  }

  /** The trimmed text cut to twenty characters plus `...` when longer. */
  function Shorten(t: string): (r: string)
    ensures |r| <= MaxText + 3
    ensures |t| <= MaxText ==> r == t
    ensures |t| > MaxText ==> r == t[..MaxText] + "..."
  {
    if |t| > MaxText then t[..MaxText] + "..." else t
  }

  /** generateHTMLFromText: nothing for no text, else the shortened trimmed text split at
    * whitespace runs. */
  function TextPreview(text: string): (pills: seq<string>)
    ensures text == "" ==> pills == []
    ensures text != "" ==> |pills| >= 1
  {
    if text == "" then [] else SplitSpaces(Shorten(Trim(text)))
  }

  /** Non-empty words joined by single spaces split back into the same words. */
  lemma {:induction false} SplitSpacesJoin(ws: seq<string>)
    requires |ws| >= 1
    requires forall i :: 0 <= i < |ws| ==> |ws[i]| > 0 && NoSpace(ws[i])
    ensures SplitSpaces(Join(ws, " ")) == ws
    decreases |ws|
  {
    var w := ws[0];
    if |ws| == 1 {
      WordLenOf(w, "");
      assert w + "" == w;
    } else {
      var rest := ws[1..];
      var t := Join(rest, " ");
      var s := w + (" " + t);
      assert Join(ws, " ") == s;
      WordLenOf(w, " " + t);
      JoinFirstChar(rest, " ");
      assert t[0] == rest[0][0];
      assert s[|w|..] == " " + t;
      assert (" " + t)[1..] == t;
      assert SpaceLen(" " + t) == 1;
      assert AfterWord(s) == t;
      SplitSpacesJoin(rest);
      assert ws == [w] + rest;
    }
  }

  /** A short phrase written with single spaces is previewed word for word. */
  lemma TextPreviewWords(ws: seq<string>)
    requires |ws| >= 1
    requires forall i :: 0 <= i < |ws| ==> |ws[i]| > 0 && NoSpace(ws[i])
    requires |Join(ws, " ")| <= MaxText
    ensures TextPreview(Join(ws, " ")) == ws
  {
    JoinTrimmed(ws);
    JoinFirstChar(ws, " ");
    SplitSpacesJoin(ws);
  }

  /** What a card shows under its title. */
  datatype Header = FromText(tokens: seq<string>) | FromNotes(pills: seq<Pill>)

  /** The header of a new card: the raw text for phrases and custom chords, the notes
    * preview otherwise. */
  function AddedHeader(chord: Option<Entry>, rawText: string, actual: seq<Event>): Header {
    if rawText != "" && (chord.None? || chord.value.chord.name == "Custom Chord" ||
                         chord.value.chord.name == "Custom Arp" || chord.value.chord.name == "Musical Phrase")
    then FromText(TextPreview(rawText))
    else FromNotes(NotesPreview(actual))
  }

  /** renderRepeatsBadge: `x<n>` for more than one repeat. */
  function Badge(repeats: int): (b: Option<int>)
    ensures b.Some? <==> repeats > 1
    ensures b.Some? ==> b.value == repeats
  {
    if repeats > 1 then Some(repeats) else None
  }

  // ---------------------------------------------------------------------------------
  // Cards
  // ---------------------------------------------------------------------------------

  /**
   * A card on the stage: its title, `data-source-text`, `data-notes` read as JSON (`None`
   * when it does not parse), `data-repeats` (`""` when absent), header and badge.
   */
  datatype Card = Card(title: string, sourceText: string, notes: Option<seq<Event>>, repeats: string,
                       header: Header, badge: Option<int>)

  /** `String(n)` stored when `keep` holds, the attribute removed otherwise. */
  function StoredRepeats(keep: bool, n: int): string {
    if keep then IntToString(n) else ""
  }

  /** `item.dataset.repeats ? parseInt(item.dataset.repeats) : 1`, `None` standing for NaN. */
  function ReadRepeats(s: string): (r: Option<int>)
    ensures s == "" ==> r == Some(1)
  {
    if s != "" then JsParseInt(s) else Some(1)
  }

  /** A count stored by the stage reads back as itself, and no stored count reads as 1. */
  lemma ReadStoredRepeats(keep: bool, n: int)
    ensures ReadRepeats(StoredRepeats(keep, n)) == if keep then Some(n) else Some(1)
  {
    if keep {
      JsParseIntInt(n);
    }
  }

  /** addChordToProgression on a stage already holding `count` cards. */
  function Added(chord: Option<Entry>, specific: Option<seq<Event>>, title: Option<string>, rawText: string,
                 defaultRepeats: int, count: nat): Card {
    var actual := ActualNotes(chord, specific, title, rawText);
    Card(FinalLabel(title, chord, count),
         SourceText(rawText, DisplayTokens(chord, specific, title, rawText)),
         Some(Map(actual, Clone)),
         StoredRepeats(defaultRepeats > 1, defaultRepeats),
         AddedHeader(chord, rawText, actual),
         Badge(defaultRepeats))
  }

  /** updateProgressionItem with the events the parser gives for the new text. */
  function Updated(card: Card, name: string, text: string, repeats: int, parsed: seq<Event>): Card {
    Card(name, text, Some(parsed), StoredRepeats(repeats > 0, repeats),
         if text != "" then FromText(TextPreview(text)) else FromNotes(NotesPreview(parsed)),
         Badge(repeats))
  }

  /** A new card keeps the raw text it is given, stores clones of its events, and plays
    * `defaultRepeats` times when that is more than one, once otherwise. */
  lemma AddedFields(chord: Option<Entry>, specific: Option<seq<Event>>, title: Option<string>, rawText: string,
                    defaultRepeats: int, count: nat)
    ensures var c := Added(chord, specific, title, rawText, defaultRepeats, count);
      (rawText != "" ==> c.sourceText == rawText) &&
      c.notes == Some(Map(ActualNotes(chord, specific, title, rawText), Clone)) &&
      ReadRepeats(c.repeats) == (if defaultRepeats > 1 then Some(defaultRepeats) else Some(1)) &&
      (c.badge.Some? <==> ReadRepeats(c.repeats).value > 1)
  {
    ReadStoredRepeats(defaultRepeats > 1, defaultRepeats);
  }

  /** An edited card reads back the new text, events and positive repeat count; a count of
    * zero or less is dropped and reads back as 1. */
  lemma UpdatedFields(card: Card, name: string, text: string, repeats: int, parsed: seq<Event>)
    ensures var c := Updated(card, name, text, repeats, parsed);
      c.title == name && c.sourceText == text && c.notes == Some(parsed) &&
      ReadRepeats(c.repeats) == (if repeats > 0 then Some(repeats) else Some(1)) &&
      (c.badge.Some? <==> repeats > 1)
  {
    ReadStoredRepeats(repeats > 0, repeats);
  }

  /** A phrase typed in the editor keeps its events, in order, with their lengths made
    * explicit, and its header previews the text itself. */
  lemma PhraseCard(events: seq<Event>, name: string, text: string, count: nat)
    requires text != ""
    ensures var c := Added(None, Some(events), Some(name), text, 1, count);
      c.sourceText == text && c.notes == Some(Map(events, Clone)) &&
      c.header == FromText(TextPreview(text)) && c.repeats == "" && c.badge == None
  {
  }

  /** A chord card with no notes given stores its base voicing sorted by pitch, and with no
    * raw text its source text is those notes written out. */
  lemma ChordCard(c: Entry, title: Option<string>, count: nat)
    ensures var card := Added(Some(c), None, title, "", 1, count);
      var sorted := PitchSorted(Map(BaseVoicing(c), AsEvent));
      card.notes == Some(Map(sorted, Clone)) &&
      card.sourceText == Join(Map(sorted, PitchToken), " ") &&
      multiset(sorted) == multiset(Map(BaseVoicing(c), AsEvent))
  {
  }

  /** The card the duplicate button adds for a card whose events parse. */
  function Duplicated(card: Card, count: nat): Card
    requires card.notes.Some?
  {
    Added(Some(CopyChord), Some(card.notes.value), None, card.sourceText, 1, count)
  }

  /** A duplicate is labelled `Copy`, keeps the events (durations made explicit) and the
    * source text, and plays once whatever the original's repeat count. */
  lemma DuplicateCopies(card: Card, count: nat)
    requires card.notes.Some?
    ensures var d := Duplicated(card, count);
      d.title == "Copy" && d.notes == Some(Map(card.notes.value, Clone)) &&
      (card.sourceText != "" ==> d.sourceText == card.sourceText) &&
      (card.sourceText == "" ==> d.sourceText == Join(Map(card.notes.value, CopyToken), " ")) &&
      ReadRepeats(d.repeats) == Some(1) && d.badge == None
  {
  }

  // ---------------------------------------------------------------------------------
  // Reading the stage
  // ---------------------------------------------------------------------------------

  /** A step as the scheduler receives it; `None` for a repeat count that reads as NaN. */
  datatype StepChord = StepChord(notes: seq<Event>, localRepeats: Option<int>)

  /** The first event has no `freq` of its own (groups, strokes, rests and chord notes). A tone
    * whose stored `freq` is `null` (a NaN frequency after JSON) is `None` here too and so counts
    * as missing, where `typeof null` is `'object'` and the source keeps the stored events. */
  predicate FreqMissing(e: Event) {
    !(e.Single? && e.sound.Tone? && e.sound.freq.Some?)
  }

  /** The stored events, or the parse of the source text when the first event has no
    * frequency, a parser is at hand and there is source text. */
  function StepNotes(notes: seq<Event>, sourceText: string, parse: Option<string -> seq<Event>>): seq<Event> {
    if |notes| > 0 && FreqMissing(notes[0]) && parse.Some? && sourceText != "" then parse.value(sourceText)
    else notes
  }

  /** One card's step, `None` when its events do not parse (the card is skipped). */
  function StepOf(parse: Option<string -> seq<Event>>): Card -> Option<StepChord> {
    (c: Card) => match c.notes
      case None => None
      case Some(ns) => Some(StepChord(StepNotes(ns, c.sourceText, parse), ReadRepeats(c.repeats)))
  }

  /** getProgressionChords: the steps of the cards whose events parse, in stage order. */
  function StepChords(cards: seq<Card>, parse: Option<string -> seq<Event>>): seq<StepChord> {
    Somes(Map(cards, StepOf(parse)))
  }

  /** Every card whose events parse gives one step, in order, and no other card does. */
  lemma StepChordsCount(cards: seq<Card>, parse: Option<string -> seq<Event>>)
    ensures |StepChords(cards, parse)| <= |cards|
    ensures (forall i :: 0 <= i < |cards| ==> cards[i].notes.Some?) ==>
      |StepChords(cards, parse)| == |cards| &&
      forall i :: 0 <= i < |cards| ==> StepChords(cards, parse)[i] == StepOf(parse)(cards[i]).value
  {
    if forall i :: 0 <= i < |cards| ==> cards[i].notes.Some? {
      AllPresent(Map(cards, StepOf(parse)));
    }
  }

  /** With every value present, the kept values are the values themselves. */
  lemma {:induction false} AllPresent<T>(opts: seq<Option<T>>)
    requires forall i :: 0 <= i < |opts| ==> opts[i].Some?
    ensures |Somes(opts)| == |opts|
    ensures forall i :: 0 <= i < |opts| ==> Somes(opts)[i] == opts[i].value
  {
    if |opts| > 0 {
      AllPresent(opts[1..]);
    }
  }

  /** A card whose first event has no frequency is played from the parse of its source
    * text when a parser is at hand. */
  lemma StepOfFreqless(card: Card, p: string -> seq<Event>)
    requires card.notes.Some? && |card.notes.value| > 0 && FreqMissing(card.notes.value[0])
    requires card.sourceText != ""
    ensures StepOf(Some(p))(card) == Some(StepChord(p(card.sourceText), ReadRepeats(card.repeats)))
  {
  }

  /** The stored chord notes carry no frequency. */
  lemma {:induction false} NoFreqVoicing(v: seq<NoteVal>, e: Event)
    requires e in Map(v, AsEvent)
    ensures FreqMissing(Clone(e))
  {
  }

  /** A chord card whose voicing is not empty is played, when a parser is at hand, from the
    * parse of its written-out notes, since chord notes carry no frequency. */
  lemma ChordCardReparsed(c: Entry, title: Option<string>, count: nat, p: string -> seq<Event>)
    requires |BaseVoicing(c)| > 0
    ensures var card := Added(Some(c), None, title, "", 1, count);
      StepOf(Some(p))(card) == Some(StepChord(p(card.sourceText), Some(1)))
  {
    var sorted := PitchSorted(Map(BaseVoicing(c), AsEvent));
    var card := Added(Some(c), None, title, "", 1, count);
    assert card.notes == Some(Map(sorted, Clone)) && card.sourceText == Join(Map(sorted, PitchToken), " ") &&
           card.repeats == "" by {
      ChordCard(c, title, count);
    }
    assert |sorted| > 0 && FreqMissing(Clone(sorted[0])) by {
      assert multiset(sorted) == multiset(Map(BaseVoicing(c), AsEvent));
      assert sorted[0] in multiset(Map(BaseVoicing(c), AsEvent));
      NoFreqVoicing(BaseVoicing(c), sorted[0]);
    }
    assert card.sourceText != "" by {
      var tokens := Map(sorted, PitchToken);
      assert |tokens[0]| > 0;
      JoinFirstChar(tokens, " ");
    }
    StepOfFreqless(card, p);
  }

  /** exportProgressionData's record for one card. */
  datatype Record = Record(name: string, text: string, repeats: Option<int>)

  function RecordOf(c: Card): Record {
    Record(c.title, c.sourceText, ReadRepeats(c.repeats))
  }

  // ---------------------------------------------------------------------------------
  // Loading
  // ---------------------------------------------------------------------------------

  /** `r.repeats`, with a missing or NaN count compared as a number that is not positive. */
  function RepeatsOf(r: Record): int {
    r.repeats.GetOr(0)
  }

  /** loadProgressionData for one record: skipped without text, otherwise added as a phrase
    * and, with more than one repeat, updated with the record. */
  function LoadStep(cards: seq<Card>, r: Record, parse: string -> seq<Event>): seq<Card> {
    if r.text == "" then cards
    else
      var added := Added(None, Some(parse(r.text)), Some(r.name), r.text, 1, |cards|);
      if RepeatsOf(r) > 1 then cards + [Updated(added, r.name, r.text, RepeatsOf(r), parse(r.text))]
      else cards + [added]
  }

  function Loader(parse: string -> seq<Event>): (seq<Card>, Record) -> seq<Card> {
    (cards: seq<Card>, r: Record) => LoadStep(cards, r, parse)
  }

  /** The cards obtained by feeding the records, one after the other, to `step`. */
  function Fed(data: seq<Record>, step: (seq<Card>, Record) -> seq<Card>): seq<Card> {
    if |data| == 0 then [] else step(Fed(data[..|data| - 1], step), data[|data| - 1])
  }

  /** The stage after loading `data` into a cleared stage. */
  function Loaded(data: seq<Record>, parse: string -> seq<Event>): seq<Card> {
    Fed(data, Loader(parse))
  }

  lemma FedPrefix(data: seq<Record>, i: nat, step: (seq<Card>, Record) -> seq<Card>)
    requires i < |data|
    ensures Fed(data[..i + 1], step) == step(Fed(data[..i], step), data[i])
  {
    assert data[..i + 1][..i] == data[..i];
  }

  /** A record the stage saves and loads back unchanged: it has text, a name of its own and
    * a repeat count of at least one. */
  predicate Faithful(r: Record) {
    r.text != "" && !IsGeneric(Some(r.name)) && r.repeats.Some? && r.repeats.value >= 1
  }

  /** A faithful record loads as one card whose record is the record itself. */
  lemma LoadStepRecord(before: seq<Card>, r: Record, parse: string -> seq<Event>)
    requires Faithful(r)
    ensures Map(LoadStep(before, r, parse), RecordOf) == Map(before, RecordOf) + [r]
  {
    var added := Added(None, Some(parse(r.text)), Some(r.name), r.text, 1, |before|);
    var last := if RepeatsOf(r) > 1 then Updated(added, r.name, r.text, RepeatsOf(r), parse(r.text)) else added;
    assert LoadStep(before, r, parse) == before + [last];
    assert RecordOf(last) == r by {
      ReadStoredRepeats(RepeatsOf(r) > 0, RepeatsOf(r));
    }
    MapConcat(before, [last], RecordOf);
  }

  /** Feeding records to a step that records each faithful one as itself. */
  lemma {:induction false} FedRecords(data: seq<Record>, step: (seq<Card>, Record) -> seq<Card>)
    requires forall i :: 0 <= i < |data| ==> Faithful(data[i])
    requires forall before, r :: Faithful(r) ==> Map(step(before, r), RecordOf) == Map(before, RecordOf) + [r]
    ensures Map(Fed(data, step), RecordOf) == data
  {
    if |data| > 0 {
      var init := data[..|data| - 1];
      FedRecords(init, step);
      SplitLast(data);
    }
  }

  /** Loading records and exporting the stage gives the records back. */
  lemma ExportLoad(data: seq<Record>, parse: string -> seq<Event>)
    requires forall i :: 0 <= i < |data| ==> Faithful(data[i])
    ensures Map(Loaded(data, parse), RecordOf) == data
  {
    forall before, r | Faithful(r)
      ensures Map(Loader(parse)(before, r), RecordOf) == Map(before, RecordOf) + [r]
    {
      LoadStepRecord(before, r, parse);
    }
    FedRecords(data, Loader(parse));
  }

  /** Feeding records to a step that adds one card per record with text. */
  lemma {:induction false} FedCount(data: seq<Record>, step: (seq<Card>, Record) -> seq<Card>)
    requires forall before, r :: |step(before, r)| == |before| + (if r.text != "" then 1 else 0)
    ensures |Fed(data, step)| == CountWhere(data, (r: Record) => r.text != "")
  {
    if |data| > 0 {
      FedCount(data[..|data| - 1], step);
      SplitLast(data);
      FilterAppend(data[..|data| - 1], data[|data| - 1], (r: Record) => r.text != "");
    }
  }

  /** Loading keeps one card per record with text. */
  lemma LoadedCount(data: seq<Record>, parse: string -> seq<Event>)
    ensures |Loaded(data, parse)| == CountWhere(data, (r: Record) => r.text != "")
  {
    FedCount(data, Loader(parse));
  }

  // ---------------------------------------------------------------------------------
  // The stage
  // ---------------------------------------------------------------------------------

  class Stage {
    /** The `.progression-item` elements of the stage container, left to right. */
    var cards: seq<Card>

    constructor()
      ensures cards == []
    {
      cards := [];
    }

    /** getNextDefaultName. */
    method NextDefaultName() returns (name: string)
      ensures name == DefaultName(|cards|)
    {
      var count := |cards|;
      var charCode := 65 + count % 26;
      name := [charCode as char];
      if count >= 26 {
        name := name + NatToString(count / 26 + 1);
      }
    }

    /** addChordToProgression: the new card goes to the end of the stage. */
    method Add(chord: Option<Entry>, specific: Option<seq<Event>>, title: Option<string>, rawText: string,
               defaultRepeats: int)
      modifies this
      ensures cards == old(cards) + [Added(chord, specific, title, rawText, defaultRepeats, |old(cards)|)]
    {
      var actual := ActualNotes(chord, specific, title, rawText);
      var header;
      if rawText != "" && (chord.None? || chord.value.chord.name == "Custom Chord" ||
                           chord.value.chord.name == "Custom Arp" || chord.value.chord.name == "Musical Phrase") {
        header := FromText(TextPreview(rawText));
      } else {
        var pills := RenderPreview(actual);
        header := FromNotes(pills);
      }
      var card := Card(FinalLabel(title, chord, |cards|),
                       SourceText(rawText, DisplayTokens(chord, specific, title, rawText)),
                       Some(Map(actual, Clone)),
                       StoredRepeats(defaultRepeats > 1, defaultRepeats),
                       header,
                       Badge(defaultRepeats));
      cards := cards + [card];
    }

    /** updateProgressionItem on the card at position `i`, with the events the parser
      * gives for `text`. */
    method Update(i: nat, name: string, text: string, repeats: int, parsed: seq<Event>)
      requires i < |cards|
      modifies this
      ensures cards == old(cards)[i := Updated(old(cards)[i], name, text, repeats, parsed)]
    {
      var header;
      if text != "" {
        header := FromText(TextPreview(text));
      } else {
        var pills := RenderPreview(parsed);
        header := FromNotes(pills);
      }
      var stored := if repeats > 0 then IntToString(repeats) else "";
      cards := cards[i := Card(name, text, Some(parsed), stored, header, Badge(repeats))];
    }

    /** The remove button of the card at position `i`. */
    method Remove(i: nat)
      requires i < |cards|
      modifies this
      ensures cards == old(cards)[..i] + old(cards)[i + 1..]
      ensures |cards| == |old(cards)| - 1
    {
      cards := cards[..i] + cards[i + 1..];
    }

    /** The duplicate button of the card at position `i`; nothing is added when its events
      * do not parse. */
    method Duplicate(i: nat)
      requires i < |cards|
      modifies this
      ensures old(cards)[i].notes.None? ==> cards == old(cards)
      ensures old(cards)[i].notes.Some? ==> cards == old(cards) + [Duplicated(old(cards)[i], |old(cards)|)]
    {
      var card := cards[i];
      if card.notes.Some? {
        Add(Some(CopyChord), Some(card.notes.value), None, card.sourceText, 1);
      }
    }

    /** clearProgression. */
    method Clear()
      modifies this
      ensures cards == []
    {
      cards := [];
    }

    /** loadProgressionData. */
    method Load(data: seq<Record>, parse: string -> seq<Event>)
      modifies this
      ensures cards == Loaded(data, parse)
    {
      Clear();
      for i := 0 to |data|
        invariant cards == Fed(data[..i], Loader(parse))
      {
        FedPrefix(data, i, Loader(parse));
        LoadOne(data[i], parse);
      }
      assert data[..|data|] == data;
    }

    /** One record of loadProgressionData. */
    method LoadOne(r: Record, parse: string -> seq<Event>)
      modifies this
      ensures cards == LoadStep(old(cards), r, parse)
    {
      if r.text != "" {
        var parsed := parse(r.text);
        Add(None, Some(parsed), Some(r.name), r.text, 1);
        if RepeatsOf(r) > 1 {
          Update(|cards| - 1, r.name, r.text, RepeatsOf(r), parsed);
        }
      }
    }

    /** getProgressionChords. */
    method ProgressionChords(parse: Option<string -> seq<Event>>) returns (chords: seq<StepChord>)
      ensures chords == StepChords(cards, parse)
    {
      chords := [];
      for i := 0 to |cards|
        invariant chords == Somes(Map(cards[..i], StepOf(parse)))
      {
        SomesMapPrefix(cards, i, StepOf(parse));
        var card := cards[i];
        if card.notes.Some? {
          var notes := StepNotes(card.notes.value, card.sourceText, parse);
          chords := chords + [StepChord(notes, ReadRepeats(card.repeats))];
        }
      }
      assert cards[..|cards|] == cards;
    }

    /** exportProgressionData. */
    method ExportData() returns (data: seq<Record>)
      ensures data == Map(cards, RecordOf)
    {
      data := [];
      for i := 0 to |cards|
        invariant data == Map(cards[..i], RecordOf)
      {
        MapPrefix(cards, i, RecordOf);
        var card := cards[i];
        data := data + [Record(card.title, card.sourceText, ReadRepeats(card.repeats))];
      }
      assert cards[..|cards|] == cards;
    }
  }
}
