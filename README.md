# Handpan — a verified model of the app's core

The handpan app lets a player pick or generate a handpan scale (a centre *ding* plus a ring of
side notes), find the chords that scale can sound, write rhythms in a small text notation
(`K (1 3)/2 E3|G3 -`), arrange chord and rhythm steps on a progression stage, and play the
stage back through a lookahead scheduler. This project models, in Dafny, the parts of that
app that carry its behaviour:

- **Rhythm-notation parser** (`parser.dfy`, from `js/logic/parser.js`): tokenising, `(…)/d`
  runs with a decimal divisor read like `parseFloat` (zero, negative and NaN become 1),
  `|`-alternatives, percussion / rest / pitch / degree tokens, and the ding / tone-circle
  partition of the layout that degrees resolve against.
- **Chord engine** (`constants.dfy`, `pitch.dfy`, `chords.dfy`, `generate.dfy`,
  `chord_map.dfy`, from `js/logic/chords.js` and `js/data/constants.js`): note-name parsing,
  the ordered chord tables, `identifyChord`'s first-match search, and `generateChords`'
  combination enumeration, dedup, arpeggios and sorting.
- **Lookahead scheduler** (`scheduler.dfy`, from `js/logic/progression.js`): a class holding
  the playing flag, `nextNoteTime`, the step state and the armed timer; the audio clock is a
  `now` parameter and the audio engine is a log of triggers.
- **UI helpers**: the editor's reconstruction and save defaults (`editor.dfy`), scale
  generation and the custom-scale form (`scale_gen.dfy`), the visualiser's numbering and
  labels (`visualizer.dfy`), the chord grid's categories, ordering, badges and modal preview
  loop (`chord_grid.dfy`), and the progression stage's names, records and previews
  (`progression_ui.dfy`).
- **Data** (`scales.dfy`, `storage.dfy`): custom scales and saved compositions as in-memory
  lists, the short-key share link and its decoder.
- **The earlier single-file script** (`legacy_*.dfy`, from `script_legacy.js`): its MIDI
  naming, template scales, chord table, integer-divisor parser with its round-tripping
  reconstruction, and its per-wake repeat-counter scheduler.

Shared pieces: `wrappers.dfy` (Option), `text.dfy` (the JavaScript string built-ins the code
relies on), `seqs.dfy` (generic sequence lemmas), `sorting.dfy` (`Array.prototype.sort` with a
comparator, as a stable insertion sort proved sorted, a permutation and stable) and
`events.dfy` (the event objects the parser, editor and scheduler share).

Frequencies are integer MIDI numbers: frequency is strictly increasing in MIDI, so each
"sort by frequency" is a sort by MIDI, and a missing or unusable frequency is `None`. Times
and durations are `real` seconds. The browser (DOM, localStorage, the URL, timers, the audio
context) is either a parameter (`now`, stored text, user input) or in-memory state of a
class.

## Model

| member | source | states |
|---|---|---|
| Constants.NoteToMidi | js/data/constants.js:5-8 | a known spelling maps to a semitone in 0..11; anything else is `undefined` |
| Constants.NoteToMidiKnown | js/data/constants.js:5-8 | each of the 17 spellings of the table is known |
| Constants.NoteToMidiEnharmonic | js/data/constants.js:6-7 | the sharp and flat spelling of each black key map to the same semitone (1, 3, 6, 8, 10) |
| Constants.NoteToMidiUnknown | js/data/constants.js:5-8 | a spelling outside the table (such as `E#`) is unknown |
| Constants.Priority | js/data/constants.js:27-41 | a chord type with a priority has one in 1..8; other names are `undefined` |
| Constants.ChordTypeIntervals | js/data/constants.js:11-25 | every interval list of CHORD_TYPES is strictly ascending and within 1..11 |
| Constants.ChordTypesDistinct | js/data/constants.js:11-25 | no two chord types share a name or an interval list |
| Constants.SingleIntervalTypes | js/data/constants.js:12-24 | only `5`, `M3` and `m3` require a single interval |
| Constants.PrioritiesCoverTypes | js/data/constants.js:11-41 | every chord type has an entry in CHORD_TYPE_PRIORITY |
| Pitch.JsRem12 | js/logic/chords.js:6 | JavaScript's `%` by 12: the remainder lies in -11..11, has the sign of the dividend and differs from it by a multiple of 12 |
| Pitch.GetNoteName | js/logic/chords.js:4-7 | a non-negative value names a sharp spelling whose semitone is the value mod 12; a negative value with a negative remainder gives `undefined` |
| Pitch.MatchPitch | js/logic/chords.js:11 | the pitch pattern `[A-G][#b]?` plus an octave digit: a match splits the name into a one- or two-character spelling and a digit that write it back |
| Pitch.MatchPitchOf | js/logic/chords.js:11 | a spelling followed by an octave digit is matched back to that spelling and octave |
| Pitch.ParseNoteName | js/logic/chords.js:9-18 | a note is read exactly when the name without a leading `D:` matches the pattern; its value lies in -36..71 and it keeps the spelling and octave matched |
| Pitch.ParseNoteNameValue | js/logic/chords.js:15-17 | the value is twelve per octave plus the semitone, relative to C3, with semitone 0 for an unknown spelling |
| Pitch.NoteNameRoundTrip | js/logic/chords.js:4-18 | a name from getNoteName followed by an octave 0..8 parses back to that spelling, octave and value |
| Pitch.FrequencyMidi | js/logic/chords.js:20-28 | the frequency, as the MIDI number it is computed from, lies in 12..119 when it is not falsy |
| Pitch.FrequencyMatchesValue | js/logic/chords.js:20-28 | a frequency exists exactly for a parseable name with a known spelling, and its MIDI number is the parsed value plus 48 |
| Pitch.SortNotesByPitch | js/logic/chords.js:30-35 | the copy is a permutation of the notes, ordered by octave times 12 plus semitone, and keeps notes of equal key in their original order |
| Events.StepLength | js/logic/progression.js:202 | `evt.duration \|\| 1`: the duration when it is present and non-zero, 1 otherwise, and never 0 |
| Text.ToUpper | js/logic/parser.js:59 | `toUpperCase` on ASCII: same length, each lower-case letter raised and every other character kept |
| Text.CapitalOffset | js/data/storage.js:116-118 | the capitals whose `toLowerCase` is modelled: A-Z, U+00C0-00DE without U+00D7, U+0391-03A9 without U+03A2 and U+0410-042F move by 32 code points, U+0400-040F by 80; every other character by 0 |
| Text.FoldChar | js/data/storage.js:116-118 | `toLowerCase` on one character of those ranges: such a capital becomes its small letter, and the result is none of those capitals |
| Text.FoldCase | js/data/storage.js:116-118 | `toLowerCase` on a string, over the ranges CapitalOffset names: same length, every character folded on its own |
| Text.FoldCaseIdempotent | js/data/storage.js:116-118 | folding a folded key changes nothing |
| Text.Words | js/ui/modals.js:389 | `trim().split(/\s+/).filter(n => n)`: the words are non-empty and hold no white space |
| Text.WordsJoin | js/ui/modals.js:362 | non-empty words without white space, joined by single spaces, split back into the same words |
| Text.Split | js/logic/parser.js:54 | `split(sep)`: at least one part, none containing the separator |
| Text.JoinSplit | js/logic/parser.js:54 | joining the parts of a split with the separator gives back the string |
| Text.SplitJoin | js/ui/progression.js:125 | splitting a join of separator-free parts gives back the parts |
| Text.Trim | js/ui/editor.js:91-92 | `trim()`: no longer than the input, and a non-empty result starts and ends with a non-space |
| Text.TrimIdempotent | js/ui/editor.js:91-92 | trimming twice is trimming once |
| Text.JsParseInt | js/ui/editor.js:93 | `parseInt`: a number is read only from a leading digit run (or `0x` prefix), after optional white space and sign; its sign follows the sign written |
| Text.JsParseIntDecimal | js/ui/editor.js:93 | a string starting with decimal digits reads as the value of its leading digit run |
| Text.JsParseIntInt | js/ui/editor.js:93 | `parseInt` of an integer written out in decimal gives the integer back |
| Text.NatToString | js/logic/progression.js:227 | the decimal digits of a natural number: non-empty, all digits, and worth the number |
| Text.IntToStringInverse | js/ui/editor.js:93 | an integer written in decimal reads back as itself |
| Sorting.SortBy | js/logic/chords.js:40 | `Array.prototype.sort` with a comparator: the result is a permutation of the input |
| Sorting.SortBySorted | js/logic/chords.js:40 | under a total preorder the sorted array is in order |
| Sorting.SortByStable | js/logic/chords.js:40 | the sort is stable: elements the comparator ties keep their relative order |
| Sorting.SortedUnique | js/logic/chords.js:97 | two ordered permutations of one multiset are equal under an antisymmetric order, so the sorted key does not depend on the input order |
| Sorting.SortBySortedIdentity | js/logic/chords.js:40 | sorting an already ordered array leaves it unchanged |
| Sorting.StringOrderTotal | js/logic/chords.js:97 | the default string order of `sort()` is a total, antisymmetric order |
| Seqs.Filter | js/logic/parser.js:168 | `filter`: a sub-multiset of the input holding exactly the elements that pass the test |
| Seqs.FilterPartition | js/logic/parser.js:168-173 | filtering by a test and by its negation splits the input's multiset in two |
| Seqs.FindIndex | js/data/scales.js:125 | `findIndex`: the first index whose element passes the test, or -1 exactly when none does |
| Seqs.Map | js/ui/editor.js:130 | `map`: same length, each element the function applied to the input's |
| Parser.TokenizeBy | js/logic/parser.js:11-12 | the shared tokenizer: at each position a group where the group alternative matches, else a run of non-space characters; every token is non-empty |
| Parser.Tokenize | js/logic/parser.js:11-12 | the token regex: a group with divisor `(…)/d` or a run of non-space characters; every token is non-empty |
| Parser.TokenizeWords | js/logic/parser.js:11-12 | without parentheses the tokens are exactly the white-space separated words |
| Parser.GroupMatch | js/logic/parser.js:17 | a token matches `^\(([^\)]+)\)\/([\d.,]+)$` exactly when it is `(` content `)/` divisor, the content non-empty without `)` and the divisor made of digits, dots and commas |
| Parser.ReplaceFirstComma | js/logic/parser.js:22 | `replace(',', '.')` keeps the length and leaves a comma-free string alone |
| Parser.ParseFloat | js/logic/parser.js:23 | `parseFloat` of a divisor string is a non-negative number or NaN |
| Parser.SafeDivisor | js/logic/parser.js:22-26 | the divisor used is the parsed value when it is a positive number and 1 when it is zero or NaN; it is always positive |
| Parser.SafeDivisorInteger | js/logic/parser.js:22-26 | a digit-only divisor is its integer value, or 1 when that is 0 |
| Parser.SafeDivisorComma | js/logic/parser.js:22 | a decimal comma reads like a decimal point |
| Parser.ParseFloatDecimal | js/logic/parser.js:23 | digits, a point and digits read as the integer part plus the fraction |
| Parser.ParseLayoutNote | js/logic/parser.js:128-146 | a layout name parses exactly when it is a pitch with an optional `D:` prefix; the note remembers its position, whether it had the prefix and its name without it |
| Parser.ParsedNames | js/logic/parser.js:148-151 | each layout name is parsed at its own position |
| Parser.LayoutNotesSpec | js/logic/parser.js:148-151 | the notes kept are the names that parse, each once, in layout order |
| Parser.FindNamed | js/logic/parser.js:160 | `find`: the first note named like `top[0]` (with or without `D:`), and none exactly when no note is |
| Parser.FindNamedFinds | js/logic/parser.js:160 | when some note is named like `top[0]`, the main ding is found |
| Parser.Partition | js/logic/parser.js:121-177 | getSortedScaleNotes raises its TypeError exactly when the top list is empty while some note parses |
| Parser.PartitionSplits | js/logic/parser.js:162-176 | dings and tone circle together hold every parsed note exactly once |
| Parser.PartitionAscending | js/logic/parser.js:173-174 | the tone circle is in ascending frequency |
| Parser.PartitionMainDing | js/logic/parser.js:159-170 | the main ding, when a note is named like `top[0]`, comes first among the dings; every other ding is marked `D:` |
| Parser.SplitByDings | js/logic/parser.js:162-173 | the dings and the notes not among them split the sorted notes |
| Parser.DingListShape | js/logic/parser.js:162-170 | the ding list starts with the main ding when there is one, and the rest are marked dings other than it |
| Parser.ToneListAscending | js/logic/parser.js:173-174 | the tone list, sorted by frequency, is ascending |
| Parser.LowestDingSpec | js/logic/parser.js:87-89 | the ding played for `D` or `0` is one of the dings, with the lowest frequency |
| Parser.Alt | js/logic/parser.js:57-110 | an alternative raises exactly when it is a degree symbol (`D` or digits) and the layout raised |
| Parser.PitchAlt | js/logic/parser.js:101-109 | an alternative matching the pitch pattern, in any case, is a tone |
| Parser.AltOther | js/logic/parser.js:101-109 | what is neither percussion, rest nor degree resolves as a pitch or to nothing |
| Parser.AltLong | js/logic/parser.js:101-109 | an alternative of two or more characters not starting with a digit is read as a pitch |
| Parser.ParseAlt | js/logic/parser.js:57-110 | an alternative raises exactly when it is a degree symbol while the layout has notes but no top list |
| Parser.AltPercussion | js/logic/parser.js:61-68 | `K`, `T`, `k`, `t` are percussion on the upper-cased hand, a ghost stroke exactly when lower-case; nothing else is percussion |
| Parser.AltRest | js/logic/parser.js:71-77 | `-` and only `-` is a rest |
| Parser.AltDing | js/logic/parser.js:85-90 | `D`, `d` and `0` give the lowest-frequency ding, or nothing when the layout has no dings |
| Parser.AltDegree | js/logic/parser.js:91-97 | a degree `n` other than `0` gives tone-circle note n (counted from 1) when there is one, and nothing otherwise |
| Parser.AltDoubleZero | js/logic/parser.js:80-97 | `00` is a degree read as 0 and resolves to nothing, not to the ding |
| Parser.AltPitch | js/logic/parser.js:101-109 | a pitch stores its spelling upper-cased, its octave digit and the frequency of the name as written |
| Parser.PitchFrequency | js/logic/parser.js:107 | a parsed pitch has a frequency exactly when its letter is upper-case, its accidental is `#` or `b`, its octave is at most 8 and its spelling is known |
| Parser.AltParenthesis | js/logic/parser.js:101-109 | an alternative holding a parenthesis resolves to nothing |
| Parser.ResolveAlts | js/logic/parser.js:54-110 | the alternatives of a token raise exactly when one of them raises |
| Parser.ResolveAltsKeeps | js/logic/parser.js:54-110 | otherwise the resolved alternatives are kept in order and those resolving to nothing are dropped |
| Parser.NoteToken | js/logic/parser.js:52-119 | a token that yields an event yields a group with at least one alternative |
| Parser.NoteTokenRaises | js/logic/parser.js:52-119 | a token raises exactly when the layout raised and the token holds a degree alternative |
| Parser.GroupPieces | js/logic/parser.js:28-39 | a group gives one piece per word of its content, each lasting 1 over the safe divisor |
| Parser.TokenPieces | js/logic/parser.js:14-47 | every piece lasts a positive time; a token without a divisor group is one piece of length 1 |
| Parser.Pieces | js/logic/parser.js:14-47 | every piece of the text lasts a positive time |
| Parser.PieceEvent | js/logic/parser.js:32-46 | a piece yields an event exactly when its token resolves to a group, which then carries the piece's duration |
| Parser.ParsePieces | js/logic/parser.js:14-49 | the text raises exactly when one of its pieces raises |
| Parser.ParsePiecesKeeps | js/logic/parser.js:14-49 | otherwise each piece contributes its event, in order, and pieces resolving to nothing are dropped |
| Parser.ParsePiecesShape | js/logic/parser.js:14-49 | there are no more events than pieces, each a non-empty group whose duration is one of the pieces' lengths |
| Parser.PiecesRaise | js/logic/parser.js:4-50 | parsing raises exactly when the layout raised and some piece holds a degree |
| Parser.ParseRhythmTotal | js/logic/parser.js:4-50 | with a non-empty top list parseRhythmString never raises |
| Parser.ParseRhythmRaises | js/logic/parser.js:4-50 | parseRhythmString raises exactly when the layout has notes but no top list and the text uses a degree |
| Chords.Interval | js/logic/chords.js:49-50 | the interval from root to note is the Euclidean remainder by 12, in 0..11 |
| Chords.IntervalsUpTo | js/logic/chords.js:45-54 | the intervals collected are in 1..11, without repeats, at most one per note scanned |
| Chords.IntervalsUpToMembers | js/logic/chords.js:47-54 | an interval is collected exactly when it is non-zero and some other note lies that far above the root |
| Chords.RootIntervalsFewer | js/logic/chords.js:47-54 | a root collects fewer intervals than there are notes |
| Chords.FirstFit | js/logic/chords.js:58-72 | the first chord type whose required intervals are all present and whose size is the number of other notes; none exactly when no type fits |
| Chords.FindRoot | js/logic/chords.js:43-75 | the first root, in ascending value order, with a fitting type, and that type; none exactly when no root has one |
| Chords.ChordTypesWellFormed | js/data/constants.js:11-25 | CHORD_TYPES has ascending interval lists, no two alike |
| Chords.Pigeonhole | js/logic/chords.js:59-63 | distinct required intervals, all present among no more collected intervals, are all of them |
| Chords.FitsUnique | js/logic/chords.js:58-72 | at most one chord type fits a root, so the type order of `Object.entries` does not change the result |
| Chords.IdentifySound | js/logic/chords.js:38-76 | a reported chord carries the input notes sorted by value, and its root and type are the first fitting pair with the intervals as signature |
| Chords.IdentifyReports | js/logic/chords.js:43-72 | the chord reported names the root and type where the search stopped |
| Chords.ReportReported | js/logic/chords.js:43-72 | on sorted notes, the chord is built from the first fitting root and type: name `root type`, signature the sorted intervals |
| Chords.IdentifyNone | js/logic/chords.js:38-76 | identifyChord returns null exactly when no root of the sorted notes fits any type |
| Chords.IdentifyOnlyType | js/logic/chords.js:58-72 | any type fitting the reported root is the reported type |
| Chords.IdentifyIdempotent | js/logic/chords.js:38-76 | identifying a reported chord's notes again reports the same chord |
| Chords.TwoNoteChord | js/logic/chords.js:58-72 | a chord of two notes is a `5`, `M3` or `m3` |
| Chords.CollectIntervals | js/logic/chords.js:45-55 | the inner loop collects the root's interval list |
| Chords.MatchType | js/logic/chords.js:58-73 | the loop over chord types finds the first fitting type |
| Chords.SortByValue | js/logic/chords.js:40 | sorts the array in place into the value order of the stable sort |
| Chords.SearchRoots | js/logic/chords.js:43-75 | the loop over roots reports the chord of the sorted notes |
| Chords.IdentifyChord | js/logic/chords.js:38-76 | identifyChord sorts its argument in place and returns the chord identified from the original notes |
| Generate.CombineShape | js/logic/chords.js:83-110 | every combination `combine(arr, k, start, current)` produces has k strictly increasing indices and extends `current` |
| Generate.AllCombosShape | js/logic/chords.js:113-115 | the combinations tried have 2, 3 or 4 strictly increasing indices |
| Generate.Pick | js/logic/chords.js:108 | the notes of a combination are the handpan notes at its indices, in order |
| Generate.FoundChords | js/logic/chords.js:84-86 | every chord found from a combination is reported again by identifyChord from its own notes, which are a sorted combination |
| Generate.DedupKeyCanonical | js/logic/chords.js:97-98 | two voicings share the key `values.sort().join('-')` exactly when they hold the same multiset of values |
| Generate.ValueStringsRoundTrip | js/logic/chords.js:97 | the values written as strings read back as the values |
| Generate.FindName | js/logic/chords.js:89 | `chordMap.has(key)`: the entry under a chord name, or none exactly when no entry has that name |
| Generate.CollectConcat | js/logic/chords.js:113-115 | recording two runs of chords in turn is recording them together |
| Generate.CombineFromStep | js/logic/chords.js:107-109 | one turn of the `for` loop of combine records the combinations through index i, then those after it |
| Generate.NewEntryGood | js/logic/chords.js:89-93 | a new entry `{...chord, voicings: [chord.notes]}` satisfies the chord-map invariant |
| Generate.ExtendEntryGood | js/logic/chords.js:96-102 | pushing a voicing with a new key keeps the entry's invariant |
| Generate.AddChordGood | js/logic/chords.js:86-104 | recording a found chord keeps the chord-map invariant: distinct names, each entry a found chord whose voicings come from combinations, are named by the entry and have distinct keys |
| Generate.AddNewGood | js/logic/chords.js:89-93 | recording a chord under a new name keeps the invariant |
| Generate.AddVoicingGood | js/logic/chords.js:94-102 | recording a new voicing of a known chord keeps the invariant |
| Generate.CollectGood | js/logic/chords.js:84-104 | recording found chords one by one keeps the invariant |
| Generate.GroupedGood | js/logic/chords.js:80-115 | the grouped chord map satisfies the invariant |
| Generate.AddChordExtends | js/logic/chords.js:86-104 | recording a chord only adds entries and voicings, and afterwards the chord is recorded under its name with a voicing of its key |
| Generate.CollectRecords | js/logic/chords.js:84-104 | after recording a run of chords every one of them is recorded, and nothing earlier is lost |
| Generate.CombineComplete | js/logic/chords.js:83-110 | every increasing combination of k indices extending `current` is produced by combine |
| Generate.AllCombosComplete | js/logic/chords.js:113-115 | every increasing combination of 2 to 4 indices is tried |
| Generate.NamedIsFound | js/logic/chords.js:83-115 | a chord identified from any such combination is among the chords found |
| Generate.ArpeggioMembers | js/logic/chords.js:121-122 | the arpeggio holds exactly the handpan notes named like a note of the chord, each as often as on the handpan |
| Generate.VoicingOrderTotal | js/logic/chords.js:135-146 | the voicing comparator (root in the bass first, then by value sum) is a total preorder |
| Generate.ResultOrderTotal | js/logic/chords.js:149-155 | the result comparator (priority, then root name) is a total preorder |
| Generate.FinishGood | js/logic/chords.js:120-147 | finishing an entry gives a good result: its voicings sorted, the chord's own notes among them, and the arpeggio attached |
| Generate.GenerateNamesDistinct | js/logic/chords.js:79-158 | no two chords generated share a name |
| Generate.GenerateGood | js/logic/chords.js:79-158 | every chord generated is a good result |
| Generate.GenerateSorted | js/logic/chords.js:149-157 | the generated chords are in result order |
| Generate.GenerateComplete | js/logic/chords.js:79-158 | every chord identified from a combination of 2 to 4 handpan notes is recorded in the result |
| Generate.FoundTypeInTable | js/logic/chords.js:58-72 | a found chord's type is one of the table's types |
| Generate.GenerateChordsPriorities | js/logic/chords.js:150-151 | every generated chord has a priority of at most 8, so the `\|\| 99` fallback never applies |
| ChordMaps.ChordMap.Record | js/logic/chords.js:86-104 | records one identified chord into the map as the grouping logic does |
| ChordMaps.ChordMap.Try | js/logic/chords.js:84-105 | a full combination is identified and, when it is a chord, recorded |
| ChordMaps.ChordMap.Combine | js/logic/chords.js:83-110 | the recursive combine records the chords of every combination it produces, in order |
| ChordMaps.ChordMap.Extend | js/logic/chords.js:107-109 | the `for` loop of combine records the chords of the combinations from `start` on |
| ChordMaps.ChordMap.Branch | js/logic/chords.js:108 | one recursive call of the loop, followed by the rest, records what the loop from i does |
| ChordMaps.SortVoicings | js/logic/chords.js:135-146 | sorts the voicings in place into voicing order |
| ChordMaps.SortResults | js/logic/chords.js:149-155 | sorts the results into result order |
| ChordMaps.CombineAll | js/logic/chords.js:113-115 | the three combine calls build the grouped chord map |
| ChordMaps.FinishEntry | js/logic/chords.js:120-147 | attaches the arpeggio and sorts the voicings of one entry |
| ChordMaps.FinishAll | js/logic/chords.js:120-147 | finishes every entry, in order |
| ChordMaps.GenerateChordsWith | js/logic/chords.js:79-158 | generateChords returns `GenerateWith(types, notes)` (which GenerateGood and GenerateComplete describe), its chord names are distinct, and it is sorted by priority then root |
| ChordMaps.GenerateChordsMethod | js/logic/chords.js:79-158 | generateChords with CHORD_TYPES |
| Scheduler.Eighth | js/logic/progression.js:196-197 | an eighth note at a positive tempo lasts a positive time |
| Scheduler.EffRepeats | js/logic/progression.js:163 | `localRepeats \|\| 1`: the chord's own count unless it is 0, then 1; never 0 |
| Scheduler.FreqOf | js/logic/progression.js:227 | `n.freq \|\| getFrequencyForNoteName(...)`: the stored frequency when present, otherwise the one computed from note and octave |
| Scheduler.PlayTone | js/logic/progression.js:229-237 | a note sounds once, for 3.0 s at its time, exactly when it has a frequency; otherwise nothing plays |
| Scheduler.AltTriggers | js/logic/progression.js:222-238 | percussion plays a tak (the alternate sound for `T`), a rest plays nothing, a tone plays its frequency |
| Scheduler.GroupTriggers | js/logic/progression.js:222-239 | a group plays at most one sound per alternative, all at the event's time |
| Scheduler.Dispatch | js/logic/progression.js:215-254 | whatever one event plays sounds at the event's own time |
| Scheduler.DispatcherFacts | js/logic/progression.js:215-254 | the dispatcher plays at the given time, and how many sounds it plays does not depend on the time |
| Scheduler.SpanStep | js/logic/progression.js:201-204 | the single-pass length grows by an eighth times each event's length |
| Scheduler.PassStep | js/logic/progression.js:211-257 | one more event of a pass plays at loop start plus the length of the events before it |
| Scheduler.SequenceStep | js/logic/progression.js:207-258 | pass r starts at `startTime + r * singleSequenceDuration` |
| Scheduler.TimesProduct | js/logic/progression.js:208 | the repeated sum used by the model equals `r * singleSequenceDuration` |
| Scheduler.WakeDelay | js/logic/progression.js:185-191 | the next wake is `max(10, (delay - 0.1) * 1000)` ms: at least 10 and never earlier than 0.1 s before the next note |
| Scheduler.WokenStep | js/logic/progression.js:128-191 | a wake in range schedules the chord at the (wrapped) index, advances time by its length, moves the index on and sets the timer |
| Scheduler.StepSpanOf | js/logic/progression.js:163-176 | a chord lasts its repeat count times the length of one pass |
| Scheduler.StopFinal | js/logic/progression.js:91-99 | after a stop nothing plays and no timer is pending; a later wake or resume changes nothing |
| Scheduler.StartResets | js/logic/progression.js:42-64 | a start stops any playback, takes the chords, resets index and repeat, and loops unless the settings say otherwise |
| Scheduler.WakeStops | js/logic/progression.js:114-124 | a wake with no chords, or past the end without looping, stops |
| Scheduler.WakeSchedules | js/logic/progression.js:119-191 | any other wake keeps playing, moves to the next index and schedules the chord's triggers at the next note time |
| Scheduler.InRangeKept | js/logic/progression.js:111-191 | every transition keeps the index within the chord list |
| Scheduler.StartPlaysFirst | js/logic/progression.js:42-89 | a started progression plays its first chord 0.05 s after the resume time |
| Scheduler.WakeRan | js/logic/progression.js:128-191 | a wake inside the list runs exactly the chord at the index |
| Scheduler.RunThrough | js/logic/progression.js:111-191 | successive wakes run the chords in list order, back to back: time advances by their total length and the triggers are theirs, in order |
| Scheduler.AtEnd | js/logic/progression.js:119-126 | at the end of the list a looping progression plays the first chord again; otherwise it stops |
| Scheduler.SpanPositive | js/logic/progression.js:200-204 | a pass of events with positive lengths lasts a positive time |
| Scheduler.PassTimes | js/logic/progression.js:210-257 | all sounds of a pass lie within the pass and in time order |
| Scheduler.SequenceTimes | js/logic/progression.js:207-258 | all sounds of the repeated sequence lie within its total length and in time order |
| Scheduler.StepTimes | js/logic/progression.js:176-179 | the sounds of a chord lie between the next note time and that time plus the chord's length |
| Scheduler.GroupCount | js/logic/progression.js:222-239 | a group plays one sound per alternative that sounds |
| Scheduler.SequenceCount | js/logic/progression.js:207-258 | the sequence plays the same sounds in each of its repeats |
| Scheduler.StepCount | js/logic/progression.js:163-176 | a chord plays its repeat count times the sounds of one pass |
| Scheduler.ProgressionScheduler.PassLength | js/logic/progression.js:200-204 | the first forEach computes the length of one pass |
| Scheduler.ProgressionScheduler.constructor | js/logic/progression.js:5-17 | the module's initial state: stopped, tempo 100, looping, no chords |
| Scheduler.ProgressionScheduler.SetTempo | js/logic/progression.js:30-32 | only the tempo changes |
| Scheduler.ProgressionScheduler.Stop | js/logic/progression.js:91-99 | stopProgression: the state becomes the stopped state, with all sounds silenced |
| Scheduler.ProgressionScheduler.StartBegin | js/logic/progression.js:42-64 | the synchronous part of startProgression |
| Scheduler.ProgressionScheduler.StartResume | js/logic/progression.js:81-85 | the part after the audio context resumes: abort if stopped, else schedule from now + 0.05 |
| Scheduler.ProgressionScheduler.Toggle | js/logic/progression.js:101-109 | toggleProgression stops a playing progression and starts a stopped one, returning whether it started |
| Scheduler.ProgressionScheduler.Wake | js/logic/progression.js:111-192 | a wake moves the scheduler to `Woken(old state, now)`, the function WakeStops, WakeSchedules and AtEnd describe |
| Scheduler.ProgressionScheduler.PlayStep | js/logic/progression.js:128-191 | the scheduling branch of a wake |
| Scheduler.ProgressionScheduler.ScheduleSequence | js/logic/progression.js:194-261 | scheduleSequence returns `repeats * singleSequenceDuration` and appends `SequenceTriggers(...)` to the log, whose times SequenceTimes bounds |
| Scheduler.ProgressionScheduler.ScheduleRepeats | js/logic/progression.js:207-260 | the repeat loop plays each pass in turn |
| Scheduler.ProgressionScheduler.RepeatPass | js/logic/progression.js:208-257 | one turn of the repeat loop plays one more pass |
| Scheduler.ProgressionScheduler.PassStart | js/logic/progression.js:208 | `startTime + r * singleSequenceDuration` |
| Scheduler.ProgressionScheduler.Total | js/logic/progression.js:260 | `repeats * singleSequenceDuration` |
| Scheduler.ProgressionScheduler.SchedulePass | js/logic/progression.js:210-257 | one forEach over the events appends exactly the pass's triggers (`PassTriggers`) to the log |
| Scheduler.ProgressionScheduler.PlayEvent | js/logic/progression.js:215-254 | one event appends exactly `Dispatch(evt, time)` to the log: nothing for a rest, one tak for percussion, one action per alternative for a group |
| Scheduler.ProgressionScheduler.PlayGroup | js/logic/progression.js:222-239 | a group's alternatives are played in order |
| ProgressionUi.Letter | js/ui/progression.js:33 | the card letter is always one of `A`..`Z` |
| ProgressionUi.DefaultName | js/ui/progression.js:30-39 | the default name starts with a capital letter; it is that letter alone exactly for the first 26 cards, and otherwise followed by digits only |
| ProgressionUi.DefaultNameInjective | js/ui/progression.js:30-39 | two different card counts never get the same default name |
| ProgressionUi.DefaultNameRound | js/ui/progression.js:35-37 | from the 27th card on, the digits after the letter read back as `floor(count / 26) + 1` |
| ProgressionUi.PitchSorted | js/ui/progression.js:105-115 | sorting a chord's notes by pitch keeps the same notes and puts them in ascending pitch order |
| ProgressionUi.BaseVoicing | js/ui/progression.js:110-114 | a chord card starts from a three-note voicing on the root when one exists, and from the arpeggio when the chord has no voicings |
| ProgressionUi.SourceText | js/ui/progression.js:142 | the stored text is the raw text when one was given, otherwise the displayed tokens joined by spaces |
| ProgressionUi.Clone | js/ui/progression.js:133-139 | the stored copy of an event carries an explicit duration equal to its step length, and keeps its kind, alternatives and sound |
| ProgressionUi.CloneIdempotent | js/ui/progression.js:133-139 | cloning a clone changes nothing |
| ProgressionUi.ClonesKeepLengths | js/ui/progression.js:133-139 | cloning a sequence of events keeps every step length, so positive lengths stay positive |
| ProgressionUi.FinalLabel | js/ui/progression.js:153-172 | the card label is never empty nor "Custom Chord"; a non-generic label is kept; a generic one takes the chord's own name when it has one |
| ProgressionUi.FinalLabelIsNext | js/ui/progression.js:159-171 | without a usable label or chord name the card is named like `getNextDefaultName`, and two consecutive cards get different names |
| ProgressionUi.NotesPreviewBounds | js/ui/progression.js:377-401 | the note preview shows at most six pills plus an ellipsis exactly when there are more than six events; one pill per event in order |
| ProgressionUi.RenderPreview | js/ui/progression.js:377-401 | the loop building the preview yields exactly the preview function |
| ProgressionUi.Shorten | js/ui/progression.js:417-420 | a text preview longer than 20 is cut to its first 20 plus `...`, and kept whole otherwise (lengths in Unicode characters) |
| ProgressionUi.TextPreview | js/ui/progression.js:415-427 | an empty text shows nothing; any other text shows at least one token |
| ProgressionUi.TextPreviewWords | js/ui/progression.js:415-427 | a short text made of words joined by single spaces previews as exactly those words |
| ProgressionUi.Badge | js/ui/progression.js:304-316 | the repeat badge is shown exactly when the count is above 1, and shows that count |
| ProgressionUi.ReadRepeats | js/ui/progression.js:58-77 | a card without a stored count reads as 1 |
| ProgressionUi.ReadStoredRepeats | js/ui/progression.js:88-210 | a count written to the card reads back as itself; a removed count reads back as 1 |
| ProgressionUi.AddedFields | js/ui/progression.js:84-193 | an added card keeps the raw text, stores the cloned notes, reads back its default repeats (or 1) and shows a badge exactly when that is above 1 |
| ProgressionUi.UpdatedFields | js/ui/progression.js:195-225 | an edited card takes the new name, text and parsed notes; a positive count is stored and read back, any other reads as 1; the badge shows exactly above 1 |
| ProgressionUi.PhraseCard | js/ui/progression.js:118-148 | a phrase card keeps its events cloned and unsorted, its text verbatim, previews the text, and has no repeats or badge |
| ProgressionUi.ChordCard | js/ui/progression.js:109-142 | a chord card stores its base voicing sorted by pitch (same notes) and its text is the sorted notes' names |
| ProgressionUi.DuplicateCopies | js/ui/progression.js:256-262 | duplicating a card adds a card named "Copy" with the same notes and text (or the notes' names when the text is empty), repeats 1 and no badge |
| ProgressionUi.StepChordsCount | js/ui/progression.js:41-66 | playback gets at most one chord per card, and exactly one per card, in order, when every card holds notes |
| ProgressionUi.StepOfFreqless | js/ui/progression.js:52-56 | a card whose first note has no frequency is played from its source text re-parsed |
| ProgressionUi.ChordCardReparsed | js/ui/progression.js:52-117 | a chord card's voicing has no stored frequency, so playback always re-parses its text, with one repeat |
| ProgressionUi.LoadStepRecord | js/ui/progression.js:326-348 | loading one saved record appends a card that exports back as that record |
| ProgressionUi.ExportLoad | js/ui/progression.js:68-348 | exporting what was loaded gives back the saved records |
| ProgressionUi.LoadedCount | js/ui/progression.js:330-331 | loading creates one card per record with a non-empty text and skips the others |
| ProgressionUi.Stage.constructor | js/ui/progression.js:318-324 | a new stage is empty |
| ProgressionUi.Stage.NextDefaultName | js/ui/progression.js:30-39 | the next default name is computed from the current number of cards |
| ProgressionUi.Stage.Add | js/ui/progression.js:84-193 | adding appends exactly the added card and leaves the others untouched |
| ProgressionUi.Stage.Update | js/ui/progression.js:195-225 | editing replaces exactly the edited card |
| ProgressionUi.Stage.Remove | js/ui/progression.js:275-280 | removing deletes exactly that card, keeping the order of the others |
| ProgressionUi.Stage.Duplicate | js/ui/progression.js:256-262 | duplicating appends the copy at the end; a card whose stored notes do not parse adds nothing |
| ProgressionUi.Stage.Clear | js/ui/progression.js:318-324 | clearing leaves no cards |
| ProgressionUi.Stage.Load | js/ui/progression.js:326-348 | loading replaces the stage with the cards the records describe |
| ProgressionUi.Stage.LoadOne | js/ui/progression.js:330-346 | one load step appends the card of one record |
| ProgressionUi.Stage.ProgressionChords | js/ui/progression.js:41-66 | the loop gathering the chords to play returns `StepChords(cards, parse)`, one entry per card with its repeats |
| ProgressionUi.Stage.ExportData | js/ui/progression.js:68-82 | the export loop yields one record per card, in order |
| ChordGrid.Categorize | js/ui/chord_grid.js:90-104 | the loop sorting chords into main, dyad and colour lists yields exactly the chords of each category, in input order |
| ChordGrid.CategoriesPartition | js/ui/chord_grid.js:95-104 | the three categories together hold every chord exactly once |
| ChordGrid.RootPitchValue | js/ui/chord_grid.js:107-112 | a chord's sort key is the value of the first arpeggio note spelled like its root, or 999 when none is |
| ChordGrid.RootOrderIs | js/ui/chord_grid.js:114-116 | the comparator orders two chords exactly by their root pitch values |
| ChordGrid.OrderedCategory | js/ui/chord_grid.js:118-120 | each sorted section holds the same chords as its category, ascending by root pitch, and chords with equal keys keep their input order |
| ChordGrid.OrderedByRoot | js/ui/chord_grid.js:118-120 | within a section, root pitch values never decrease |
| ChordGrid.RootlessLast | js/ui/chord_grid.js:107-120 | a chord whose arpeggio lacks its root comes after every chord whose arpeggio has it |
| ChordGrid.DegreeName | js/ui/chord_grid.js:80-88 | the degree is blank exactly when the note or the ding is missing from NOTE_TO_MIDI |
| ChordGrid.DegreeNameAgrees | js/ui/chord_grid.js:80-88 | the grid names degrees like the handpan drawing does, except blank where the drawing shows `?` |
| ChordGrid.DingRootIsTonic | js/ui/chord_grid.js:73-88 | a chord rooted on the ding's spelling is labelled `I` |
| ChordGrid.Dedup | js/ui/chord_grid.js:157 | the badge names hold each note name once, and exactly the names of the chord's notes |
| ChordGrid.BadgesOrdered | js/ui/chord_grid.js:157-165 | the badges are distinct, are exactly the chord's note names, and ascend by interval above the root |
| ChordGrid.RootBadgeFirst | js/ui/chord_grid.js:157-165 | when the root is among the chord's notes, the first badge is at interval 0 |
| ChordGrid.SectionCards | js/ui/chord_grid.js:122-233 | a section draws one card per chord in order, under its title, and an empty list draws no section |
| ChordGrid.GridSections | js/ui/chord_grid.js:54-237 | with chords the grid draws sections only, each non-empty and titled as one of the three categories |
| ChordGrid.EveryChordOnce | js/ui/chord_grid.js:90-237 | every chord appears on exactly one card of the grid |
| ChordGrid.RenderCaches | js/ui/chord_grid.js:54-70 | rendering shows the grid of its arguments (the empty message when there are none), caches non-empty chord lists with their dings, and leaves the cache alone for an empty list |
| ChordGrid.ToggleFlipsOnly | js/ui/chord_grid.js:21-33 | the toggle flips the sort flag (twice restores it), keeps the cache, and the flag never changes what is drawn |
| ChordGrid.StaleGridAfterToggle | js/ui/chord_grid.js:21-70 | after chords are drawn and then an empty list shows the empty message, the toggle brings back the older, stale grid |
| ChordGrid.AfterRenderCached | js/ui/chord_grid.js:65-70 | the corrected render caches whatever it draws, empty lists included |
| ChordGrid.AfterToggleCached | js/ui/chord_grid.js:21-33 | the toggle over the corrected render flips the flag, keeps the cache, and draws nothing new when the cache is empty |
| ChordGrid.ToggleKeepsGrid | js/ui/chord_grid.js:21-33 | with the corrected cache, toggling redraws exactly what was shown, and two toggles restore the flag |
| ChordGrid.ChordGridPanel.constructor | js/ui/chord_grid.js:16-19 | the grid starts unsorted with an empty cache and nothing drawn |
| ChordGrid.ChordGridPanel.Render | js/ui/chord_grid.js:54-70 | rendering draws its arguments (the empty message when there are none) and moves the state as RenderCaches describes: a non-empty chord list is cached with its dings, an empty one leaves the cache as it was |
| ChordGrid.ChordGridPanel.ToggleChordSort | js/ui/chord_grid.js:21-33 | toggling flips the flag and, when the cache holds chords, redraws the cached chords and dings, whatever is on screen (ToggleFlipsOnly, StaleGridAfterToggle) |
| ChordGrid.DrawGrid | js/ui/chord_grid.js:54-238 | the drawing loop returns `RenderGrid(chords, dingNotes)`, which EveryChordOnce and GridSections describe |
| ChordGrid.DrawSection | js/ui/chord_grid.js:122-233 | the card loop returns `SectionOf(title, es, ding)`: nothing for no chords, else one titled section with a card per chord |
| ChordGrid.ModalNoteOneTone | js/ui/chord_grid.js:404-410 | each modal note sounds exactly one tone at its time when it has a frequency, and none otherwise |
| ChordGrid.PlaySpaced | js/ui/chord_grid.js:400-429 | the note loop emits the notes' tones at `now + i * eighth`, in order (`Spaced`) |
| ChordGrid.PlayModalSequence | js/ui/chord_grid.js:386-430 | one pass first stops the progression (stage halted, timer cleared, a silence sent to the audio engine), then plays each note an eighth note apart at the stage's tempo |
| ChordGrid.ModalPassHaltsStage | js/ui/chord_grid.js:386-430 | after a pass the progression is stopped with no timer left to wake it, chords and tempo are kept, the audio log gains one silence and then one tone per sounding note, all inside the pass and in time order |
| ChordGrid.SpacedTiming | js/ui/chord_grid.js:400-401 | a pass emits one tone per sounding note, all inside the pass, in time order |
| ChordGrid.ModalTiming | js/ui/chord_grid.js:392-401 | the modal's pass plays one tone per note with a frequency, within `notes.length` eighths, in order |
| ChordGrid.PassBeforeRearm | js/ui/chord_grid.js:480-490 | every tone of a pass starts before the loop re-arms after `notes.length` eighths |
| ChordGrid.ModalLoop.constructor | js/ui/chord_grid.js:10-14 | no voicing plays, no button is active, no timer is armed and nothing has sounded |
| ChordGrid.ModalLoop.Stop | js/ui/chord_grid.js:432-459 | stopping clears the playing voicing, its button and the loop timer, and stops the progression, which silences the audio engine |
| ChordGrid.ModalLoop.PlayLoop | js/ui/chord_grid.js:480-490 | a pass (progression stopped, then the loop's notes) and the timer re-armed for the pass's length at the tempo read before it |
| ChordGrid.ModalLoop.Start | js/ui/chord_grid.js:461-493 | clicking the playing voicing stops it (progression stopped too); any other voicing stops the old loop, takes its place, plays its first pass and arms the loop |
| ChordGrid.ModalLoop.Fire | js/ui/chord_grid.js:489 | the timer's expiry plays the next pass (progression stopped again) and re-arms, the voicing unchanged |
| Editor.TokenizeJoin | js/logic/parser.js:11-12 | text rebuilt by joining words with spaces is tokenized back into exactly those words |
| Editor.NoteTokenOne | js/logic/parser.js:52-119 | a token without spaces and `\|` reads as its single alternative: an error, no event, or a wrapper around it |
| Editor.BoxedPiece | js/ui/editor.js:119-120 | a parenthesised word rebuilt by the editor is one piece of one step that resolves to no event |
| Editor.BoxedVanish | js/ui/editor.js:118-134 | parenthesised words, parsed again, yield no events at all |
| Editor.RenderSingleAlt | js/ui/editor.js:119-120 | a wrapper of one plainly rendered alternative is rebuilt as that alternative in parentheses |
| Editor.ReconstructSingleAltsVanish | js/ui/editor.js:107-135 | what the parser makes of a plain text comes back from reconstructText as `(K) (t) (E3)`, which parses to no events: the fallback loses the whole phrase |
| Editor.RenderWord | js/ui/editor.js:113-117 | a readable sound renders as one word without `\|` that does not start with `(` |
| Editor.AltRender | js/ui/editor.js:113-117 | the parser reads a rendered readable sound back as its re-read form |
| Editor.SinglesParse | js/ui/editor.js:118-134 | the rendered words of bare notes parse into one wrapper per note |
| Editor.ReconstructSinglesReparse | js/ui/editor.js:107-135 | bare notes (a chord put on the stage) are rebuilt into text the parser reads back note for note |
| Editor.FlatFrequency | js/logic/chords.js:20-28 | `Bb3` has MIDI number 58 |
| Editor.FlatStored | js/logic/parser.js:101-109 | `Bb3` is stored upper-cased as `BB` with the frequency of B flat 3 |
| Editor.FlatLosesFrequency | js/ui/editor.js:116 | the stored `BB` is rebuilt as `BB3`, which parses with no frequency |
| Editor.SavedName | js/ui/editor.js:91 | the saved name is the trimmed field, or `Untitled` when that is empty; never empty, no outer white space |
| Editor.SavedRepeats | js/ui/editor.js:93 | the saved count is the field's integer when it reads as a non-zero integer, and 1 otherwise; never 0 |
| Editor.SavedRepeatsOf | js/ui/editor.js:56-93 | a non-zero count written out reads back as itself |
| Editor.SaveOpenedItem | js/ui/editor.js:28-105 | saving an opened item untouched keeps its trimmed label (or `Untitled`), its trimmed text and its count (1 when it had none) and points back to it |
| Editor.SaveNewItem | js/ui/editor.js:57-105 | saving a new item untouched gives the default name, empty text and 1 repeat |
| Editor.ResaveUnchanged | js/ui/editor.js:28-105 | once saved onto an item, reopening and saving again changes nothing |
| Editor.EditorModal.constructor | js/ui/editor.js:4-10 | before initEditor there is no modal, callback, item or field content |
| Editor.EditorModal.Init | js/ui/editor.js:12-26 | initEditor records the callback and whether the modal exists, and changes nothing else |
| Editor.EditorModal.Open | js/ui/editor.js:28-81 | without a modal nothing changes; otherwise the modal shows the item with the fields filled from it (or from the default name) |
| Editor.EditorModal.Close | js/ui/editor.js:83-86 | closing hides the modal when there is one and forgets the item; the fields stay |
| Editor.EditorModal.Save | js/ui/editor.js:88-105 | without a callback nothing happens; otherwise the callback gets the saved data for the fields and the item, and the modal closes |
| ScaleGen.IndexOf | js/ui/modals.js:240 | `indexOf`: the first position holding the key, or -1 exactly when the key is absent |
| ScaleGen.SpellingTables | js/ui/modals.js:236-237 | both spelling tables have twelve names, each spelling its own pitch class, and where they differ they start with different letters |
| ScaleGen.RootIndexPitchClass | js/ui/modals.js:239-247 | a key found in either table gets its pitch class as root index; any other key gets -1 |
| ScaleGen.Spellings | js/ui/modals.js:279-283 | a pitch class has one or two candidate spellings |
| ScaleGen.SpellingPairsOfLists | js/ui/modals.js:279-283 | the candidates are the sharp name alone when both tables agree, else the sharp then the flat name |
| ScaleGen.FirstChar | js/ui/modals.js:299 | `charAt(0)` is at most one character |
| ScaleGen.ChooseSpelling | js/ui/modals.js:298-330 | of two spellings with different letters the one whose letter differs from the previous note is chosen; when neither clashes the flat is chosen exactly when the key prefers flats |
| ScaleGen.SideNotes | js/ui/modals.js:290-335 | one side note per formula step |
| ScaleGen.DashSpaces | js/ui/modals.js:338 | replacing runs of white space by `-` leaves no white space and never lengthens; a string without white space is unchanged |
| ScaleGen.GenerateScale | js/ui/modals.js:227-345 | the generated scale is `Generated(t, key)`: id, name `key template`, the ding in octave 3 then the side notes, no bottom notes |
| ScaleGen.SpellSideNotes | js/ui/modals.js:290-335 | the map carrying the previous note returns `SideNotes(...)`, whose pitches and spellings the side-note lemmas state |
| ScaleGen.GeneratedLayout | js/ui/modals.js:285-342 | a generated scale has one top note per formula step plus the ding `key3` first, no bottom notes, and an id without white space |
| ScaleGen.SideNotePitch | js/ui/modals.js:293-332 | each side note, read as a note name, is exactly its semitones above the root's MIDI value |
| ScaleGen.CandidatesSpell | js/ui/modals.js:298-330 | whichever candidate is chosen spells the right pitch class |
| ScaleGen.SideNotesPitch | js/ui/modals.js:293-335 | every side note sounds exactly its formula interval above the root |
| ScaleGen.SideNoteLetter | js/ui/modals.js:298-318 | where two spellings exist, the chosen one never repeats the previous note's letter |
| ScaleGen.TemplateKeysKnown | js/data/scales.js:2-63 | every key offered by a template is in one of the spelling tables |
| ScaleGen.TemplateScalesPitched | js/data/scales.js:2-63 | for every template and offered key, the generated ding parses and every side note lies its formula interval above it |
| ScaleGen.GeneratedPitched | js/ui/modals.js:227-345 | for a known key and a formula within five octaves, the ding parses and each side note lies its interval above it |
| ScaleGen.DingPitch | js/ui/modals.js:288 | the ding `key3` parses with the key's own pitch class |
| ScaleGen.PairOf | js/ui/modals.js:394-395 | a `n:p` token with both parts non-empty gives the pair, the note without a colon |
| ScaleGen.UpsertLookup | js/ui/modals.js:395 | `bottom[n] = p` makes `n` map to `p`, leaves every other note as it was and keeps the notes distinct |
| ScaleGen.FillBottom | js/ui/modals.js:392-396 | the loop filling the bottom object returns `BottomOf(tokens)`, one pair per `n:p` token with both parts non-empty |
| ScaleGen.BottomLastWins | js/ui/modals.js:393-396 | the notes stay distinct and the last pair given for a note wins |
| ScaleGen.CustomScale | js/ui/modals.js:378-406 | nothing is saved exactly when the trimmed name is empty; otherwise the scale has the trimmed name, a ding first, distinct bottom notes, and keeps the id field or gets a `custom-` id |
| ScaleGen.HandleCustomSave | js/ui/modals.js:378-415 | the form's scale is saved under its id and returned; with an empty name the store is untouched |
| ScaleGen.EditKeepsAllButBottom | js/ui/modals.js:358-415 | for a writable scale, an unchanged edit keeps id, name, ding and top notes; the bottom is what the `n:p` tokens read back as |
| ScaleGen.EditRoundTrip | js/ui/modals.js:358-368 | for scales whose bottom notes contain no `:`, opening a scale for editing and saving the form unchanged gives back the same scale |
| ScaleGen.EditTopRoundTrip | js/ui/modals.js:361-362 | the top notes joined into the field read back as the same notes |
| ScaleGen.EditBottomRoundTrip | js/ui/modals.js:365-368 | for scales whose bottom notes contain no `:`, the bottom pairs written as `n:p` read back as the same pairs |
| ScaleGen.BottomFieldTokens | js/ui/modals.js:365-392 | the bottom field written by the form splits back into exactly the `n:p` tokens |
| ScaleGen.StarterEditLosesDings | js/ui/modals.js:358-396 | the starter scale saved unchanged comes back with bottom `D:G3 E5:B4`: both `D:` extra dings are lost |
| ScaleGen.PairAtLastColon | js/ui/modals.js:394-395 | a token split at its last `:` gives a non-empty note and a `:`-free non-empty parent that write back as the token, or nothing when no such split exists |
| ScaleGen.PairAtLastColonText | js/ui/modals.js:394-395 | a pair with a `:`-free parent, written as `n:p`, reads back as itself under the last-colon split |
| ScaleGen.EditRoundTripAtLastColon | js/ui/modals.js:358-396 | with the last-colon split, every writable scale, `D:` notes included, survives an unchanged edit |
| ScaleGen.StarterEditKept | js/ui/modals.js:358-396 | with the last-colon split, the starter scale survives an unchanged edit |
| ScaleGen.BottomOfPairs | js/ui/modals.js:391-396 | distinct pairs written as `n:p` tokens rebuild the same list |
| Scales.StepsAscending | js/data/scales.js:2-63 | a formula whose consecutive steps rise is ascending throughout |
| Scales.TemplateFormulasAscending | js/data/scales.js:2-63 | every template's formula lists strictly rising intervals |
| Scales.StarterIndex | js/data/scales.js:102-106 | the starter scale is found first by its id and then by its name; -1 exactly when no scale has either |
| Scales.StarterInstalled | js/data/scales.js:92-116 | after initCustomScales the starter is present; an existing one is overwritten in place keeping its id, otherwise it is put first; every other scale stays |
| Scales.InitIdempotent | js/data/scales.js:92-116 | running initCustomScales twice is the same as once |
| Scales.SaveUpserts | js/data/scales.js:123-133 | saving grows the list only for a new id, the saved data is found under its id, and scales with other ids are untouched |
| Scales.SaveIdempotent | js/data/scales.js:123-133 | saving the same data twice is the same as once |
| Scales.Deleted | js/data/scales.js:135-139 | deleting keeps exactly the scales with another id and drops one entry per scale with that id |
| Scales.DeleteUndoesSave | js/data/scales.js:123-139 | deleting the id just saved gives what deleting it before would have |
| Scales.DeleteAbsent | js/data/scales.js:135-139 | deleting an id no scale has changes nothing |
| Scales.AllScales | js/data/scales.js:118-121 | all scales are the predefined ones followed by the custom ones |
| Scales.CustomListing | js/ui/modals.js:130 | the `custom-` scales listed in the picker are exactly the stored custom ones with that prefix |
| Scales.PredefinedNotCustom | js/data/scales.js:65-72 | no predefined scale has a `custom-` id |
| Scales.ScaleStore.constructor | js/data/scales.js:75 | the store starts with the given stored value |
| Scales.ScaleStore.InitCustomScales | js/data/scales.js:92-116 | the starter is installed into the stored list, which is written back and returned |
| Scales.ScaleStore.SaveCustomScale | js/data/scales.js:123-133 | the stored list becomes the upserted list |
| Scales.ScaleStore.DeleteCustomScale | js/data/scales.js:135-139 | the stored list loses the scales with that id |
| Storage.TempoOr | js/data/storage.js:10 | `tempo \|\| 80`: a non-zero tempo is kept and 0 becomes 80; never 0 |
| Storage.SessionOf | js/data/storage.js:5-11 | a session is written exactly when both a scale and a progression are given, holding them and the defaulted tempo |
| Storage.Encode | js/data/storage.js:31-42 | a share payload exists exactly when both a scale and a progression are given |
| Storage.StrOr | js/data/storage.js:73-74 | `a \|\| b` on strings: a non-empty first value, else the second |
| Storage.IntOr | js/data/storage.js:75 | `a \|\| b` on counts: a non-zero first value, else the second |
| Storage.Lengthen | js/data/storage.js:72-76 | a decoded item always has a non-zero repeat count |
| Storage.Decode | js/data/storage.js:59-84 | a payload decodes; its tempo is never 0; a missing progression decodes as empty, otherwise one item per entry |
| Storage.LinkItemRoundTrip | js/data/storage.js:37-76 | an item shortened and lengthened keeps its name and text, and its count with 0 or none read as 1 |
| Storage.ShareRoundTrip | js/data/storage.js:31-84 | decoding a share link gives back the scale, the defaulted tempo and every item's name, text and defaulted count |
| Storage.ShareRoundTripExact | js/data/storage.js:31-84 | with a non-zero tempo and items that survive `\|\|`, decoding gives back exactly what was shared |
| Storage.DecodeDefaults | js/data/storage.js:70-76 | a payload with only a scale decodes with no progression and tempo 80 |
| Storage.UpsertPlaces | js/data/storage.js:115-128 | a composition whose name and category match a stored one's under `toLowerCase` replaces the FIRST such entry in place, keeping its id and every other entry; otherwise it is appended |
| Storage.CyrillicKeysMatch | js/data/storage.js:116-118 | a name typed in Cyrillic capitals matches the same name in small letters ("Привет" and "привет") |
| Storage.UpsertKeepsUnique | js/data/storage.js:115-128 | saving keeps name-and-category keys, folded as `toLowerCase` does, unique and the saved key present |
| Storage.UpsertIdempotent | js/data/storage.js:115-128 | saving the same composition twice is the same as once |
| Storage.Without | js/data/storage.js:139-141 | deleting keeps exactly the compositions with another id |
| Storage.DeleteUndoesAppend | js/data/storage.js:126-141 | deleting a newly appended composition restores the library |
| Storage.LocalStore.constructor | js/data/storage.js:3-88 | the store starts with the given session and library entries |
| Storage.LocalStore.SaveStateToLocal | js/data/storage.js:5-17 | the session is written when both a scale and a progression are given and the write succeeds; otherwise it stays; the library is untouched |
| Storage.LocalStore.LoadStateFromLocal | js/data/storage.js:19-29 | loading returns the stored session, or none |
| Storage.LocalStore.SaveComposition | js/data/storage.js:102-137 | saving succeeds exactly with a name, a scale, a progression and a working write, and then stores the upserted library (matched under `toLowerCase`, first match replaced); otherwise nothing changes |
| Storage.LocalStore.DeleteComposition | js/data/storage.js:139-149 | deleting succeeds exactly when the write works, and then stores the library without that id |
| Visualizer.ParseForSort | js/ui/visualizer.js:16-24 | the entry keeps the original string; an unreadable name sorts as 0; every key lies in 0..107 |
| Visualizer.ParseForSortAgrees | js/ui/visualizer.js:16-24 | for a readable name the local key is the shared pitch key, 36 above the MIDI-style value |
| Visualizer.EntryOrderIs | js/ui/visualizer.js:28 | the comparator orders entries exactly by key |
| Visualizer.SortNotesLocal | js/ui/visualizer.js:26-30 | sorting keeps the same names and puts them in ascending pitch |
| Visualizer.SortNotesLocalStable | js/ui/visualizer.js:26-30 | names with equal keys keep their input order |
| Visualizer.LastIndex | js/ui/visualizer.js:147-149 | the last position holding a name, or -1 exactly when it is absent |
| Visualizer.NumberingOf | js/ui/visualizer.js:146-149 | the numbering has an entry exactly for each candidate |
| Visualizer.NumberingAt | js/ui/visualizer.js:147-149 | a candidate's number is its last position plus one: a repeated name keeps its later number |
| Visualizer.NumberingInjective | js/ui/visualizer.js:147-149 | two different candidates never get the same number |
| Visualizer.NumberingDistinct | js/ui/visualizer.js:147-149 | with distinct candidates, the i-th gets `i + 1` |
| Visualizer.FillNumbering | js/ui/visualizer.js:146-149 | the forEach filling the numbering map returns `NumberingOf(candidates)`, numbering the distinct names 1..N in order |
| Visualizer.DingRoot | js/ui/visualizer.js:134-138 | getDingRoot gives the matched spelling when the name reads as a note, and always a prefix of the name without `D:` |
| Visualizer.SpellingHead | js/ui/chord_grid.js:73-76 | the head spelling is a prefix of the name, one or two characters starting with its letter when it starts with one |
| Visualizer.DegreeLabel | js/ui/visualizer.js:161-183 | a degree label is `?` exactly when the note or the ding is missing from NOTE_TO_MIDI |
| Visualizer.Interval | js/ui/visualizer.js:165 | `(val - dingVal + 12) % 12` always lands in 0..11, so the numeral map never misses |
| Visualizer.DegreeLabelInterval | js/ui/visualizer.js:165-182 | a note k semitones above the ding is labelled with the k-th numeral |
| Visualizer.LabelIndexFree | js/ui/visualizer.js:151-187 | only the centre ding (`index` -1) is labelled differently; every other position gets the same label |
| Visualizer.NumberingCandidates | js/ui/visualizer.js:143-145 | the numbered notes are exactly the side notes, top and bottom, not marked `D:`, in ascending pitch |
| Visualizer.ContextOfFields | js/ui/visualizer.js:139-149 | the label context holds the mode, the ding's pitch class and the numbering of the candidates |
| Visualizer.RenderHandpan | js/ui/visualizer.js:32-240 | the drawing loop returns `Rendered(scale, mode)`, whose labels the labelling lemmas state |
| Visualizer.DrawTop | js/ui/visualizer.js:204-219 | the top ring loop places each side note of the top list, in order, with its label (`PlaceTop`) |
| Visualizer.DrawBottom | js/ui/visualizer.js:222-239 | the bottom ring loop places each bottom note, in order, with its label (`PlaceBottom`) |
| Visualizer.PlaceBottomNotes | js/ui/visualizer.js:222-225 | the bottom ring shows the notes whose parent is drawn, in order, and skips the others |
| Visualizer.PlaceTopNotes | js/ui/visualizer.js:204-219 | the top ring shows every top side note in order |
| Visualizer.RenderedLayout | js/ui/visualizer.js:120-240 | nothing is drawn exactly for a scale without notes; otherwise the ding is in the centre with its plain name, the top ring holds the sorted side notes and the bottom ring the sorted bottom notes whose parent is drawn |
| Visualizer.BottomRingShown | js/ui/visualizer.js:222-239 | the bottom ring holds exactly the sorted bottom notes whose parent is drawn |
| Visualizer.SideLabels | js/ui/visualizer.js:214-235 | every side note is labelled as at position 0, whatever its index |
| Visualizer.SideNotesFromScale | js/ui/visualizer.js:120-239 | every side note drawn is a top note after the ding or a bottom note of the scale |
| Visualizer.NumberingCandidatesOfScale | js/ui/visualizer.js:143-145 | the numbered notes are the scale's side and bottom notes not marked `D:`, in ascending pitch |
| Visualizer.NumbersModeLabels | js/ui/visualizer.js:156-159 | in numbers mode a marked ding shows its plain name and every other side note its number from the numbering |
| Visualizer.DegreesModeLabels | js/ui/visualizer.js:161-183 | in degrees mode each side note shows its degree above the ding, and `?` exactly when either pitch is unknown |
| Visualizer.NotesModeLabels | js/ui/visualizer.js:185-186 | in notes mode each side note shows its name without `D:` |
| LegacyPitch.MidiNameSemitone | script_legacy.js:1299 | the i-th name of getNoteFromMIDI's table is pitch class i |
| LegacyPitch.MidiNamesShape | script_legacy.js:1299 | every name in the table is a note letter, perhaps followed by `#` or `b` |
| LegacyPitch.NoteFromMidi | script_legacy.js:1298-1303 | a MIDI number always names a spelling and an octave |
| LegacyPitch.MidiRoundTrip | script_legacy.js:1298-1303 | for MIDI 12..119 the name reads back as the table's spelling in octave `floor(m / 12) - 1`, and its frequency is MIDI m |
| LegacyPitch.MidiOutOfRange | script_legacy.js:1298-1303 | outside 12..119 the name (octave -1 or above 8) does not read as a note |
| LegacyPitch.MidiReadsBack | script_legacy.js:1298-1303 | a generated name reads back as a note exactly for MIDI 12..119 |
| LegacyPitch.DingOffset | script_legacy.js:1276-1280 | the ding key's pitch class, with D for an unknown key; always in 0..11 |
| LegacyPitch.GenerateScaleFromTemplate | script_legacy.js:1274-1296 | the loop pushing top notes returns `TemplateScale(t, key)`, whose pitches TemplateScalePitches states |
| LegacyPitch.TemplateTopPitches | script_legacy.js:1282-1288 | the top list has the ding and one note per formula step, each reading back as the ding's MIDI number plus its offset |
| LegacyPitch.TemplateScalePitches | script_legacy.js:1274-1296 | a template scale has no bottom notes, its ding is the key in octave 3, and each top note sits its offset above it |
| LegacyChords.CurrentTableExtends | script_legacy.js:129-141 | the current chord table is the earlier one with the two bare thirds appended |
| LegacyChords.LegacySingleInterval | script_legacy.js:129-141 | in the earlier table the only one-interval type is the power chord |
| LegacyChords.FirstFitIgnoresUnfit | script_legacy.js:197-213 | types of the wrong size never change which type matches first |
| LegacyChords.LegacyAgrees | script_legacy.js:177-216 | for anything but two notes the earlier identifyChord names chords exactly as the current one does |
| LegacyChords.TwoNoteSingleInterval | script_legacy.js:203 | a two-note chord can only be named by a one-interval type |
| LegacyChords.LegacyTwoNoteChord | script_legacy.js:177-216 | the earlier identifyChord names every two-note chord it recognises a power chord |
| LegacyParser.GroupLen | script_legacy.js:1688 | a group match starts with `(` and spans at least `(x)/d`, never past the text |
| LegacyParser.Tokenize | script_legacy.js:1688-1689 | the token regex yields non-empty tokens only |
| LegacyParser.GroupMatch | script_legacy.js:1693 | a token is a group exactly as `(` content `)/` digits, the content non-empty without `)` and the divisor digits only |
| LegacyParser.DecimalDivisorSplits | script_legacy.js:1688 | `(K)/1.5` tokenizes as `(K)/1` and `.5`: the earlier regex takes integer divisors only |
| LegacyParser.Multiplier | script_legacy.js:1696-1699 | `1 / divisor` is Infinity exactly for a zero divisor, and otherwise a positive number whose product with the divisor is 1 |
| LegacyParser.PitchAlt | script_legacy.js:1850-1856 | a written pitch is stored as a tone without a frequency |
| LegacyParser.Alt | script_legacy.js:1804-1857 | an alternative raises exactly when it is a degree symbol and the layout raised |
| LegacyParser.AltAgreesWithCurrent | script_legacy.js:1799-1866 | the earlier alternative reader agrees with the current one except that a written pitch gets no frequency |
| LegacyParser.Prepend | script_legacy.js:1691-1716 | pushing onto what was gathered fails exactly when the rest fails, and otherwise appends it |
| LegacyParser.Gather | script_legacy.js:1691-1716 | a forEach of pushes succeeds exactly when every step does |
| LegacyParser.GatherFrom | script_legacy.js:1691-1716 | every gathered item comes from one successful step |
| LegacyParser.GatherOnes | script_legacy.js:1691-1716 | steps of one item each gather into one item per step, in order |
| LegacyParser.AltItems | script_legacy.js:1804-1857 | an alternative pushes at most one sound and raises exactly for a degree symbol on a broken layout |
| LegacyParser.ResolveParts | script_legacy.js:1801-1857 | a token's alternatives raise exactly when one of them is a degree symbol and the layout raised |
| LegacyParser.SubEvents | script_legacy.js:1701-1714 | a token gives at most one event, lasting the given length, with at least one alternative |
| LegacyParser.SubTokenEvents | script_legacy.js:1701-1707 | every event of a group lasts the group's multiplier and has at least one alternative |
| LegacyParser.GroupLengths | script_legacy.js:1694-1707 | every event of a matched group lasts `1 / divisor` |
| LegacyParser.BareLength | script_legacy.js:1708-1714 | a token outside any group gives at most one event lasting one step |
| LegacyParser.SubTokensTotal | script_legacy.js:1701-1707 | with a working layout a group never raises |
| LegacyParser.ParseTokensTotal | script_legacy.js:1682-1718 | with a working layout parsing never raises |
| LegacyParser.ForEachPush | script_legacy.js:1691-1716 | the forEach loop returns the concatenation of the items' results, or the first error (`Gather`) |
| LegacyParser.ParseNoteToken | script_legacy.js:1799-1866 | the loop over `\|` alternatives returns `ResolveParts` of the split token |
| LegacyParser.ParseRhythmString | script_legacy.js:1682-1718 | the loop over tokens returns `ParseTokens(Tokenize(text))`, whose lengths ParseTokensTotal counts |
| LegacyParser.Stored | script_legacy.js:1704-1712 | a stored event keeps its alternatives; a finite non-zero length is its step length, and Infinity (stored as null) plays one step |
| LegacyParser.AltOfPitch | script_legacy.js:1850-1856 | an upper-case written pitch is read as that pitch |
| LegacyParser.AltOfPerc | script_legacy.js:1808-1824 | strokes and the rest are read and rendered back as written |
| LegacyParser.PlainAltReads | script_legacy.js:1804-1857 | a plain alternative is read and rendered back as written |
| LegacyParser.PlainPartsRead | script_legacy.js:1801-1857 | plain alternatives resolve without raising and render back as written |
| LegacyParser.PlainTokenReads | script_legacy.js:1799-1866 | a token of plain alternatives gives one event that renders back as the token |
| LegacyParser.TokenizeJoined | script_legacy.js:1688-1689 | words joined by spaces tokenize back into the same words |
| LegacyParser.PlainTokensRead | script_legacy.js:1682-1718 | plain tokens parse without raising and the stored events render back as the tokens |
| LegacyParser.ReconstructRoundTrip | script_legacy.js:1887-1906 | text of plain tokens joined by single spaces parses, and the editor's fallback writes it back unchanged |
| LegacyScheduler.LocalOf | script_legacy.js:781 | a card without a stored count has none; a stored count is its integer, or NaN when it does not read as one |
| LegacyScheduler.RepeatsTarget | script_legacy.js:667-668 | the global repeat count is the field's non-zero integer, and 2 when the field is missing, NaN or 0; never 0 |
| LegacyScheduler.Target | script_legacy.js:695-696 | a chord without its own count repeats the global count, otherwise its own; the bound is NaN exactly for a NaN count |
| LegacyScheduler.Advance | script_legacy.js:742-752 | after a pass the chord moves on, wrapping to the first, exactly when the repeat count reaches the bound; otherwise it repeats again |
| LegacyScheduler.ToneTriggers | script_legacy.js:717-729 | a note sounds at most once, for 2.4 s, at its scheduled time |
| LegacyScheduler.SoundTriggers | script_legacy.js:709-731 | a rest plays nothing; a stroke plays one tak (the alternate one for `T`, ghost as marked); everything sounds at its scheduled time |
| LegacyScheduler.GroupAt | script_legacy.js:709-720 | a group plays at most one trigger per alternative, all at its time |
| LegacyScheduler.PassSounds | script_legacy.js:704-733 | a pass only ever plays sounds, never a silence |
| LegacyScheduler.PassLength | script_legacy.js:736 | a pass lasts its total offset, but at least 0.1 s |
| LegacyScheduler.StagedItems | script_legacy.js:776-785 | the chords played are the stage items holding notes, in stage order |
| LegacyScheduler.StagedEmpty | script_legacy.js:776-787 | nothing is staged exactly when no item holds notes |
| LegacyScheduler.Stopped | script_legacy.js:601-660 | stopping ends playback, clears position, chords and timer, keeps time and tempo, and silences the audio when it exists |
| LegacyScheduler.Played | script_legacy.js:683-756 | a played step keeps the chords and tempo, advances the position by the repeat counter, moves the time by at least 0.1 s and arms a timer of at least 10 ms |
| LegacyScheduler.Stepped | script_legacy.js:663-757 | a wake does nothing when stopped, stops when no chords are left, and otherwise plays the current chord and stays playing |
| LegacyScheduler.Toggled | script_legacy.js:759-806 | the toggle stops a running sequence; with nothing staged it only starts the audio; otherwise it starts the staged chords from the first, 0.05 s ahead |
| LegacyScheduler.CountsUp | script_legacy.js:742-752 | while the bound is not reached, each wake repeats the same chord |
| LegacyScheduler.MovesOn | script_legacy.js:742-752 | after exactly as many wakes as the repeats left, the next chord plays |
| LegacyScheduler.OneWakeMoves | script_legacy.js:742-752 | a chord at its last repeat moves on after one wake |
| LegacyScheduler.StuckOnNaN | script_legacy.js:695-743 | a chord whose count reads as NaN never moves on: `repeat >= NaN` is always false |
| LegacyScheduler.TimeAdvances | script_legacy.js:736-739 | every wake moves the schedule on by at least 0.1 s and only adds to what was played |
| LegacyScheduler.StoppedStays | script_legacy.js:664 | once stopped, wakes change nothing |
| LegacyScheduler.LegacyPlayer.constructor | script_legacy.js:372-381 | the player starts stopped with no chords |
| LegacyScheduler.LegacyPlayer.SetTempo | script_legacy.js:927-931 | the tempo slider changes only the tempo |
| LegacyScheduler.LegacyPlayer.Stop | script_legacy.js:601-660 | stopPlayback changes the state as Stopped says |
| LegacyScheduler.LegacyPlayer.Toggle | script_legacy.js:759-806 | the toggle changes the state as Toggled says |
| LegacyScheduler.LegacyPlayer.Begin | script_legacy.js:789-805 | starting installs the chords and runs the first step at once |
| LegacyScheduler.LegacyPlayer.StageChords | script_legacy.js:776-785 | the forEach collecting chords yields exactly the staged chords |
| LegacyScheduler.LegacyPlayer.Wake | script_legacy.js:663-757 | a timer wake changes the state as Stepped says |
| LegacyScheduler.LegacyPlayer.PlayChord | script_legacy.js:683-756 | one step changes the state as Played says |
| LegacyScheduler.LegacyPlayer.NextStep | script_legacy.js:742-752 | the position moves as Advance says |
| LegacyScheduler.LegacyPlayer.SchedulePass | script_legacy.js:703-733 | the loop over events appends exactly the pass's triggers and returns the pass length `Span(notes, eighth)` |
| LegacyScheduler.LegacyPlayer.PlayNext | script_legacy.js:704-733 | one turn of the loop extends the played pass by exactly the next event |
| LegacyScheduler.LegacyPlayer.PlayEvent | script_legacy.js:709-731 | one event plays exactly its dispatched triggers |
| LegacyScheduler.LegacyPlayer.PlayGroup | script_legacy.js:710-720 | a group plays its alternatives' triggers in order |

## Left out

- DOM rendering, SVG geometry and scale factors, drag and drop hit-testing, CSS classes and button icons: presentation only; the model keeps what is drawn as values (labels, cards, previews).
- WebAudio synthesis in js/audio/engine.js: the scheduler records each playTone / playTak call as a trigger (kind, time, MIDI or hand / ghost) and nothing of the sound itself.
- js/main.js wiring, sw.js and js/ui/inspirations.js: event wiring, service-worker caching and static data with no logic of the core.
- setTimeout / clearTimeout and the visual highlight timeouts: a timer is an armed-delay field that a later call to the wake method stands for; highlight timeouts are not modelled.
- The awaited `audioCtx.resume()` in startProgression: split into a begin step and a resume step, so a stop in between is modelled but no real concurrency is.
- localStorage, JSON.parse / JSON.stringify, btoa / atob, encodeURIComponent, URLSearchParams, Date.now, confirm and alert: stores are in-memory lists, unreadable stored text is `None`, the clock and the user's answers are parameters.
- JSON.parse of stored text that is valid JSON but not an array: treated like unreadable text.
- loadLastScale / saveLastScale in js/data/scales.js: a plain read and write of one storage key with nothing to state.
- setProgressionCallbacks, isPlaying and getTempo in js/logic/progression.js: callback registration and getters of the scheduler's fields, which the class exposes directly.
- The rest of script_legacy.js (runSequence, playArpeggio, the modals, the legacy editor's save, renderChords and the DOM code): the model keeps its scheduler, parser, reconstruction, MIDI naming, template scales and chord table.
- getFrequencyForNoteName's floating point: replaced by MIDI numbers; the NaN frequency of spellings such as `E#` makes the source's comparator inconsistent, and sorts here give such notes key 0.
- localeCompare in chord and composition ordering: approximated by code-unit order of the strings.
- ProgressionUi.Shorten, ProgressionUi.TextPreview, ProgressionUi.TextPreviewWords: the 20-unit cut of `displayText.length > 20` and `substring(0, 20)` counts UTF-16 code units in JavaScript and Unicode characters here; the two agree only for text inside the Basic Multilingual Plane. Text with characters outside it (emoji) is cut later here, and a cut inside a surrogate pair cannot be represented.
- ProgressionUi.FreqMissing: a tone stored with `freq: null` counts as missing and is re-parsed, whereas the source tests `typeof freq === 'undefined'` and keeps such stored events; `null` and an absent `freq` are one `None` here.
- Text.CapitalOffset, Text.FoldChar, Text.FoldCase: `toLowerCase` is modelled only for A-Z, U+00C0-00DE (without U+00D7), U+0391-03A9 (without U+03A2) and U+0400-042F. Kept as written here, though JavaScript folds them: the Greek capitals with tonos (U+0386, U+0388-038A, U+038C, U+038E-038F), the Cyrillic capitals U+0460-04FF (such as U+0490), the Latin Extended capitals (such as U+0141 and U+0160), every other script's capitals, and the mappings that change length (U+0130). A word-final capital sigma folds to U+03C3 here where JavaScript gives the final form U+03C2.
- UpsertKeepsUnique, UpsertPlaces, Storage.Key and Storage.LocalStore.SaveComposition: composition keys use that partial folding, so two names that differ only in the letters listed on the line above (for example a Greek name with tonos, a Ukrainian name with U+0490, a Polish name with U+0141, or a final sigma) are distinct keys here and the same key in the source.
- Keys such as `__proto__` or `constructor` in the note and chord tables: lookups are over the tables' own keys only.
- Scales.ScaleStore.SaveCustomScale: stores the new record in place of the old one; the source's object spread merge equals this for the full records the app saves.
- Runs of several legacy wakes (the lemmas over a sequence of wake times) read the repeat-count input as one value throughout; a single wake takes the input's current text as an argument, as the source reads it on every wake.
- ScaleGen.EditRoundTrip: stated for scales whose bottom notes contain no `:`, because as written the save cuts such notes short (see Findings); EditRoundTripAtLastColon covers every writable scale.
- initAudio and the `audioCtx.resume()` call at the head of playModalSequence: audio-context set-up with no state the model keeps.
- The percussion branch (playTak) of playModalSequence: the voicings it is given hold only notes, so the model's preview plays tones only.
- getSortedScaleNotes is called lazily by the parser only for degree tokens; the model passes its result as a value and only degree tokens propagate its failure, which gives the same outcome.
- The tempo is a positive number (a subset type); a zero or negative tempo from the slider is not modelled.

## Findings

| source | as written | input that shows it | evidently intended | confidence | as-written member | corrected member |
|---|---|---|---|---|---|---|
| js/ui/chord_grid.js:21-70 | renderChordGrid returns on an empty chord list before updating the cache, so toggleChordSort redraws the previous scale's chords | render a scale with chords, then a scale with none, then press the sort toggle | the toggle re-sorts what is currently shown, so the cache follows every render | not executed; medium | ChordGrid.StaleGridAfterToggle | ChordGrid.AfterRenderCached, ChordGrid.ToggleKeepsGrid |
| js/ui/modals.js:358-396 | the edit form writes each bottom entry as `note:parent`, and the save splits each token with `split(':')` keeping only the first two parts, so a note that itself holds a `:` (the `D:F#3` extra dings) is cut short | open the starter custom scale "Alex E Amara" for editing and save it unchanged: its bottom `D:F#3:F#4 D:G3:G4 E5:B4` comes back as `D:G3 E5:B4` | the scale is saved back unchanged, which splitting each token at its last `:` achieves | not executed; high | ScaleGen.StarterEditLosesDings | ScaleGen.EditRoundTripAtLastColon, ScaleGen.StarterEditKept |
