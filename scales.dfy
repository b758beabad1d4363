/**
 * The scale library: the scale templates, the predefined scale, and the custom scales kept
 * in browser storage, which are read, changed as a list and written back on every call.
 */
module Scales {
  import opened Wrappers
  import opened Text
  import opened Seqs

  /**
   * A scale: `top` holds the ding first and then the top notes; `bottom` maps each bottom
   * note to its parent top note, in the order the object's keys were inserted.
   */
  datatype Scale = Scale(id: string, name: string, top: seq<string>, bottom: seq<(string, string)>)

  /** A scale template: a style (`name`, `kind` is its `type` label), the keys offered for it and
    * the offsets in semitones of its side notes above the ding. */
  datatype Template = Template(name: string, kind: string, keys: seq<string>, formula: seq<int>)

  const Templates: seq<Template> := [
    Template("Kurd", "Natural Minor (Ding+8)", ["D", "C#", "E", "B", "A", "G"], [7, 8, 10, 12, 14, 15, 17, 19]),
    Template("Kurd 9", "Natural Minor (Ding+9)", ["D", "C#", "E", "B", "A", "G"], [7, 8, 10, 12, 14, 15, 17, 19, 22]),
    Template("Amara", "Celtic Minor", ["D", "C#", "E", "B", "F", "G"], [7, 10, 12, 14, 15, 17, 19, 22]),
    Template("Pygmy", "Pentatonic", ["F", "G", "E", "F#", "D"], [5, 7, 8, 12, 14, 15, 17, 19]),
    Template("Hijaz", "Phrygian Dominant", ["D", "C#", "G", "F", "E"], [7, 8, 11, 12, 14, 15, 17, 19]),
    Template("Integral", "Minor Variant", ["D", "C#", "C", "B"], [7, 8, 10, 12, 14, 15, 17]),
    Template("Equinox", "Minor", ["E", "F", "G", "B", "C"], [3, 7, 8, 10, 12, 14, 15, 19]),
    Template("Sabye", "Major", ["C", "D", "F", "G", "Bb"], [7, 9, 11, 12, 14, 16, 17, 19]),
    Template("Mixolydian", "Mixolydian", ["D", "C", "G", "F", "A"], [7, 9, 10, 12, 14, 15, 17, 19]),
    Template("Mystic", "Minor", ["D", "G", "A", "F", "C"], [5, 7, 10, 12, 14, 15, 17, 19])
  ]

  const Predefined: seq<Scale> := [
    Scale("e-amara", "E Amara", ["E3", "B3", "D4", "E4", "F#4", "G4", "A4", "B4", "D5"],
      [("F#3", "F#4"), ("G3", "G4"), ("E5", "B4")])
  ]

  const StarterId: string := "custom-alex-amara"
  const StarterName: string := "Alex E Amara"

  /** The starter custom scale initCustomScales guarantees. */
  const Starter: Scale :=
    Scale(StarterId, StarterName, ["E3", "B3", "D4", "E4", "F#4", "G4", "A4", "B4", "D5"],
      [("D:F#3", "F#4"), ("D:G3", "G4"), ("E5", "B4")])

  /** Offsets strictly rising, the first above the ding. */
  predicate Ascending(formula: seq<int>) {
    (forall i :: 0 <= i < |formula| ==> formula[i] > 0) &&
    (forall i, j :: 0 <= i < j < |formula| ==> formula[i] < formula[j])
  }

  predicate AscendingSteps(formula: seq<int>) {
    (|formula| > 0 ==> formula[0] > 0) &&
    (forall i :: 0 <= i < |formula| - 1 ==> formula[i] < formula[i + 1])
  }

  /** Neighbour-wise rising offsets rise throughout. */
  lemma {:induction false} StepsAscending(formula: seq<int>)
    requires AscendingSteps(formula)
    ensures Ascending(formula)
  {
    if |formula| > 1 {
      StepsAscending(formula[1..]);
      assert forall i :: 1 <= i < |formula| ==> formula[i] == formula[1..][i - 1];
    }
  }

  /** Every template's side notes lie above the ding in strictly rising order. */
  lemma TemplateFormulasAscending()
    ensures forall t :: 0 <= t < |Templates| ==> Ascending(Templates[t].formula)
  {
    forall t | 0 <= t < |Templates| ensures Ascending(Templates[t].formula) {
      StepsAscending(Templates[t].formula);
    }
  }

  function IdIs(id: string): Scale -> bool {
    (s: Scale) => s.id == id
  }

  function IdIsNot(id: string): Scale -> bool {
    (s: Scale) => s.id != id
  }

  function NameIs(name: string): Scale -> bool {
    (s: Scale) => s.name == name
  }

  /** Where initCustomScales finds the starter scale: by id, else by name, else -1. */
  function StarterIndex(custom: seq<Scale>): (k: int)
    ensures -1 <= k < |custom|
    ensures k >= 0 ==> custom[k].id == StarterId || custom[k].name == StarterName
    ensures k == -1 <==> forall j :: 0 <= j < |custom| ==> custom[j].id != StarterId && custom[j].name != StarterName
  {
    var k := FindIndex(custom, IdIs(StarterId));
    if k == -1 then FindIndex(custom, NameIs(StarterName)) else k
  }

  /** The custom list initCustomScales writes back. */
  function WithStarter(custom: seq<Scale>): seq<Scale> {
    var k := StarterIndex(custom);
    if k > -1 then custom[k := Starter.(id := custom[k].id)] else [Starter] + custom
  }

  /** The content of the starter scale, whatever its id. */
  predicate IsStarter(s: Scale) {
    s.name == StarterName && s.top == Starter.top && s.bottom == Starter.bottom
  }

  /**
   * After initialisation the starter content sits where the starter is found; an entry
   * found there is refreshed keeping its id and position, else the starter comes first.
   * Every other entry is kept where it was.
   */
  lemma StarterInstalled(custom: seq<Scale>)
    ensures var r := WithStarter(custom);
      0 <= StarterIndex(r) < |r| && IsStarter(r[StarterIndex(r)])
    ensures StarterIndex(custom) > -1 ==> (|WithStarter(custom)| == |custom|
      && StarterIndex(WithStarter(custom)) == StarterIndex(custom)
      && WithStarter(custom)[StarterIndex(custom)].id == custom[StarterIndex(custom)].id)
    ensures StarterIndex(custom) == -1 ==> WithStarter(custom) == [Starter] + custom
    ensures forall j :: 0 <= j < |custom| && j != StarterIndex(custom) ==>
      custom[j] in WithStarter(custom)
  {
    var k := StarterIndex(custom);
    var r := WithStarter(custom);
    if k > -1 {
      StarterIndexAt(custom, k, r);
      assert forall j :: 0 <= j < |custom| && j != k ==> r[j] == custom[j];
    } else {
      assert r[0] == Starter;
      assert forall j :: 0 <= j < |custom| ==> custom[j] == r[j + 1];
    }
  }

  /** Refreshing the entry found at `k` keeps the search landing on `k`. */
  lemma StarterIndexAt(custom: seq<Scale>, k: int, r: seq<Scale>)
    requires k == StarterIndex(custom) && k > -1
    requires r == custom[k := Starter.(id := custom[k].id)]
    ensures StarterIndex(r) == k
  {
    var byId := FindIndex(custom, IdIs(StarterId));
    if byId == -1 {
      assert forall j :: 0 <= j < |r| ==> r[j].id == custom[j].id;
      assert FindIndex(r, IdIs(StarterId)) == -1;
      assert IdIs(StarterId)(custom[k]) == false;
      assert r[k].name == StarterName;
      assert forall j :: 0 <= j < k ==> r[j] == custom[j];
    } else {
      assert r[k].id == StarterId;
      assert forall j :: 0 <= j < k ==> r[j] == custom[j];
    }
  }

  /** Initialising twice is initialising once. */
  lemma InitIdempotent(custom: seq<Scale>)
    ensures WithStarter(WithStarter(custom)) == WithStarter(custom)
  {
    var r := WithStarter(custom);
    StarterInstalled(custom);
    var k := StarterIndex(r);
    assert r[k] == Starter.(id := r[k].id);
  }

  /** The list saveCustomScale writes back: an entry with the id is overwritten in place by
    * the new data, an unknown id is appended. */
  function SavedScale(custom: seq<Scale>, id: string, data: Scale): seq<Scale> {
    var i := FindIndex(custom, IdIs(id));
    if i > -1 then custom[i := data] else custom + [data]
  }

  /**
   * Saving under the scale's own id: the list grows only for an unknown id, the saved
   * scale is what a lookup by that id finds, and the entries with other ids are those
   * before, in the same order.
   */
  lemma SaveUpserts(custom: seq<Scale>, data: Scale)
    ensures var r := SavedScale(custom, data.id, data);
      |r| == |custom| + (if FindIndex(custom, IdIs(data.id)) == -1 then 1 else 0)
    ensures var r := SavedScale(custom, data.id, data);
      FindIndex(r, IdIs(data.id)) >= 0 && r[FindIndex(r, IdIs(data.id))] == data
    ensures Filter(SavedScale(custom, data.id, data), IdIsNot(data.id)) == Filter(custom, IdIsNot(data.id))
  {
    var r := SavedScale(custom, data.id, data);
    var i := FindIndex(custom, IdIs(data.id));
    if i > -1 {
      assert forall j :: 0 <= j < i ==> !IdIs(data.id)(r[j]) by {
        assert forall j :: 0 <= j < i ==> r[j] == custom[j];
      }
      FindIndexAt(r, IdIs(data.id), i);
      FilterSkip(custom, i, data, IdIsNot(data.id));
    } else {
      assert forall j :: 0 <= j < |custom| ==> !IdIs(data.id)(r[j]) by {
        assert forall j :: 0 <= j < |custom| ==> r[j] == custom[j];
      }
      FindIndexAt(r, IdIs(data.id), |custom|);
      FilterAppendSkip(custom, data, IdIsNot(data.id));
    }
  }

  /** Saving the same scale twice is saving it once. */
  lemma SaveIdempotent(custom: seq<Scale>, data: Scale)
    ensures var r := SavedScale(custom, data.id, data);
      SavedScale(r, data.id, data) == r
  {
    SaveUpserts(custom, data);
  }

  /** The list deleteCustomScale writes back. */
  function Deleted(custom: seq<Scale>, id: string): (r: seq<Scale>)
    ensures forall s :: s in r <==> s in custom && s.id != id
    ensures |r| + CountWhere(custom, IdIs(id)) == |custom|
  {
    FilterPartition(custom, IdIsNot(id), IdIs(id));
    assert |multiset(Filter(custom, IdIsNot(id)))| + |multiset(Filter(custom, IdIs(id)))| == |multiset(custom)|;
    Filter(custom, IdIsNot(id))
  }

  /** Deleting what was just saved leaves the other scales as they were before the save. */
  lemma DeleteUndoesSave(custom: seq<Scale>, data: Scale)
    ensures Deleted(SavedScale(custom, data.id, data), data.id) == Deleted(custom, data.id)
  {
    SaveUpserts(custom, data);
  }

  /** Deleting an id no entry has changes nothing. */
  lemma {:induction false} DeleteAbsent(custom: seq<Scale>, id: string)
    requires forall j :: 0 <= j < |custom| ==> custom[j].id != id
    ensures Deleted(custom, id) == custom
  {
    if |custom| > 0 {
      DeleteAbsent(custom[1..], id);
      assert custom == [custom[0]] + custom[1..];
    }
  }

  /** getAllScales: the predefined scales, then the custom ones. */
  function AllScales(custom: seq<Scale>): (r: seq<Scale>)
    ensures |r| == |Predefined| + |custom| && r[|Predefined|..] == custom
  {
    Predefined + custom
  }

  predicate IsCustomId(s: Scale) {
    StartsWith(s.id, "custom-")
  }

  /** The "My Custom Scales" listing: the custom-id entries of getAllScales are exactly those of
    * the custom list, in order; the predefined scale is never listed as custom. */
  lemma CustomListing(custom: seq<Scale>)
    ensures Filter(AllScales(custom), IsCustomId) == Filter(custom, IsCustomId)
  {
    FilterConcat(Predefined, custom, IsCustomId);
    PredefinedNotCustom();
    FilterNone(Predefined, IsCustomId);
  }

  lemma PredefinedNotCustom()
    ensures forall i :: 0 <= i < |Predefined| ==> !IsCustomId(Predefined[i])
  {
    assert Predefined[0].id[0] == 'e';
  }

  /**
   * The stored custom scales. `stored` is `None` when storage holds nothing or text that is
   * not valid JSON; every operation reads the list, changes it and writes it back.
   */
  class ScaleStore {
    var stored: Option<seq<Scale>>

    constructor (initial: Option<seq<Scale>>)
      ensures stored == initial
    {
      stored := initial;
    }

    /** getCustomScales: the stored list, or `[]` when it is missing or unreadable. */
    function Custom(): seq<Scale>
      reads this
    {
      if stored.Some? then stored.value else []
    }

    method InitCustomScales() returns (r: seq<Scale>)
      modifies this
      ensures r == WithStarter(old(Custom())) && stored == Some(r)
    {
      var custom := Custom();
      var k := FindIndex(custom, IdIs(StarterId));
      if k == -1 {
        k := FindIndex(custom, NameIs(StarterName));
      }
      if k > -1 {
        var existingId := custom[k].id;
        custom := custom[k := Starter.(id := existingId)];
      } else {
        custom := [Starter] + custom;
      }
      stored := Some(custom);
      r := custom;
    }

    method SaveCustomScale(id: string, data: Scale)
      modifies this
      ensures stored == Some(SavedScale(old(Custom()), id, data))
    {
      var custom := Custom();
      var i := FindIndex(custom, IdIs(id));
      if i > -1 {
        custom := custom[i := data];
      } else {
        custom := custom + [data];
      }
      stored := Some(custom);
    }

    method DeleteCustomScale(id: string)
      modifies this
      ensures stored == Some(Deleted(old(Custom()), id))
    {
      var custom := Custom();
      custom := Filter(custom, IdIsNot(id));
      stored := Some(custom);
    }
  }
}
