/**
 * Persistence of the working state: the last session kept in browser storage, the share
 * link that carries a progression with short keys, and the library of named compositions.
 * Storage is an in-memory value; a failed write (for instance a full quota) is a parameter.
 */
module Storage {
  import opened Wrappers
  import opened Text
  import opened Seqs
  import opened Scales
  import opened ProgressionUi

  /** The tempo used when none is given. */
  const DefaultTempo: real := 80.0

  /** `tempo || 80`. */
  function TempoOr(tempo: real): (t: real)
    ensures t != 0.0
    ensures tempo != 0.0 ==> t == tempo
    ensures tempo == 0.0 ==> t == DefaultTempo
  {
    if tempo != 0.0 then tempo else DefaultTempo
  }

  // ---------------------------------------------------------------------------------
  // The last session
  // ---------------------------------------------------------------------------------

  /** What saveStateToLocal writes under its storage key. */
  datatype Session = Session(scale: Scale, progression: seq<Record>, tempo: real)

  /** The session saved for the given values, `None` when the scale or the progression is
    * missing (nothing is written then). */
  function SessionOf(scale: Option<Scale>, progression: Option<seq<Record>>, tempo: real): (s: Option<Session>)
    ensures s.Some? <==> scale.Some? && progression.Some?
    ensures s.Some? ==> s.value.scale == scale.value && s.value.progression == progression.value
    ensures s.Some? ==> s.value.tempo == TempoOr(tempo)
  {
    if scale.Some? && progression.Some? then Some(Session(scale.value, progression.value, TempoOr(tempo)))
    else None
  }

  // ---------------------------------------------------------------------------------
  // The share link
  // ---------------------------------------------------------------------------------

  /**
   * One progression item of the link: the short keys `n`, `t`, `r` the link is written
   * with and the long keys `name`, `text`, `repeats` older links used; `None` for a key
   * that is absent or null.
   */
  datatype LinkItem = LinkItem(n: Option<string>, t: Option<string>, r: Option<int>,
                               name: Option<string>, text: Option<string>, repeats: Option<int>)

  /** The object carried by the link, read back as JSON: `s`, `t` and `p`. */
  datatype Payload = Payload(s: Option<Scale>, t: Option<real>, p: Option<seq<LinkItem>>)

  /** What decodeUrlData hands to the application. */
  datatype Shared = Shared(scale: Option<Scale>, progression: seq<Record>, tempo: real)

  /** A progression record written with short keys. */
  function Shorten(rec: Record): LinkItem {
    LinkItem(Some(rec.name), Some(rec.text), rec.repeats, None, None, None)
  }

  /** generateShareUrl's payload; `None` when the scale or the progression is missing (the
    * bare page address is returned then). */
  function Encode(scale: Option<Scale>, progression: Option<seq<Record>>, tempo: real): (p: Option<Payload>)
    ensures p.Some? <==> scale.Some? && progression.Some?
  {
    if scale.Some? && progression.Some? then
      Some(Payload(scale, Some(TempoOr(tempo)), Some(Map(progression.value, Shorten))))
    else None
  }

  /** `a || b` on optional strings: the empty string counts as absent. */
  function StrOr(a: Option<string>, b: Option<string>): (r: Option<string>)
    ensures a.Some? && a.value != "" ==> r == a
    ensures a.None? || a.value == "" ==> r == b
  {
    if a.Some? && a.value != "" then a else b
  }

  /** `a || b` on optional counts: zero counts as absent. */
  function IntOr(a: Option<int>, b: int): (r: int)
    ensures a.Some? && a.value != 0 ==> r == a.value
    ensures a.None? || a.value == 0 ==> r == b
  {
    if a.Some? && a.value != 0 then a.value else b
  }

  /** One item mapped back from short (or long) keys; an absent name or text reads as
    * the empty string and the repeat count defaults to 1. */
  function Lengthen(item: LinkItem): (rec: Record)
    ensures rec.repeats.Some? && rec.repeats.value != 0
  {
    Record(StrOr(item.n, item.name).GetOr(""), StrOr(item.t, item.text).GetOr(""),
           Some(IntOr(item.r, IntOr(item.repeats, 1))))
  }

  /** decodeUrlData on a link whose payload reads back (`None`: no `data` parameter, or
    * one that does not decode). */
  function Decode(payload: Option<Payload>): (r: Option<Shared>)
    ensures r.Some? <==> payload.Some?
    ensures r.Some? ==> r.value.tempo != 0.0
    ensures r.Some? && payload.value.p.None? ==> r.value.progression == []
    ensures r.Some? && payload.value.p.Some? ==> |r.value.progression| == |payload.value.p.value|
  {
    match payload
    case None => None
    case Some(pl) =>
      Some(Shared(pl.s, if pl.p.Some? then Map(pl.p.value, Lengthen) else [],
                  TempoOr(if pl.t.Some? then pl.t.value else 0.0)))
  }

  /** A record keeps its name and text through the link; its repeat count comes back
    * when it is a number other than 0, and as 1 otherwise. */
  lemma LinkItemRoundTrip(rec: Record)
    ensures Lengthen(Shorten(rec)).name == rec.name
    ensures Lengthen(Shorten(rec)).text == rec.text
    ensures Lengthen(Shorten(rec)).repeats == Some(IntOr(rec.repeats, 1))
  {
  }

  /** A record whose repeat count is a number other than 0 comes back unchanged. */
  predicate Restorable(rec: Record) {
    rec.repeats.Some? && rec.repeats.value != 0
  }

  /** Decoding an encoded link gives back the scale, the progression (with counts that do
    * not read back replaced by 1) and the tempo (80 when it was 0). */
  lemma {:induction false} ShareRoundTrip(scale: Scale, progression: seq<Record>, tempo: real)
    ensures var d := Decode(Encode(Some(scale), Some(progression), tempo));
      d.Some? && d.value.scale == Some(scale) && d.value.tempo == TempoOr(tempo) &&
      |d.value.progression| == |progression| &&
      forall i :: 0 <= i < |progression| ==>
        d.value.progression[i].name == progression[i].name &&
        d.value.progression[i].text == progression[i].text &&
        d.value.progression[i].repeats == Some(IntOr(progression[i].repeats, 1))
  {
    var d := Decode(Encode(Some(scale), Some(progression), tempo));
    assert d.value.progression == Map(Map(progression, Shorten), Lengthen);
    forall i | 0 <= i < |progression|
      ensures d.value.progression[i] == Lengthen(Shorten(progression[i]))
    {
    }
  }

  /** With every count restorable and a tempo set, the link gives back exactly what was
    * shared. */
  lemma ShareRoundTripExact(scale: Scale, progression: seq<Record>, tempo: real)
    requires tempo != 0.0
    requires forall i :: 0 <= i < |progression| ==> Restorable(progression[i])
    ensures Decode(Encode(Some(scale), Some(progression), tempo)) == Some(Shared(Some(scale), progression, tempo))
  {
    ShareRoundTrip(scale, progression, tempo);
    var d := Decode(Encode(Some(scale), Some(progression), tempo)).value;
    assert d.progression == progression;
  }

  /** A link with no progression opens an empty one at 80 beats per minute when it gives no
    * tempo. */
  lemma DecodeDefaults(s: Option<Scale>)
    ensures Decode(Some(Payload(s, None, None))) == Some(Shared(s, [], DefaultTempo))
  {
  }

  // ---------------------------------------------------------------------------------
  // The composition library
  // ---------------------------------------------------------------------------------

  /** A saved composition; `id` is the save time in milliseconds written in decimal. */
  datatype Composition = Composition(id: string, name: string, category: string, date: string,
                                     scale: Scale, progression: seq<Record>, tempo: real)

  /** The case-insensitive (name, category) pair that identifies a composition: both parts
    * folded as `toLowerCase` does, Cyrillic and the other scripts `FoldChar` covers included. */
  function Key(name: string, category: string): (string, string) {
    (FoldCase(name), FoldCase(category))
  }

  /** Names typed in Russian match whatever their case: "Привет" and "привет" share a key. */
  lemma CyrillicKeysMatch(category: string)
    ensures Key("\U{041F}\U{0440}\U{0438}\U{0432}\U{0435}\U{0442}", category) ==
            Key("\U{043F}\U{0440}\U{0438}\U{0432}\U{0435}\U{0442}", category)
  {
    var upper := "\U{041F}\U{0440}\U{0438}\U{0432}\U{0435}\U{0442}";
    var lower := "\U{043F}\U{0440}\U{0438}\U{0432}\U{0435}\U{0442}";
    assert FoldChar(upper[0]) == lower[0];
    assert forall i :: 1 <= i < 6 ==> upper[i] == lower[i] && FoldChar(lower[i]) == lower[i];
    assert FoldCase(upper) == FoldCase(lower);
  }

  function KeyOf(c: Composition): (string, string) {
    Key(c.name, c.category)
  }

  function HasKey(name: string, category: string): Composition -> bool {
    (c: Composition) => KeyOf(c) == Key(name, category)
  }

  /** No two compositions share a key. */
  predicate UniqueKeys(lib: seq<Composition>) {
    forall i, j :: 0 <= i < j < |lib| ==> KeyOf(lib[i]) != KeyOf(lib[j])
  }

  /** The library after storing `comp`: it replaces, keeping that entry's id, the first
    * entry with the same key, or is appended. */
  function Upserted(lib: seq<Composition>, comp: Composition): seq<Composition> {
    var k := FindIndex(lib, HasKey(comp.name, comp.category));
    if k >= 0 then lib[k := comp.(id := lib[k].id)] else lib + [comp]
  }

  /** Storing replaces the first entry with the same key in place, keeping its id and every
    * other entry, or appends when there is none. */
  lemma UpsertPlaces(lib: seq<Composition>, comp: Composition)
    ensures var r := Upserted(lib, comp);
      (exists k :: 0 <= k < |lib| && KeyOf(lib[k]) == KeyOf(comp)) ==>
        |r| == |lib| &&
        exists k :: 0 <= k < |lib| && KeyOf(lib[k]) == KeyOf(comp) &&
          (forall j :: 0 <= j < k ==> KeyOf(lib[j]) != KeyOf(comp)) &&
          r[k] == comp.(id := lib[k].id) &&
          forall j :: 0 <= j < |lib| && j != k ==> r[j] == lib[j]
    ensures var r := Upserted(lib, comp);
      (forall k :: 0 <= k < |lib| ==> KeyOf(lib[k]) != KeyOf(comp)) ==> r == lib + [comp]
  {
  }

  /** Storing keeps keys unique. */
  lemma UpsertKeepsUnique(lib: seq<Composition>, comp: Composition)
    requires UniqueKeys(lib)
    ensures UniqueKeys(Upserted(lib, comp))
    ensures exists k :: 0 <= k < |Upserted(lib, comp)| && KeyOf(Upserted(lib, comp)[k]) == KeyOf(comp)
  {
    var r := Upserted(lib, comp);
    var k := FindIndex(lib, HasKey(comp.name, comp.category));
    if k >= 0 {
      assert forall j :: 0 <= j < |lib| ==> KeyOf(r[j]) == KeyOf(lib[j]);
      assert KeyOf(r[k]) == KeyOf(comp);
    } else {
      assert forall j :: 0 <= j < |lib| ==> KeyOf(lib[j]) != KeyOf(comp);
      assert r[|lib|] == comp;
    }
  }

  /** Storing the same composition twice leaves the library as storing it once. */
  lemma UpsertIdempotent(lib: seq<Composition>, comp: Composition)
    ensures Upserted(Upserted(lib, comp), comp) == Upserted(lib, comp)
  {
    var r := Upserted(lib, comp);
    var k := FindIndex(lib, HasKey(comp.name, comp.category));
    var p := HasKey(comp.name, comp.category);
    if k >= 0 {
      assert forall j :: 0 <= j < |lib| ==> KeyOf(r[j]) == KeyOf(lib[j]);
      FindIndexAt(r, p, k);
    } else {
      assert r[|lib|] == comp;
      FindIndexAt(r, p, |lib|);
      assert r[|lib| := comp.(id := r[|lib|].id)] == r;
    }
  }

  function NotId(id: string): Composition -> bool {
    (c: Composition) => c.id != id
  }

  /** deleteComposition's list: every entry with that id removed, the rest in order. */
  function Without(lib: seq<Composition>, id: string): (r: seq<Composition>)
    ensures forall c :: c in r <==> c in lib && c.id != id
    ensures |r| <= |lib|
  {
    Filter(lib, NotId(id))
  }

  /** Deleting the id of a composition just appended gives the library back. */
  lemma DeleteUndoesAppend(lib: seq<Composition>, comp: Composition)
    requires forall c :: c in lib ==> c.id != comp.id
    ensures Without(lib + [comp], comp.id) == lib
  {
    FilterAppendSkip(lib, comp, NotId(comp.id));
    FilterKeepsAll(lib, NotId(comp.id));
  }

  lemma {:induction false} FilterKeepsAll<T>(s: seq<T>, p: T -> bool)
    requires forall x :: x in s ==> p(x)
    ensures Filter(s, p) == s
  {
    if |s| > 0 {
      FilterKeepsAll(s[1..], p);
    }
  }

  /** The composition saveComposition builds (before an existing id is kept). */
  function NewComposition(name: string, category: string, now: nat, date: string, scale: Scale,
                          progression: seq<Record>, tempo: real): Composition {
    Composition(NatToString(now), name, category, date, scale, progression, TempoOr(tempo))
  }

  /**
   * The browser storage the persistence functions read and write: the last session and
   * the library, each `None` when absent or not valid JSON.
   */
  class LocalStore {
    var session: Option<Session>
    var library: Option<seq<Composition>>

    constructor (session: Option<Session>, library: Option<seq<Composition>>)
      ensures this.session == session && this.library == library
    {
      this.session := session;
      this.library := library;
    }

    /** getCompositions: the stored list, or `[]` when it is missing or unreadable. */
    function Compositions(): seq<Composition>
      reads this
    {
      if library.Some? then library.value else []
    }

    /** saveStateToLocal; a failed write leaves storage as it was. */
    method SaveStateToLocal(scale: Option<Scale>, progression: Option<seq<Record>>, tempo: real, writeFails: bool)
      modifies this
      ensures library == old(library)
      ensures SessionOf(scale, progression, tempo).Some? && !writeFails ==> session == SessionOf(scale, progression, tempo)
      ensures SessionOf(scale, progression, tempo).None? || writeFails ==> session == old(session)
    {
      if scale.None? || progression.None? {
        return;
      }
      var data := Session(scale.value, progression.value, if tempo != 0.0 then tempo else 80.0);
      if !writeFails {
        session := Some(data);
      }
    }

    /** loadStateFromLocal. */
    method LoadStateFromLocal() returns (s: Option<Session>)
      ensures s == session
    {
      s := session;
    }

    /** saveComposition: `false` and nothing written when the name is empty or the scale or
      * progression is missing, or when the write fails. */
    method SaveComposition(name: string, category: Option<string>, scale: Option<Scale>,
                           progression: Option<seq<Record>>, tempo: real, now: nat, date: string,
                           writeFails: bool) returns (ok: bool)
      modifies this
      ensures session == old(session)
      ensures ok <==> name != "" && scale.Some? && progression.Some? && !writeFails
      ensures ok ==> library == Some(Upserted(old(Compositions()),
                        NewComposition(name, category.GetOr(""), now, date, scale.value, progression.value, tempo)))
      ensures !ok ==> library == old(library)
    {
      if name == "" || scale.None? || progression.None? {
        return false;
      }
      var comp := Composition(NatToString(now), name, category.GetOr(""), date, scale.value, progression.value,
                              if tempo != 0.0 then tempo else 80.0);
      var lib := Compositions();
      var existingIndex := FindIndex(lib, HasKey(name, category.GetOr("")));
      if existingIndex != -1 {
        comp := comp.(id := lib[existingIndex].id);
        lib := lib[existingIndex := comp];
      } else {
        lib := lib + [comp];
      }
      if writeFails {
        return false;
      }
      library := Some(lib);
      return true;
    }

    /** deleteComposition. */
    method DeleteComposition(id: string, writeFails: bool) returns (ok: bool)
      modifies this
      ensures session == old(session)
      ensures ok == !writeFails
      ensures ok ==> library == Some(Without(old(Compositions()), id))
      ensures !ok ==> library == old(library)
    {
      var lib := Compositions();
      lib := Filter(lib, NotId(id));
      if writeFails {
        return false;
      }
      library := Some(lib);
      return true;
    }
  }
}
