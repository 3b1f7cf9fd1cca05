/**
 * The view model `getData` builds: three sections in a fixed order, each
 * holding one row per pack filed under it, in the host's iteration order.
 */
module View {
  import opened Wrappers
  import opened Compendium

  /** One row of the form: a pack, its current banner and its override choice. */
  datatype Row = Row(id: string, displayLabel: string, current: string, override: string)

  /** One collapsible section of the form. */
  datatype SectionView = SectionView(id: string, displayLabel: string, packs: seq<Row>, isOpen: bool)

  /** `getData` fails when a pack's category names no section: `sections[type].packs` reads a missing key. */
  datatype GetDataError = MissingSection(category: string)

  /** The ids of the host's packs in iteration order, each with a metadata record. */
  ghost predicate Registered(ids: seq<string>, packs: map<string, Metadata>)
  {
    forall k :: 0 <= k < |ids| ==> ids[k] in packs
  }

  /** A sequence without repetitions. */
  ghost predicate Distinct(ids: seq<string>)
  {
    forall i, j :: 0 <= i < j < |ids| ==> ids[i] != ids[j]
  }

  /** The host's pack collection: iteration order lists every pack exactly once. */
  ghost predicate WellFormedRegistry(ids: seq<string>, packs: map<string, Metadata>)
  {
    && Registered(ids, packs)
    && Distinct(ids)
    && (forall id :: id in packs ==> id in ids)
  }

  function SectionLabel(sid: string): string
  {
    if sid == "world" then "World Compendiums"
    else if sid == "module" then "Module Compendiums"
    else "System Compendiums"
  }

  /** A section is open unless its stored state is exactly `false`. */
  predicate IsOpen(states: map<string, bool>, sid: string)
  {
    sid !in states || states[sid]
  }

  /** The row for pack `id`: no banner shows as "", no override as "Auto". */
  function MakeRow(id: string, m: Metadata, banners: map<string, string>, overrides: map<string, string>): Row
  {
    Row(id, m.displayLabel, ValueOr(banners, id, ""), ValueOr(overrides, id, Auto))
  }

  /** The rows of the packs `ids` whose category is `sid`, in the order of `ids`. */
  function RowsIn(ids: seq<string>, packs: map<string, Metadata>, banners: map<string, string>,
                  overrides: map<string, string>, sid: string): seq<Row>
    requires Registered(ids, packs)
  {
    if ids == [] then []
    else
      var id := ids[|ids| - 1];
      RowsIn(ids[..|ids| - 1], packs, banners, overrides, sid)
        + (if Category(packs[id], overrides, id) == sid then [MakeRow(id, packs[id], banners, overrides)] else [])
  }

  /** The category of the first pack of `ids` that names no section, if any. */
  function FirstUnplaced(ids: seq<string>, packs: map<string, Metadata>, overrides: map<string, string>): (r: Option<string>)
    requires Registered(ids, packs)
    ensures r.Some? ==> r.value !in SectionIds
  {
    if ids == [] then None
    else
      var id := ids[|ids| - 1];
      match FirstUnplaced(ids[..|ids| - 1], packs, overrides)
      case Some(t) => Some(t)
      case None => if Category(packs[id], overrides, id) in SectionIds then None else Some(Category(packs[id], overrides, id))
  }

  function SectionOf(sid: string, ids: seq<string>, packs: map<string, Metadata>, banners: map<string, string>,
                     overrides: map<string, string>, states: map<string, bool>): SectionView
    requires Registered(ids, packs)
  {
    SectionView(sid, SectionLabel(sid), RowsIn(ids, packs, banners, overrides, sid), IsOpen(states, sid))
  }

  /** What `getData` returns for the packs `ids` and the three stored dictionaries. */
  function ViewOf(ids: seq<string>, packs: map<string, Metadata>, banners: map<string, string>,
                  overrides: map<string, string>, states: map<string, bool>): (r: Result<seq<SectionView>, GetDataError>)
    requires Registered(ids, packs)
    ensures r.Failure? ==> r.error.category !in SectionIds
    ensures r.Success? ==> |r.value| == 3 && forall k :: 0 <= k < 3 ==> r.value[k].id == SectionIds[k]
  {
    match FirstUnplaced(ids, packs, overrides)
    case Some(t) => Failure(MissingSection(t))
    case None =>
      Success([SectionOf("world", ids, packs, banners, overrides, states),
               SectionOf("module", ids, packs, banners, overrides, states),
               SectionOf("system", ids, packs, banners, overrides, states)])
  }

  /** The ids of a list of rows. */
  function RowIds(rows: seq<Row>): (r: seq<string>)
    ensures |r| == |rows| && forall k :: 0 <= k < |rows| ==> r[k] == rows[k].id
  {
    seq(|rows|, k requires 0 <= k < |rows| => rows[k].id)
  }

  /** Filing one more pack of the listing appends its row to the section its category names. */
  lemma FilingStep(ids: seq<string>, packs: map<string, Metadata>, banners: map<string, string>,
                   overrides: map<string, string>, i: nat)
    requires Registered(ids, packs) && i < |ids|
    ensures Registered(ids[..i], packs) && Registered(ids[..i + 1], packs)
    ensures forall sid ::
      RowsIn(ids[..i + 1], packs, banners, overrides, sid)
        == RowsIn(ids[..i], packs, banners, overrides, sid)
           + (if Category(packs[ids[i]], overrides, ids[i]) == sid then [MakeRow(ids[i], packs[ids[i]], banners, overrides)] else [])
    ensures FirstUnplaced(ids[..i], packs, overrides).None? ==>
      FirstUnplaced(ids[..i + 1], packs, overrides)
        == if Category(packs[ids[i]], overrides, ids[i]) in SectionIds then None else Some(Category(packs[ids[i]], overrides, ids[i]))
  {
    assert ids[..i + 1][..i] == ids[..i];
  }

  /** Filing distributes over concatenation: a section keeps the packs' relative order. */
  lemma {:induction false} RowsInAppend(a: seq<string>, b: seq<string>, packs: map<string, Metadata>,
                                        banners: map<string, string>, overrides: map<string, string>, sid: string)
    requires Registered(a, packs) && Registered(b, packs)
    ensures Registered(a + b, packs)
    ensures RowsIn(a + b, packs, banners, overrides, sid)
         == RowsIn(a, packs, banners, overrides, sid) + RowsIn(b, packs, banners, overrides, sid)
    decreases |b|
  {
    if b != [] {
      var b' := b[..|b| - 1];
      assert (a + b)[..|a + b| - 1] == a + b';
      assert (a + b)[|a + b| - 1] == b[|b| - 1];
      RowsInAppend(a, b', packs, banners, overrides, sid);
    } else {
      assert a + b == a;
    }
  }

  /** A pack's row is in section `sid` exactly when the pack is listed and its category is `sid`. */
  lemma {:induction false} RowsInMembership(ids: seq<string>, packs: map<string, Metadata>,
                                            banners: map<string, string>, overrides: map<string, string>,
                                            sid: string, id: string)
    requires Registered(ids, packs)
    ensures id in RowIds(RowsIn(ids, packs, banners, overrides, sid))
        <==> id in ids && Category(packs[id], overrides, id) == sid
  {
    if ids != [] {
      var p := ids[..|ids| - 1];
      var last := ids[|ids| - 1];
      RowsInMembership(p, packs, banners, overrides, sid, id);
      var before := RowsIn(p, packs, banners, overrides, sid);
      var extra := if Category(packs[last], overrides, last) == sid then [MakeRow(last, packs[last], banners, overrides)] else [];
      assert RowsIn(ids, packs, banners, overrides, sid) == before + extra;
      assert RowIds(before + extra) == RowIds(before) + RowIds(extra);
      if Category(packs[last], overrides, last) == sid {
        assert RowIds(extra) == [last];
      } else {
        assert RowIds(extra) == [];
      }
      assert ids == p + [last];
      assert id in ids <==> id in p || id == last;
    }
  }

  /** Every row carries the pack's label, its banner or "" and its override or "Auto". */
  lemma {:induction false} RowsCarryDefaults(ids: seq<string>, packs: map<string, Metadata>,
                                             banners: map<string, string>, overrides: map<string, string>,
                                             sid: string, k: nat)
    requires Registered(ids, packs)
    requires k < |RowsIn(ids, packs, banners, overrides, sid)|
    ensures var row := RowsIn(ids, packs, banners, overrides, sid)[k];
      && row.id in ids && row.id in packs
      && Category(packs[row.id], overrides, row.id) == sid
      && row.displayLabel == packs[row.id].displayLabel
      && row.current == ValueOr(banners, row.id, "")
      && row.override == ValueOr(overrides, row.id, Auto)
  {
    var p := ids[..|ids| - 1];
    var before := RowsIn(p, packs, banners, overrides, sid);
    assert ids == p + [ids[|ids| - 1]];
    if k < |before| {
      RowsCarryDefaults(p, packs, banners, overrides, sid, k);
    }
  }

  /** The row shows "Auto" exactly when the category comes from the pack's own source. */
  lemma RowOverrideShowsAuto(id: string, m: Metadata, banners: map<string, string>, overrides: map<string, string>)
    ensures MakeRow(id, m, banners, overrides).override == Auto <==> !HasOverride(overrides, id)
    ensures MakeRow(id, m, banners, overrides).current == "" <==> !(id in banners && banners[id] != "")
  {
  }

  /** Once a pack names no section, so does every longer listing: the first failure is kept. */
  lemma {:induction false} FirstUnplacedExtends(ids: seq<string>, packs: map<string, Metadata>,
                                                overrides: map<string, string>, n: nat)
    requires Registered(ids, packs) && n <= |ids|
    requires Registered(ids[..n], packs)
    requires FirstUnplaced(ids[..n], packs, overrides).Some?
    ensures FirstUnplaced(ids, packs, overrides) == FirstUnplaced(ids[..n], packs, overrides)
    decreases |ids| - n
  {
    if n < |ids| {
      var p := ids[..|ids| - 1];
      assert p[..n] == ids[..n];
      FirstUnplacedExtends(p, packs, overrides, n);
    } else {
      assert ids[..n] == ids;
    }
  }

  /** No pack names a missing section exactly when every listed pack's category is a section id. */
  lemma {:induction false} FirstUnplacedNone(ids: seq<string>, packs: map<string, Metadata>, overrides: map<string, string>)
    requires Registered(ids, packs)
    ensures FirstUnplaced(ids, packs, overrides).None?
        <==> forall k :: 0 <= k < |ids| ==> Category(packs[ids[k]], overrides, ids[k]) in SectionIds
  {
    if ids != [] {
      var p := ids[..|ids| - 1];
      FirstUnplacedNone(p, packs, overrides);
      assert forall k :: 0 <= k < |p| ==> p[k] == ids[k];
    }
  }

  /** With no pack unplaced, the three sections hold as many rows as there are listed packs. */
  lemma {:induction false} RowsPartitionCount(ids: seq<string>, packs: map<string, Metadata>,
                                              banners: map<string, string>, overrides: map<string, string>)
    requires Registered(ids, packs)
    requires FirstUnplaced(ids, packs, overrides).None?
    ensures |RowsIn(ids, packs, banners, overrides, "world")|
          + |RowsIn(ids, packs, banners, overrides, "module")|
          + |RowsIn(ids, packs, banners, overrides, "system")| == |ids|
  {
    if ids != [] {
      RowsPartitionCount(ids[..|ids| - 1], packs, banners, overrides);
    }
  }

  lemma {:induction false} DistinctCard(ids: seq<string>)
    requires Distinct(ids)
    ensures |(set id | id in ids)| == |ids|
  {
    if ids != [] {
      var p := ids[..|ids| - 1];
      var last := ids[|ids| - 1];
      DistinctCard(p);
      assert (set id | id in ids) == (set id | id in p) + {last};
      assert last !in (set id | id in p);
    }
  }

  /** A well-formed registry lists exactly as many ids as it holds packs. */
  lemma RegistrySize(ids: seq<string>, packs: map<string, Metadata>)
    requires WellFormedRegistry(ids, packs)
    ensures |ids| == |packs|
  {
    DistinctCard(ids);
    assert (set id | id in ids) == packs.Keys;
  }

  /** `getData` succeeds exactly when every pack's category is a section id. */
  lemma ViewSucceedsIff(ids: seq<string>, packs: map<string, Metadata>, banners: map<string, string>,
                        overrides: map<string, string>, states: map<string, bool>)
    requires WellFormedRegistry(ids, packs)
    ensures ViewOf(ids, packs, banners, overrides, states).Success?
        <==> forall id :: id in packs ==> Category(packs[id], overrides, id) in SectionIds
  {
    FirstUnplacedNone(ids, packs, overrides);
    if forall k :: 0 <= k < |ids| ==> Category(packs[ids[k]], overrides, ids[k]) in SectionIds {
      forall id | id in packs ensures Category(packs[id], overrides, id) in SectionIds {
        var k :| 0 <= k < |ids| && ids[k] == id;
      }
    }
  }

  /** A successful `getData` returns the world, module and system sections, in that order, each open unless stored closed. */
  lemma ViewSections(ids: seq<string>, packs: map<string, Metadata>, banners: map<string, string>,
                     overrides: map<string, string>, states: map<string, bool>)
    requires Registered(ids, packs)
    requires ViewOf(ids, packs, banners, overrides, states).Success?
    ensures var v := ViewOf(ids, packs, banners, overrides, states).value;
      && |v| == 3
      && forall k :: 0 <= k < 3 ==>
           && v[k].id == SectionIds[k]
           && v[k].isOpen == IsOpen(states, SectionIds[k])
           && v[k].packs == RowsIn(ids, packs, banners, overrides, SectionIds[k])
  {
  }

  /**
   * A successful `getData` puts every pack into the one section its category
   * names and into no other, and holds exactly one row per pack.
   */
  lemma ViewPartition(ids: seq<string>, packs: map<string, Metadata>, banners: map<string, string>,
                      overrides: map<string, string>, states: map<string, bool>)
    requires WellFormedRegistry(ids, packs)
    requires ViewOf(ids, packs, banners, overrides, states).Success?
    ensures var v := ViewOf(ids, packs, banners, overrides, states).value;
      && (forall id, k :: id in packs && 0 <= k < |v| ==>
            (id in RowIds(v[k].packs) <==> v[k].id == Category(packs[id], overrides, id)))
      && |v[0].packs| + |v[1].packs| + |v[2].packs| == |packs|
  {
    var v := ViewOf(ids, packs, banners, overrides, states).value;
    forall id, k | id in packs && 0 <= k < |v|
      ensures id in RowIds(v[k].packs) <==> v[k].id == Category(packs[id], overrides, id)
    {
      RowsInMembership(ids, packs, banners, overrides, SectionIds[k], id);
    }
    RowsPartitionCount(ids, packs, banners, overrides);
    RegistrySize(ids, packs);
  }

  /** With no stored override, every row shows "" and "Auto", and with no stored state every section is open. */
  lemma FreshWorldView(ids: seq<string>, packs: map<string, Metadata>)
    requires WellFormedRegistry(ids, packs)
    ensures ViewOf(ids, packs, map[], map[], map[]).Success?
    ensures var v := ViewOf(ids, packs, map[], map[], map[]).value;
      && |v| == 3
      && (forall k :: 0 <= k < |v| ==> v[k].isOpen)
      && (forall k, j :: 0 <= k < |v| && 0 <= j < |v[k].packs| ==>
            v[k].packs[j].current == "" && v[k].packs[j].override == Auto)
  {
    forall id | id in packs ensures Category(packs[id], map[], id) in SectionIds {
      EffectiveCategory(packs[id], map[], id);
    }
    ViewSucceedsIff(ids, packs, map[], map[], map[]);
    var v := ViewOf(ids, packs, map[], map[], map[]).value;
    forall k, j | 0 <= k < |v| && 0 <= j < |v[k].packs|
      ensures v[k].packs[j].current == "" && v[k].packs[j].override == Auto
    {
      RowsCarryDefaults(ids, packs, map[], map[], SectionIds[k], j);
    }
  }
}
