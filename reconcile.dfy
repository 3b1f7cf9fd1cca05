/**
 * The form reconciliation of `_updateObject`: the submitted fields are folded,
 * in order, into the banner and override dictionaries and the live pack
 * metadata; afterwards every stored banner is copied onto its live pack.
 */
module FormReconciler {
  import opened Wrappers
  import opened Strings
  import opened Compendium

  /** The suffix that marks a form field as a pack's override dropdown. */
  const OverrideSuffix: string := "__override"

  predicate IsOverrideKey(key: string)
  {
    |OverrideSuffix| <= |key| && key[|key| - |OverrideSuffix|..] == OverrideSuffix
  }

  /** The pack id of an override field: its name without the suffix (`key.slice(0, -10)`). */
  function PackIdOf(key: string): string
    requires IsOverrideKey(key)
  {
    key[..|key| - |OverrideSuffix|]
  }

  /** The name of the override field of pack `id`. */
  function OverrideKey(id: string): string
  {
    id + OverrideSuffix
  }

  /** The banner and override dictionaries being rebuilt, and the live pack metadata. */
  datatype Store = Store(banners: map<string, string>, overrides: map<string, string>, packs: map<string, Metadata>)

  /** The metadata records agree on every field except possibly `packageType`. */
  predicate SameButType(a: Metadata, b: Metadata)
  {
    a.displayLabel == b.displayLabel && a.package == b.package && a.banner == b.banner
  }

  /** One iteration of the loop over the submitted fields. */
  function ApplyField(st: Store, key: string, value: string): (r: Store)
    ensures r.packs.Keys == st.packs.Keys
  {
    if IsOverrideKey(key) then
      var id := PackIdOf(key);
      if IsSetting(value) then
        st.(overrides := st.overrides[id := value],
            packs := if id in st.packs then st.packs[id := st.packs[id].(packageType := Lower(value))] else st.packs)
      else
        st.(overrides := st.overrides - {id})
    else if value != "" then
      st.(banners := st.banners[key := value])
    else
      st.(banners := st.banners - {key})
  }

  /**
   * The whole loop over the submitted fields, taken in order. Live packs are
   * neither added nor removed, and only their `packageType` can change.
   */
  function Reconcile(st: Store, fields: seq<(string, string)>): (r: Store)
    ensures r.packs.Keys == st.packs.Keys
    ensures forall id :: id in st.packs ==> SameButType(r.packs[id], st.packs[id])
  {
    if fields == [] then st
    else
      var last := fields[|fields| - 1];
      ApplyField(Reconcile(st, fields[..|fields| - 1]), last.0, last.1)
  }

  /** A form with a single field is that field's loop iteration. */
  lemma ReconcileSingle(st: Store, key: string, value: string)
    ensures Reconcile(st, [(key, value)]) == ApplyField(st, key, value)
  {
  }

  /** The value of the last submitted field named `key`, if any. */
  function LastValue(fields: seq<(string, string)>, key: string): Option<string>
  {
    if fields == [] then None
    else if fields[|fields| - 1].0 == key then Some(fields[|fields| - 1].1)
    else LastValue(fields[..|fields| - 1], key)
  }

  /** The value of the last submitted field named `key` that sets an override, if any. */
  function LastSetting(fields: seq<(string, string)>, key: string): Option<string>
  {
    if fields == [] then None
    else if fields[|fields| - 1].0 == key && IsSetting(fields[|fields| - 1].1) then Some(fields[|fields| - 1].1)
    else LastSetting(fields[..|fields| - 1], key)
  }

  /** `m` and `m0` agree on key `k`. */
  ghost predicate SameEntry(m: map<string, string>, m0: map<string, string>, k: string)
  {
    (k in m <==> k in m0) && (k in m ==> m[k] == m0[k])
  }

  /** `m` holds `v` for `k` when `keep`, and no entry for `k` otherwise. */
  ghost predicate Assigned(m: map<string, string>, k: string, v: string, keep: bool)
  {
    if keep then k in m && m[k] == v else k !in m
  }

  lemma OverrideKeyRoundTrip(id: string)
    ensures IsOverrideKey(OverrideKey(id)) && PackIdOf(OverrideKey(id)) == id
  {
  }

  /** Every override field is the override field of the pack id it carries. */
  lemma OverrideKeyOfPackId(key: string)
    requires IsOverrideKey(key)
    ensures OverrideKey(PackIdOf(key)) == key
  {
  }

  /**
   * Banner fields: an override field never touches `banners`; for any other
   * key the last submitted value is stored when non-empty and deletes the
   * entry when empty, and a key not submitted keeps its previous entry.
   */
  lemma {:induction false} ReconcileBanner(st: Store, fields: seq<(string, string)>, key: string)
    ensures var r := Reconcile(st, fields); var lv := LastValue(fields, key);
      && (IsOverrideKey(key) || lv.None? ==> SameEntry(r.banners, st.banners, key))
      && (!IsOverrideKey(key) && lv.Some? ==> Assigned(r.banners, key, lv.value, lv.value != ""))
  {
    if fields != [] {
      ReconcileBanner(st, fields[..|fields| - 1], key);
    }
  }

  /**
   * Override fields: pack `id`'s override is the last value submitted under
   * its override field when that value sets an override, and is deleted when
   * the value is empty or "Auto"; an id not submitted keeps its entry.
   */
  lemma {:induction false} ReconcileOverride(st: Store, fields: seq<(string, string)>, id: string)
    ensures var r := Reconcile(st, fields); var lv := LastValue(fields, OverrideKey(id));
      && (lv.None? ==> SameEntry(r.overrides, st.overrides, id))
      && (lv.Some? ==> Assigned(r.overrides, id, lv.value, IsSetting(lv.value)))
  {
    if fields != [] {
      var last := fields[|fields| - 1];
      var before := Reconcile(st, fields[..|fields| - 1]);
      ReconcileOverride(st, fields[..|fields| - 1], id);
      ApplyFieldOverride(before, last.0, last.1, id);
    }
  }

  /** One field changes pack `id`'s override only when it is that pack's override field. */
  lemma ApplyFieldOverride(st: Store, key: string, value: string, id: string)
    ensures var r := ApplyField(st, key, value);
      && (key == OverrideKey(id) ==> Assigned(r.overrides, id, value, IsSetting(value)))
      && (key != OverrideKey(id) ==> SameEntry(r.overrides, st.overrides, id))
  {
  }

  /**
   * The live `packageType` of pack `id` is the lower-cased last value that
   * set its override; a cleared override leaves it as last written.
   */
  lemma {:induction false} ReconcilePackageType(st: Store, fields: seq<(string, string)>, id: string)
    requires id in st.packs
    ensures var r := Reconcile(st, fields); var ls := LastSetting(fields, OverrideKey(id));
      && id in r.packs
      && r.packs[id].packageType == (if ls.Some? then Lower(ls.value) else st.packs[id].packageType)
  {
    if fields != [] {
      var last := fields[|fields| - 1];
      ReconcilePackageType(st, fields[..|fields| - 1], id);
      OverrideKeyRoundTrip(id);
      if IsOverrideKey(last.0) {
        OverrideKeyOfPackId(last.0);
      }
    }
  }

  /** No empty banner is stored, and neither "" nor "Auto" is stored as an override. */
  ghost predicate CleanSettings(banners: map<string, string>, overrides: map<string, string>)
  {
    && (forall k :: k in banners ==> banners[k] != "")
    && (forall k :: k in overrides ==> IsSetting(overrides[k]))
  }

  /** Reconciliation keeps the settings clean: clearing deletes rather than storing "" or "Auto". */
  lemma {:induction false} ReconcileKeepsClean(st: Store, fields: seq<(string, string)>)
    requires CleanSettings(st.banners, st.overrides)
    ensures CleanSettings(Reconcile(st, fields).banners, Reconcile(st, fields).overrides)
  {
    if fields != [] {
      ReconcileKeepsClean(st, fields[..|fields| - 1]);
    }
  }

  /** An override value `getData` can file: one that does not set an override, or lower-cases to a section id. */
  predicate Fileable(value: string)
  {
    !IsSetting(value) || Lower(value) in SectionIds
  }

  ghost predicate FileableOverrides(overrides: map<string, string>)
  {
    forall k :: k in overrides ==> Fileable(overrides[k])
  }

  /** Every submitted override field carries a fileable value, as the dropdown's Auto/World/Module/System do. */
  ghost predicate FileableForm(fields: seq<(string, string)>)
  {
    forall k :: 0 <= k < |fields| && IsOverrideKey(fields[k].0) ==> Fileable(fields[k].1)
  }

  lemma {:induction false} ReconcileKeepsFileable(st: Store, fields: seq<(string, string)>)
    requires FileableOverrides(st.overrides) && FileableForm(fields)
    ensures FileableOverrides(Reconcile(st, fields).overrides)
  {
    if fields != [] {
      ReconcileKeepsFileable(st, fields[..|fields| - 1]);
    }
  }

  /** Every live pack whose id has a stored banner takes that banner; the rest keep theirs. */
  function ApplyBanners(packs: map<string, Metadata>, banners: map<string, string>): (r: map<string, Metadata>)
    ensures r.Keys == packs.Keys
  {
    map id | id in packs :: if id in banners then packs[id].(banner := banners[id]) else packs[id]
  }

  /**
   * Applying banners sets a pack's banner to the stored one when its id is
   * stored and leaves it otherwise, and changes no other field; stored ids
   * without a live pack are skipped.
   */
  lemma ApplyBannersEffect(packs: map<string, Metadata>, banners: map<string, string>, id: string)
    requires id in packs
    ensures var r := ApplyBanners(packs, banners);
      && r[id].banner == (if id in banners then banners[id] else packs[id].banner)
      && r[id].(banner := packs[id].banner) == packs[id]
  {
  }

  /** The state a form save leaves: the reconciled dictionaries, then the stored banners applied to the live packs. */
  function Save(st: Store, fields: seq<(string, string)>): (r: Store)
    ensures r.packs.Keys == st.packs.Keys
  {
    var folded := Reconcile(st, fields);
    folded.(packs := ApplyBanners(folded.packs, folded.banners))
  }

  /**
   * What a save does to a live pack: its banner becomes the stored one when
   * its id is stored and otherwise stays as it was (so clearing a banner does
   * not reset it); its `packageType` is the lower-cased last override set for
   * it, or stays as it was; its label and package do not change.
   */
  lemma SaveLivePack(st: Store, fields: seq<(string, string)>, id: string)
    requires id in st.packs
    ensures var r := Save(st, fields); var ls := LastSetting(fields, OverrideKey(id));
      && id in r.packs
      && r.packs[id].banner == (if id in r.banners then r.banners[id] else st.packs[id].banner)
      && r.packs[id].packageType == (if ls.Some? then Lower(ls.value) else st.packs[id].packageType)
      && r.packs[id].displayLabel == st.packs[id].displayLabel
      && r.packs[id].package == st.packs[id].package
  {
    ReconcilePackageType(st, fields, id);
  }

  /** Applying the same banners twice is applying them once. */
  lemma ApplyBannersIdempotent(packs: map<string, Metadata>, banners: map<string, string>)
    ensures ApplyBanners(ApplyBanners(packs, banners), banners) == ApplyBanners(packs, banners)
  {
  }
}
