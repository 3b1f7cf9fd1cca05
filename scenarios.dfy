/**
 * End-to-end properties of the banner manager: what saving a form, clearing
 * an override, toggling a section and rendering the directory lead to.
 */
module Scenarios {
  import opened Wrappers
  import opened Strings
  import opened Compendium
  import opened View
  import opened FormReconciler
  import opened BannerManager

  /** Stored overrides that all lower-case to section ids let `getData` file every pack. */
  lemma FileableOverridesFileEveryPack(ids: seq<string>, packs: map<string, Metadata>, banners: map<string, string>,
                                       overrides: map<string, string>, states: map<string, bool>)
    requires WellFormedRegistry(ids, packs)
    requires FileableOverrides(overrides)
    ensures ViewOf(ids, packs, banners, overrides, states).Success?
  {
    forall id | id in packs ensures Category(packs[id], overrides, id) in SectionIds {
      EffectiveCategory(packs[id], overrides, id);
    }
    ViewSucceedsIff(ids, packs, banners, overrides, states);
  }

  /** Saving a form whose dropdowns hold fileable values keeps `getData` from failing afterwards. */
  lemma SaveKeepsViewBuildable(ids: seq<string>, st: Store, fields: seq<(string, string)>, states: map<string, bool>)
    requires WellFormedRegistry(ids, st.packs)
    requires FileableOverrides(st.overrides) && FileableForm(fields)
    ensures var r := Save(st, fields);
      WellFormedRegistry(ids, r.packs) && ViewOf(ids, r.packs, r.banners, r.overrides, states).Success?
  {
    var r := Save(st, fields);
    ReconcileKeepsFileable(st, fields);
    FileableOverridesFileEveryPack(ids, r.packs, r.banners, r.overrides, states);
  }

  /** Submitting a banner for a live pack stores it and shows it on the pack at once. */
  lemma SubmitBanner(st: Store, id: string, path: string)
    requires id in st.packs && !IsOverrideKey(id) && path != ""
    ensures var r := Save(st, [(id, path)]);
      && r.banners == st.banners[id := path]
      && r.overrides == st.overrides
      && r.packs[id].banner == path
  {
    ReconcileSingle(st, id, path);
    SaveLivePack(st, [(id, path)], id);
  }

  /**
   * Setting an override files the pack under the lower-cased category; after
   * the override is cleared again (with "Auto" or ""), the stored entry is
   * gone but the live `packageType` keeps the lower-cased value, so within the
   * session the pack stays in the section the override chose.
   */
  lemma {:induction false} ClearedOverrideKeepsSection(st: Store, id: string, v: string, c: string)
    requires id in st.packs && IsSetting(v) && Lower(v) in SectionIds && !IsSetting(c)
    ensures var set1 := Save(st, [(OverrideKey(id), v)]);
      && set1.overrides == st.overrides[id := v]
      && Category(set1.packs[id], set1.overrides, id) == Lower(v)
    ensures var cleared := Save(Save(st, [(OverrideKey(id), v)]), [(OverrideKey(id), c)]);
      && id !in cleared.overrides
      && cleared.packs[id].packageType == Lower(v)
      && Category(cleared.packs[id], cleared.overrides, id) == Lower(v)
  {
    var f1, f2 := [(OverrideKey(id), v)], [(OverrideKey(id), c)];
    OverrideKeyRoundTrip(id);
    var set1 := Save(st, f1);
    ReconcileSingle(st, OverrideKey(id), v);
    SaveLivePack(st, f1, id);
    var cleared := Save(set1, f2);
    ReconcileSingle(set1, OverrideKey(id), c);
    SaveLivePack(set1, f2, id);
    assert Source(cleared.packs[id]) == Lower(v);
    IntrinsicOfSectionId(Lower(v));
  }

  /** A world pack overridden to "System" and then set back to "Auto" is still filed under "system". */
  lemma WorldPackStaysInSystemAfterAuto(st: Store, id: string)
    requires id in st.packs && st.packs[id].packageType == "world"
    ensures var cleared := Save(Save(st, [(OverrideKey(id), "System")]), [(OverrideKey(id), Auto)]);
      && id !in cleared.overrides
      && Category(cleared.packs[id], cleared.overrides, id) == "system"
      && Category(st.packs[id], cleared.overrides, id) == "world"
  {
    CategoryNamesLowerToSectionIds();
    ClearedOverrideKeepsSection(st, id, "System", Auto);
  }

  /** Clearing a banner removes the stored entry; the live pack keeps the banner it had. */
  lemma ClearedBannerStaysOnLivePack(st: Store, id: string)
    requires id in st.packs && !IsOverrideKey(id)
    ensures var r := Save(st, [(id, "")]);
      && id !in r.banners
      && r.packs[id].banner == st.packs[id].banner
      && DirectoryCardImage(r.banners, id, st.packs[id].banner) == st.packs[id].banner
  {
  }

  /** On a live pack with a stored truthy banner, the directory card shows the banner the pack carries. */
  lemma CardImageAgreesWithLivePack(packs: map<string, Metadata>, banners: map<string, string>, id: string, current: string)
    requires id in packs && id in banners && banners[id] != ""
    ensures DirectoryCardImage(banners, id, current) == ApplyBanners(packs, banners)[id].banner
  {
  }

  /** Toggling a section flips its open flag as `getData` reports it and leaves every other section's flag. */
  lemma ToggleFlips(states: map<string, bool>, targetId: string, sid: string)
    ensures IsOpen(states[targetId := !IsOpen(states, targetId)], sid)
        == if sid == targetId then !IsOpen(states, targetId) else IsOpen(states, sid)
  {
  }

  /** Closing and reopening "module" in a fresh world stores `{"module": false}` and then `{"module": true}`. */
  method ToggleModuleTwice(game: Game)
    requires game.sectionStates == map[]
    modifies game`sectionStates
    ensures game.sectionStates == map["module" := true]
  {
    ToggleSection(game, "module", true);
    assert game.sectionStates == map["module" := false];
    ToggleSection(game, "module", false);
  }
}
