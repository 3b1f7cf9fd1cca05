/**
 * The banner manager's operations on the host's state: building the form's
 * view, saving a submitted form, applying the stored banners to the live
 * packs, toggling a section, and the compendium directory's image lookup.
 */
module BannerManager {
  import opened Wrappers
  import opened Strings
  import opened Compendium
  import opened View
  import opened FormReconciler

  /**
   * The host state the banner manager works on: the pack registry (iteration
   * order and live metadata, which this module partly updates) and the three
   * world-scoped settings dictionaries.
   */
  class Game {
    var packOrder: seq<string>
    var packs: map<string, Metadata>
    var banners: map<string, string>
    var classOverrides: map<string, string>
    var sectionStates: map<string, bool>

    ghost predicate Valid()
      reads this
    {
      WellFormedRegistry(packOrder, packs)
    }

    /** A world whose three settings have never been written read as empty dictionaries. */
    constructor (packOrder: seq<string>, packs: map<string, Metadata>)
      requires WellFormedRegistry(packOrder, packs)
      ensures Valid()
      ensures this.packOrder == packOrder && this.packs == packs
      ensures banners == map[] && classOverrides == map[] && sectionStates == map[]
    {
      this.packOrder := packOrder;
      this.packs := packs;
      banners := map[];
      classOverrides := map[];
      sectionStates := map[];
    }
  }

  /** `getData`: file every pack, in iteration order, under the section its category names. */
  method GetData(game: Game) returns (r: Result<seq<SectionView>, GetDataError>)
    requires game.Valid()
    ensures r == ViewOf(game.packOrder, game.packs, game.banners, game.classOverrides, game.sectionStates)
  {
    var packs := game.packOrder;
    var sections: map<string, seq<Row>> := map["world" := [], "module" := [], "system" := []];
    var banners, overrides, sectionStates := game.banners, game.classOverrides, game.sectionStates;
    var i := 0;
    while i < |packs|
      invariant 0 <= i <= |packs|
      invariant Registered(packs[..i], game.packs)
      invariant FirstUnplaced(packs[..i], game.packs, overrides) == None
      invariant sections.Keys == {"world", "module", "system"}
      invariant sections["world"] == RowsIn(packs[..i], game.packs, banners, overrides, "world")
      invariant sections["module"] == RowsIn(packs[..i], game.packs, banners, overrides, "module")
      invariant sections["system"] == RowsIn(packs[..i], game.packs, banners, overrides, "system")
    {
      var id := packs[i];
      var p := game.packs[id];
      var t := Category(p, overrides, id);
      FilingStep(packs, game.packs, banners, overrides, i);
      if t !in sections {
        // `sections[type].packs` reads a missing section and throws
        FirstUnplacedExtends(packs, game.packs, overrides, i + 1);
        assert packs[..|packs|] == packs;
        return Failure(MissingSection(t));
      }
      sections := sections[t := sections[t] + [MakeRow(id, p, banners, overrides)]];
      i := i + 1;
    }
    assert packs[..i] == packs;
    r := Success([SectionView("world", SectionLabel("world"), sections["world"], IsOpen(sectionStates, "world")),
                  SectionView("module", SectionLabel("module"), sections["module"], IsOpen(sectionStates, "module")),
                  SectionView("system", SectionLabel("system"), sections["system"], IsOpen(sectionStates, "system"))]);
  }

  /** Copies every stored banner onto the live pack with that id; ids without a live pack are skipped. */
  method ApplyStoredBanners(game: Game)
    requires game.Valid()
    modifies game`packs
    ensures game.Valid()
    ensures game.packs == ApplyBanners(old(game.packs), game.banners)
  {
    ghost var start := game.packs;
    var pending := game.banners.Keys;
    while pending != {}
      invariant pending <= game.banners.Keys
      invariant game.packs.Keys == start.Keys
      invariant forall id :: id in start ==>
        game.packs[id] == if id in game.banners && id !in pending then start[id].(banner := game.banners[id]) else start[id]
      decreases pending
    {
      var packId :| packId in pending;
      if packId in game.packs {
        game.packs := game.packs[packId := game.packs[packId].(banner := game.banners[packId])];
      }
      pending := pending - {packId};
    }
    assert game.packs == ApplyBanners(start, game.banners);
  }

  /**
   * `_updateObject`: folds the submitted fields into the banner and override
   * dictionaries and the live `packageType`s, stores both dictionaries, then
   * applies the stored banners to the live packs.
   */
  method UpdateObject(game: Game, formData: seq<(string, string)>)
    requires game.Valid()
    modifies game`banners, game`classOverrides, game`packs
    ensures game.Valid()
    ensures Store(game.banners, game.classOverrides, game.packs)
         == Save(Store(old(game.banners), old(game.classOverrides), old(game.packs)), formData)
  {
    ghost var st := Store(game.banners, game.classOverrides, game.packs);
    var banners, overrides := game.banners, game.classOverrides;
    var i := 0;
    while i < |formData|
      invariant 0 <= i <= |formData|
      invariant Store(banners, overrides, game.packs) == Reconcile(st, formData[..i])
    {
      var (key, value) := formData[i];
      assert formData[..i + 1][..i] == formData[..i];
      if IsOverrideKey(key) {
        var packId := key[..|key| - |OverrideSuffix|];
        if IsSetting(value) {
          overrides := overrides[packId := value];
          if packId in game.packs {
            game.packs := game.packs[packId := game.packs[packId].(packageType := Lower(value))];
          }
        } else {
          overrides := overrides - {packId};
        }
      } else if value != "" {
        banners := banners[key := value];
      } else {
        banners := banners - {key};
      }
      i := i + 1;
    }
    assert formData[..i] == formData;
    game.banners := banners;
    game.classOverrides := overrides;
    ApplyStoredBanners(game);
  }

  /** The `ready` hook: the live packs are fresh each session, so the stored banners are applied again. */
  method OnReady(game: Game)
    requires game.Valid()
    modifies game`packs
    ensures game.Valid()
    ensures game.packs == ApplyBanners(old(game.packs), game.banners)
  {
    ApplyStoredBanners(game);
  }

  /** The section toggle: stores the flipped visibility of `targetId`, read from the page as `isOpen`. */
  method ToggleSection(game: Game, targetId: string, isOpen: bool)
    modifies game`sectionStates
    ensures game.sectionStates == old(game.sectionStates)[targetId := !isOpen]
  {
    game.sectionStates := game.sectionStates[targetId := !isOpen];
  }

  /** The image of the directory card of pack `packName`: the stored banner when truthy, else its current image. */
  function DirectoryCardImage(banners: map<string, string>, packName: string, current: string): (image: string)
    ensures packName in banners && banners[packName] != "" ==> image == banners[packName]
    ensures !(packName in banners && banners[packName] != "") ==> image == current
  {
    ValueOr(banners, packName, current)
  }
}
