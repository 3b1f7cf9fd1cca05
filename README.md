# Banner manager settings reconciler, in Dafny

This project models the core of the Aplopean Banner Manager. The manager is a
settings form for a virtual-tabletop host. With it a game master gives each
compendium pack a banner image and can override the section (world, module or
system) the pack is listed under. The model covers:

- **View building** (`getData`). Every pack gets a category: an explicit
  override, lower-cased, unless it is "Auto"; otherwise the pack's own source
  (`packageType`, or else `package`). The pack is then filed into one of three
  fixed sections, in host iteration order. Each row gets defaults: `""` for no
  banner and `"Auto"` for no override. Each section is open unless its stored
  state is `false`. A category that names no section makes `getData` throw,
  because it indexes a missing section. The model returns that as
  `Failure(MissingSection(category))`.
- **Form reconciliation** (`_updateObject`). The submitted fields are folded, in
  order, into the `banners` and `classOverrides` dictionaries. A field whose
  name ends in `__override` sets or deletes the override of the pack named by
  the rest of the field name. Setting an override also writes the lower-cased
  value into that live pack's `packageType`. Any other field sets or deletes a
  banner. Both dictionaries are then stored, and every stored banner is copied
  onto its live pack.
- **Banner application** on the `ready` hook, and the image lookup of the
  compendium directory hook.
- **The section toggle**, and the path synthesized for a dropped file.

Modules:

- `Compendium`: pack metadata and the category rule.
- `View`: the functions that define what `getData` returns.
- `FormReconciler`: the functions that define `_updateObject` and banner application.
- `Paths`: drop paths.
- `BannerManager`: the host state as the class `Game`, and the imperative
  operations proved against those functions.
- `Scenarios`: end-to-end consequences.
- `Strings`, `Wrappers`: helpers.

The host's pack registry is an iteration order (`packOrder`) plus a map from
pack id to a metadata record (label, `packageType`, `package`, `banner`). A
metadata field that is `undefined` in the host is the empty string here. This
is safe because the module reads `packageType` and `package` only for
truthiness and for comparison with literals. It copies `label` into the row
and only ever writes `banner`.
The submitted form is a sequence of (field name, value) pairs. A name that
occurs twice takes its last value. The drop handler's world id
(`game.world.id`) is a parameter of `Paths.DropPath`.

**Two behaviours of the code worth knowing:**

- *Clearing an override does not move the pack back.* The code deletes the
  stored override but leaves the live `packageType` at the lower-cased value
  it last wrote (scripts/banner-manager.js:128-131). Line 36 then reads that
  value as the pack's own type. So the pack stays in the overridden section
  until the host recreates its metadata in a later session.
  `Scenarios.ClearedOverrideKeepsSection` and
  `Scenarios.WorldPackStaysInSystemAfterAuto` state this.
- *Override values are not checked.* The code stores any override value other
  than `""` and "Auto" (lines 126-127). `getData` then fails on a value that
  does not lower-case to a section id, and the model keeps that failure path.
  `Scenarios.SaveKeepsViewBuildable` shows that forms whose dropdowns hold
  Auto/World/Module/System never lead to it.

## Model

| member | source | states |
|---|---|---|
| `Strings.Lower` | scripts/banner-manager.js:37 | `toLowerCase` keeps the length and lower-cases each character (ASCII letters) |
| `Compendium.Category` | scripts/banner-manager.js:36-37 | The `type` of a pack: the lower-cased explicit override if one is stored, else the pack's own type mapped to world/system/module. Without an override it is always a section id. |
| `Compendium.EffectiveCategory` | scripts/banner-manager.js:36-37 | An explicit override (present, non-empty, not "Auto") gives its lower-cased value. Otherwise the category is "world" iff the source is "world", "system" iff it is "system", and "module" for any other source; this fallback is always a section id. |
| `Compendium.CategoryLocal` | scripts/banner-manager.js:37 | A pack's category depends only on the override stored under its own id |
| `Compendium.IntrinsicOfSectionId` | scripts/banner-manager.js:36-37 | A source equal to a section id selects that section |
| `Compendium.CategoryNamesLowerToSectionIds` | scripts/banner-manager.js:37 | "World", "Module", "System" lower-case to the three section ids |
| `View.ViewOf` | scripts/banner-manager.js:22-53 | The whole result of `getData`. It fails only with a category that is not a section id. It succeeds with the three sections world, module, system, in that order. |
| `View.FilingStep` | scripts/banner-manager.js:34-45 | One loop iteration appends the pack's row to exactly the section its category names. It fails first at the first pack whose category names no section. |
| `View.RowsInAppend` | scripts/banner-manager.js:34-45 | Filing distributes over concatenating listings: within a section, packs keep host iteration order |
| `View.RowsInMembership` | scripts/banner-manager.js:34-45 | A pack's row is in section `sid` iff the pack is listed and its category is `sid` |
| `View.RowsCarryDefaults` | scripts/banner-manager.js:39-44 | Every row is a listed pack filed under that section. It carries the pack's label, `banners[id]` or `""`, and `overrides[id]` or "Auto". |
| `View.RowOverrideShowsAuto` | scripts/banner-manager.js:37-43 | A row shows "Auto" iff the category comes from the source, and shows `""` iff no truthy banner is stored |
| `View.FirstUnplaced` | scripts/banner-manager.js:34-39 | The category of the first pack, in iteration order, whose section is missing. It is never a section id. |
| `View.FirstUnplacedExtends` | scripts/banner-manager.js:37-39 | Once a pack names a missing section, the whole listing fails with that pack's category |
| `View.FirstUnplacedNone` | scripts/banner-manager.js:37-39 | No failure iff every listed pack's category is a section id |
| `View.RowsPartitionCount` | scripts/banner-manager.js:34-45 | Without failure, the three sections hold exactly as many rows as packs are listed |
| `View.RegistrySize` | scripts/banner-manager.js:23 | The iteration order lists as many ids as the registry holds packs |
| `View.ViewSucceedsIff` | scripts/banner-manager.js:37-39 | `getData` succeeds iff every pack's category is one of the three section ids |
| `View.ViewSections` | scripts/banner-manager.js:24-28 | A successful view has the sections world, module, system, in that order. Each is open unless stored `false` (line 50) and holds the rows filed under it. |
| `View.ViewPartition` | scripts/banner-manager.js:34-48 | Every pack is in the section its category names and in no other. The rows add up to the number of packs. |
| `View.FreshWorldView` | scripts/banner-manager.js:30-51 | With empty settings, `getData` succeeds. Every section is open and every row shows `""` and "Auto". |
| `FormReconciler.OverrideKeyRoundTrip` | scripts/banner-manager.js:124-125 | A pack's override field name ends in `__override`, and stripping 10 characters gives the pack id back |
| `FormReconciler.OverrideKeyOfPackId` | scripts/banner-manager.js:124-125 | Every override field is the override field of the id it yields |
| `FormReconciler.ApplyField` | scripts/banner-manager.js:124-136 | One iteration of the form loop: an override field sets or deletes `overrides[id]` and may write the live `packageType`, any other field sets or deletes `banners[key]`. It never adds or removes a live pack. |
| `FormReconciler.Reconcile` | scripts/banner-manager.js:123-137 | The form loop neither adds nor removes live packs, and changes no metadata field except `packageType` |
| `FormReconciler.ReconcileBanner` | scripts/banner-manager.js:135-136 | An override field never touches `banners`. For other keys, the last submitted value is stored when non-empty and deletes the entry when empty. A key not submitted keeps its entry (line 120). |
| `FormReconciler.ApplyFieldOverride` | scripts/banner-manager.js:124-133 | One field changes pack `id`'s override only if it is that pack's override field. It then stores the value, or deletes the entry for `""`/"Auto". |
| `FormReconciler.ReconcileOverride` | scripts/banner-manager.js:124-133 | A pack's override is the last value submitted under its override field: stored when it sets an override, deleted for `""`/"Auto", unchanged if not submitted |
| `FormReconciler.ReconcilePackageType` | scripts/banner-manager.js:126-131 | A live pack's `packageType` is the lower-cased last override set for it. Clearing leaves it as last written. |
| `FormReconciler.ReconcileKeepsClean` | scripts/banner-manager.js:126-136 | If no `""` banner and no `""`/"Auto" override was stored before, none is stored after |
| `FormReconciler.ReconcileKeepsFileable` | scripts/banner-manager.js:126-127 | Fileable stored overrides and a fileable form give fileable stored overrides |
| `FormReconciler.ApplyBanners` | scripts/banner-manager.js:143-146 | Banner application keeps the set of live packs |
| `FormReconciler.ApplyBannersEffect` | scripts/banner-manager.js:143-146 | A live pack's banner becomes the stored one if its id is stored and stays otherwise. Nothing else changes, and stored ids with no live pack are skipped. |
| `FormReconciler.ApplyBannersIdempotent` | scripts/banner-manager.js:161-164 | Applying the stored banners again (the `ready` loop) after they were applied changes nothing |
| `FormReconciler.Save` | scripts/banner-manager.js:119-146 | A save keeps the set of live packs |
| `FormReconciler.SaveLivePack` | scripts/banner-manager.js:123-146 | After a save, a live pack's banner is the stored one or its old one. Its `packageType` is the lower-cased last override set, or its old one. Label and package are unchanged. |
| `Paths.DropPath` | scripts/banner-manager.js:112 | The path `worlds/<world>/banners/<file>`. For a world id without '/' it reads back as (world, file). |
| `Paths.InputAfterDrop` | scripts/banner-manager.js:110-113 | A drop with no file leaves the input unchanged. A dropped file sets the input to a path that reads back as (world id, file name) when the world id has no '/'. |
| `Paths.DropPathSplits` | scripts/banner-manager.js:112 | `worlds/<world>/banners/<file>` reads back as (world, file) for a world id without '/' |
| `Paths.SplitDropPathSound` | scripts/banner-manager.js:112 | Any path that reads back as (world, file) is exactly that drop path |
| `BannerManager.Game.constructor` | scripts/banner-manager.js:170-172 | In a new world the three settings read as empty dictionaries |
| `BannerManager.GetData` | scripts/banner-manager.js:22-53 | The loop returns exactly the view `ViewOf` specifies, including the failure on a missing section |
| `BannerManager.ApplyStoredBanners` | scripts/banner-manager.js:143-146 | The loop over stored banners leaves the live packs as `ApplyBanners` specifies, and changes nothing else |
| `BannerManager.UpdateObject` | scripts/banner-manager.js:119-146 | The form loop, the two stores and the banner loop leave the settings and live packs as `Save` specifies. Section states and the registry order do not change. |
| `BannerManager.OnReady` | scripts/banner-manager.js:159-166 | On `ready`, every stored banner is applied to its live pack |
| `BannerManager.ToggleSection` | scripts/banner-manager.js:83-85 | The toggle stores `!isOpen` for the target id only |
| `BannerManager.DirectoryCardImage` | scripts/banner-manager.js:185-192 | A directory card shows `banners[packName]` when that is truthy, and keeps its current image otherwise |
| `Scenarios.FileableOverridesFileEveryPack` | scripts/banner-manager.js:37-39 | If every stored override lower-cases to a section id, `getData` succeeds |
| `Scenarios.SaveKeepsViewBuildable` | scripts/banner-manager.js:119-140 | A save whose dropdowns hold fileable values keeps `getData` from failing |
| `Scenarios.SubmitBanner` | scripts/banner-manager.js:135-145 | Submitting a banner for a live pack stores exactly that entry, leaves the overrides, and puts the banner on the pack |
| `Scenarios.ClearedOverrideKeepsSection` | scripts/banner-manager.js:126-132 | Setting an override files the pack under the lower-cased value. After it is cleared, the entry is gone but `packageType` keeps the value, so the pack stays in that section (line 36). |
| `Scenarios.WorldPackStaysInSystemAfterAuto` | scripts/banner-manager.js:126-132 | A world pack overridden to "System" and then set to "Auto" is still filed under "system" |
| `Scenarios.ClearedBannerStaysOnLivePack` | scripts/banner-manager.js:136-146 | Clearing a banner deletes the stored entry. The live pack and its directory card keep the old image. |
| `Scenarios.CardImageAgreesWithLivePack` | scripts/banner-manager.js:185-192 | The directory card shows the banner the live pack carries after banners are applied, whenever a truthy banner is stored |
| `Scenarios.ToggleFlips` | scripts/banner-manager.js:83-85 | Toggling with the shown state flips that section's open flag (line 50) and leaves every other section's flag |
| `Scenarios.ToggleModuleTwice` | scripts/banner-manager.js:83-85 | Closing and reopening "module" in a fresh world stores `{"module": false}` and then `{"module": true}` |

## Left out

- FormApplication options (lines 2-12): host framework configuration.
- `ensureSettingExists` and the `init` hook's registrations (lines 15-19, 169-182): host registry calls. A new `Game` starts with the three empty dictionaries they register.
- Persistence and refresh (`game.settings.set`, the notification, `render`, the directory refresh): storage is plain assignment of the updated dictionaries. A storage failure between the two writes at lines 139-140 is not modelled.
- DOM work: the file picker and reset button (lines 58-73), `slideToggle`, the initial hiding of closed sections (lines 88-94), the override-row styling (lines 96-103), `dragover`, and attribute setting in the directory hook. The visibility read at line 79 is the `isOpen` parameter. Of the directory hook only the image lookup is modelled (`BannerManager.DirectoryCardImage`).
- `Strings.Lower`: models `toLowerCase` on ASCII letters only; other Unicode case mappings are not modelled.
- Dictionaries are maps. Inherited properties of JavaScript objects are not modelled: a pack id such as `constructor` would read an inherited value.
- Form values are strings. Other value types the host's form parser could produce are not modelled.
- Iteration order of `Object.entries(banners)` (lines 143 and 161) is not modelled: the loops write distinct packs, so the result does not depend on it.
