/**
 * A compendium pack as the host describes it, and the category (section id)
 * the banner manager files it under.
 */
module Compendium {
  import opened Strings

  /**
   * The host's `pack.metadata`, reduced to the fields the banner manager reads
   * or writes (`label` is `displayLabel` here, `label` being a Dafny keyword).
   * An unset (`undefined`) field is the empty string: both are
   * falsy, and the module only ever tests these fields for truthiness or
   * compares them with literals.
   */
  datatype Metadata = Metadata(displayLabel: string, packageType: string, package: string, banner: string)

  /** The three section ids, in the order the form shows them. */
  const SectionIds: seq<string> := ["world", "module", "system"]

  /** The override value that stands for "no override". */
  const Auto: string := "Auto"

  /** JavaScript `m[key] || fallback` on a dictionary of strings. */
  function ValueOr(m: map<string, string>, key: string, fallback: string): string
  {
    if key in m && m[key] != "" then m[key] else fallback
  }

  /** A dropdown value that sets an override: it is non-empty and is not "Auto". */
  predicate IsSetting(value: string)
  {
    value != "" && value != Auto
  }

  /** The pack's own source: `packageType`, or `package` when `packageType` is unset. */
  function Source(m: Metadata): string
  {
    if m.packageType != "" then m.packageType else m.package
  }

  /** The section a source selects when there is no override: "world" and "system" are kept, anything else is "module". */
  function Intrinsic(src: string): string
  {
    if src == "world" then "world" else if src == "system" then "system" else "module"
  }

  /** An explicit override is stored for `id`. */
  predicate HasOverride(overrides: map<string, string>, id: string)
  {
    id in overrides && IsSetting(overrides[id])
  }

  /** The `type` under which `getData` files the pack `id` with metadata `m`. */
  function Category(m: Metadata, overrides: map<string, string>, id: string): (t: string)
    ensures !HasOverride(overrides, id) ==> t in SectionIds
  {
    if HasOverride(overrides, id) then Lower(overrides[id]) else Intrinsic(Source(m))
  }

  /**
   * The category rule: an explicit override wins, lower-cased; without one,
   * the source decides, and then the category is always one of the three
   * section ids.
   */
  lemma EffectiveCategory(m: Metadata, overrides: map<string, string>, id: string)
    ensures HasOverride(overrides, id) ==> Category(m, overrides, id) == Lower(overrides[id])
    ensures !HasOverride(overrides, id) ==>
      && Category(m, overrides, id) in SectionIds
      && (Category(m, overrides, id) == "world" <==> Source(m) == "world")
      && (Category(m, overrides, id) == "system" <==> Source(m) == "system")
      && (Category(m, overrides, id) == "module" <==> Source(m) != "world" && Source(m) != "system")
  {
  }

  /** The category of a pack depends on the override stored for its own id only. */
  lemma CategoryLocal(m: Metadata, o1: map<string, string>, o2: map<string, string>, id: string)
    requires (id in o1 <==> id in o2) && (id in o1 ==> o1[id] == o2[id])
    ensures Category(m, o1, id) == Category(m, o2, id)
  {
  }

  /** A section id is its own intrinsic category, so a source equal to a section id selects that section. */
  lemma IntrinsicOfSectionId(t: string)
    requires t in SectionIds
    ensures Intrinsic(t) == t
  {
  }

  /** The dropdown's three category names lower-case to the three section ids. */
  lemma CategoryNamesLowerToSectionIds()
    ensures Lower("World") == "world"
    ensures Lower("Module") == "module"
    ensures Lower("System") == "system"
  {
  }
}
