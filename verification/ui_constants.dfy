/**
 * The lookups of simulation/src/lib/uiConstants.ts: colours and numerals for
 * monster tiers, and display names for biomes. A tier is a number or
 * undefined; undefined, 0 and every number outside the tables fall back to
 * the default.
 */
module UiConstants {
  import opened Common

  /** The tiers the tables list. */
  predicate IsListedTier(tier: Option<int>) {
    tier.Some? && 1 <= tier.value <= 3
  }

  /** getTierBackgroundColor: TIER_COLORS[tier], "white" when the tier is falsy or not a key. */
  function TierBackgroundColor(tier: Option<int>): (r: string)
    ensures !IsListedTier(tier) <==> r == "white"
    ensures tier == Some(1) ==> r == "#E8F5E8"
    ensures tier == Some(2) ==> r == "#FFF3CD"
    ensures tier == Some(3) ==> r == "#F8D7DA"
  {
    match tier
    case None => "white"
    case Some(t) =>
      if t == 0 then "white"
      else if t == 1 then "#E8F5E8"
      else if t == 2 then "#FFF3CD"
      else if t == 3 then "#F8D7DA"
      else "white"
  }

  /** getTierSolidColor: TIER_SOLID_COLORS[tier], "#666666" when the tier is falsy or not a key. */
  function TierSolidColor(tier: Option<int>): (r: string)
    ensures !IsListedTier(tier) <==> r == "#666666"
    ensures tier == Some(1) ==> r == "#4CAF50"
    ensures tier == Some(2) ==> r == "#FF9800"
    ensures tier == Some(3) ==> r == "#F44336"
  {
    match tier
    case None => "#666666"
    case Some(t) =>
      if t == 0 then "#666666"
      else if t == 1 then "#4CAF50"
      else if t == 2 then "#FF9800"
      else if t == 3 then "#F44336"
      else "#666666"
  }

  /** getTierDisplayText: the Roman numeral of a listed tier, "?" otherwise. */
  function TierDisplayText(tier: Option<int>): (r: string)
    ensures !IsListedTier(tier) <==> r == "?"
    ensures tier == Some(1) ==> r == "I"
    ensures tier == Some(2) ==> r == "II"
    ensures tier == Some(3) ==> r == "III"
  {
    match tier
    case Some(1) => "I"
    case Some(2) => "II"
    case Some(3) => "III"
    case _ => "?"
  }

  /** Reads a Roman numeral of a tier back. */
  function TierOfDisplayText(text: string): Option<int>
  {
    if text == "I" then Some(1)
    else if text == "II" then Some(2)
    else if text == "III" then Some(3)
    else None
  }

  /**
   * The three tier lookups recognise the same tiers, {1, 2, 3}, and within
   * each table distinct tiers get distinct entries; the numeral of a listed
   * tier reads back as that tier.
   */
  lemma TierTablesAgree(tier: Option<int>, other: Option<int>)
    ensures TierBackgroundColor(tier) != "white"
        <==> TierSolidColor(tier) != "#666666"
        <==> TierDisplayText(tier) != "?"
        <==> IsListedTier(tier)
    ensures IsListedTier(tier) ==> TierOfDisplayText(TierDisplayText(tier)) == tier
    ensures IsListedTier(tier) && IsListedTier(other) && tier != other ==>
      TierBackgroundColor(tier) != TierBackgroundColor(other) &&
      TierSolidColor(tier) != TierSolidColor(other) &&
      TierDisplayText(tier) != TierDisplayText(other)
  {
  }

  /** getBiomeDisplayName: BIOME_DISPLAY_NAMES[biome], or the biome itself when it is not a key. */
  function BiomeDisplayName(biome: string): (r: string)
    ensures biome == "plains" ==> r == "Plains"
    ensures biome == "mountains" ==> r == "Mountains"
    ensures biome == "woodlands" ==> r == "Woodlands"
    ensures biome !in {"plains", "mountains", "woodlands"} ==> r == biome
  {
    if biome == "plains" then "Plains"
    else if biome == "mountains" then "Mountains"
    else if biome == "woodlands" then "Woodlands"
    else biome
  }

  /**
   * A display name is its own display name, and a listed biome's name differs
   * from the biome's key only in its capitalised first letter.
   */
  lemma BiomeDisplayNameIdempotent(biome: string)
    ensures BiomeDisplayName(BiomeDisplayName(biome)) == BiomeDisplayName(biome)
    ensures biome in {"plains", "mountains", "woodlands"} ==>
      var r := BiomeDisplayName(biome);
      |r| == |biome| && r[1..] == biome[1..] && r[0] as int == biome[0] as int - 32
  {
  }
}
