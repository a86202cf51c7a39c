/**
 * The `airdropAmounts` tables of the configuration files. A range table is
 * scanned in declared order and its first entry whose closed range
 * `[min, max]` contains the holder's signal wins; a trait table is matched
 * against NFT attributes.
 */
module Tiers {
  import opened Wrappers

  /** `{ min, max, amount }`: a closed range of the holder's signal and the reward it earns. */
  datatype RangeTier = RangeTier(min: real, max: real, amount: real)

  /** `{ trait_type, value, amount }`: an attribute an NFT may carry and the reward it earns. */
  datatype TraitTier = TraitTier(traitType: string, value: string, amount: real)

  /** `x >= min && x <= max` */
  predicate InRange(t: RangeTier, x: real) {
    t.min <= x <= t.max
  }

  /**
   * Index of the first tier, in declared order, whose range contains `x`
   * (the `for … of airdropAmounts { if (…) { …; break; } }` scan and
   * `airdropAmounts.find(…)`); `None` when no range contains it.
   */
  function FirstMatch(tiers: seq<RangeTier>, x: real): (r: Option<nat>)
    ensures r.Some? ==> r.value < |tiers| && InRange(tiers[r.value], x)
    ensures r.Some? ==> forall j :: 0 <= j < r.value ==> !InRange(tiers[j], x)
    ensures r.None? <==> forall j :: 0 <= j < |tiers| ==> !InRange(tiers[j], x)
  {
    if tiers == [] then None
    else if InRange(tiers[0], x) then Some(0)
    else match FirstMatch(tiers[1..], x)
      case None => None
      case Some(i) => Some(i + 1)
  }

  /**
   * The `for (const { min, max, … } of airdropAmounts)` loop with its `break`:
   * stops at the first tier whose range contains `x`.
   */
  method Scan(tiers: seq<RangeTier>, x: real) returns (found: Option<nat>)
    ensures found == FirstMatch(tiers, x)
  {
    var i := 0;
    while i < |tiers|
      invariant 0 <= i <= |tiers|
      invariant forall j :: 0 <= j < i ==> !InRange(tiers[j], x)
    {
      if x >= tiers[i].min && x <= tiers[i].max {
        assert InRange(tiers[i], x);
        return Some(i);
      }
      i := i + 1;
    }
    return None;
  }
}
