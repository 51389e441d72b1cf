/**
 The simulator's configuration and its validation loop
 (packages/rgs-simulator/src/config.ts).  Identifiers, hashes and enumerations
 are taken as already canonical; what is kept is the arithmetic and the
 uniqueness that the simulator rests on.
 */
module RgsConfig {
  import opened Support

  const SCALE_PPM: int := 1_000_000
  const MAX_TIERS: int := 128
  const MAX_PAYOUTS: int := 1_000

  datatype Payout = Payout(id: string, minor: int)

  datatype Tier = Tier(key: string, probabilityPpm: int, payouts: seq<Payout>)

  datatype Config = Config(stakeMinor: int, tiers: seq<Tier>)

  /** Total probability of the first `n` tiers. */
  function CumulativePpm(tiers: seq<Tier>, n: nat): int
    requires n <= |tiers|
  {
    if n == 0 then 0 else CumulativePpm(tiers, n - 1) + tiers[n - 1].probabilityPpm
  }

  ghost predicate ValidTier(tier: Tier) {
    && 0 < tier.probabilityPpm <= SCALE_PPM
    && 0 < |tier.payouts| <= MAX_PAYOUTS
    && forall p :: 0 <= p < |tier.payouts| ==> 0 <= tier.payouts[p].minor <= MAX_U64
  }

  /** The keys of the first `i` tiers. */
  function TierKeys(tiers: seq<Tier>, i: nat): (keys: seq<string>)
    requires i <= |tiers|
    ensures |keys| == i
  {
    if i == 0 then [] else TierKeys(tiers, i - 1) + [tiers[i - 1].key]
  }

  lemma {:induction false} TierKeyAt(tiers: seq<Tier>, i: nat, t: nat)
    requires t < i <= |tiers|
    ensures TierKeys(tiers, i)[t] == tiers[t].key
  {
    if t < i - 1 {
      TierKeyAt(tiers, i - 1, t);
    }
  }

  ghost predicate DistinctKeys(tiers: seq<Tier>) {
    Distinct(TierKeys(tiers, |tiers|))
  }

  /** The payout ids of the first `i` tiers followed by the first `j` of tier `i`, in order. */
  function PayoutIds(tiers: seq<Tier>, i: nat, j: nat): (ids: seq<string>)
    requires i <= |tiers| && (j == 0 || (i < |tiers| && j <= |tiers[i].payouts|))
    decreases i, j
  {
    if j > 0 then PayoutIds(tiers, i, j - 1) + [tiers[i].payouts[j - 1].id]
    else if i > 0 then PayoutIds(tiers, i - 1, |tiers[i - 1].payouts|)
    else []
  }

  ghost predicate Distinct(ids: seq<string>) {
    forall a, b :: 0 <= a < b < |ids| ==> ids[a] != ids[b]
  }

  /** Payout ids are unique over the whole configuration, not just within a tier. */
  ghost predicate DistinctPayoutIds(tiers: seq<Tier>) {
    Distinct(PayoutIds(tiers, |tiers|, 0))
  }

  ghost predicate ValidConfig(config: Config) {
    && 0 < config.stakeMinor <= MAX_U64
    && 0 < |config.tiers| <= MAX_TIERS
    && (forall t :: 0 <= t < |config.tiers| ==> ValidTier(config.tiers[t]))
    && DistinctKeys(config.tiers)
    && DistinctPayoutIds(config.tiers)
    && CumulativePpm(config.tiers, |config.tiers|) == SCALE_PPM
  }

  lemma {:induction false} EarlierIdsArePrefix(tiers: seq<Tier>, i: nat, j: nat, k: nat)
    requires i < |tiers| && j <= |tiers[i].payouts| && i < k <= |tiers|
    ensures PayoutIds(tiers, i, j) <= PayoutIds(tiers, k, 0)
    decreases k - i, |tiers[i].payouts| - j
  {
    if j < |tiers[i].payouts| {
      EarlierIdsArePrefix(tiers, i, j + 1, k);
    } else if i + 1 < k {
      EarlierIdsArePrefix(tiers, i + 1, 0, k);
    }
  }

  lemma RepeatedId(tiers: seq<Tier>, i: nat, j: nat)
    requires i < |tiers| && j < |tiers[i].payouts|
    requires tiers[i].payouts[j].id in PayoutIds(tiers, i, j)
    ensures !DistinctPayoutIds(tiers)
  {
    var ids := PayoutIds(tiers, i, j + 1);
    var earlier := PayoutIds(tiers, i, j);
    var a :| 0 <= a < |earlier| && earlier[a] == tiers[i].payouts[j].id;
    assert ids == earlier + [tiers[i].payouts[j].id];
    EarlierIdsArePrefix(tiers, i, j + 1, |tiers|);
    var all := PayoutIds(tiers, |tiers|, 0);
    assert all[a] == all[|ids| - 1];
  }

  lemma RepeatedKey(tiers: seq<Tier>, i: nat)
    requires i < |tiers| && tiers[i].key in TierKeys(tiers, i)
    ensures !DistinctKeys(tiers)
  {
    var earlier := TierKeys(tiers, i);
    var a :| 0 <= a < |earlier| && earlier[a] == tiers[i].key;
    TierKeyAt(tiers, i, a);
    TierKeyAt(tiers, |tiers|, a);
    TierKeyAt(tiers, |tiers|, i);
  }

  ghost predicate Seen(ids: seq<string>, seen: set<string>) {
    (forall id :: id in seen <==> id in ids) && Distinct(ids)
  }

  /** The payouts of tier `i`: each id joins the shared set unless it is already there. */
  method NormalizePayouts(tiers: seq<Tier>, i: nat, seen: set<string>) returns (ok: bool, seen': set<string>)
    requires i < |tiers|
    requires Seen(PayoutIds(tiers, i, 0), seen)
    ensures ok ==> Seen(PayoutIds(tiers, i + 1, 0), seen')
    ensures ok ==> forall p :: 0 <= p < |tiers[i].payouts| ==> 0 <= tiers[i].payouts[p].minor <= MAX_U64
    ensures !ok ==> !DistinctPayoutIds(tiers)
                    || exists p :: 0 <= p < |tiers[i].payouts| && !(0 <= tiers[i].payouts[p].minor <= MAX_U64)
  {
    seen' := seen;
    var payouts := tiers[i].payouts;
    for j := 0 to |payouts|
      invariant Seen(PayoutIds(tiers, i, j), seen')
      invariant forall p :: 0 <= p < j ==> 0 <= payouts[p].minor <= MAX_U64
    {
      if payouts[j].id in seen' {
        RepeatedId(tiers, i, j);
        return false, seen';
      }
      seen' := seen' + {payouts[j].id};
      if !(0 <= payouts[j].minor <= MAX_U64) {
        return false, seen';
      }
    }
    return true, seen';
  }

  ghost predicate ValidTiers(tiers: seq<Tier>, i: nat)
    requires i <= |tiers|
  {
    forall t :: 0 <= t < i ==> ValidTier(tiers[t])
  }

  method NormalizeTier(tiers: seq<Tier>, i: nat, tierKeys: set<string>, payoutIds: set<string>)
    returns (ok: bool, tierKeys': set<string>, payoutIds': set<string>)
    requires i < |tiers|
    requires Seen(TierKeys(tiers, i), tierKeys)
    requires Seen(PayoutIds(tiers, i, 0), payoutIds)
    ensures ok ==> Seen(TierKeys(tiers, i + 1), tierKeys') && ValidTier(tiers[i])
    ensures ok ==> Seen(PayoutIds(tiers, i + 1, 0), payoutIds')
    ensures !ok ==> !DistinctKeys(tiers) || !DistinctPayoutIds(tiers) || !ValidTier(tiers[i])
  {
    var tier := tiers[i];
    tierKeys', payoutIds' := tierKeys, payoutIds;
    if tier.key in tierKeys {
      RepeatedKey(tiers, i);
      return false, tierKeys', payoutIds';
    }
    tierKeys' := tierKeys + {tier.key};
    if !(0 < tier.probabilityPpm <= SCALE_PPM) || |tier.payouts| == 0 || |tier.payouts| > MAX_PAYOUTS {
      return false, tierKeys', payoutIds';
    }
    ok, payoutIds' := NormalizePayouts(tiers, i, payoutIds);
  }

  lemma WholeConfiguration(config: Config, tierKeys: set<string>, payoutIds: set<string>)
    requires 0 < config.stakeMinor <= MAX_U64 && 0 < |config.tiers| <= MAX_TIERS
    requires Seen(TierKeys(config.tiers, |config.tiers|), tierKeys)
    requires Seen(PayoutIds(config.tiers, |config.tiers|, 0), payoutIds)
    requires ValidTiers(config.tiers, |config.tiers|)
    ensures ValidConfig(config) <==> CumulativePpm(config.tiers, |config.tiers|) == SCALE_PPM
  {
  }

  lemma RejectedTier(config: Config, i: nat)
    requires i < |config.tiers|
    requires !DistinctKeys(config.tiers) || !DistinctPayoutIds(config.tiers) || !ValidTier(config.tiers[i])
    ensures !ValidConfig(config)
  {
  }

  /** The validation accepts exactly the valid configurations. */
  method ValidateConfig(config: Config) returns (ok: bool)
    ensures ok <==> ValidConfig(config)
  {
    var tiers := config.tiers;
    if !(0 < config.stakeMinor <= MAX_U64) || |tiers| == 0 || |tiers| > MAX_TIERS {
      return false;
    }
    var tierKeys: set<string> := {};
    var payoutIds: set<string> := {};
    var probabilityTotal := 0;
    for i := 0 to |tiers|
      invariant Seen(TierKeys(tiers, i), tierKeys)
      invariant Seen(PayoutIds(tiers, i, 0), payoutIds)
      invariant ValidTiers(tiers, i)
      invariant probabilityTotal == CumulativePpm(tiers, i)
    {
      ok, tierKeys, payoutIds := NormalizeTier(tiers, i, tierKeys, payoutIds);
      if !ok {
        RejectedTier(config, i);
        return;
      }
      probabilityTotal := probabilityTotal + tiers[i].probabilityPpm;
    }
    WholeConfiguration(config, tierKeys, payoutIds);
    ok := probabilityTotal == SCALE_PPM;
  }
}
