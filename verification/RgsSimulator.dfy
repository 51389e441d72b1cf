/**
 The two metric loops of packages/rgs-simulator/src/simulator.ts: what a
 configuration declares, and what a run of draws realizes.
 */
module RgsSimulator {
  import opened Ordering
  import opened RgsConfig
  import opened RgsStatistics

  /** The two entropy words one round consumes: tier choice, then payout choice. */
  datatype Draw = Draw(tierWord: nat, payoutWord: nat)

  datatype TierMetric = TierMetric(key: string, hits: nat, hitRatePpm: int)

  datatype Declared = Declared(
    maxPayoutMinor: int, netExposureMinor: int, maxHitRatePpm: int, maxIds: seq<string>, rtpPpm: int, variance: int)

  datatype Realized = Realized(
    maxPayoutMinor: int, netExposureMinor: int, maxHits: nat, maxHitRatePpm: int, maxIds: seq<string>,
    rtpPpm: int, variance: int, tiers: seq<TierMetric>)

  function NonNegative(value: int): int {
    if value < 0 then 0 else value
  }

  // ---------------------------------------------------------------- declared metrics

  function AllPayouts(tiers: seq<Tier>, n: nat): seq<Payout>
    requires n <= |tiers|
  {
    if n == 0 then [] else AllPayouts(tiers, n - 1) + tiers[n - 1].payouts
  }

  ghost predicate NonEmptyTiers(tiers: seq<Tier>) {
    forall t :: 0 <= t < |tiers| ==> ValidTier(tiers[t])
  }

  /** A tier's floored probability share of a quantity summed over its payouts. */
  function Share(tier: Tier, amount: int): int
    requires |tier.payouts| > 0
  {
    tier.probabilityPpm * amount / |tier.payouts|
  }

  lemma ShareNonNegative(tier: Tier, amount: int)
    requires ValidTier(tier) && amount >= 0
    ensures Share(tier, amount) >= 0
  {
    assert tier.probabilityPpm * amount >= 0;
  }

  lemma ShareOfNothing(tier: Tier)
    requires ValidTier(tier)
    ensures Share(tier, 0) == 0
  {
  }

  /** Probability-weighted sum over tiers, floored tier by tier. */
  ghost function Weighted(tiers: seq<Tier>, stake: int, n: nat): int
    requires n <= |tiers| && stake > 0 && NonEmptyTiers(tiers)
  {
    if n == 0 then 0
    else
      var tier := tiers[n - 1];
      Weighted(tiers, stake, n - 1) + Share(tier, TotalReturn(tier.payouts, stake))
  }

  ghost function WeightedSquares(tiers: seq<Tier>, stake: int, n: nat): int
    requires n <= |tiers| && stake > 0 && NonEmptyTiers(tiers)
  {
    if n == 0 then 0
    else
      var tier := tiers[n - 1];
      WeightedSquares(tiers, stake, n - 1) + Share(tier, TotalSquares(tier.payouts, stake))
  }

  /** Probability of drawing a payout worth exactly `minor`, floored tier by tier. */
  ghost function ProbabilityOf(tiers: seq<Tier>, minor: int, n: nat): int
    requires n <= |tiers| && NonEmptyTiers(tiers)
  {
    if n == 0 then 0
    else
      var tier := tiers[n - 1];
      ProbabilityOf(tiers, minor, n - 1) + Share(tier, |IdsWith(tier.payouts, minor)|)
  }

  /** The tangent bound survives the per-tier floor. */
  lemma {:induction false} TierAboveTangent(tier: Tier, total: int, squares: int, m: int)
    requires ValidTier(tier) && m >= 0
    requires squares >= 2 * m * total - |tier.payouts| * (m * m)
    ensures Share(tier, squares) >= 2 * m * Share(tier, total) - tier.probabilityPpm * (m * m)
  {
    var p, count, f, k := tier.probabilityPpm, |tier.payouts|, Share(tier, total), 2 * m;
    FloorBelow(p * total, count);
    ScaledTangent(p, k, total, squares, count, m * m);
    FlooredTangent(p * squares, p * total, count, f, k, p * (m * m));
    FloorAtLeast(p * squares, count, k * f - p * (m * m));
  }

  lemma FloorBelow(a: int, d: int)
    requires d > 0
    ensures d * (a / d) <= a
  {
  }

  lemma Scale(k: int, a: int, b: int)
    requires k >= 0 && a <= b
    ensures k * a <= k * b
  {
  }

  lemma Commute(a: int, b: int, c: int)
    ensures a * (b * c) == b * (a * c)
  {
  }

  lemma ScaledTangent(p: int, k: int, total: int, squares: int, count: int, mm: int)
    requires p >= 0 && squares >= k * total - count * mm
    ensures p * squares >= k * (p * total) - count * (p * mm)
  {
    Scale(p, k * total - count * mm, squares);
    Distribute(p, k * total, -(count * mm));
    Commute(p, k, total);
    Commute(p, count, mm);
  }

  lemma FlooredTangent(b: int, a: int, count: int, f: int, k: int, e: int)
    requires k >= 0 && a >= count * f && b >= k * a - count * e
    ensures b >= count * (k * f - e)
  {
    Scale(k, count * f, a);
    Commute(k, count, f);
    Distribute(count, k * f, -e);
  }

  lemma {:induction false} WeightedAboveTangent(tiers: seq<Tier>, stake: int, m: int, n: nat)
    requires n <= |tiers| && stake > 0 && NonEmptyTiers(tiers) && m >= 0
    ensures WeightedSquares(tiers, stake, n)
            >= 2 * m * Weighted(tiers, stake, n) - CumulativePpm(tiers, n) * (m * m)
  {
    if n > 0 {
      WeightedAboveTangent(tiers, stake, m, n - 1);
      var tier := tiers[n - 1];
      SquaresAboveTangent(tier.payouts, stake, m);
      var total := TotalReturn(tier.payouts, stake);
      TierAboveTangent(tier, total, TotalSquares(tier.payouts, stake), m);
      Distribute(2 * m, Weighted(tiers, stake, n - 1), Share(tier, total));
      Distribute(m * m, CumulativePpm(tiers, n - 1), tier.probabilityPpm);
    }
  }

  lemma Distribute(k: int, a: int, b: int)
    ensures k * (a + b) == k * a + k * b
    ensures (a + b) * k == a * k + b * k
  {
  }

  lemma {:induction false} WeightedNonNegative(tiers: seq<Tier>, stake: int, n: nat)
    requires n <= |tiers| && stake > 0 && NonEmptyTiers(tiers)
    ensures Weighted(tiers, stake, n) >= 0
  {
    if n > 0 {
      WeightedNonNegative(tiers, stake, n - 1);
      var tier := tiers[n - 1];
      ReturnsNonNegative(tier.payouts, stake);
      ShareNonNegative(tier, TotalReturn(tier.payouts, stake));
    }
  }

  /** The declared variance is never clamped, whatever the per-tier floors lose. */
  lemma {:induction false} DeclaredVarianceUnclamped(config: Config)
    requires ValidConfig(config)
    ensures var n := |config.tiers|;
            var mean := Weighted(config.tiers, config.stakeMinor, n) / SCALE_PPM;
            WeightedSquares(config.tiers, config.stakeMinor, n) / SCALE_PPM >= mean * mean
  {
    var tiers, stake, n := config.tiers, config.stakeMinor, |config.tiers|;
    var mean := Weighted(tiers, stake, n) / SCALE_PPM;
    WeightedNonNegative(tiers, stake, n);
    WeightedAboveTangent(tiers, stake, mean, n);
    FlooredVarianceNonNegative(WeightedSquares(tiers, stake, n), Weighted(tiers, stake, n), SCALE_PPM, mean);
  }

  lemma {:induction false} MaxMinorConcat(a: seq<Payout>, b: seq<Payout>)
    ensures MaxMinor(a) <= MaxMinor(a + b) && MaxMinor(b) <= MaxMinor(a + b)
  {
    if b == [] {
      assert a + b == a;
      MinusOneLeast(a);
    } else {
      MaxMinorConcat(a, b[..|b| - 1]);
      assert (a + b)[..|a + b| - 1] == a + b[..|b| - 1];
    }
  }

  lemma {:induction false} MinusOneLeast(payouts: seq<Payout>)
    ensures MaxMinor(payouts) >= -1
  {
    if payouts != [] {
      MinusOneLeast(payouts[..|payouts| - 1]);
    }
  }

  lemma {:induction false} NoProbabilityAboveMaximum(tiers: seq<Tier>, minor: int, n: nat)
    requires n <= |tiers| && NonEmptyTiers(tiers)
    requires MaxMinor(AllPayouts(tiers, n)) < minor
    ensures ProbabilityOf(tiers, minor, n) == 0
  {
    if n > 0 {
      MaxMinorConcat(AllPayouts(tiers, n - 1), tiers[n - 1].payouts);
      NoProbabilityAboveMaximum(tiers, minor, n - 1);
      NoIdsAboveMaximum(tiers[n - 1].payouts, minor);
      ShareOfNothing(tiers[n - 1]);
    }
  }

  /** What the running maximum knows after the first `i` tiers and `j` payouts of the next. */
  ghost predicate Scanned(tiers: seq<Tier>, i: nat, j: nat, best: int, ids: seq<string>, count: int, ppm: int)
    requires i < |tiers| && NonEmptyTiers(tiers) && j <= |tiers[i].payouts|
  {
    var seen := AllPayouts(tiers, i) + tiers[i].payouts[..j];
    && best == MaxMinor(seen)
    && ids == IdsWith(seen, best)
    && count == |IdsWith(tiers[i].payouts[..j], best)|
    && ppm == ProbabilityOf(tiers, best, i)
  }

  lemma ScanStep(tiers: seq<Tier>, i: nat, j: nat, best: int, ids: seq<string>, count: int, ppm: int)
    requires i < |tiers| && NonEmptyTiers(tiers) && j < |tiers[i].payouts|
    requires Scanned(tiers, i, j, best, ids, count, ppm)
    ensures var payout := tiers[i].payouts[j];
            if payout.minor > best then Scanned(tiers, i, j + 1, payout.minor, [payout.id], 1, 0)
            else if payout.minor == best then Scanned(tiers, i, j + 1, best, ids + [payout.id], count + 1, ppm)
            else Scanned(tiers, i, j + 1, best, ids, count, ppm)
  {
    var before, here, payout := AllPayouts(tiers, i), tiers[i].payouts[..j], tiers[i].payouts[j];
    var seen := before + here;
    assert tiers[i].payouts[..j + 1] == here + [payout];
    assert before + (here + [payout]) == seen + [payout];
    var best' := if payout.minor > best then payout.minor else best;
    AppendPayout(seen, payout, 1, best');
    AppendPayout(here, payout, 1, best');
    if payout.minor > best {
      MaxMinorConcat(before, here);
      NoIdsAboveMaximum(seen, best');
      NoIdsAboveMaximum(here, best');
      NoProbabilityAboveMaximum(tiers, best', i);
    }
  }

  /** Everything the outer loop knows after `i` tiers. */
  ghost predicate Accumulated(tiers: seq<Tier>, stake: int, i: nat, total: int, squares: int,
                              best: int, ids: seq<string>, ppm: int)
    requires i <= |tiers| && stake > 0 && NonEmptyTiers(tiers)
  {
    && total == Weighted(tiers, stake, i)
    && squares == WeightedSquares(tiers, stake, i)
    && best == MaxMinor(AllPayouts(tiers, i))
    && ids == IdsWith(AllPayouts(tiers, i), best)
    && ppm == ProbabilityOf(tiers, best, i)
  }

  lemma {:induction false} NextTier(tiers: seq<Tier>, stake: int, i: nat, best: int, ids: seq<string>, count: int, ppm: int)
    requires i < |tiers| && stake > 0 && NonEmptyTiers(tiers)
    requires Scanned(tiers, i, |tiers[i].payouts|, best, ids, count, ppm)
    ensures var tier := tiers[i];
            Accumulated(tiers, stake, i + 1,
                        Weighted(tiers, stake, i) + Share(tier, TotalReturn(tier.payouts, stake)),
                        WeightedSquares(tiers, stake, i) + Share(tier, TotalSquares(tier.payouts, stake)),
                        best, ids, if count > 0 then ppm + Share(tier, count) else ppm)
  {
    assert tiers[i].payouts[..|tiers[i].payouts|] == tiers[i].payouts;
    ShareOfNothing(tiers[i]);
  }

  /** The inner loop: one tier's payouts against the running maximum. */
  method ScanTier(tiers: seq<Tier>, stake: int, i: nat, best0: int, ids0: seq<string>, ppm0: int)
    returns (tierReturn: int, tierSquares: int, tierMaximumCount: int, best: int, ids: seq<string>, ppm: int)
    requires i < |tiers| && stake > 0 && NonEmptyTiers(tiers)
    requires Scanned(tiers, i, 0, best0, ids0, 0, ppm0)
    ensures Scanned(tiers, i, |tiers[i].payouts|, best, ids, tierMaximumCount, ppm)
    ensures tierReturn == TotalReturn(tiers[i].payouts, stake)
    ensures tierSquares == TotalSquares(tiers[i].payouts, stake)
  {
    hide Scanned, ReturnPpm, NonEmptyTiers;
    var payouts := tiers[i].payouts;
    tierReturn, tierSquares, tierMaximumCount := 0, 0, 0;
    best, ids, ppm := best0, ids0, ppm0;
    for j := 0 to |payouts|
      invariant tierReturn == TotalReturn(payouts[..j], stake)
      invariant tierSquares == TotalSquares(payouts[..j], stake)
      invariant Scanned(tiers, i, j, best, ids, tierMaximumCount, ppm)
    {
      ScanStep(tiers, i, j, best, ids, tierMaximumCount, ppm);
      AppendPayout(payouts[..j], payouts[j], stake, 0);
      assert payouts[..j + 1] == payouts[..j] + [payouts[j]];
      var returnPpm := ReturnPpm(payouts[j], stake);
      tierReturn := tierReturn + returnPpm;
      tierSquares := tierSquares + returnPpm * returnPpm;
      if payouts[j].minor > best {
        best, ids, ppm, tierMaximumCount := payouts[j].minor, [payouts[j].id], 0, 1;
      } else if payouts[j].minor == best {
        ids, tierMaximumCount := ids + [payouts[j].id], tierMaximumCount + 1;
      }
    }
    assert payouts[..|payouts|] == payouts;
  }

  lemma StartTier(tiers: seq<Tier>, i: nat, best: int, ids: seq<string>, ppm: int)
    requires i < |tiers| && NonEmptyTiers(tiers)
    requires best == MaxMinor(AllPayouts(tiers, i)) && ids == IdsWith(AllPayouts(tiers, i), best)
    requires ppm == ProbabilityOf(tiers, best, i)
    ensures Scanned(tiers, i, 0, best, ids, 0, ppm)
  {
    assert AllPayouts(tiers, i) + tiers[i].payouts[..0] == AllPayouts(tiers, i);
  }

  lemma {:induction false} AllIdsAreDeclared(tiers: seq<Tier>, n: nat)
    requires n <= |tiers|
    ensures IdsOf(AllPayouts(tiers, n)) == PayoutIds(tiers, n, 0)
  {
    if n > 0 {
      AllIdsAreDeclared(tiers, n - 1);
      TierIdsFollow(tiers, n - 1, |tiers[n - 1].payouts|);
      assert tiers[n - 1].payouts[..|tiers[n - 1].payouts|] == tiers[n - 1].payouts;
    }
  }

  lemma {:induction false} TierIdsFollow(tiers: seq<Tier>, i: nat, j: nat)
    requires i < |tiers| && j <= |tiers[i].payouts| && IdsOf(AllPayouts(tiers, i)) == PayoutIds(tiers, i, 0)
    ensures IdsOf(AllPayouts(tiers, i) + tiers[i].payouts[..j]) == PayoutIds(tiers, i, j)
  {
    var before, payouts := AllPayouts(tiers, i), tiers[i].payouts;
    if j == 0 {
      assert before + payouts[..0] == before;
    } else {
      TierIdsFollow(tiers, i, j - 1);
      assert (before + payouts[..j])[..|before| + j - 1] == before + payouts[..j - 1];
    }
  }

  lemma {:induction false} AllPayoutsValid(tiers: seq<Tier>, n: nat)
    requires n <= |tiers| && NonEmptyTiers(tiers)
    ensures n > 0 ==> AllPayouts(tiers, n) != []
    ensures forall p :: 0 <= p < |AllPayouts(tiers, n)| ==> 0 <= AllPayouts(tiers, n)[p].minor
  {
    if n > 0 {
      AllPayoutsValid(tiers, n - 1);
      assert ValidTier(tiers[n - 1]);
    }
  }

  /** What the sorted ids and the greatest payout of the whole configuration come to. */
  lemma DeclaredMaximum(config: Config)
    requires ValidConfig(config)
    ensures var all := AllPayouts(config.tiers, |config.tiers|);
            Greatest(all, MaxMinor(all)) && ReportsOwners(SortedIds(IdsWith(all, MaxMinor(all))), all, MaxMinor(all))
  {
    var all := AllPayouts(config.tiers, |config.tiers|);
    AllPayoutsValid(config.tiers, |config.tiers|);
    MaxMinorIsGreatest(all);
    AllIdsAreDeclared(config.tiers, |config.tiers|);
    OwnersAreDistinct(all, MaxMinor(all));
    forall id ensures id in IdsWith(all, MaxMinor(all)) <==> Pays(all, id, MaxMinor(all)) {
      IdsWithAreExact(all, MaxMinor(all), id);
    }
    SortedOwners(IdsWith(all, MaxMinor(all)), all, MaxMinor(all));
  }

  /**
   The declared metrics: the greatest payout of the configuration, what it exposes
   beyond the stake, its owners in text order and their probability, the mean, and
   an unclamped variance.
   */
  ghost predicate Declares(config: Config, declared: Declared)
    requires ValidConfig(config)
  {
    var all := AllPayouts(config.tiers, |config.tiers|);
    && Greatest(all, declared.maxPayoutMinor)
    && declared.netExposureMinor == NonNegative(declared.maxPayoutMinor - config.stakeMinor)
    && ReportsOwners(declared.maxIds, all, declared.maxPayoutMinor)
    && declared.maxHitRatePpm == ProbabilityOf(config.tiers, declared.maxPayoutMinor, |config.tiers|)
    && declared.rtpPpm == Weighted(config.tiers, config.stakeMinor, |config.tiers|) / SCALE_PPM
    && declared.variance
       == WeightedSquares(config.tiers, config.stakeMinor, |config.tiers|) / SCALE_PPM - declared.rtpPpm * declared.rtpPpm
  }

  method DeclaredMetrics(config: Config) returns (declared: Declared)
    requires ValidConfig(config)
    ensures Declares(config, declared) && declared.variance >= 0
  {
    var tiers, stake := config.tiers, config.stakeMinor;
    var weightedReturn, weightedSquares := 0, 0;
    var maximumPayout, maximumProbability := -1, 0;
    var maximumIds: seq<string> := [];
    for i := 0 to |tiers|
      invariant Accumulated(tiers, stake, i, weightedReturn, weightedSquares, maximumPayout, maximumIds, maximumProbability)
    {
      StartTier(tiers, i, maximumPayout, maximumIds, maximumProbability);
      var tierReturn, tierSquares, tierMaximumCount;
      tierReturn, tierSquares, tierMaximumCount, maximumPayout, maximumIds, maximumProbability :=
        ScanTier(tiers, stake, i, maximumPayout, maximumIds, maximumProbability);
      NextTier(tiers, stake, i, maximumPayout, maximumIds, tierMaximumCount, maximumProbability);
      weightedReturn := weightedReturn + Share(tiers[i], tierReturn);
      weightedSquares := weightedSquares + Share(tiers[i], tierSquares);
      if tierMaximumCount > 0 {
        maximumProbability := maximumProbability + Share(tiers[i], tierMaximumCount);
      }
    }
    DeclaredVarianceUnclamped(config);
    DeclaredMaximum(config);
    var mean := weightedReturn / SCALE_PPM;
    declared := Declared(maximumPayout, NonNegative(maximumPayout - stake), maximumProbability, SortedIds(maximumIds), mean,
                         NonNegative(weightedSquares / SCALE_PPM - mean * mean));
  }

  // ---------------------------------------------------------------- realized metrics

  ghost function PayoutFor(config: Config, draw: Draw): Payout
    requires ValidConfig(config)
  {
    TierSelectionIsPartition(config, draw.tierWord, 0);
    var tier := config.tiers[TierFor(config, draw.tierWord)];
    assert ValidTier(tier);
    tier.payouts[draw.payoutWord % |tier.payouts|]
  }

  /** The payouts drawn, in order. */
  ghost function Observed(config: Config, draws: seq<Draw>): (payouts: seq<Payout>)
    requires ValidConfig(config)
    ensures |payouts| == |draws|
  {
    if draws == [] then [] else Observed(config, draws[..|draws| - 1]) + [PayoutFor(config, draws[|draws| - 1])]
  }

  /** How often each tier was drawn. */
  ghost function Hits(config: Config, draws: seq<Draw>): (hits: seq<nat>)
    requires ValidConfig(config)
    ensures |hits| == |config.tiers|
  {
    if draws == [] then seq(|config.tiers|, _ => 0)
    else
      var before, draw := Hits(config, draws[..|draws| - 1]), draws[|draws| - 1];
      TierSelectionIsPartition(config, draw.tierWord, 0);
      var t := TierFor(config, draw.tierWord);
      before[t := before[t] + 1]
  }

  function Sum(xs: seq<nat>): nat {
    if xs == [] then 0 else Sum(xs[..|xs| - 1]) + xs[|xs| - 1]
  }

  lemma {:induction false} SumOfIncrement(xs: seq<nat>, t: nat)
    requires t < |xs|
    ensures Sum(xs[t := xs[t] + 1]) == Sum(xs) + 1
  {
    var last := |xs| - 1;
    var ys := xs[t := xs[t] + 1];
    if t == last {
      assert ys[..last] == xs[..last];
    } else {
      assert ys[..last] == xs[..last][t := xs[t] + 1];
      SumOfIncrement(xs[..last], t);
    }
  }

  lemma {:induction false} SumOfZeros(n: nat)
    ensures Sum(seq(n, _ => 0)) == 0
  {
    if n > 0 {
      var zeros: seq<nat> := seq(n, _ => 0);
      assert zeros[..n - 1] == seq(n - 1, _ => 0);
      SumOfZeros(n - 1);
    }
  }

  /** Every round hits exactly one tier. */
  lemma {:induction false} HitsSumToRounds(config: Config, draws: seq<Draw>)
    requires ValidConfig(config)
    ensures Sum(Hits(config, draws)) == |draws|
  {
    if draws == [] {
      SumOfZeros(|config.tiers|);
    } else {
      var init, draw := draws[..|draws| - 1], draws[|draws| - 1];
      HitsSumToRounds(config, init);
      TierSelectionIsPartition(config, draw.tierWord, 0);
      SumOfIncrement(Hits(config, init), TierFor(config, draw.tierWord));
    }
  }

  function RatioPpm(numerator: int, denominator: int): int
    requires denominator > 0
  {
    numerator * SCALE_PPM / denominator
  }

  function RateSum(hits: seq<nat>, rounds: int): int
    requires rounds > 0
  {
    if hits == [] then 0 else RateSum(hits[..|hits| - 1], rounds) + RatioPpm(hits[|hits| - 1], rounds)
  }

  lemma FloorRemainder(a: int, d: int)
    requires d > 0
    ensures a - d + 1 <= d * (a / d) <= a
  {
  }

  lemma {:induction false} RateSumScaled(hits: seq<nat>, rounds: int)
    requires rounds > 0
    ensures Sum(hits) * SCALE_PPM - |hits| * (rounds - 1) <= rounds * RateSum(hits, rounds) <= Sum(hits) * SCALE_PPM
  {
    if hits != [] {
      var init, last := hits[..|hits| - 1], hits[|hits| - 1];
      RateSumScaled(init, rounds);
      FloorRemainder(last * SCALE_PPM, rounds);
      Distribute(rounds, RateSum(init, rounds), RatioPpm(last, rounds));
      Distribute(rounds - 1, |init|, 1);
    }
  }

  lemma LossBound(rounds: int, count: int, lost: int)
    requires rounds > 0 && count > 0 && 0 <= rounds * lost <= count * (rounds - 1)
    ensures 0 <= lost < count
  {
    Distribute(count, rounds, -1);
    Distribute(rounds, count, lost - count);
    assert lost < 0 ==> rounds * lost < 0;
    assert lost - count >= 0 ==> rounds * (lost - count) >= 0;
  }

  lemma RateLoss(rounds: int, count: int, rate: int)
    requires rounds > 0 && count > 0
    requires rounds * SCALE_PPM - count * (rounds - 1) <= rounds * rate <= rounds * SCALE_PPM
    ensures SCALE_PPM - count < rate <= SCALE_PPM
  {
    Distribute(rounds, rate, SCALE_PPM - rate);
    LossBound(rounds, count, SCALE_PPM - rate);
  }

  /** The published hit rates lose less than one part per million per tier. */
  lemma {:induction false} HitRatesNearlyExhaustive(config: Config, draws: seq<Draw>)
    requires ValidConfig(config) && draws != []
    ensures SCALE_PPM - |config.tiers| < RateSum(Hits(config, draws), |draws|) <= SCALE_PPM
  {
    var hits, rounds := Hits(config, draws), |draws|;
    HitsSumToRounds(config, draws);
    RateSumScaled(hits, rounds);
    RateLoss(rounds, |hits|, RateSum(hits, rounds));
  }

  lemma {:induction false} RealizedVarianceUnclamped(payouts: seq<Payout>, stake: int)
    requires stake > 0 && payouts != []
    requires forall p :: 0 <= p < |payouts| ==> 0 <= payouts[p].minor
    ensures var mean := TotalReturn(payouts, stake) / |payouts|;
            TotalSquares(payouts, stake) / |payouts| >= mean * mean
  {
    var mean := TotalReturn(payouts, stake) / |payouts|;
    ReturnsNonNegative(payouts, stake);
    SquaresAboveTangent(payouts, stake, mean);
    FlooredVarianceNonNegative(TotalSquares(payouts, stake), TotalReturn(payouts, stake), |payouts|, mean);
  }

  lemma {:induction false} ObservedAreConfigured(config: Config, draws: seq<Draw>, p: nat)
    requires ValidConfig(config) && p < |draws|
    ensures Observed(config, draws)[p] == PayoutFor(config, draws[p])
    ensures 0 <= Observed(config, draws)[p].minor
  {
    if p < |draws| - 1 {
      ObservedAreConfigured(config, draws[..|draws| - 1], p);
    }
    TierSelectionIsPartition(config, draws[p].tierWord, 0);
    assert ValidTier(config.tiers[TierFor(config, draws[p].tierWord)]);
  }

  lemma TierKeysDiffer(config: Config, t: nat, u: nat)
    requires ValidConfig(config) && t < u < |config.tiers|
    ensures config.tiers[t].key != config.tiers[u].key
  {
    TierKeyAt(config.tiers, |config.tiers|, t);
    TierKeyAt(config.tiers, |config.tiers|, u);
  }

  ghost predicate HitTable(config: Config, table: map<string, nat>, hits: seq<nat>)
    requires |hits| == |config.tiers|
  {
    forall t :: 0 <= t < |hits| ==> config.tiers[t].key in table && table[config.tiers[t].key] == hits[t]
  }

  method CountHit(config: Config, table: map<string, nat>, ghost hits: seq<nat>, t: nat) returns (table': map<string, nat>)
    requires ValidConfig(config) && |hits| == |config.tiers| && t < |hits| && HitTable(config, table, hits)
    ensures HitTable(config, table', hits[t := hits[t] + 1])
  {
    var key := config.tiers[t].key;
    table' := table[key := (if key in table then table[key] else 0) + 1];
    forall u | 0 <= u < |hits| && u != t
      ensures config.tiers[u].key != key
    {
      if u < t { TierKeysDiffer(config, u, t); } else { TierKeysDiffer(config, t, u); }
    }
  }

  /** What the simulation loop has accumulated from the draws so far. */
  ghost predicate Simulated(config: Config, draws: seq<Draw>, total: int, squares: int, best: int, hits: nat, ids: seq<string>)
    requires ValidConfig(config)
  {
    var seen := Observed(config, draws);
    && total == TotalReturn(seen, config.stakeMinor)
    && squares == TotalSquares(seen, config.stakeMinor)
    && best == MaxMinor(seen)
    && hits == |IdsWith(seen, best)|
    && ids == Added(IdsWith(seen, best))
  }

  /** Adding to a set that keeps its insertion order. */
  function AddId(ids: seq<string>, id: string): seq<string> {
    if id in ids then ids else ids + [id]
  }

  lemma SimulateStep(config: Config, draws: seq<Draw>, draw: Draw, total: int, squares: int, best: int, hits: nat, ids: seq<string>)
    requires ValidConfig(config) && Simulated(config, draws, total, squares, best, hits, ids)
    ensures Observed(config, draws + [draw]) == Observed(config, draws) + [PayoutFor(config, draw)]
    ensures var payout := PayoutFor(config, draw);
            var x := ReturnPpm(payout, config.stakeMinor);
            if payout.minor > best then Simulated(config, draws + [draw], total + x, squares + x * x, payout.minor, 1, [payout.id])
            else if payout.minor == best then Simulated(config, draws + [draw], total + x, squares + x * x, best, hits + 1, AddId(ids, payout.id))
            else Simulated(config, draws + [draw], total + x, squares + x * x, best, hits, ids)
  {
    var seen, payout := Observed(config, draws), PayoutFor(config, draw);
    assert (draws + [draw])[..|draws|] == draws;
    var best' := if payout.minor > best then payout.minor else best;
    AppendPayout(seen, payout, config.stakeMinor, best');
    AddOne(IdsWith(seen, best'), payout.id);
    if payout.minor > best {
      NoIdsAboveMaximum(seen, best');
    }
  }

  lemma NextHits(config: Config, draws: seq<Draw>, draw: Draw)
    requires ValidConfig(config)
    ensures TierFor(config, draw.tierWord) < |config.tiers|
    ensures var before, t := Hits(config, draws), TierFor(config, draw.tierWord);
            Hits(config, draws + [draw]) == before[t := before[t] + 1]
  {
    TierSelectionIsPartition(config, draw.tierWord, 0);
    assert (draws + [draw])[..|draws|] == draws;
  }

  /** The loop body's payout selection: the tier by cumulative bound, then a payout by residue. */
  method SelectPayout(config: Config, draw: Draw) returns (index: nat, payout: Payout)
    requires ValidConfig(config)
    ensures index == TierFor(config, draw.tierWord) && index < |config.tiers|
    ensures payout == PayoutFor(config, draw)
  {
    index := SelectTier(config, draw.tierWord);
    assert ValidTier(config.tiers[index]);
    payout := config.tiers[index].payouts[draw.payoutWord % |config.tiers[index].payouts|];
  }

  function NoHits(tiers: seq<Tier>, n: nat): (table: map<string, nat>)
    requires n <= |tiers|
    ensures forall t :: 0 <= t < n ==> tiers[t].key in table
    ensures forall key :: key in table ==> table[key] == 0
  {
    if n == 0 then map[] else NoHits(tiers, n - 1)[tiers[n - 1].key := 0]
  }

  lemma EmptyRun(config: Config)
    requires ValidConfig(config)
    ensures Simulated(config, [], 0, 0, -1, 0, [])
    ensures HitTable(config, NoHits(config.tiers, |config.tiers|), Hits(config, []))
  {
  }

  method RunRounds(config: Config, draws: seq<Draw>)
    returns (tierHits: map<string, nat>, total: int, squares: int, best: int, hits: nat, ids: seq<string>)
    requires ValidConfig(config)
    ensures Simulated(config, draws, total, squares, best, hits, ids)
    ensures HitTable(config, tierHits, Hits(config, draws))
  {
    hide Simulated, HitTable, Hits, PayoutFor, TierFor, ReturnPpm, NoHits;
    tierHits := NoHits(config.tiers, |config.tiers|);
    total, squares, best, hits, ids := 0, 0, -1, 0, [];
    EmptyRun(config);
    ghost var seen: seq<Draw> := [];
    for round := 0 to |draws|
      invariant seen == draws[..round]
      invariant Simulated(config, seen, total, squares, best, hits, ids)
      invariant HitTable(config, tierHits, Hits(config, seen))
    {
      SimulateStep(config, seen, draws[round], total, squares, best, hits, ids);
      NextHits(config, seen, draws[round]);
      var index, payout := SelectPayout(config, draws[round]);
      tierHits := CountHit(config, tierHits, Hits(config, seen), index);
      var returnPpm := ReturnPpm(payout, config.stakeMinor);
      total := total + returnPpm;
      squares := squares + returnPpm * returnPpm;
      if payout.minor > best {
        best, hits, ids := payout.minor, 1, [payout.id];
      } else if payout.minor == best {
        hits, ids := hits + 1, AddId(ids, payout.id);
      }
      seen := seen + [draws[round]];
    }
    assert draws[..|draws|] == draws;
  }

  method TierReport(config: Config, table: map<string, nat>, ghost hits: seq<nat>, rounds: nat) returns (tiers: seq<TierMetric>)
    requires |hits| == |config.tiers| && HitTable(config, table, hits) && rounds > 0
    ensures |tiers| == |hits|
    ensures forall t :: 0 <= t < |hits| ==> tiers[t] == TierMetric(config.tiers[t].key, hits[t], RatioPpm(hits[t], rounds))
  {
    tiers := [];
    for t := 0 to |config.tiers|
      invariant |tiers| == t
      invariant forall u :: 0 <= u < t ==> tiers[u] == TierMetric(config.tiers[u].key, hits[u], RatioPpm(hits[u], rounds))
    {
      var key := config.tiers[t].key;
      var count := if key in table then table[key] else 0;
      tiers := tiers + [TierMetric(key, count, RatioPpm(count, rounds))];
    }
  }

  /**
   A run's realized metrics: the maximum drawn, how many rounds drew it and
   which outcomes they were, exact tier hits, the mean, and an unclamped variance.
   */
  ghost predicate Realizes(config: Config, draws: seq<Draw>, realized: Realized)
    requires ValidConfig(config) && draws != []
  {
    var seen := Observed(config, draws);
    && Greatest(seen, realized.maxPayoutMinor)
    && realized.netExposureMinor == NonNegative(realized.maxPayoutMinor - config.stakeMinor)
    && realized.maxHits == |IdsWith(seen, realized.maxPayoutMinor)|
    && ReportsOwners(realized.maxIds, seen, realized.maxPayoutMinor)
    && realized.maxHitRatePpm == RatioPpm(realized.maxHits, |draws|)
    && realized.rtpPpm == TotalReturn(seen, config.stakeMinor) / |draws|
    && realized.variance == TotalSquares(seen, config.stakeMinor) / |draws| - realized.rtpPpm * realized.rtpPpm
    && |realized.tiers| == |config.tiers|
    && forall t :: 0 <= t < |config.tiers| ==>
         realized.tiers[t] == TierMetric(config.tiers[t].key, Hits(config, draws)[t], RatioPpm(Hits(config, draws)[t], |draws|))
  }

  lemma ObservedMaximum(seen: seq<Payout>)
    requires seen != [] && forall p :: 0 <= p < |seen| ==> 0 <= seen[p].minor
    ensures Greatest(seen, MaxMinor(seen)) && ReportsOwners(SortedIds(Added(IdsWith(seen, MaxMinor(seen)))), seen, MaxMinor(seen))
  {
    MaxMinorIsGreatest(seen);
    var ids := IdsWith(seen, MaxMinor(seen));
    AddedAreDistinct(ids);
    forall id ensures id in Added(ids) <==> Pays(seen, id, MaxMinor(seen)) {
      IdsWithAreExact(seen, MaxMinor(seen), id);
    }
    SortedOwners(Added(ids), seen, MaxMinor(seen));
  }

  method Simulate(config: Config, draws: seq<Draw>) returns (realized: Realized)
    requires ValidConfig(config) && draws != []
    ensures Realizes(config, draws, realized) && realized.variance >= 0
  {
    var tierHits, total, squares, best, hits, ids := RunRounds(config, draws);
    forall p | 0 <= p < |draws| ensures 0 <= Observed(config, draws)[p].minor {
      ObservedAreConfigured(config, draws, p);
    }
    RealizedVarianceUnclamped(Observed(config, draws), config.stakeMinor);
    ObservedMaximum(Observed(config, draws));
    var mean := total / |draws|;
    var tiers := TierReport(config, tierHits, Hits(config, draws), |draws|);
    realized := Realized(best, NonNegative(best - config.stakeMinor), hits, RatioPpm(hits, |draws|), SortedIds(ids), mean, NonNegative(squares / |draws| - mean * mean), tiers);
  }

  // ---------------------------------------------------------------- the exposure check

  /** The report's check of the maximum: the same payout, exposure and owners, and at least one round that drew it. */
  predicate ExposurePasses(declared: Declared, realized: Realized) {
    && realized.maxHits > 0
    && realized.maxPayoutMinor == declared.maxPayoutMinor && realized.netExposureMinor == declared.netExposureMinor
    && realized.maxIds == declared.maxIds
  }

  /** A draw pays out of the configuration. */
  lemma {:induction false} DrawnIsConfigured(tiers: seq<Tier>, n: nat, t: nat, p: nat)
    requires t < n <= |tiers| && p < |tiers[t].payouts|
    ensures tiers[t].payouts[p] in AllPayouts(tiers, n)
  {
    if t < n - 1 {
      DrawnIsConfigured(tiers, n - 1, t, p);
    }
  }

  lemma {:induction false} ObservedInConfig(config: Config, draws: seq<Draw>, p: nat)
    requires ValidConfig(config) && p < |draws|
    ensures Observed(config, draws)[p] in AllPayouts(config.tiers, |config.tiers|)
  {
    ObservedAreConfigured(config, draws, p);
    TierSelectionIsPartition(config, draws[p].tierWord, 0);
    var t := TierFor(config, draws[p].tierWord);
    assert ValidTier(config.tiers[t]);
    DrawnIsConfigured(config.tiers, |config.tiers|, t, draws[p].payoutWord % |config.tiers[t].payouts|);
  }

  lemma GreatestOf(seen: seq<Payout>, all: seq<Payout>, drawn: int, best: int, id: string)
    requires forall p :: 0 <= p < |seen| ==> seen[p] in all
    requires Greatest(seen, drawn) && Greatest(all, best)
    ensures drawn <= best
    ensures Pays(seen, id, drawn) && drawn == best ==> Pays(all, id, best)
    ensures Pays(seen, id, best) ==> drawn == best
  {
    var p :| 0 <= p < |seen| && seen[p].minor == drawn;
    assert seen[p] in all;
    if Pays(seen, id, drawn) {
      var q :| 0 <= q < |seen| && seen[q].minor == drawn && seen[q].id == id;
      assert seen[q] in all;
    }
  }

  lemma OwnersAreCounted(payouts: seq<Payout>, id: string, minor: int)
    requires Pays(payouts, id, minor)
    ensures |IdsWith(payouts, minor)| > 0
  {
    IdsWithAreExact(payouts, minor, id);
  }

  /** Every outcome of `all` worth `best` has been drawn. */
  ghost predicate AllDrawn(all: seq<Payout>, seen: seq<Payout>, best: int) {
    forall id :: Pays(all, id, best) ==> Pays(seen, id, best)
  }

  lemma SameReportExactly(seen: seq<Payout>, all: seq<Payout>, drawn: int, best: int, drawnIds: seq<string>, bestIds: seq<string>)
    requires forall p :: 0 <= p < |seen| ==> seen[p] in all
    requires Greatest(seen, drawn) && Greatest(all, best)
    requires ReportsOwners(drawnIds, seen, drawn) && ReportsOwners(bestIds, all, best)
    ensures drawn == best && drawnIds == bestIds <==> AllDrawn(all, seen, best)
    ensures AllDrawn(all, seen, best) ==> |IdsWith(seen, best)| > 0
  {
    hide Increasing, IdsWith;
    if AllDrawn(all, seen, best) {
      var p :| 0 <= p < |all| && all[p].minor == best;
      assert Pays(all, all[p].id, best);
      GreatestOf(seen, all, drawn, best, all[p].id);
      OwnersAreCounted(seen, all[p].id, best);
      forall id ensures id in bestIds <==> id in drawnIds {
        GreatestOf(seen, all, drawn, best, id);
      }
      OneReport(bestIds, drawnIds);
    }
  }

  /** The check passes if and only if the run drew every outcome that pays the greatest declared payout. */
  lemma {:induction false} ExposurePassesExactly(config: Config, draws: seq<Draw>, declared: Declared, realized: Realized)
    requires ValidConfig(config) && draws != [] && Declares(config, declared) && Realizes(config, draws, realized)
    ensures ExposurePasses(declared, realized)
            <==> AllDrawn(AllPayouts(config.tiers, |config.tiers|), Observed(config, draws), declared.maxPayoutMinor)
  {
    hide AllPayouts, Observed, Hits, ProbabilityOf, Weighted, WeightedSquares, TotalReturn, TotalSquares, ReportsOwners, Greatest, AllDrawn, IdsWith;
    var all, seen := AllPayouts(config.tiers, |config.tiers|), Observed(config, draws);
    forall p | 0 <= p < |seen| ensures seen[p] in all {
      ObservedInConfig(config, draws, p);
    }
    SameReportExactly(seen, all, realized.maxPayoutMinor, declared.maxPayoutMinor, realized.maxIds, declared.maxIds);
  }
}
