/**
 What the published figures say about the payouts themselves: every mean,
 second moment and rate of packages/rgs-simulator/src/simulator.ts, whatever its
 floors lose, between two bounds on the minor amounts and the exact odds.
 */
module RgsBounds {
  import opened RgsConfig
  import opened RgsStatistics
  import opened RgsSimulator

  // ---------------------------------------------------------------- sums of minor amounts

  function MinorSum(payouts: seq<Payout>): int {
    if payouts == [] then 0 else MinorSum(payouts[..|payouts| - 1]) + payouts[|payouts| - 1].minor
  }

  function MinorSquares(payouts: seq<Payout>): int {
    if payouts == [] then 0
    else MinorSquares(payouts[..|payouts| - 1]) + payouts[|payouts| - 1].minor * payouts[|payouts| - 1].minor
  }

  ghost predicate AllNonNegative(payouts: seq<Payout>) {
    forall p :: 0 <= p < |payouts| ==> 0 <= payouts[p].minor
  }

  /** One return in parts per million against its amount: less than one part is lost. */
  lemma ReturnBounds(payout: Payout, stake: int)
    requires stake > 0 && payout.minor >= 0
    ensures var x := ReturnPpm(payout, stake);
            && 0 <= x
            && stake * x <= SCALE_PPM * payout.minor <= stake * x + stake - 1
  {
    FloorRemainder(payout.minor * SCALE_PPM, stake);
    ReturnNonNegative(payout, stake);
  }

  lemma SquareMonotone(a: int, b: int)
    requires 0 <= a <= b
    ensures a * a <= b * b
  {
    assert b * b - a * a == (b - a) * (b + a);
  }

  lemma SquareStrict(a: int, b: int)
    requires 0 <= a < b
    ensures a * a < b * b
  {
    assert b * b - a * a == (b - a) * (b + a);
  }

  lemma SquareOfProduct(a: int, b: int)
    ensures (a * b) * (a * b) == a * a * (b * b)
  {
    assert (a * b) * (a * b) == a * (b * (a * b)) == a * (a * (b * b));
  }

  lemma SquareBounds(payout: Payout, stake: int)
    requires stake > 0 && payout.minor >= 0
    ensures var x, y := ReturnPpm(payout, stake), payout.minor;
            && stake * stake * (x * x) <= SCALE_PPM * SCALE_PPM * (y * y)
            && SCALE_PPM * SCALE_PPM * (y * y) < stake * stake * (x * x + 2 * x + 1)
  {
    ReturnBounds(payout, stake);
    var x, y := ReturnPpm(payout, stake), payout.minor;
    hide ReturnPpm;
    assert stake * x >= 0;
    SquareMonotone(stake * x, SCALE_PPM * y);
    assert stake * (x + 1) == stake * x + stake;
    SquareStrict(SCALE_PPM * y, stake * (x + 1));
    SquareOfProduct(stake, x);
    SquareOfProduct(SCALE_PPM, y);
    SquareOfProduct(stake, x + 1);
    assert (x + 1) * (x + 1) == x * x + 2 * x + 1;
  }

  lemma {:induction false} ReturnsBounds(payouts: seq<Payout>, stake: int)
    requires stake > 0 && AllNonNegative(payouts)
    ensures stake * TotalReturn(payouts, stake) <= SCALE_PPM * MinorSum(payouts)
    ensures SCALE_PPM * MinorSum(payouts) <= stake * TotalReturn(payouts, stake) + |payouts| * (stake - 1)
  {
    if payouts != [] {
      var init, last := payouts[..|payouts| - 1], payouts[|payouts| - 1];
      ReturnsBounds(init, stake);
      ReturnBounds(last, stake);
      hide ReturnPpm;
      Distribute(stake, TotalReturn(init, stake), ReturnPpm(last, stake));
      Distribute(stake - 1, |init|, 1);
    }
  }

  lemma {:induction false} SquaresBounds(payouts: seq<Payout>, stake: int)
    requires stake > 0 && AllNonNegative(payouts)
    ensures stake * stake * TotalSquares(payouts, stake) <= SCALE_PPM * SCALE_PPM * MinorSquares(payouts)
    ensures SCALE_PPM * SCALE_PPM * MinorSquares(payouts)
            <= stake * stake * (TotalSquares(payouts, stake) + 2 * TotalReturn(payouts, stake) + |payouts|) - |payouts|
  {
    if payouts != [] {
      var init, last := payouts[..|payouts| - 1], payouts[|payouts| - 1];
      SquaresBounds(init, stake);
      SquareBounds(last, stake);
      hide ReturnPpm;
      var x := ReturnPpm(last, stake);
      Distribute(stake * stake, TotalSquares(init, stake), x * x);
      Distribute(stake * stake, TotalSquares(init, stake) + 2 * TotalReturn(init, stake) + |init|, x * x + 2 * x + 1);
    }
  }

  // ---------------------------------------------------------------- realized figures

  /** Mean and second moment, as floored quotients of the summed returns, against the drawn amounts. */
  lemma MeanBounds(stake: int, n: int, total: int, amount: int, mean: int)
    requires stake > 0 && n > 0 && mean == total / n
    requires stake * total <= SCALE_PPM * amount <= stake * total + n * (stake - 1)
    ensures stake * (n * mean) <= SCALE_PPM * amount < stake * (n * (mean + 2))
  {
    FloorRemainder(total, n);
    Scale(stake, n * mean, total);
    assert n * (mean + 2) == n * mean + n + n;
    Scale(stake, total + n, n * mean + n + n - 1);
    Distribute(stake, total, n);
    Distribute(stake, n * mean + n + n - 1, 1);
    Distribute(n, stake, -1);
  }

  lemma MomentBounds(stake: int, n: int, total: int, squares: int, amounts: int, mean: int, moment: int)
    requires stake > 0 && n > 0 && mean == total / n && moment == squares / n
    requires stake * stake * squares <= SCALE_PPM * SCALE_PPM * amounts
    requires SCALE_PPM * SCALE_PPM * amounts <= stake * stake * (squares + 2 * total + n) - n
    ensures stake * stake * (n * moment) <= SCALE_PPM * SCALE_PPM * amounts
    ensures SCALE_PPM * SCALE_PPM * amounts < stake * stake * (n * (moment + 2 * mean + 4))
  {
    FloorRemainder(total, n);
    FloorRemainder(squares, n);
    assert stake * stake > 0;
    Scale(stake * stake, n * moment, squares);
    assert n * (moment + 2 * mean + 4) == n * moment + 2 * (n * mean) + 4 * n;
    Scale(stake * stake, squares + 2 * total + n, n * moment + 2 * (n * mean) + 4 * n);
  }

  /** The positions of the payouts worth exactly `minor`. */
  ghost function Worth(payouts: seq<Payout>, minor: int): set<int> {
    set p: int | 0 <= p < |payouts| && payouts[p].minor == minor
  }

  lemma {:induction false} IdsWithCount(payouts: seq<Payout>, minor: int)
    ensures |IdsWith(payouts, minor)| == |Worth(payouts, minor)|
  {
    if payouts == [] {
      assert Worth(payouts, minor) == {};
    } else {
      var n := |payouts| - 1;
      var init := payouts[..n];
      IdsWithCount(init, minor);
      var added := if payouts[n].minor == minor then {n} else {};
      assert Worth(payouts, minor) == Worth(init, minor) + added;
      assert Worth(init, minor) !! added;
    }
  }

  /** A published rate is the exact one rounded down to a part per million. */
  predicate RateOf(ratePpm: int, hits: int, rounds: int) {
    rounds * ratePpm <= hits * SCALE_PPM < rounds * (ratePpm + 1)
  }

  lemma RatioIsRate(hits: int, rounds: int)
    requires rounds > 0
    ensures RateOf(RatioPpm(hits, rounds), hits, rounds)
  {
    FloorRemainder(hits * SCALE_PPM, rounds);
    Distribute(rounds, RatioPpm(hits, rounds), 1);
  }

  /** What a payout costs beyond the stake, never less than nothing. */
  predicate Beyond(net: int, payout: int, stake: int) {
    net >= 0 && net >= payout - stake && (net == 0 || net == payout - stake)
  }

  /**
   A run's report against what was drawn: the RTP is within two parts per million
   of the paid share of the stakes, the second moment behind the variance
   correspondingly, the maximum is drawn as often as stated, and every rate is rounded down.
   */
  lemma {:induction false} RealizedWithinBounds(config: Config, draws: seq<Draw>, realized: Realized)
    requires ValidConfig(config) && draws != [] && Realizes(config, draws, realized)
    ensures var seen, stake, n := Observed(config, draws), config.stakeMinor, |draws|;
            var rtp, moment := realized.rtpPpm, realized.variance + realized.rtpPpm * realized.rtpPpm;
            && stake * (n * rtp) <= SCALE_PPM * MinorSum(seen) < stake * (n * (rtp + 2))
            && stake * stake * (n * moment) <= SCALE_PPM * SCALE_PPM * MinorSquares(seen) < stake * stake * (n * (moment + 2 * rtp + 4))
            && Beyond(realized.netExposureMinor, realized.maxPayoutMinor, stake)
            && realized.maxHits == |Worth(seen, realized.maxPayoutMinor)|
            && RateOf(realized.maxHitRatePpm, realized.maxHits, n)
            && |realized.tiers| == |config.tiers|
            && forall t :: 0 <= t < |config.tiers| ==> RateOf(realized.tiers[t].hitRatePpm, realized.tiers[t].hits, n)
  {
    var seen, stake, n := Observed(config, draws), config.stakeMinor, |draws|;
    forall p | 0 <= p < |draws| ensures 0 <= seen[p].minor {
      ObservedAreConfigured(config, draws, p);
    }
    hide Greatest, ReportsOwners, Observed, TotalReturn, TotalSquares, MinorSum, MinorSquares, Hits, RatioPpm, IdsWith, Worth, RateOf;
    ReturnsBounds(seen, stake);
    SquaresBounds(seen, stake);
    MeanBounds(stake, n, TotalReturn(seen, stake), MinorSum(seen), realized.rtpPpm);
    MomentBounds(stake, n, TotalReturn(seen, stake), TotalSquares(seen, stake), MinorSquares(seen), realized.rtpPpm,
                 realized.variance + realized.rtpPpm * realized.rtpPpm);
    IdsWithCount(seen, realized.maxPayoutMinor);
    RatioIsRate(realized.maxHits, n);
    forall t | 0 <= t < |config.tiers| ensures RateOf(realized.tiers[t].hitRatePpm, realized.tiers[t].hits, n) {
      RatioIsRate(Hits(config, draws)[t], n);
    }
  }

  // ---------------------------------------------------------------- declared figures

  /** The share of a tier, exactly: its probability times the mean of an amount over its payouts. */
  ghost function ExactShare(tier: Tier, amount: int): real
    requires |tier.payouts| > 0
  {
    (tier.probabilityPpm * amount) as real / |tier.payouts| as real
  }

  /** A million times the expected payout, in minor units. */
  ghost function ExpectedMinor(tiers: seq<Tier>, n: nat): real
    requires n <= |tiers| && NonEmptyTiers(tiers)
  {
    if n == 0 then 0.0 else ExpectedMinor(tiers, n - 1) + ExactShare(tiers[n - 1], MinorSum(tiers[n - 1].payouts))
  }

  /** A million times the expected squared payout. */
  ghost function ExpectedSquares(tiers: seq<Tier>, n: nat): real
    requires n <= |tiers| && NonEmptyTiers(tiers)
  {
    if n == 0 then 0.0 else ExpectedSquares(tiers, n - 1) + ExactShare(tiers[n - 1], MinorSquares(tiers[n - 1].payouts))
  }

  /** A million times the probability of a payout worth exactly `minor`. */
  ghost function Odds(tiers: seq<Tier>, minor: int, n: nat): real
    requires n <= |tiers| && NonEmptyTiers(tiers)
  {
    if n == 0 then 0.0 else Odds(tiers, minor, n - 1) + ExactShare(tiers[n - 1], |Worth(tiers[n - 1].payouts, minor)|)
  }

  lemma ShareBounds(tier: Tier, amount: int)
    requires ValidTier(tier)
    ensures Share(tier, amount) as real <= ExactShare(tier, amount) < (Share(tier, amount) + 1) as real
  {
    var a, c := tier.probabilityPpm * amount, |tier.payouts|;
    FloorRemainder(a, c);
    RealQuotient(a, c, a / c);
  }

  lemma RealQuotient(a: int, c: int, q: int)
    requires c > 0 && a - c + 1 <= c * q <= a
    ensures q as real <= a as real / c as real < (q + 1) as real
  {
    var x := a as real / c as real;
    assert x * c as real == a as real;
    assert (c * q) as real == c as real * q as real;
    assert (c * (q + 1)) as real == c as real * (q + 1) as real;
    assert c * (q + 1) > a;
  }

  /** Products by name, so that a proof about several of them stays linear. */
  ghost function Mul(k: int, a: int): int {
    k * a
  }

  ghost function Times(k: int, x: real): real {
    k as real * x
  }

  lemma TimesAdds(k: int, a: real, b: real)
    ensures Times(k, a + b) == Times(k, a) + Times(k, b)
  {
  }

  lemma TimesMonotone(k: int, a: real, b: real)
    requires k > 0
    ensures a <= b ==> Times(k, a) <= Times(k, b)
    ensures a < b ==> Times(k, a) < Times(k, b)
  {
  }

  /** Exact shares are linear, grow with their amount, and of the payout count itself are the tier's probability. */
  lemma ExactShareScales(tier: Tier, k: int, amount: int)
    requires ValidTier(tier)
    ensures ExactShare(tier, Mul(k, amount)) == Times(k, ExactShare(tier, amount))
  {
    var p, c := tier.probabilityPpm, |tier.payouts|;
    Commute(p, k, amount);
    RealScale(k, p * amount, c);
  }

  lemma RealScale(k: int, a: int, c: int)
    requires c > 0
    ensures (k * a) as real / c as real == k as real * (a as real / c as real)
  {
    var x := a as real / c as real;
    assert x * c as real == a as real;
    assert (k * a) as real == k as real * a as real == (k as real * x) * c as real;
  }

  lemma ExactShareAdds(tier: Tier, a: int, b: int)
    requires ValidTier(tier)
    ensures ExactShare(tier, a + b) == ExactShare(tier, a) + ExactShare(tier, b)
  {
    var p, c := tier.probabilityPpm, |tier.payouts|;
    Distribute(p, a, b);
    RealAdd(p * a, p * b, c);
  }

  lemma ExactShareOfCount(tier: Tier)
    requires ValidTier(tier)
    ensures ExactShare(tier, |tier.payouts|) == tier.probabilityPpm as real
  {
    var p, c := tier.probabilityPpm, |tier.payouts|;
    RealScale(p, c, c);
  }

  lemma RealAdd(a: int, b: int, c: int)
    requires c > 0
    ensures (a + b) as real / c as real == a as real / c as real + b as real / c as real
  {
    var x, y := a as real / c as real, b as real / c as real;
    assert (a + b) as real == a as real + b as real == (x + y) * c as real;
  }

  lemma ExactShareMonotone(tier: Tier, a: int, b: int)
    requires ValidTier(tier) && a <= b
    ensures ExactShare(tier, a) <= ExactShare(tier, b)
  {
    var p, c := tier.probabilityPpm, |tier.payouts|;
    Scale(p, a, b);
    RealMonotone(p * a, p * b, c);
  }

  lemma RealMonotone(a: int, b: int, c: int)
    requires c > 0 && a <= b
    ensures a as real / c as real <= b as real / c as real
  {
    var x, y := a as real / c as real, b as real / c as real;
    assert x * c as real == a as real && y * c as real == b as real;
  }

  /** Amounts between two multiples have shares between the same multiples. */
  lemma SharesBetween(tier: Tier, k: int, low: int, m: int, amount: int, high: int)
    requires ValidTier(tier) && k > 0
    requires Mul(k, low) <= Mul(m, amount) <= Mul(k, high)
    ensures Times(k, ExactShare(tier, low)) <= Times(m, ExactShare(tier, amount)) <= Times(k, ExactShare(tier, high))
  {
    hide ExactShare, Mul, Times;
    ExactShareMonotone(tier, Mul(k, low), Mul(m, amount));
    ExactShareMonotone(tier, Mul(m, amount), Mul(k, high));
    ExactShareScales(tier, k, low);
    ExactShareScales(tier, m, amount);
    ExactShareScales(tier, k, high);
  }

  lemma ReturnsBetween(payouts: seq<Payout>, stake: int)
    requires stake > 0 && AllNonNegative(payouts)
    ensures var total := TotalReturn(payouts, stake);
            Mul(stake, total) <= Mul(SCALE_PPM, MinorSum(payouts)) <= Mul(stake, total + |payouts|)
  {
    ReturnsBounds(payouts, stake);
    Distribute(stake, TotalReturn(payouts, stake), |payouts|);
    Distribute(|payouts|, stake, -1);
  }

  lemma SquaresBetween(payouts: seq<Payout>, stake: int)
    requires stake > 0 && AllNonNegative(payouts)
    ensures var total, squares := TotalReturn(payouts, stake), TotalSquares(payouts, stake);
            Mul(stake * stake, squares) <= Mul(SCALE_PPM * SCALE_PPM, MinorSquares(payouts)) <= Mul(stake * stake, squares + 2 * total + |payouts|)
  {
    SquaresBounds(payouts, stake);
  }

  /** One tier's floored share of the returns against its share of the amounts. */
  lemma TierReturnBounds(tier: Tier, stake: int)
    requires ValidTier(tier) && stake > 0
    ensures var share, exact := Share(tier, TotalReturn(tier.payouts, stake)), ExactShare(tier, MinorSum(tier.payouts));
            && Times(stake, share as real) <= Times(SCALE_PPM, exact)
            && Times(SCALE_PPM, exact) < Times(stake, (share + 1 + tier.probabilityPpm) as real)
  {
    var total, amount, c := TotalReturn(tier.payouts, stake), MinorSum(tier.payouts), |tier.payouts|;
    hide TotalReturn, MinorSum, ExactShare, Share, Mul, Times;
    ReturnsBetween(tier.payouts, stake);
    SharesBetween(tier, stake, total, SCALE_PPM, amount, total + c);
    ExactShareAdds(tier, total, c);
    ExactShareOfCount(tier);
    ShareBounds(tier, total);
    TimesMonotone(stake, Share(tier, total) as real, ExactShare(tier, total));
    TimesMonotone(stake, ExactShare(tier, total + c), (Share(tier, total) + 1 + tier.probabilityPpm) as real);
  }

  lemma Doubled(tier: Tier, a: int)
    requires ValidTier(tier)
    ensures ExactShare(tier, 2 * a) == ExactShare(tier, a) + ExactShare(tier, a)
  {
    ExactShareAdds(tier, a, a);
  }

  lemma TierSquareBounds(tier: Tier, stake: int)
    requires ValidTier(tier) && stake > 0
    ensures var shared, squared := Share(tier, TotalReturn(tier.payouts, stake)), Share(tier, TotalSquares(tier.payouts, stake));
            var exact := ExactShare(tier, MinorSquares(tier.payouts));
            && Times(stake * stake, squared as real) <= Times(SCALE_PPM * SCALE_PPM, exact)
            && Times(SCALE_PPM * SCALE_PPM, exact) < Times(stake * stake, (squared + 2 * shared + 3 + tier.probabilityPpm) as real)
  {
    var total, squares, amounts, c := TotalReturn(tier.payouts, stake), TotalSquares(tier.payouts, stake), MinorSquares(tier.payouts), |tier.payouts|;
    var ss := stake * stake;
    assert ss > 0;
    hide TotalReturn, TotalSquares, MinorSquares, ExactShare, Share, Mul, Times;
    SquaresBetween(tier.payouts, stake);
    SharesBetween(tier, ss, squares, SCALE_PPM * SCALE_PPM, amounts, squares + 2 * total + c);
    Doubled(tier, total);
    ExactShareAdds(tier, squares + 2 * total, c);
    ExactShareAdds(tier, squares, 2 * total);
    ExactShareOfCount(tier);
    ShareBounds(tier, total);
    ShareBounds(tier, squares);
    TimesMonotone(ss, Share(tier, squares) as real, ExactShare(tier, squares));
    TimesMonotone(ss, ExactShare(tier, squares + 2 * total + c), (Share(tier, squares) + 2 * Share(tier, total) + 3 + tier.probabilityPpm) as real);
  }

  lemma {:induction false} WeightedBounds(tiers: seq<Tier>, stake: int, n: nat)
    requires n <= |tiers| && stake > 0 && NonEmptyTiers(tiers)
    ensures Times(stake, Weighted(tiers, stake, n) as real) <= Times(SCALE_PPM, ExpectedMinor(tiers, n))
    ensures Times(SCALE_PPM, ExpectedMinor(tiers, n)) <= Times(stake, (Weighted(tiers, stake, n) + n + CumulativePpm(tiers, n)) as real)
  {
    if n > 0 {
      var tier := tiers[n - 1];
      var share, before := Share(tier, TotalReturn(tier.payouts, stake)), Weighted(tiers, stake, n - 1);
      hide Share, ExactShare, TotalReturn, MinorSum, Times;
      WeightedBounds(tiers, stake, n - 1);
      TierReturnBounds(tier, stake);
      TimesAdds(stake, before as real, share as real);
      TimesAdds(SCALE_PPM, ExpectedMinor(tiers, n - 1), ExactShare(tier, MinorSum(tier.payouts)));
      TimesAdds(stake, (before + n - 1 + CumulativePpm(tiers, n - 1)) as real, (share + 1 + tier.probabilityPpm) as real);
    }
  }

  lemma {:induction false} WeightedSquaresBounds(tiers: seq<Tier>, stake: int, ss: int, n: nat)
    requires n <= |tiers| && stake > 0 && ss == stake * stake && NonEmptyTiers(tiers)
    ensures Times(ss, WeightedSquares(tiers, stake, n) as real) <= Times(SCALE_PPM * SCALE_PPM, ExpectedSquares(tiers, n))
    ensures Times(SCALE_PPM * SCALE_PPM, ExpectedSquares(tiers, n))
            <= Times(ss, (WeightedSquares(tiers, stake, n) + 2 * Weighted(tiers, stake, n) + 3 * n + CumulativePpm(tiers, n)) as real)
  {
    if n > 0 {
      var tier := tiers[n - 1];
      var kk := SCALE_PPM * SCALE_PPM;
      var shared, squared := Share(tier, TotalReturn(tier.payouts, stake)), Share(tier, TotalSquares(tier.payouts, stake));
      var before, squares := Weighted(tiers, stake, n - 1), WeightedSquares(tiers, stake, n - 1);
      hide Share, ExactShare, TotalReturn, TotalSquares, MinorSquares, Times;
      WeightedSquaresBounds(tiers, stake, ss, n - 1);
      TierSquareBounds(tier, stake);
      TimesAdds(ss, squares as real, squared as real);
      TimesAdds(kk, ExpectedSquares(tiers, n - 1), ExactShare(tier, MinorSquares(tier.payouts)));
      TimesAdds(ss, (squares + 2 * before + 3 * (n - 1) + CumulativePpm(tiers, n - 1)) as real,
                (squared + 2 * shared + 3 + tier.probabilityPpm) as real);
    }
  }

  lemma {:induction false} OddsBounds(tiers: seq<Tier>, minor: int, n: nat)
    requires n <= |tiers| && NonEmptyTiers(tiers)
    ensures ProbabilityOf(tiers, minor, n) as real <= Odds(tiers, minor, n) <= (ProbabilityOf(tiers, minor, n) + n) as real
  {
    if n > 0 {
      OddsBounds(tiers, minor, n - 1);
      IdsWithCount(tiers[n - 1].payouts, minor);
      ShareBounds(tiers[n - 1], |IdsWith(tiers[n - 1].payouts, minor)|);
      hide Share, ExactShare, IdsWith, Worth;
    }
  }

  /** From a weighted sum to the published floor: `slack` is what the sum and its tiers may have lost. */
  lemma PublishedBounds(k: int, sum: int, slack: int, scaled: real, published: int)
    requires k > 0 && published == sum / SCALE_PPM
    requires Times(k, sum as real) <= scaled <= Times(k, (sum + slack) as real)
    ensures Times(k, (SCALE_PPM * published) as real) <= scaled < Times(k, (SCALE_PPM * (published + 1) + slack) as real)
  {
    FloorRemainder(sum, SCALE_PPM);
    hide Times;
    TimesMonotone(k, (SCALE_PPM * published) as real, sum as real);
    TimesMonotone(k, (sum + slack) as real, (SCALE_PPM * (published + 1) + slack) as real);
  }

  lemma TimesInt(k: int, a: int)
    ensures Times(k, a as real) == (k * a) as real
  {
  }

  lemma ScaleOut(k: int, a: int)
    ensures Times(k, (SCALE_PPM * a) as real) == SCALE_PPM as real * (k * a) as real
  {
    Commute(SCALE_PPM, k, a);
    assert k * (SCALE_PPM * a) == SCALE_PPM * (k * a);
  }

  lemma DeclaredMean(stake: int, weighted: int, n: nat, expected: real, rtp: int)
    requires stake > 0 && rtp == weighted / SCALE_PPM
    requires Times(stake, weighted as real) <= Times(SCALE_PPM, expected) <= Times(stake, (weighted + n + SCALE_PPM) as real)
    ensures (stake * rtp) as real <= expected < (stake * (rtp + 2)) as real + (stake * n) as real / SCALE_PPM as real
  {
    PublishedBounds(stake, weighted, n + SCALE_PPM, Times(SCALE_PPM, expected), rtp);
    ScaleOut(stake, rtp);
    ScaleOut(stake, rtp + 2);
    TimesAdds(stake, (SCALE_PPM * (rtp + 2)) as real, n as real);
    TimesInt(stake, n);
    var low, high, rest := (stake * rtp) as real, (stake * (rtp + 2)) as real, (stake * n) as real;
    assert Times(SCALE_PPM, expected) == SCALE_PPM as real * expected;
    hide Times;
    assert (SCALE_PPM * (rtp + 1) + (n + SCALE_PPM)) as real == (SCALE_PPM * (rtp + 2)) as real + n as real;
    ByScale(low, expected, high, rest);
  }

  lemma ByScale(low: real, x: real, high: real, rest: real)
    requires SCALE_PPM as real * low <= SCALE_PPM as real * x < SCALE_PPM as real * high + rest
    ensures low <= x < high + rest / SCALE_PPM as real
  {
  }

  /** For the second moment the expectation is itself scaled once more. */
  lemma DeclaredMoment(ss: int, weighted: int, squares: int, n: nat, expected: real, rtp: int, moment: int)
    requires ss > 0 && rtp == weighted / SCALE_PPM && moment == squares / SCALE_PPM
    requires Times(ss, squares as real) <= Times(SCALE_PPM * SCALE_PPM, expected)
             <= Times(ss, (squares + 2 * weighted + 3 * n + SCALE_PPM) as real)
    ensures (ss * moment) as real <= SCALE_PPM as real * expected
            < (ss * (moment + 2 * rtp + 4)) as real + (ss * (3 * n)) as real / SCALE_PPM as real
  {
    FloorRemainder(weighted, SCALE_PPM);
    var slack := 2 * weighted + 3 * n + SCALE_PPM;
    var top := SCALE_PPM * (moment + 2 * rtp + 4);
    PublishedBounds(ss, squares, slack, Times(SCALE_PPM * SCALE_PPM, expected), moment);
    TimesMonotone(ss, (SCALE_PPM * (moment + 1) + slack) as real, (top + 3 * n) as real);
    ScaleOut(ss, moment);
    ScaleOut(ss, moment + 2 * rtp + 4);
    TimesAdds(ss, top as real, (3 * n) as real);
    TimesInt(ss, 3 * n);
    assert Times(SCALE_PPM * SCALE_PPM, expected) == SCALE_PPM as real * (SCALE_PPM as real * expected);
    var low, high, rest := (ss * moment) as real, (ss * (moment + 2 * rtp + 4)) as real, (ss * (3 * n)) as real;
    hide Times;
    assert (top + 3 * n) as real == top as real + (3 * n) as real;
    ByScale(low, SCALE_PPM as real * expected, high, rest);
  }

  /** The published declared figures between their bounds. */
  ghost predicate DeclaredBounds(config: Config, declared: Declared)
    requires ValidConfig(config)
  {
    var tiers, stake, n := config.tiers, config.stakeMinor, |config.tiers|;
    var rtp, moment := declared.rtpPpm, declared.variance + declared.rtpPpm * declared.rtpPpm;
    var expected, squared := ExpectedMinor(tiers, n), ExpectedSquares(tiers, n);
    && (stake * rtp) as real <= expected < (stake * (rtp + 2)) as real + (stake * n) as real / 1000000.0
    && (stake * stake * moment) as real <= 1000000.0 * squared
    && 1000000.0 * squared < (stake * stake * (moment + 2 * rtp + 4)) as real + (stake * stake * (3 * n)) as real / 1000000.0
    && Beyond(declared.netExposureMinor, declared.maxPayoutMinor, stake)
    && declared.maxHitRatePpm as real <= Odds(tiers, declared.maxPayoutMinor, n) <= (declared.maxHitRatePpm + n) as real
  }

  /**
   The declared figures against the exact expectations over tiers and payouts:
   the RTP loses less than two parts per million and a millionth per tier, the
   second moment correspondingly, and the odds of the maximum at most one part per tier.
   */
  lemma {:induction false} DeclaredWithinBounds(config: Config, declared: Declared)
    requires ValidConfig(config) && Declares(config, declared)
    ensures DeclaredBounds(config, declared)
  {
    var tiers, stake, n := config.tiers, config.stakeMinor, |config.tiers|;
    var ss := stake * stake;
    assert ss > 0;
    var weighted, squares := Weighted(tiers, stake, n), WeightedSquares(tiers, stake, n);
    var moment := declared.variance + declared.rtpPpm * declared.rtpPpm;
    assert declared.rtpPpm == weighted / SCALE_PPM && moment == squares / SCALE_PPM
           && declared.maxHitRatePpm == ProbabilityOf(tiers, declared.maxPayoutMinor, n)
           && Beyond(declared.netExposureMinor, declared.maxPayoutMinor, stake);
    hide Declares, Weighted, WeightedSquares, ExpectedMinor, ExpectedSquares, Odds, ProbabilityOf, Times;
    WeightedBounds(tiers, stake, n);
    WeightedSquaresBounds(tiers, stake, ss, n);
    OddsBounds(tiers, declared.maxPayoutMinor, n);
    DeclaredMean(stake, weighted, n, ExpectedMinor(tiers, n), declared.rtpPpm);
    DeclaredMoment(ss, weighted, squares, n, ExpectedSquares(tiers, n), declared.rtpPpm, moment);
  }

  // ---------------------------------------------------------------- the payout word

  ghost function Residues(n: nat, count: int, p: int): set<int>
    requires count > 0
  {
    set w: int | 0 <= w < n && w % count == p
  }

  lemma QuotientStep(w: nat, count: int)
    requires count > 0
    ensures if w % count == count - 1 then (w + 1) / count == w / count + 1 && (w + 1) % count == 0
            else (w + 1) / count == w / count && (w + 1) % count == w % count + 1
  {
    var q, r := w / count, w % count;
    assert w + 1 == count * q + (r + 1);
    if r == count - 1 {
      assert w + 1 == count * (q + 1);
      QuotientIs(w + 1, count, q + 1, 0);
    } else {
      QuotientIs(w + 1, count, q, r + 1);
    }
  }

  lemma QuotientIs(a: int, count: int, q: int, r: int)
    requires count > 0 && a == count * q + r && 0 <= r < count
    ensures a / count == q && a % count == r
  {
    var d := a / count - q;
    assert count * (a / count) == count * q + count * d;
    assert count * d == r - a % count;
    assert d >= 1 ==> count * d >= count;
    assert d <= -1 ==> count * d <= -count;
  }

  /** Each residue occurs once in every whole cycle, and once more in the part of a cycle that reaches it. */
  function Occurrences(n: nat, count: int, p: int): int
    requires count > 0
  {
    n / count + (if p < n % count then 1 else 0)
  }

  lemma NextOccurrence(w: nat, count: int, p: int)
    requires 0 <= p < count
    ensures Occurrences(w + 1, count, p) == Occurrences(w, count, p) + (if w % count == p then 1 else 0)
  {
    QuotientStep(w, count);
  }

  lemma NextResidue(w: nat, count: int, p: int)
    requires 0 <= p < count
    ensures |Residues(w + 1, count, p)| == |Residues(w, count, p)| + (if w % count == p then 1 else 0)
  {
    var before, added := Residues(w, count, p), if w % count == p then {w} else {};
    assert Residues(w + 1, count, p) == before + added;
    assert before !! added;
  }

  lemma {:induction false} ResidueCount(n: nat, count: int, p: int)
    requires 0 <= p < count
    ensures |Residues(n, count, p)| == Occurrences(n, count, p)
  {
    if n == 0 {
      assert Residues(0, count, p) == {};
      FirstOccurrence(count, p);
    } else {
      hide Residues, Occurrences;
      ResidueCount(n - 1, count, p);
      NextOccurrence(n - 1, count, p);
      NextResidue(n - 1, count, p);
    }
  }

  lemma FirstOccurrence(count: int, p: int)
    requires 0 <= p < count
    ensures Occurrences(0, count, p) == 0
  {
    QuotientIs(0, count, 0, 0);
  }

  lemma {:induction false} EarlierIdListed(tiers: seq<Tier>, t: nat, a: nat, j: nat)
    requires t < |tiers| && a < j <= |tiers[t].payouts|
    ensures tiers[t].payouts[a].id in PayoutIds(tiers, t, j)
  {
    if a < j - 1 {
      EarlierIdListed(tiers, t, a, j - 1);
    }
  }

  lemma PayoutsDiffer(config: Config, t: nat, a: nat, b: nat)
    requires ValidConfig(config) && t < |config.tiers| && a < |config.tiers[t].payouts| && b < |config.tiers[t].payouts|
    ensures config.tiers[t].payouts[a] == config.tiers[t].payouts[b] <==> a == b
  {
    var lo, hi := if a < b then a else b, if a < b then b else a;
    if lo < hi && config.tiers[t].payouts[a] == config.tiers[t].payouts[b] {
      EarlierIdListed(config.tiers, t, lo, hi);
      RepeatedId(config.tiers, t, hi);
    }
  }

  /** Whatever tier was selected, each of its payouts is drawn by its even share of the 32-bit words, to within one word. */
  lemma {:induction false} PayoutShareIsEven(config: Config, tierWord: nat, p: nat)
    requires ValidConfig(config)
    ensures TierFor(config, tierWord) < |config.tiers|
    ensures var tier := config.tiers[TierFor(config, tierWord)];
            p < |tier.payouts| ==>
              var words := set w: int | 0 <= w < 0x1_0000_0000 && PayoutFor(config, Draw(tierWord, w)) == tier.payouts[p];
              0x1_0000_0000 / |tier.payouts| <= |words| <= 0x1_0000_0000 / |tier.payouts| + 1
  {
    TierSelectionIsPartition(config, tierWord, 0);
    var t := TierFor(config, tierWord);
    var tier := config.tiers[t];
    assert ValidTier(tier);
    if p < |tier.payouts| {
      var words := set w: int | 0 <= w < 0x1_0000_0000 && PayoutFor(config, Draw(tierWord, w)) == tier.payouts[p];
      forall w: int | 0 <= w < 0x1_0000_0000 ensures w in words <==> w % |tier.payouts| == p {
        PayoutsDiffer(config, t, w % |tier.payouts|, p);
      }
      assert words == Residues(0x1_0000_0000, |tier.payouts|, p);
      ResidueCount(0x1_0000_0000, |tier.payouts|, p);
    }
  }
}
