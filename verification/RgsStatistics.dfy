/**
 The integer statistics of a simulation run (packages/rgs-simulator/src/simulator.ts).
 The hash-derived entropy words are inputs; everything computed from them is here.
 */
module RgsStatistics {
  import opened Ordering
  import opened RgsConfig

  // ---------------------------------------------------------------- tier selection

  /** The first tier at or after `from` whose cumulative bound exceeds the roll. */
  function TierFrom(tiers: seq<Tier>, roll: int, from: nat): (found: nat)
    requires from <= |tiers|
    ensures from <= found <= |tiers|
    decreases |tiers| - from
  {
    if from == |tiers| || roll < CumulativePpm(tiers, from + 1) then from else TierFrom(tiers, roll, from + 1)
  }

  function TierFor(config: Config, word: nat): nat {
    TierFrom(config.tiers, word % SCALE_PPM, 0)
  }

  lemma {:induction false} CumulativeMonotone(tiers: seq<Tier>, i: nat, j: nat)
    requires i <= j <= |tiers|
    requires forall t :: 0 <= t < |tiers| ==> ValidTier(tiers[t])
    ensures CumulativePpm(tiers, i) <= CumulativePpm(tiers, j)
    ensures i < j ==> CumulativePpm(tiers, i) < CumulativePpm(tiers, j)
  {
    if i < j {
      CumulativeMonotone(tiers, i, j - 1);
    }
  }

  lemma {:induction false} TierFromBounds(tiers: seq<Tier>, roll: int, from: nat)
    requires from <= |tiers| && CumulativePpm(tiers, from) <= roll
    ensures var t := TierFrom(tiers, roll, from);
            CumulativePpm(tiers, t) <= roll && (t < |tiers| ==> roll < CumulativePpm(tiers, t + 1))
    decreases |tiers| - from
  {
    if from < |tiers| && roll >= CumulativePpm(tiers, from + 1) {
      TierFromBounds(tiers, roll, from + 1);
    }
  }

  /** Every word selects a tier, and tier `t` exactly the residues of its own interval. */
  lemma TierSelectionIsPartition(config: Config, word: nat, t: nat)
    requires ValidConfig(config) && t < |config.tiers|
    ensures TierFor(config, word) < |config.tiers|
    ensures TierFor(config, word) == t
            <==> CumulativePpm(config.tiers, t) <= word % SCALE_PPM < CumulativePpm(config.tiers, t + 1)
  {
    var tiers, roll := config.tiers, word % SCALE_PPM;
    TierFromBounds(tiers, roll, 0);
    var found := TierFrom(tiers, roll, 0);
    if found < t {
      CumulativeMonotone(tiers, found + 1, t);
    } else if t < found {
      CumulativeMonotone(tiers, t + 1, found);
    }
  }

  method SelectTier(config: Config, word: nat) returns (index: nat)
    requires ValidConfig(config)
    ensures index < |config.tiers| && index == TierFor(config, word)
    ensures CumulativePpm(config.tiers, index) <= word % SCALE_PPM < CumulativePpm(config.tiers, index + 1)
  {
    TierSelectionIsPartition(config, word, 0);
    TierFromBounds(config.tiers, word % SCALE_PPM, 0);
    var roll := word % SCALE_PPM;
    var upperBound := 0;
    index := 0;
    while index < |config.tiers|
      invariant index <= |config.tiers|
      invariant upperBound == CumulativePpm(config.tiers, index)
      invariant TierFrom(config.tiers, roll, 0) == TierFrom(config.tiers, roll, index)
    {
      upperBound := upperBound + config.tiers[index].probabilityPpm;
      if roll < upperBound {
        return;
      }
      index := index + 1;
    }
    assert false;
  }

  /** The words below `n` whose residue lies in [lo, hi). */
  ghost function WordsIn(n: nat, lo: int, hi: int): set<int> {
    set w: int | 0 <= w < n && lo <= w % SCALE_PPM < hi
  }

  function Overlap(r: int, lo: int, hi: int): int {
    if r <= lo then 0 else if r <= hi then r - lo else hi - lo
  }

  /** How many of the first `n` words are counted, in closed form. */
  function WordCount(n: nat, lo: int, hi: int): int {
    n / SCALE_PPM * (hi - lo) + Overlap(n % SCALE_PPM, lo, hi)
  }

  lemma {:induction false} WordCountStep(w: nat, lo: int, hi: int)
    requires 0 <= lo <= hi <= SCALE_PPM
    ensures WordCount(w + 1, lo, hi) == WordCount(w, lo, hi) + (if lo <= w % SCALE_PPM < hi then 1 else 0)
  {
    var q, r := w / SCALE_PPM, w % SCALE_PPM;
    if r == SCALE_PPM - 1 {
      assert (w + 1) / SCALE_PPM == q + 1 && (w + 1) % SCALE_PPM == 0;
      assert (q + 1) * (hi - lo) == q * (hi - lo) + (hi - lo);
    } else {
      assert (w + 1) / SCALE_PPM == q && (w + 1) % SCALE_PPM == r + 1;
    }
  }

  lemma {:induction false} CountWords(n: nat, lo: int, hi: int)
    requires 0 <= lo <= hi <= SCALE_PPM
    ensures |WordsIn(n, lo, hi)| == WordCount(n, lo, hi)
  {
    if n == 0 {
      assert WordsIn(0, lo, hi) == {};
    } else {
      hide WordCount;
      var w := n - 1;
      CountWords(w, lo, hi);
      WordCountStep(w, lo, hi);
      NextWord(w, lo, hi);
    }
  }

  lemma NextWord(w: nat, lo: int, hi: int)
    ensures |WordsIn(w + 1, lo, hi)| == |WordsIn(w, lo, hi)| + (if lo <= w % SCALE_PPM < hi then 1 else 0)
  {
    var before := WordsIn(w, lo, hi);
    var counted := if lo <= w % SCALE_PPM < hi then {w} else {};
    assert WordsIn(w + 1, lo, hi) == before + counted;
    assert before !! counted;
  }

  /**
   Tier `t` owns exactly its declared parts per million of the residues, and
   between 4294 and 4295 times that many of the 32-bit words.
   */
  lemma TierShareIsExact(config: Config, t: nat)
    requires ValidConfig(config) && t < |config.tiers|
    ensures var p := config.tiers[t].probabilityPpm;
            && |set w: int | 0 <= w < SCALE_PPM && TierFor(config, w) == t| == p
            && 4294 * p <= |set w: int | 0 <= w < 0x1_0000_0000 && TierFor(config, w) == t| <= 4295 * p
  {
    var lo, hi := CumulativePpm(config.tiers, t), CumulativePpm(config.tiers, t + 1);
    CumulativeMonotone(config.tiers, 0, t);
    CumulativeMonotone(config.tiers, t + 1, |config.tiers|);
    forall w: nat ensures TierFor(config, w) == t <==> lo <= w % SCALE_PPM < hi {
      TierSelectionIsPartition(config, w, t);
    }
    assert (set w: int | 0 <= w < SCALE_PPM && TierFor(config, w) == t) == WordsIn(SCALE_PPM, lo, hi);
    assert (set w: int | 0 <= w < 0x1_0000_0000 && TierFor(config, w) == t) == WordsIn(0x1_0000_0000, lo, hi);
    CountWords(SCALE_PPM, lo, hi);
    CountWords(0x1_0000_0000, lo, hi);
  }

  // ---------------------------------------------------------------- moments

  function ReturnPpm(payout: Payout, stake: int): int
    requires stake > 0
  {
    payout.minor * SCALE_PPM / stake
  }

  function TotalReturn(payouts: seq<Payout>, stake: int): int
    requires stake > 0
  {
    if payouts == [] then 0
    else TotalReturn(payouts[..|payouts| - 1], stake) + ReturnPpm(payouts[|payouts| - 1], stake)
  }

  function TotalSquares(payouts: seq<Payout>, stake: int): int
    requires stake > 0
  {
    if payouts == [] then 0
    else
      var x := ReturnPpm(payouts[|payouts| - 1], stake);
      TotalSquares(payouts[..|payouts| - 1], stake) + x * x
  }

  lemma TangentLine(x: int, m: int)
    ensures x * x >= 2 * m * x - m * m
  {
    assert (x - m) * (x - m) >= 0;
  }

  lemma {:induction false} SquaresAboveTangent(payouts: seq<Payout>, stake: int, m: int)
    requires stake > 0
    ensures TotalSquares(payouts, stake) >= 2 * m * TotalReturn(payouts, stake) - |payouts| * (m * m)
  {
    if payouts != [] {
      var init, x := payouts[..|payouts| - 1], ReturnPpm(payouts[|payouts| - 1], stake);
      SquaresAboveTangent(init, stake, m);
      TangentLine(x, m);
      assert 2 * m * (TotalReturn(init, stake) + x) == 2 * m * TotalReturn(init, stake) + 2 * m * x;
      assert |payouts| * (m * m) == |init| * (m * m) + m * m;
    }
  }

  lemma {:induction false} ReturnsNonNegative(payouts: seq<Payout>, stake: int)
    requires stake > 0
    requires forall p :: 0 <= p < |payouts| ==> 0 <= payouts[p].minor
    ensures TotalReturn(payouts, stake) >= 0
  {
    if payouts != [] {
      hide ReturnPpm;
      ReturnsNonNegative(payouts[..|payouts| - 1], stake);
      ReturnNonNegative(payouts[|payouts| - 1], stake);
    }
  }

  lemma ReturnNonNegative(payout: Payout, stake: int)
    requires stake > 0 && payout.minor >= 0
    ensures ReturnPpm(payout, stake) >= 0
  {
    FloorAtLeast(payout.minor * SCALE_PPM, stake, 0);
  }

  /** A quotient is at least k when the dividend is at least k divisors. */
  lemma {:induction false} FloorAtLeast(a: int, d: int, k: int)
    requires d > 0 && a >= d * k
    ensures a / d >= k
  {
    var over := k - a / d;
    assert d * k == d * (a / d) + d * over;
    assert over >= 1 ==> d * over >= d;
  }

  /** From the tangent bound to the floored moments: the variance needs no clamp. */
  lemma {:induction false} FlooredVarianceNonNegative(squares: int, total: int, n: int, m: int)
    requires n > 0 && total >= 0 && m == total / n
    requires squares >= 2 * m * total - n * (m * m)
    ensures squares / n >= m * m
  {
    assert total >= n * m;
    assert m >= 0;
    assert 2 * m * total >= 2 * m * (n * m);
    assert 2 * m * (n * m) == 2 * (n * (m * m));
    FloorAtLeast(squares, n, m * m);
  }

  // ---------------------------------------------------------------- running maximum

  function MaxMinor(payouts: seq<Payout>): int {
    if payouts == [] then -1
    else
      var rest, last := MaxMinor(payouts[..|payouts| - 1]), payouts[|payouts| - 1].minor;
      if last > rest then last else rest
  }

  function IdsWith(payouts: seq<Payout>, minor: int): seq<string> {
    if payouts == [] then []
    else
      var rest, last := IdsWith(payouts[..|payouts| - 1], minor), payouts[|payouts| - 1];
      if last.minor == minor then rest + [last.id] else rest
  }

  /** The greatest value paid, and one that is paid. */
  ghost predicate Greatest(payouts: seq<Payout>, minor: int) {
    && (forall p :: 0 <= p < |payouts| ==> payouts[p].minor <= minor)
    && Paid(payouts, minor)
  }

  ghost predicate Paid(payouts: seq<Payout>, minor: int) {
    exists p :: 0 <= p < |payouts| && payouts[p].minor == minor
  }

  ghost predicate Pays(payouts: seq<Payout>, id: string, minor: int) {
    exists p :: 0 <= p < |payouts| && payouts[p].minor == minor && payouts[p].id == id
  }

  lemma PaysAppend(payouts: seq<Payout>, last: Payout, id: string, minor: int)
    ensures Pays(payouts + [last], id, minor) <==> Pays(payouts, id, minor) || (last.minor == minor && last.id == id)
    ensures Paid(payouts + [last], minor) <==> Paid(payouts, minor) || last.minor == minor
  {
    var all := payouts + [last];
    assert all[|payouts|] == last;
    assert forall p :: 0 <= p < |payouts| ==> all[p] == payouts[p];
  }

  /** `MaxMinor` is the greatest payout, and it is attained. */
  lemma {:induction false} MaxMinorIsGreatest(payouts: seq<Payout>)
    requires payouts != [] && forall p :: 0 <= p < |payouts| ==> 0 <= payouts[p].minor
    ensures Greatest(payouts, MaxMinor(payouts))
  {
    var init, last := payouts[..|payouts| - 1], payouts[|payouts| - 1];
    assert payouts == init + [last];
    PaysAppend(init, last, last.id, MaxMinor(payouts));
    if init == [] {
      assert MaxMinor(init) == -1;
    } else {
      MaxMinorIsGreatest(init);
    }
  }

  /** `IdsWith` lists the ids of precisely the payouts that have the given value. */
  lemma {:induction false} IdsWithAreExact(payouts: seq<Payout>, minor: int, id: string)
    ensures id in IdsWith(payouts, minor) <==> Pays(payouts, id, minor)
  {
    if payouts != [] {
      var init, last := payouts[..|payouts| - 1], payouts[|payouts| - 1];
      assert payouts == init + [last];
      IdsWithAreExact(init, minor, id);
      PaysAppend(init, last, id, minor);
    }
  }

  lemma {:induction false} NoIdsAboveMaximum(payouts: seq<Payout>, minor: int)
    requires MaxMinor(payouts) < minor
    ensures IdsWith(payouts, minor) == []
  {
    if payouts != [] {
      NoIdsAboveMaximum(payouts[..|payouts| - 1], minor);
    }
  }

  lemma AppendPayout(payouts: seq<Payout>, last: Payout, stake: int, minor: int)
    requires stake > 0
    ensures var all := payouts + [last];
            && MaxMinor(all) == (if last.minor > MaxMinor(payouts) then last.minor else MaxMinor(payouts))
            && IdsWith(all, minor)
               == (if last.minor == minor then IdsWith(payouts, minor) + [last.id] else IdsWith(payouts, minor))
            && TotalReturn(all, stake) == TotalReturn(payouts, stake) + ReturnPpm(last, stake)
            && TotalSquares(all, stake)
               == TotalSquares(payouts, stake) + ReturnPpm(last, stake) * ReturnPpm(last, stake)
  {
    assert (payouts + [last])[..|payouts|] == payouts;
  }

  function IdsOf(payouts: seq<Payout>): (ids: seq<string>)
    ensures |ids| == |payouts| && forall p :: 0 <= p < |ids| ==> ids[p] == payouts[p].id
  {
    if payouts == [] then [] else IdsOf(payouts[..|payouts| - 1]) + [payouts[|payouts| - 1].id]
  }

  lemma {:induction false} OwnersAreDistinct(payouts: seq<Payout>, minor: int)
    requires Distinct(IdsOf(payouts))
    ensures Distinct(IdsWith(payouts, minor))
  {
    if payouts != [] {
      var init, last := payouts[..|payouts| - 1], payouts[|payouts| - 1];
      var ids := IdsOf(payouts);
      forall a, b | 0 <= a < b < |init| ensures IdsOf(init)[a] != IdsOf(init)[b] {
        assert ids[a] != ids[b];
      }
      OwnersAreDistinct(init, minor);
      IdsWithAreExact(init, minor, last.id);
      assert forall p :: 0 <= p < |init| ==> init[p].id == ids[p] != last.id;
    }
  }

  // ---------------------------------------------------------------- reported ids

  /** The ids in the order they were first added, as a set keeps them. */
  function Added(ids: seq<string>): seq<string> {
    if ids == [] then []
    else
      var before, last := Added(ids[..|ids| - 1]), ids[|ids| - 1];
      if last in before then before else before + [last]
  }

  lemma {:induction false} AddedAreDistinct(ids: seq<string>)
    ensures Distinct(Added(ids)) && forall id :: id in Added(ids) <==> id in ids
  {
    if ids != [] {
      AddedAreDistinct(ids[..|ids| - 1]);
      assert ids == ids[..|ids| - 1] + [ids[|ids| - 1]];
    }
  }

  lemma AddOne(ids: seq<string>, last: string)
    ensures Added(ids + [last]) == if last in Added(ids) then Added(ids) else Added(ids) + [last]
  {
    assert (ids + [last])[..|ids|] == ids;
  }

  function SortedIds(ids: seq<string>): seq<string> {
    Sort((a: string, b: string) => TextLess(a, b), ids)
  }

  /** The ids of exactly the payouts worth `minor`, each once, in text order. */
  ghost predicate ReportsOwners(ids: seq<string>, payouts: seq<Payout>, minor: int) {
    && Increasing((a: string, b: string) => TextLess(a, b), ids)
    && forall id :: id in ids <==> Pays(payouts, id, minor)
  }

  /** There is only one such report. */
  lemma OneReport(a: seq<string>, b: seq<string>)
    requires Increasing((a: string, b: string) => TextLess(a, b), a) && Increasing((a: string, b: string) => TextLess(a, b), b)
    requires forall id :: id in a <==> id in b
    ensures a == b
  {
    TextIsStrictOrder();
    SameMembersSameOrder((a: string, b: string) => TextLess(a, b), a, b);
  }

  lemma SortedOwners(ids: seq<string>, payouts: seq<Payout>, minor: int)
    requires Distinct(ids) && forall id :: id in ids <==> Pays(payouts, id, minor)
    ensures ReportsOwners(SortedIds(ids), payouts, minor)
  {
    var less := (a: string, b: string) => TextLess(a, b);
    TextIsStrictOrder();
    SortIncreases(less, ids);
    forall id ensures id in SortedIds(ids) <==> id in ids {
      SortHas(less, ids, id);
    }
  }
}
