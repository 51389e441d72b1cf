/**
 How far the clock's rounded sums may carry it from the exact sum of its ticks:
 not at all for ticks on a fine enough grid, less than 2 to the -42 milliseconds
 a tick otherwise, and far enough to pass or miss a beat for some ticks.
 */
module ChoreographyDrift {
  import opened Support
  import opened Doubles
  import opened Choreography

  lemma PowsOf41(g: nat)
    requires g >= 41
    ensures Pow2(g) == 0x200_0000_0000 * Pow2(g - 41) && SIGNIFICAND * Pow2(g - 41) == 4096 * Pow2(g)
    ensures Divides(Pow2(g - 41), Pow2(g))
  {
    PowAdd(41, g - 41);
    Pow2Values();
    assert Steps(0x200_0000_0000, Pow2(g - 41), Pow2(g));
  }

  /** What one counted tick does: a sum of less than 4096 milliseconds is rounded, a larger one passes the end either way. */
  lemma OneMove(t: Timing, at: nat, elapsed: Elapsed)
    requires t.g >= 41 && Counts(elapsed) && at < End(t)
    ensures var s := at - EntryStart(t, at, 0) + elapsed.units;
            if s < 4096 * Pow2(t.g) then Moved(t, at, elapsed) == EntryStart(t, at, 0) + Round(s) && Ulp(s) <= Pow2(t.g - 41)
            else Moved(t, at, elapsed) >= End(t) && at + elapsed.units >= End(t)
  {
    var s := at - EntryStart(t, at, 0) + elapsed.units;
    StartsBounded(t, 0);
    PowsOf41(t.g);
    if s < 4096 * Pow2(t.g) {
      UlpDividesPow(s, t.g - 41);
    } else {
      RoundAtLeastHalf(s);
    }
  }

  // ---------------------------------------------------------------- ticks on a grid

  /** Every tick that counts is a multiple of 2 to the -41 milliseconds; whole milliseconds are. */
  ghost predicate OnGrid(g: nat, ticks: seq<Elapsed>)
    requires g >= 41
  {
    forall i :: 0 <= i < |ticks| && Counts(ticks[i]) ==> Divides(Pow2(g - 41), ticks[i].units)
  }

  lemma EntryStartOnGrid(t: Timing, at: nat, k: nat)
    requires t.g >= 41 && k <= 4 && StartAt(t, k) <= at
    ensures Divides(Pow2(t.g - 41), EntryStart(t, at, k))
    decreases 4 - k
  {
    StartsBounded(t, k);
    PowsOf41(t.g);
    DividesTransitive(Pow2(t.g - 41), Pow2(t.g), StartAt(t, k));
    if k < 4 && at >= StartAt(t, k + 1) {
      EntryStartOnGrid(t, at, k + 1);
    }
  }

  lemma GridMove(t: Timing, at: nat, elapsed: Elapsed)
    requires t.g >= 41 && Counts(elapsed) && at < End(t)
    requires Divides(Pow2(t.g - 41), at) && Divides(Pow2(t.g - 41), elapsed.units)
    ensures Divides(Pow2(t.g - 41), at + elapsed.units)
    ensures Moved(t, at, elapsed) == at + elapsed.units || (Moved(t, at, elapsed) >= End(t) && at + elapsed.units >= End(t))
  {
    var w, start := Pow2(t.g - 41), EntryStart(t, at, 0);
    var s := at - start + elapsed.units;
    OneMove(t, at, elapsed);
    EntryStartOnGrid(t, at, 0);
    DividesSum(w, at, start);
    DividesSum(w, at, elapsed.units);
    DividesSum(w, at - start, elapsed.units);
    PowsOf41(t.g);
    if s < 4096 * Pow2(t.g) {
      MultipleIsRepresentable(s, t.g - 41);
      RoundOfRepresentable(s);
    }
  }

  lemma {:induction false} GridSum(t: Timing, ticks: seq<Elapsed>)
    requires t.g >= 41 && OnGrid(t.g, ticks)
    ensures if Played(ticks) < End(t) then Accumulated(t, ticks) == Played(ticks) && Divides(Pow2(t.g - 41), Played(ticks))
            else Accumulated(t, ticks) >= End(t)
  {
    hide Moved, Divides, EntryStart;
    if ticks == [] {
      assert Divides(Pow2(t.g - 41), 0) by { ZeroOnGrid(t.g); }
    } else {
      var init, last := ticks[..|ticks| - 1], ticks[|ticks| - 1];
      assert OnGrid(t.g, init) by { assert forall i :: 0 <= i < |init| ==> init[i] == ticks[i]; }
      GridSum(t, init);
      if !Counts(last) || End(t) <= Accumulated(t, init) {
        UncountedStays(t, Accumulated(t, init), last);
      } else {
        GridMove(t, Accumulated(t, init), last);
      }
    }
  }

  lemma ZeroOnGrid(g: nat)
    requires g >= 41
    ensures Divides(Pow2(g - 41), 0)
  {
    assert Steps(0, Pow2(g - 41), 0);
  }

  lemma PastEndIsSettled(t: Timing, at: nat)
    requires End(t) <= at
    ensures StateAt(t, at, 0) == SettledState(t.rarity)
  {
    StateAtReadsTimeline(t, at, 0, 4);
  }

  /** Ticks on the grid lose nothing: the clock ends where the timeline puts their exact sum, however it is split. */
  lemma {:induction false} GridTicksAreExact(t: Timing, ticks: seq<Elapsed>)
    requires t.g >= 41 && OnGrid(t.g, ticks)
    ensures StateAt(t, Accumulated(t, ticks), 0) == StateAt(t, Played(ticks), 0)
    ensures End(t) <= Accumulated(t, ticks) <==> End(t) <= Played(ticks)
  {
    GridSum(t, ticks);
    if End(t) <= Played(ticks) {
      PastEndIsSettled(t, Played(ticks));
      PastEndIsSettled(t, Accumulated(t, ticks));
    }
  }

  /** Frame times: two representable clock readings of at least 2048 milliseconds differ by a multiple of the grid. */
  lemma FrameTicksAreOnGrid(g: nat, before: nat, after: nat)
    requires g >= 41 && 2048 * Pow2(g) <= before <= after && Representable(before) && Representable(after)
    ensures Divides(Pow2(g - 41), after - before)
  {
    PowsOf41(g);
    UlpInRange(2048 * Pow2(g), g - 41);
    UlpDivides(2048 * Pow2(g), before);
    UlpDivides(2048 * Pow2(g), after);
    DividesTransitive(Pow2(g - 41), Ulp(before), before);
    DividesTransitive(Pow2(g - 41), Ulp(after), after);
    DividesSum(Pow2(g - 41), after, before);
  }

  /** One counted tick before the end is exact if and only if the sum within the beat is representable. */
  lemma MoveIsExactly(t: Timing, at: nat, elapsed: Elapsed)
    requires Counts(elapsed) && at < End(t)
    ensures Moved(t, at, elapsed) == at + elapsed.units <==> Representable(at - EntryStart(t, at, 0) + elapsed.units)
  {
    var s := at - EntryStart(t, at, 0) + elapsed.units;
    if Representable(s) {
      RoundOfRepresentable(s);
    } else {
      RoundIsRepresentable(s);
    }
  }

  // ---------------------------------------------------------------- any ticks

  /** Half the spacing of numbers below 4096 milliseconds. */
  function Drift(g: nat, n: nat): nat
    requires g >= 42
  {
    n * Pow2(g - 42)
  }

  lemma DriftMore(g: nat, n: nat)
    requires g >= 42
    ensures Drift(g, n + 1) == Drift(g, n) + Pow2(g - 42) && Pow2(g - 41) == 2 * Pow2(g - 42)
  {
    Spread(n, 1, Pow2(g - 42));
  }

  /** Clock and sum stay together to within the drift, or have both passed the end to within it. */
  ghost predicate Near(t: Timing, at: nat, sum: nat, drift: nat) {
    if at < End(t) then at <= sum + drift && sum <= at + drift else End(t) <= sum + drift
  }

  lemma {:induction false} DriftIsSmall(t: Timing, ticks: seq<Elapsed>)
    requires t.g >= 42
    ensures Near(t, Accumulated(t, ticks), Played(ticks), Drift(t.g, |ticks|))
  {
    hide Moved, Round, Ulp, Pow2;
    if ticks != [] {
      var init, last := ticks[..|ticks| - 1], ticks[|ticks| - 1];
      DriftIsSmall(t, init);
      DriftMore(t.g, |init|);
      var at := Accumulated(t, init);
      if !Counts(last) || End(t) <= at {
        UncountedStays(t, at, last);
      } else {
        OneMove(t, at, last);
        RoundIsNear(at - EntryStart(t, at, 0) + last.units);
      }
    } else {
      assert Played(ticks) == 0 && Accumulated(t, ticks) == 0;
    }
  }

  /** The exact sum keeps more than the drift away from the start of every beat and from the end. */
  ghost predicate Clear(t: Timing, sum: nat, drift: nat) {
    forall j :: 0 < j <= 4 ==> sum + drift < StartAt(t, j) || StartAt(t, j) + drift <= sum
  }

  /** Outside that margin the exact sum decides the state, whatever the ticks. */
  lemma {:induction false} ClearSumDecides(t: Timing, ticks: seq<Elapsed>)
    requires t.g >= 42 && Clear(t, Played(ticks), Drift(t.g, |ticks|))
    ensures StateAt(t, Accumulated(t, ticks), 0) == StateAt(t, Played(ticks), 0)
  {
    var at, sum, drift := Accumulated(t, ticks), Played(ticks), Drift(t.g, |ticks|);
    DriftIsSmall(t, ticks);
    hide Accumulated, Played, Drift;
    forall j | 0 < j <= 4 ensures StartAt(t, j) <= at <==> StartAt(t, j) <= sum {
      StartsBounded(t, j);
    }
    SameEntry(t, at, sum, 0);
  }

  // ---------------------------------------------------------------- where the sum does not decide

  /** The spacing of numbers between 256 and 512 milliseconds is eight of these units. */
  function Eighth(g: nat): nat
    requires g >= 47
  {
    Pow2(g - 47)
  }

  /** Eighths to a millisecond. */
  const MS: nat := 0x8000_0000_0000

  lemma Eighths(g: nat)
    requires g >= 47
    ensures Pow2(g) == MS * Eighth(g) && Pow2(g - 44) == 8 * Eighth(g) && Eighth(g) >= 1
  {
    PowAdd(47, g - 47);
    PowAdd(3, g - 47);
    Pow2Values();
  }

  /** The first second, then all of the common celebration but its last representable step. */
  function AlmostAll(g: nat): seq<Elapsed>
    requires g >= 47
  {
    [Finite(1000 * MS * Eighth(g)), Finite((320 * MS - 8) * Eighth(g))]
  }

  function CommonTiming(g: nat): Timing {
    Timing(g, Common, false)
  }

  lemma CommonStarts(g: nat)
    requires g >= 47
    ensures var t := CommonTiming(g);
            StartAt(t, 0) == 0 && StartAt(t, 1) == 340 * MS * Eighth(g) && StartAt(t, 3) == 1000 * MS * Eighth(g)
            && End(t) == StartAt(t, 4) == 1320 * MS * Eighth(g)
  {
    var t := CommonTiming(g);
    Eighths(g);
    LastEndMs(Common, false);
    StartAtIsScaled(t, 1);
    StartAtIsScaled(t, 3);
    StartAtIsScaled(t, 4);
  }

  /** A sum of the celebration within one spacing of its end, rounded down or up. */
  lemma LastStep(g: nat, r: nat)
    requires g >= 47 && r < 8 * Eighth(g) && r != 4 * Eighth(g)
    ensures Round((320 * MS - 8) * Eighth(g) + r) == if r < 4 * Eighth(g) then (320 * MS - 8) * Eighth(g) else 320 * MS * Eighth(g)
  {
    hide Round, Ulp, Eighth;
    var w, n := Eighth(g), (320 * MS - 8) * Eighth(g) + r;
    SpacingOfCelebration(g, n);
    RoundsToEighths(n, w, 320 * MS / 8 - 1, r);
  }

  lemma SpacingOfCelebration(g: nat, n: nat)
    requires g >= 47 && 256 * MS * Eighth(g) <= n < 512 * MS * Eighth(g)
    ensures Ulp(n) == 8 * Eighth(g)
  {
    hide *;
    Eighths(g);
    SpacingIs(n, g - 44, Eighth(g));
  }

  lemma SpacingIs(n: nat, k: nat, w: nat)
    requires Pow2(k) == 8 * w && 256 * MS * w <= n < 512 * MS * w
    ensures Ulp(n) == 8 * w
  {
    hide Pow2, Ulp;
    assert SIGNIFICAND / 2 * (8 * w) == 256 * MS * w;
    assert SIGNIFICAND * (8 * w) == 512 * MS * w;
    UlpInRange(n, k);
  }

  lemma RoundsToEighths(n: nat, w: nat, q: nat, r: nat)
    requires Ulp(n) == 8 * w && n == 8 * q * w + r && r < 8 * w && r != 4 * w
    ensures Round(n) == if r < 4 * w then 8 * q * w else (8 * q + 8) * w
  {
    hide Round, Ulp;
    assert q * (8 * w) == 8 * q * w;
    Spread(8 * q, 8, w);
    Spread(q, 1, 8 * w);
    RoundAs(n, q, r);
  }

  /** A tick on the way from the last representable step to the end. */
  lemma LastTick(g: nat, r: nat)
    requires g >= 47 && 0 < r < 8 * Eighth(g) && r != 4 * Eighth(g)
    ensures Moved(CommonTiming(g), (1320 * MS - 8) * Eighth(g), Finite(r))
            == if r < 4 * Eighth(g) then (1320 * MS - 8) * Eighth(g) else 1320 * MS * Eighth(g)
  {
    hide Round, StartAt;
    Eighths(g);
    CommonStarts(g);
    StartsOrdered(CommonTiming(g), 0, 3);
    EntryOfBeat(CommonTiming(g), (1320 * MS - 8) * Eighth(g), 0, 3);
    LastStep(g, r);
  }

  lemma FirstSecond(g: nat)
    requires g >= 47
    ensures Moved(CommonTiming(g), 0, Finite(1000 * MS * Eighth(g))) == 1000 * MS * Eighth(g)
  {
    hide Round, StartAt, EntryStart;
    var n := 1000 * MS * Eighth(g);
    Eighths(g);
    CommonStarts(g);
    EntryOfBeat(CommonTiming(g), 0, 0, 0);
    assert Steps(1000, Pow2(g), n);
    MultipleIsRepresentable(n, g);
    RoundOfRepresentable(n);
  }

  lemma LastStepReached(g: nat)
    requires g >= 47
    ensures Moved(CommonTiming(g), 1000 * MS * Eighth(g), Finite((320 * MS - 8) * Eighth(g))) == (1320 * MS - 8) * Eighth(g)
  {
    hide Round, StartAt, EntryStart;
    Eighths(g);
    CommonStarts(g);
    StartsOrdered(CommonTiming(g), 0, 3);
    EntryOfBeat(CommonTiming(g), 1000 * MS * Eighth(g), 0, 3);
    LastStep(g, 0);
  }

  lemma OneMore(t: Timing, ticks: seq<Elapsed>, last: Elapsed)
    ensures Accumulated(t, ticks + [last]) == Moved(t, Accumulated(t, ticks), last)
    ensures Played(ticks + [last]) == Played(ticks) + (if Counts(last) then last.units else 0)
  {
    assert (ticks + [last])[..|ticks|] == ticks;
  }

  lemma AlmostAllAccumulates(g: nat)
    requires g >= 47
    ensures Accumulated(CommonTiming(g), AlmostAll(g)) == Played(AlmostAll(g)) == (1320 * MS - 8) * Eighth(g)
  {
    hide Moved;
    var t := CommonTiming(g);
    Eighths(g);
    var first, second := Finite(1000 * MS * Eighth(g)), Finite((320 * MS - 8) * Eighth(g));
    FirstSecond(g);
    LastStepReached(g);
    OneMore(t, [], first);
    OneMore(t, [first], second);
    assert [] + [first] == [first] && [first] + [second] == AlmostAll(g);
    assert Played([]) == 0 && Accumulated(t, []) == 0;
  }

  /** `n` ticks of a quarter spacing. */
  function Quarters(g: nat, n: nat): seq<Elapsed>
    requires g >= 47
  {
    if n == 0 then [] else Quarters(g, n - 1) + [Finite(2 * Eighth(g))]
  }

  /** Each quarter adds to the exact sum and leaves the accumulated time where it was. */
  lemma {:induction false} QuartersVanish(g: nat, n: nat)
    requires g >= 47
    ensures var t, ticks := CommonTiming(g), AlmostAll(g) + Quarters(g, n);
            Accumulated(t, ticks) == Accumulated(t, AlmostAll(g)) && Played(ticks) == Played(AlmostAll(g)) + n * (2 * Eighth(g))
  {
    hide Moved, Accumulated, Played, CommonTiming, AlmostAll, Eighth;
    var t := CommonTiming(g);
    if n == 0 {
      assert AlmostAll(g) + Quarters(g, 0) == AlmostAll(g);
    } else {
      QuartersVanish(g, n - 1);
      OneMore(t, AlmostAll(g) + Quarters(g, n - 1), Finite(2 * Eighth(g)));
      assert AlmostAll(g) + Quarters(g, n) == AlmostAll(g) + Quarters(g, n - 1) + [Finite(2 * Eighth(g))];
      QuarterStays(g);
      Spread(n - 1, 1, 2 * Eighth(g));
    }
  }

  lemma QuarterStays(g: nat)
    requires g >= 47
    ensures var t, at := CommonTiming(g), Accumulated(CommonTiming(g), AlmostAll(g));
            Counts(Finite(2 * Eighth(g))) && Moved(t, at, Finite(2 * Eighth(g))) == at
  {
    hide Moved, Accumulated;
    Eighths(g);
    AlmostAllAccumulates(g);
    LastTick(g, 2 * Eighth(g));
  }

  /**
   Ticks can vanish: after `AlmostAll`, no number of quarter-spacing ticks settles
   the clock, although four of them bring the exact sum to the end.
   */
  lemma {:induction false} TicksCanVanish(g: nat, n: nat)
    requires g >= 47
    ensures var t, ticks := CommonTiming(g), AlmostAll(g) + Quarters(g, n);
            && Accumulated(t, ticks) == (1320 * MS - 8) * Eighth(g) < End(t)
            && Played(ticks) + 8 * Eighth(g) == End(t) + 2 * n * Eighth(g)
            && !StateAt(t, Accumulated(t, ticks), 0).settled
  {
    hide *;
    var t := CommonTiming(g);
    QuartersVanish(g, n);
    AlmostAllAccumulates(g);
    ShortOfEnd(g);
    VanishedSum(Eighth(g), n);
  }

  lemma ShortOfEnd(g: nat)
    requires g >= 47
    ensures var t := CommonTiming(g);
            Eighth(g) > 0 && End(t) == 1320 * MS * Eighth(g) && !StateAt(t, (1320 * MS - 8) * Eighth(g), 0).settled
  {
    hide StartAt, StateAt;
    Eighths(g);
    CommonStarts(g);
    SettledMeansPastEnd(CommonTiming(g), (1320 * MS - 8) * Eighth(g), 0);
  }

  lemma VanishedSum(e: nat, n: nat)
    ensures (1320 * MS - 8) * e + n * (2 * e) + 8 * e == 1320 * MS * e + 2 * n * e
    ensures e > 0 ==> (1320 * MS - 8) * e < 1320 * MS * e
  {
    Spread(1320 * MS, 8, e);
    assert n * (2 * e) == 2 * n * e;
  }

  /** Rounding can also settle the clock early: one tick of five eighths of a spacing, with the exact sum below the end. */
  lemma {:induction false} ClockCanSettleEarly(g: nat)
    requires g >= 47
    ensures var t, ticks := CommonTiming(g), AlmostAll(g) + [Finite(5 * Eighth(g))];
            Played(ticks) < End(t) && StateAt(t, Accumulated(t, ticks), 0) == SettledState(Common)
  {
    hide Moved, StartAt, StateAt;
    var t := CommonTiming(g);
    Eighths(g);
    CommonStarts(g);
    AlmostAllAccumulates(g);
    LastTick(g, 5 * Eighth(g));
    OneMore(t, AlmostAll(g), Finite(5 * Eighth(g)));
    PastEndIsSettled(t, Accumulated(t, AlmostAll(g) + [Finite(5 * Eighth(g))]));
  }
}
