/**
 The choreography clock and the timeline it must follow
 (packages/engine/src/choreography.ts).  Times are floating point numbers, counted
 in units of 2 to the -g milliseconds (binary64 is g = 1074); easing and
 intensity do not influence control flow and are not modelled.
 */
module Choreography {
  import opened Support
  import opened Doubles

  datatype Beat = Idle | Anticipation | Hold | Reveal | Celebrate | Settled

  datatype Rarity = Common | Uncommon | Rare | Chase

  datatype State = State(beat: Beat, rarity: Rarity, revealed: bool, settled: bool)

  datatype Event =
    | Start(startRarity: Option<Rarity>)
    | Advance(from: Option<Beat>)
    | Finish(finishRarity: Option<Rarity>)  // interrupt, fast-forward and settle
    | Reset(resetRarity: Option<Rarity>)

  datatype TimelineEntry = TimelineEntry(beat: Beat, startsAt: nat, endsAt: nat)

  /** A JavaScript number as `tick` sees it: finite, or one of the values it ignores. */
  datatype Elapsed = Finite(units: int) | NotFinite

  /** What fixes a timeline: the grid, the rarity and the motion setting. */
  datatype Timing = Timing(g: nat, rarity: Rarity, reducedMotion: bool)

  const ANIMATED_BEATS: seq<Beat> := [Anticipation, Hold, Reveal, Celebrate]

  function NextBeat(beat: Beat): Beat {
    match beat
    case Idle => Idle
    case Anticipation => Hold
    case Hold => Reveal
    case Reveal => Celebrate
    case Celebrate => Settled
    case Settled => Settled
  }

  function DurationMs(beat: Beat, rarity: Rarity, reducedMotion: bool): (ms: nat)
    ensures ms <= 620
  {
    if reducedMotion then 0
    else
      match beat
      case Idle => 0
      case Anticipation => 340
      case Hold => 180
      case Reveal => 480
      case Celebrate => (match rarity case Common => 320 case Uncommon => 400 case Rare => 500 case Chase => 620)
      case Settled => 0
  }

  function Duration(t: Timing, beat: Beat): nat {
    DurationMs(beat, t.rarity, t.reducedMotion) * Pow2(t.g)
  }

  function Initial(rarity: Rarity): State {
    State(Idle, rarity, false, false)
  }

  function SettledState(rarity: Rarity): State {
    State(Settled, rarity, true, true)
  }

  function OrElse(rarity: Option<Rarity>, current: Rarity): Rarity {
    if rarity.Some? then rarity.value else current
  }

  function Reduce(state: State, event: Event): State {
    match event
    case Start(rarity) => State(Anticipation, OrElse(rarity, state.rarity), false, false)
    case Advance(from) =>
      if from.Some? && from.value != state.beat then state
      else
        var beat := NextBeat(state.beat);
        state.(beat := beat, revealed := beat == Reveal || beat == Celebrate || beat == Settled, settled := beat == Settled)
    case Finish(rarity) => SettledState(OrElse(rarity, state.rarity))
    case Reset(rarity) => Initial(OrElse(rarity, state.rarity))
  }

  // ---------------------------------------------------------------- the timeline

  /** The millisecond at which the k-th animated beat starts. */
  function StartOf(k: nat, rarity: Rarity, reducedMotion: bool): nat
    requires k <= |ANIMATED_BEATS|
  {
    if k == 0 then 0 else StartOf(k - 1, rarity, reducedMotion) + DurationMs(ANIMATED_BEATS[k - 1], rarity, reducedMotion)
  }

  /** The precomputed timeline: contiguous entries, one per animated beat, from zero. */
  method CreateTimeline(rarity: Rarity, reducedMotion: bool) returns (timeline: seq<TimelineEntry>)
    ensures |timeline| == |ANIMATED_BEATS|
    ensures forall k :: 0 <= k < |timeline| ==>
              timeline[k] == TimelineEntry(ANIMATED_BEATS[k], StartOf(k, rarity, reducedMotion), StartOf(k + 1, rarity, reducedMotion))
  {
    timeline := [];
    var elapsed := 0;
    for k := 0 to |ANIMATED_BEATS|
      invariant |timeline| == k
      invariant elapsed == StartOf(k, rarity, reducedMotion)
      invariant forall j :: 0 <= j < k ==>
                  timeline[j] == TimelineEntry(ANIMATED_BEATS[j], StartOf(j, rarity, reducedMotion), StartOf(j + 1, rarity, reducedMotion))
    {
      var ends := elapsed + DurationMs(ANIMATED_BEATS[k], rarity, reducedMotion);
      timeline := timeline + [TimelineEntry(ANIMATED_BEATS[k], elapsed, ends)];
      elapsed := ends;
    }
  }

  /** The same start on the grid. */
  function StartAt(t: Timing, k: nat): nat
    requires k <= |ANIMATED_BEATS|
  {
    if k == 0 then 0 else StartAt(t, k - 1) + Duration(t, ANIMATED_BEATS[k - 1])
  }

  function End(t: Timing): nat {
    StartAt(t, |ANIMATED_BEATS|)
  }

  lemma {:induction false} StartAtIsScaled(t: Timing, k: nat)
    requires k <= |ANIMATED_BEATS|
    ensures StartAt(t, k) == StartOf(k, t.rarity, t.reducedMotion) * Pow2(t.g)
  {
    if k > 0 {
      StartAtIsScaled(t, k - 1);
      Spread(StartOf(k - 1, t.rarity, t.reducedMotion), DurationMs(ANIMATED_BEATS[k - 1], t.rarity, t.reducedMotion), Pow2(t.g));
    }
  }

  lemma {:induction false} StartsOrdered(t: Timing, i: nat, j: nat)
    requires i <= j <= |ANIMATED_BEATS|
    ensures StartAt(t, i) <= StartAt(t, j)
  {
    if i < j {
      StartsOrdered(t, i, j - 1);
    }
  }

  /** Every start lies on a whole millisecond, and the last end within 1620 of them. */
  lemma {:induction false} StartsBounded(t: Timing, k: nat)
    requires k <= |ANIMATED_BEATS|
    ensures Divides(Pow2(t.g), StartAt(t, k)) && StartAt(t, k) <= End(t) <= 1620 * Pow2(t.g)
  {
    StartAtIsScaled(t, k);
    StartAtIsScaled(t, 4);
    StartsOrdered(t, k, 4);
    assert Steps(StartOf(k, t.rarity, t.reducedMotion), Pow2(t.g), StartAt(t, k));
    assert StartOf(4, t.rarity, t.reducedMotion) <= 1620 by { LastEndMs(t.rarity, t.reducedMotion); }
    Monotone(StartOf(4, t.rarity, t.reducedMotion), 1620, Pow2(t.g));
  }

  lemma LastEndMs(rarity: Rarity, reducedMotion: bool)
    ensures StartOf(1, rarity, reducedMotion) == if reducedMotion then 0 else 340
    ensures StartOf(2, rarity, reducedMotion) == if reducedMotion then 0 else 520
    ensures StartOf(3, rarity, reducedMotion) == if reducedMotion then 0 else 1000
    ensures StartOf(4, rarity, reducedMotion) == if reducedMotion then 0 else 1000 + DurationMs(Celebrate, rarity, false)
  {
    assert StartOf(0, rarity, reducedMotion) == 0;
    assert StartOf(1, rarity, reducedMotion) == StartOf(0, rarity, reducedMotion) + DurationMs(Anticipation, rarity, reducedMotion);
    assert StartOf(2, rarity, reducedMotion) == StartOf(1, rarity, reducedMotion) + DurationMs(Hold, rarity, reducedMotion);
    assert StartOf(3, rarity, reducedMotion) == StartOf(2, rarity, reducedMotion) + DurationMs(Reveal, rarity, reducedMotion);
  }

  lemma DurationBounded(t: Timing, beat: Beat)
    ensures Divides(Pow2(t.g), Duration(t, beat)) && Duration(t, beat) <= 620 * Pow2(t.g)
  {
    assert Steps(DurationMs(beat, t.rarity, t.reducedMotion), Pow2(t.g), Duration(t, beat));
    Monotone(DurationMs(beat, t.rarity, t.reducedMotion), 620, Pow2(t.g));
  }

  /** The state the timeline prescribes at a position, from entry `k` on. */
  ghost function StateAt(t: Timing, at: nat, k: nat): State
    requires k <= |ANIMATED_BEATS|
    decreases |ANIMATED_BEATS| - k
  {
    if k == |ANIMATED_BEATS| then SettledState(t.rarity)
    else if at < StartAt(t, k + 1) then
      var beat := ANIMATED_BEATS[k];
      State(beat, t.rarity, beat == Reveal || beat == Celebrate, false)
    else StateAt(t, at, k + 1)
  }

  /** `StateAt` really reads the timeline: inside entry k it is that entry's beat, past the end it is settled. */
  lemma {:induction false} StateAtReadsTimeline(t: Timing, at: nat, from: nat, k: nat)
    requires from <= k <= |ANIMATED_BEATS|
    requires StartAt(t, k) <= at
    ensures k < |ANIMATED_BEATS| && at < StartAt(t, k + 1) ==> StateAt(t, at, from).beat == ANIMATED_BEATS[k] && !StateAt(t, at, from).settled
    ensures k == |ANIMATED_BEATS| ==> StateAt(t, at, from) == SettledState(t.rarity)
    decreases k - from
  {
    if from < k {
      StartsOrdered(t, from + 1, k);
      StateAtReadsTimeline(t, at, from + 1, k);
    }
  }

  /** A prescribed state is determined by its beat. */
  lemma {:induction false} StateAtFields(t: Timing, at: nat, k: nat)
    requires k <= |ANIMATED_BEATS|
    ensures var s := StateAt(t, at, k);
            s.rarity == t.rarity && s.settled == (s.beat == Settled) && s.beat != Idle
            && s.revealed == (s.beat == Reveal || s.beat == Celebrate || s.beat == Settled)
    decreases |ANIMATED_BEATS| - k
  {
    if k < |ANIMATED_BEATS| && at >= StartAt(t, k + 1) {
      StateAtFields(t, at, k + 1);
    }
  }

  lemma {:induction false} SettledMeansPastEnd(t: Timing, at: nat, k: nat)
    requires k <= 4 && StartAt(t, k) <= at
    ensures StateAt(t, at, k).settled <==> End(t) <= at
    decreases 4 - k
  {
    if k < 4 {
      if at < StartAt(t, k + 1) {
        StartsOrdered(t, k + 1, 4);
      } else {
        SettledMeansPastEnd(t, at, k + 1);
      }
    }
  }

  /** Two positions on the same side of every start read the same state. */
  lemma {:induction false} SameEntry(t: Timing, a: nat, b: nat, k: nat)
    requires k <= 4
    requires forall j :: k < j <= 4 ==> (StartAt(t, j) <= a <==> StartAt(t, j) <= b)
    ensures StateAt(t, a, k) == StateAt(t, b, k)
    decreases 4 - k
  {
    if k < 4 && a >= StartAt(t, k + 1) {
      SameEntry(t, a, b, k + 1);
    }
  }

  // ---------------------------------------------------------------- accumulated time

  predicate Counts(elapsed: Elapsed) {
    elapsed.Finite? && elapsed.units > 0
  }

  /** The start of the entry that contains `at`. */
  function EntryStart(t: Timing, at: nat, k: nat): (start: nat)
    requires k <= |ANIMATED_BEATS| && StartAt(t, k) <= at
    ensures start <= at
    decreases |ANIMATED_BEATS| - k
  {
    if k == |ANIMATED_BEATS| || at < StartAt(t, k + 1) then StartAt(t, k) else EntryStart(t, at, k + 1)
  }

  /** Where a tick takes the clock: the time within the beat is summed with one rounding, a settled clock stays. */
  function Moved(t: Timing, at: nat, elapsed: Elapsed): nat {
    if !Counts(elapsed) || End(t) <= at then at
    else EntryStart(t, at, 0) + Round(at - EntryStart(t, at, 0) + elapsed.units)
  }

  function Accumulated(t: Timing, ticks: seq<Elapsed>): nat {
    if ticks == [] then 0 else Moved(t, Accumulated(t, ticks[..|ticks| - 1]), ticks[|ticks| - 1])
  }

  /** The exact sum of the ticks that count: finite and positive ones. */
  function Played(ticks: seq<Elapsed>): nat {
    if ticks == [] then 0
    else
      var last := ticks[|ticks| - 1];
      Played(ticks[..|ticks| - 1]) + (if last.Finite? && last.units > 0 then last.units else 0)
  }

  // ---------------------------------------------------------------- the clock

  /** Index of an animated beat; four for settled. */
  function Index(beat: Beat): (k: nat)
    requires beat != Idle
    ensures k <= 4 && (k < 4 ==> ANIMATED_BEATS[k] == beat) && (k == 4 <==> beat == Settled)
  {
    match beat
    case Anticipation => 0
    case Hold => 1
    case Reveal => 2
    case Celebrate => 3
    case Settled => 4
  }

  /** The clock stands where the timeline puts the position `at`. */
  ghost predicate OnTimeline(t: Timing, state: State, elapsedInBeat: nat, at: nat) {
    && state == StateAt(t, at, 0)
    && (!state.settled ==>
          && state.beat != Idle && state.beat != Settled && Representable(elapsedInBeat)
          && at == StartAt(t, Index(state.beat)) + elapsedInBeat && elapsedInBeat < Duration(t, state.beat))
  }

  lemma {:induction false} EntryOfBeat(t: Timing, at: nat, from: nat, k: nat)
    requires from <= k < 4 && StartAt(t, from) <= StartAt(t, k) <= at < StartAt(t, k + 1)
    ensures EntryStart(t, at, from) == StartAt(t, k)
    decreases k - from
  {
    if from < k {
      StartsOrdered(t, from + 1, k);
      EntryOfBeat(t, at, from + 1, k);
    }
  }

  /** So far past the end, in whole milliseconds, that rounding while the beats are taken off cannot matter. */
  function FarMs(k: nat): nat {
    if k == 0 then SIGNIFICAND else FarMs(k - 1) / 4
  }

  lemma FarEnough(k: nat)
    requires k < 4
    ensures FarMs(k) - 620 >= 2 * FarMs(k + 1) && FarMs(k) >= 1621 && FarMs(k + 1) >= 1621 && FarMs(0) == SIGNIFICAND
    ensures FarMs(k + 1) <= SIGNIFICAND / 4
  {
    assert FarMs(1) == SIGNIFICAND / 4;
    assert FarMs(2) == SIGNIFICAND / 16;
    assert FarMs(3) == SIGNIFICAND / 64;
    assert FarMs(4) == SIGNIFICAND / 256;
  }

  ghost predicate Far(t: Timing, k: nat, elapsedInBeat: nat, at: nat) {
    at >= SIGNIFICAND * Pow2(t.g) && elapsedInBeat >= FarMs(k) * Pow2(t.g)
  }

  /** Mid-loop form of `OnTimeline`: the beat may still be behind the elapsed time. */
  ghost predicate CatchingUp(t: Timing, state: State, elapsedInBeat: nat, at: nat) {
    && state.beat != Idle && state.rarity == t.rarity
    && state.settled == (state.beat == Settled)
    && state.revealed == (state.beat == Reveal || state.beat == Celebrate || state.beat == Settled)
    && Representable(elapsedInBeat)
    && (at == StartAt(t, Index(state.beat)) + elapsedInBeat || Far(t, Index(state.beat), elapsedInBeat, at))
  }

  lemma CaughtUp(t: Timing, state: State, elapsedInBeat: nat, at: nat)
    requires CatchingUp(t, state, elapsedInBeat, at)
    requires state.settled || elapsedInBeat < Duration(t, state.beat)
    ensures OnTimeline(t, state, elapsedInBeat, at)
  {
    var k := Index(state.beat);
    StartsBounded(t, k);
    StateAtFields(t, at, 0);
    if state.settled {
      assert at >= End(t);
    } else {
      DurationBounded(t, state.beat);
      FarEnough(k);
      Monotone(1621, FarMs(k), Pow2(t.g));
      assert !Far(t, k, elapsedInBeat, at);
    }
    StateAtReadsTimeline(t, at, 0, k);
  }

  /** Taking off a beat that is over: exact near the timeline, and far enough otherwise. */
  lemma BeatTakenOff(t: Timing, state: State, elapsedInBeat: nat, at: nat)
    requires CatchingUp(t, state, elapsedInBeat, at) && !state.settled && elapsedInBeat >= Duration(t, state.beat)
    ensures CatchingUp(t, Reduce(state, Advance(Some(state.beat))), Round(elapsedInBeat - Duration(t, state.beat)), at)
  {
    var k, d := Index(state.beat), Duration(t, state.beat);
    var left := elapsedInBeat - d;
    DurationBounded(t, state.beat);
    RoundIsRepresentable(left);
    assert StartAt(t, k + 1) == StartAt(t, k) + d;
    if elapsedInBeat < SIGNIFICAND * Pow2(t.g) && at == StartAt(t, k) + elapsedInBeat {
      DifferenceIsRepresentable(elapsedInBeat, d, t.g);
      RoundOfRepresentable(left);
    } else {
      FarLeft(t.g, k, elapsedInBeat, d);
    }
  }

  lemma FarLeft(g: nat, k: nat, elapsedInBeat: nat, d: nat)
    requires k < 4 && d <= 620 * Pow2(g) && d <= elapsedInBeat
    requires elapsedInBeat >= SIGNIFICAND * Pow2(g) || elapsedInBeat >= FarMs(k) * Pow2(g)
    ensures Round(elapsedInBeat - d) >= FarMs(k + 1) * Pow2(g)
  {
    FarEnough(k);
    FarSmaller(k);
    RoundAtLeastHalf(elapsedInBeat - d);
    var u := Pow2(g);
    Monotone(FarMs(k), SIGNIFICAND, u);
    Monotone(2 * FarMs(k + 1), FarMs(k) - 620, u);
    Spread(FarMs(k), 620, u);
    assert 2 * FarMs(k + 1) * u == 2 * (FarMs(k + 1) * u);
  }

  lemma FarSmaller(k: nat)
    requires k <= 4
    ensures FarMs(k) <= SIGNIFICAND
  {
    if k > 0 {
      FarEnough(k - 1);
    }
  }

  class ChoreographyClock {
    var elapsedInBeat: nat
    var state: State
    const g: nat
    const reducedMotion: bool
    /** The position on the timeline since the last start. */
    ghost var at: nat

    function TimingNow(): Timing
      reads this
    {
      Timing(g, state.rarity, reducedMotion)
    }

    ghost predicate Running()
      reads this
    {
      OnTimeline(TimingNow(), state, elapsedInBeat, at)
    }

    constructor (g: nat, rarity: Rarity, reducedMotion: bool)
      ensures state == Initial(rarity) && this.g == g && this.reducedMotion == reducedMotion
    {
      this.elapsedInBeat := 0;
      this.g := g;
      this.reducedMotion := reducedMotion;
      this.state := Initial(rarity);
      this.at := 0;
    }

    method Begin(rarity: Rarity) returns (current: State)
      modifies this
      ensures Running() && at == 0 && state.rarity == rarity && current == state
    {
      elapsedInBeat := 0;
      at := 0;
      state := Reduce(state, Start(Some(rarity)));
      if reducedMotion {
        state := SettledState(rarity);
      }
      current := state;
      BeginsOnTimeline(Timing(g, rarity, reducedMotion));
    }

    /** A tick that counts moves the clock by one rounded sum; the rest of the loop only catches up. */
    method Tick(elapsed: Elapsed) returns (current: State)
      requires Running()
      modifies this
      ensures Running() && current == state && state.rarity == old(state.rarity)
      ensures at == Moved(old(TimingNow()), old(at), elapsed)
    {
      hide OnTimeline, CatchingUp, Moved, Round, Duration;
      var t := TimingNow();
      RunningParts(t, state, elapsedInBeat, at);
      if !Counts(elapsed) || state.beat == Idle || state.settled {
        UncountedStays(t, at, elapsed);
        return state;
      }
      at := Moved(t, at, elapsed);
      TickAdds(t, state, elapsedInBeat, old(at), elapsed);
      elapsedInBeat := Round(elapsedInBeat + elapsed.units);
      var duration := Duration(t, state.beat);
      while !state.settled && elapsedInBeat >= duration
        invariant CatchingUp(t, state, elapsedInBeat, at) && state.beat != Idle && state.settled == (state.beat == Settled)
        invariant duration == Duration(t, state.beat) && state.rarity == t.rarity && at == Moved(t, old(at), elapsed)
        decreases 4 - Index(state.beat)
      {
        BeatTakenOff(t, state, elapsedInBeat, at);
        elapsedInBeat := Round(elapsedInBeat - duration);
        state := Reduce(state, Advance(Some(state.beat)));
        duration := Duration(t, state.beat);
      }
      CaughtUp(t, state, elapsedInBeat, at);
      current := state;
    }
  }

  lemma BeginsOnTimeline(t: Timing)
    ensures OnTimeline(t, if t.reducedMotion then SettledState(t.rarity) else State(Anticipation, t.rarity, false, false), 0, 0)
  {
    assert Steps(0, Ulp(0), 0);
    LastEndMs(t.rarity, t.reducedMotion);
    StartAtIsScaled(t, 1);
    StartAtIsScaled(t, 4);
    Grows(if t.reducedMotion then 1 else 340, Pow2(t.g));
    StateAtReadsTimeline(t, 0, 0, if t.reducedMotion then 4 else 0);
    StateAtFields(t, 0, 0);
  }

  lemma RunningParts(t: Timing, state: State, elapsedInBeat: nat, at: nat)
    requires OnTimeline(t, state, elapsedInBeat, at)
    ensures state.beat != Idle && state.settled == (state.beat == Settled) && state.rarity == t.rarity
    ensures state.settled <==> End(t) <= at
  {
    StateAtFields(t, at, 0);
    SettledMeansPastEnd(t, at, 0);
  }

  lemma UncountedStays(t: Timing, at: nat, elapsed: Elapsed)
    requires !Counts(elapsed) || End(t) <= at
    ensures Moved(t, at, elapsed) == at
  {
  }

  lemma TickAdds(t: Timing, state: State, elapsedInBeat: nat, at: nat, elapsed: Elapsed)
    requires OnTimeline(t, state, elapsedInBeat, at) && !state.settled && Counts(elapsed)
    ensures CatchingUp(t, state, Round(elapsedInBeat + elapsed.units), Moved(t, at, elapsed))
  {
    RunningParts(t, state, elapsedInBeat, at);
    var k := Index(state.beat);
    StartsOrdered(t, 0, k);
    assert StartAt(t, k + 1) == StartAt(t, k) + Duration(t, state.beat);
    EntryOfBeat(t, at, 0, k);
    StateAtFields(t, at, 0);
    RoundIsRepresentable(elapsedInBeat + elapsed.units);
  }

  /** Playing a list of ticks ends in the timeline entry of their accumulated time. */
  method PlayAll(t: Timing, ticks: seq<Elapsed>) returns (final: State)
    ensures final == StateAt(t, Accumulated(t, ticks), 0)
    ensures final.settled <==> End(t) <= Accumulated(t, ticks)
  {
    hide StateAt;
    var clock := new ChoreographyClock(t.g, t.rarity, t.reducedMotion);
    final := clock.Begin(t.rarity);
    for i := 0 to |ticks|
      invariant clock.Running() && clock.state == final && clock.TimingNow() == t
      invariant clock.at == Accumulated(t, ticks[..i])
    {
      assert ticks[..i + 1][..i] == ticks[..i];
      final := clock.Tick(ticks[i]);
    }
    assert ticks[..|ticks|] == ticks;
    SettledMeansPastEnd(t, Accumulated(t, ticks), 0);
  }
}
