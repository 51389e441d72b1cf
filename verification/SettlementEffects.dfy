/**
 Exactly-once effects with a provider that deduplicates by request key, in every
 interleaving of workers, lease overruns and crashes.
 */
module SettlementEffects {
  import opened Support
  import opened Rounds
  import opened RoundInvariants
  import opened SettlementPlan
  import opened SettlementCustody
  import opened SettlementStore
  import opened SettlementProtocol
  import opened SettlementSafety

  /** The provider has applied `result` under this request's key. */
  ghost predicate Known(effects: seq<Applied>, request: Planned, result: ProviderResult) {
    exists j :: 0 <= j < |effects| && effects[j].request.requestKey == request.requestKey && effects[j].result == result
  }

  predicate KeyApplied(effects: seq<Applied>, key: RequestKey) {
    exists j :: 0 <= j < |effects| && effects[j].request.requestKey == key
  }

  ghost predicate AtReconcile(st: State, step: Step) {
    step.Reconcile? && step.worker in st.workers && st.workers[step.worker].Reconciling?
  }

  ghost predicate AtExecute(st: State, step: Step) {
    step.Execute? && step.worker in st.workers && st.workers[step.worker].Executing?
  }

  /**
   The provider never invents a result, and a definite refusal applied nothing.
   Reconciliation may still answer nothing for an effect that was applied.
   */
  ghost predicate Truthful(st: State, step: Step) {
    && (AtReconcile(st, step) && step.answer.Some? ==> Known(st.effects, st.workers[step.worker].row.planned, step.answer.value))
    && (AtExecute(st, step) ==>
          && (step.response.Returned? ==>
                || step.effect == Some(step.response.result)
                || (step.effect.None? && Known(st.effects, st.workers[step.worker].row.planned, step.response.result)))
          && (step.response.DefinitelyNot? ==> step.effect.None?))
  }

  /** A request key that was applied is never applied again. */
  ghost predicate Deduplicates(st: State, step: Step) {
    AtExecute(st, step) && step.effect.Some? ==> !KeyApplied(st.effects, st.workers[step.worker].row.planned.requestKey)
  }

  /** A run in which the provider is truthful and deduplicates at every step. */
  ghost predicate DeduplicatedRun(st: State, steps: seq<Step>) {
    steps == [] || (
      var init, last := steps[..|steps| - 1], steps[|steps| - 1];
      DeduplicatedRun(st, init) && Truthful(Run(st, init), last) && Deduplicates(Run(st, init), last))
  }

  ghost predicate DistinctRequests(operations: seq<Operation>) {
    forall a, b :: 0 <= a < b < |operations| ==> operations[a].planned.requestKey != operations[b].planned.requestKey
  }

  /** The applied effects are a prefix of the plan, in order, at most one past the finalized operations. */
  ghost predicate EffectsArePrefix(store: Store, effects: seq<Applied>) {
    && store.settlement.finalizedCount <= |effects| <= store.settlement.finalizedCount + 1
    && |effects| <= |store.operations|
    && forall j :: 0 <= j < |effects| ==> effects[j].request == store.operations[j].planned
  }

  /** Finalized rows hold the evidence of the one effect applied for them. */
  ghost predicate EvidenceIsApplied(store: Store, effects: seq<Applied>) {
    && store.settlement.finalizedCount <= |effects|
    && store.settlement.finalizedCount <= |store.operations|
    && forall i :: 0 <= i < store.settlement.finalizedCount ==>
         && store.operations[i].signature == Some(effects[i].result.signature)
         && store.operations[i].digest == Some(effects[i].result.digest)
  }

  predicate ResultApplied(phase: Phase, effects: seq<Applied>) {
    phase.Finalizing? ==> phase.index < |effects| && effects[phase.index].result == phase.result
  }

  ghost predicate Placed(st: State) {
    && DistinctRequests(st.store.operations)
    && EffectsArePrefix(st.store, st.effects)
    && EvidenceIsApplied(st.store, st.effects)
    && forall w :: w in st.workers ==> ResultApplied(st.workers[w], st.effects)
  }

  // ---------------------------------------------------------------- one step

  lemma KnownAt(store: Store, effects: seq<Applied>, i: nat, request: Planned, result: ProviderResult)
    requires DistinctRequests(store.operations) && EffectsArePrefix(store, effects)
    requires i < |store.operations| && request == store.operations[i].planned && Known(effects, request, result)
    ensures i < |effects| && effects[i].result == result
  {
    var j :| 0 <= j < |effects| && effects[j].request.requestKey == request.requestKey && effects[j].result == result;
    assert effects[j].request == store.operations[j].planned;
  }

  /** A fresh effect of a safe worker is the next one of the plan. */
  lemma FreshIsNext(store: Store, effects: seq<Applied>, i: nat)
    requires EffectsArePrefix(store, effects) && i < |store.operations| && i <= store.settlement.finalizedCount
    requires !KeyApplied(effects, store.operations[i].planned.requestKey)
    ensures i == |effects| == store.settlement.finalizedCount
  {
  }

  /** The step leaves the effects alone and ends at a phase whose result, if any, is applied. */
  lemma ExecuteKeepsPlaced(st: State, step: Step)
    requires Safe(st) && Placed(st) && Truthful(st, step) && AtExecute(st, step)
    requires step.effect.Some? ==> st.workers[step.worker].index == |st.effects| == st.store.settlement.finalizedCount
    ensures Placed(Successor(st, step))
  {
    var phase := st.workers[step.worker];
    assert PhaseSafe(phase, st.store);
    var after := Successor(st, step);
    if step.response.Returned? && step.effect.None? {
      KnownAt(st.store, st.effects, phase.index, phase.row.planned, step.response.result);
    }
    hide StoreSafe, Known, KeyApplied;
    assert after.store == st.store;
    assert forall j :: 0 <= j < |st.effects| ==> after.effects[j] == st.effects[j];
  }

  lemma ReconcileKeepsPlaced(st: State, step: Step)
    requires Safe(st) && Placed(st) && Truthful(st, step) && AtReconcile(st, step)
    ensures Placed(Successor(st, step))
  {
    var phase := st.workers[step.worker];
    assert PhaseSafe(phase, st.store);
    if step.answer.Some? {
      KnownAt(st.store, st.effects, phase.index, phase.row.planned, step.answer.value);
    }
    hide StoreSafe, Known;
  }

  lemma FinalizeKeepsPlaced(store: Store, effects: seq<Applied>, i: nat, result: ProviderResult, executed: bool, now: int)
    requires StoreSafe(store) && i < |store.operations| && i <= store.settlement.finalizedCount
    requires DistinctRequests(store.operations) && EffectsArePrefix(store, effects) && EvidenceIsApplied(store, effects)
    requires i < |effects| && effects[i].result == result
    requires FinalizeOperation(store, i, result, executed, now).Ok?
    ensures var store' := FinalizeOperation(store, i, result, executed, now).value;
            DistinctRequests(store'.operations) && EffectsArePrefix(store', effects) && EvidenceIsApplied(store', effects)
  {
    if store.operations[i].status != Finalized {
      PrefixCount(store.operations[i := FinalizedRow(store.operations[i], result, executed, now)], i + 1);
    }
  }

  /** Any transaction that finalizes nothing new leaves the placement alone. */
  lemma SameCountKeepsPlaced(store: Store, store': Store, effects: seq<Applied>)
    requires StoreSafe(store) && Progress(store, store') && store'.settlement.finalizedCount == store.settlement.finalizedCount
    requires DistinctRequests(store.operations) && EffectsArePrefix(store, effects) && EvidenceIsApplied(store, effects)
    ensures DistinctRequests(store'.operations) && EffectsArePrefix(store', effects) && EvidenceIsApplied(store', effects)
  {
  }

  lemma CommitKeepsPlaced(st: State, step: Step)
    requires Safe(st) && Placed(st) && step.Commit? && step.worker in st.workers
    ensures Placed(Successor(st, step))
  {
    hide StoreSafe, EffectsArePrefix, EvidenceIsApplied, DistinctRequests, FinalizeOperation, RecordRecovery, Close;
    var phase := st.workers[step.worker];
    assert PhaseSafe(phase, st.store) && ResultApplied(phase, st.effects);
    var after := Successor(st, step);
    if phase.Finalizing? && FinalizeOperation(st.store, phase.index, phase.result, phase.executed, st.now).Ok? {
      FinalizeKeepsPlaced(st.store, st.effects, phase.index, phase.result, phase.executed, st.now);
    } else {
      StepKeepsStore(st, step);
      OtherCommitsKeepCount(st, step);
      SameCountKeepsPlaced(st.store, after.store, st.effects);
    }
    assert after.effects == st.effects;
  }

  lemma OtherCommitsKeepCount(st: State, step: Step)
    requires Safe(st) && step.Commit? && step.worker in st.workers
    requires var phase := st.workers[step.worker];
             !(phase.Finalizing? && phase.index < |st.store.operations|
               && FinalizeOperation(st.store, phase.index, phase.result, phase.executed, st.now).Ok?)
    ensures Successor(st, step).store.settlement.finalizedCount == st.store.settlement.finalizedCount
  {
    var phase := st.workers[step.worker];
    if phase.Reading? && phase.index == |st.store.operations| && Close(st.store, step.worker, st.now).Ok? {
      assert PhaseSafe(phase, st.store);
      hide InventoryAfter;
      assert Close(st.store, step.worker, st.now).value.settlement.finalizedCount == |st.store.operations|;
    }
  }

  lemma OthersKeepPlaced(st: State, step: Step)
    requires Safe(st) && Placed(st) && !AtExecute(st, step) && !AtReconcile(st, step) && !(step.Commit? && step.worker in st.workers)
    ensures Placed(Successor(st, step))
  {
    var after := Successor(st, step);
    StepKeepsStore(st, step);
    assert after.store.settlement.finalizedCount == st.store.settlement.finalizedCount;
    SameCountKeepsPlaced(st.store, after.store, st.effects);
    hide StoreSafe, Progress, EffectsArePrefix, EvidenceIsApplied, DistinctRequests, ClaimLease, ReleaseLease;
    assert after.effects == st.effects;
  }

  /** Any effect of this step is that of the first unfinalized operation, and the first for it. */
  ghost predicate NextInPlan(st: State, step: Step) {
    AtExecute(st, step) && step.effect.Some?
    ==> st.workers[step.worker].index == |st.effects| == st.store.settlement.finalizedCount
  }

  lemma {:induction false} StepKeepsPlaced(st: State, step: Step)
    requires Safe(st) && Placed(st) && Truthful(st, step) && NextInPlan(st, step)
    ensures Placed(Successor(st, step))
  {
    hide StoreSafe, EffectsArePrefix, EvidenceIsApplied, DistinctRequests, Placed;
    if AtExecute(st, step) {
      ExecuteKeepsPlaced(st, step);
    } else if AtReconcile(st, step) {
      ReconcileKeepsPlaced(st, step);
    } else if step.Commit? && step.worker in st.workers {
      CommitKeepsPlaced(st, step);
    } else {
      OthersKeepPlaced(st, step);
    }
  }

  lemma DeduplicatedIsNext(st: State, step: Step)
    requires Safe(st) && Placed(st) && Deduplicates(st, step)
    ensures NextInPlan(st, step)
  {
    if AtExecute(st, step) && step.effect.Some? {
      var phase := st.workers[step.worker];
      assert PhaseSafe(phase, st.store);
      FreshIsNext(st.store, st.effects, phase.index);
    }
  }

  // ---------------------------------------------------------------- whole runs

  lemma {:induction false} DeduplicatedRunIsPlaced(st: State, steps: seq<Step>)
    requires Safe(st) && Placed(st) && DeduplicatedRun(st, steps)
    ensures Placed(Run(st, steps))
  {
    if steps != [] {
      var init := steps[..|steps| - 1];
      DeduplicatedRunIsPlaced(st, init);
      EveryInterleavingIsSafe(st, init);
      DeduplicatedIsNext(Run(st, init), steps[|steps| - 1]);
      StepKeepsPlaced(Run(st, init), steps[|steps| - 1]);
    }
  }

  ghost function EffectsOf(effects: seq<Applied>, key: RequestKey): set<int> {
    set j | 0 <= j < |effects| && effects[j].request.requestKey == key
  }

  /** Never two effects for one request. */
  lemma AtMostOnce(st: State, i: nat)
    requires Placed(st) && i < |st.store.operations|
    ensures |EffectsOf(st.effects, st.store.operations[i].planned.requestKey)| <= 1
  {
    var key := st.store.operations[i].planned.requestKey;
    forall j | j in EffectsOf(st.effects, key) ensures j == i {
      assert st.effects[j].request == st.store.operations[j].planned;
    }
    assert EffectsOf(st.effects, key) <= {i};
    SubsetIsNoLarger(EffectsOf(st.effects, key), {i});
  }

  /** Once settled, exactly one effect per operation, in plan order. */
  lemma SettledMeansExactlyOnce(st: State)
    requires Safe(st) && Placed(st) && st.store.settlement.status == Settled
    ensures |st.effects| == |st.store.operations|
    ensures forall j :: 0 <= j < |st.effects| ==> st.effects[j].request == st.store.operations[j].planned
  {
  }

  /** No two effects carry one signature, and none carries one that another settlement stores. */
  ghost predicate OwnSignatures(effects: seq<Applied>, foreign: set<string>) {
    && (forall a, b :: 0 <= a < b < |effects| ==> effects[a].result.signature != effects[b].result.signature)
    && (forall a :: 0 <= a < |effects| ==> effects[a].result.signature !in foreign)
  }

  /** Only effects with signatures of their own can settle. */
  lemma SettledSignaturesOwn(st: State)
    requires Safe(st) && Placed(st) && st.store.settlement.status == Settled
    ensures OwnSignatures(st.effects, st.store.foreign)
  {
    SettledMeansExactlyOnce(st);
    assert st.store.settlement.finalizedCount == |st.store.operations|;
    hide RowShape, Finality, DistinctRequests, EffectsArePrefix;
    forall a | 0 <= a < |st.effects|
      ensures st.effects[a].result.signature !in st.store.foreign
      ensures forall b :: a < b < |st.effects| ==> st.effects[a].result.signature != st.effects[b].result.signature
    {
      assert st.store.operations[a].signature == Some(st.effects[a].result.signature);
      assert SignatureFree(st.store, a, st.effects[a].result.signature);
    }
  }

  /** The check for a second finalization with other evidence can never fail. */
  lemma DifferentEvidenceUnreachable(st: State, w: nat)
    requires Safe(st) && Placed(st) && w in st.workers && st.workers[w].Finalizing?
    ensures var phase := st.workers[w];
            && phase.index < |st.store.operations|
            && FinalizeOperation(st.store, phase.index, phase.result, phase.executed, st.now) != Err(DifferentEvidence)
  {
    var phase := st.workers[w];
    assert PhaseSafe(phase, st.store) && ResultApplied(phase, st.effects);
  }

  // ---------------------------------------------------------------- the main statement

  ghost predicate ExactlyOnceSoFar(st: State) {
    && (forall i :: 0 <= i < |st.store.operations| ==> |EffectsOf(st.effects, st.store.operations[i].planned.requestKey)| <= 1)
    && (forall w :: w in st.workers && st.workers[w].Finalizing? ==>
          && st.workers[w].index < |st.store.operations|
          && FinalizeOperation(st.store, st.workers[w].index, st.workers[w].result, st.workers[w].executed, st.now) != Err(DifferentEvidence))
    && (st.store.settlement.status == Settled ==> |st.effects| == |st.store.operations|)
    && EffectsArePrefix(st.store, st.effects)
  }

  lemma PlacedIsExactlyOnce(st: State)
    requires Safe(st) && Placed(st)
    ensures ExactlyOnceSoFar(st)
  {
    hide StoreSafe, DistinctRequests, EvidenceIsApplied, EffectsOf, FinalizeOperation;
    forall i | 0 <= i < |st.store.operations|
      ensures |EffectsOf(st.effects, st.store.operations[i].planned.requestKey)| <= 1
    {
      AtMostOnce(st, i);
    }
    forall w | w in st.workers && st.workers[w].Finalizing?
      ensures st.workers[w].index < |st.store.operations|
      ensures FinalizeOperation(st.store, st.workers[w].index, st.workers[w].result, st.workers[w].executed, st.now) != Err(DifferentEvidence)
    {
      DifferentEvidenceUnreachable(st, w);
    }
    if st.store.settlement.status == Settled {
      SettledMeansExactlyOnce(st);
    }
  }

  lemma NewOperationsDistinct(plan: seq<Planned>)
    requires forall a, b :: 0 <= a < b < |plan| ==> plan[a].requestKey != plan[b].requestKey
    ensures DistinctRequests(NewOperations(plan))
  {
  }

  lemma StartIsPlaced(facts: RoundFacts, policy: SettlementPolicy, now: int)
    requires Settleable(facts, policy)
    requires DistinctStages(PromisesOf(facts.intents, OutcomesOf(facts.round.transitions)))
    ensures Placed(Start(facts, policy, now))
  {
    PlanKeysDistinct(facts.round, policy, PromisesOf(facts.intents, OutcomesOf(facts.round.transitions)));
    NewOperationsDistinct(ExpectedPlan(facts, policy));
    hide *;
    StartFields(facts, policy, now);
    NothingPlaced(Start(facts, policy, now));
  }

  lemma StartFields(facts: RoundFacts, policy: SettlementPolicy, now: int)
    requires Settleable(facts, policy)
    ensures var st := Start(facts, policy, now);
            && st.store.operations == NewOperations(ExpectedPlan(facts, policy)) && st.effects == [] && st.workers == map[]
            && st.store.settlement.finalizedCount == 0 && st.store.settlement.reason.None? && st.store.settlement.status == Pending
  {
  }

  lemma NothingPlaced(st: State)
    requires DistinctRequests(st.store.operations) && st.effects == [] && st.workers == map[] && st.store.settlement.finalizedCount == 0
    ensures Placed(st)
  {
  }

  /**
   With a truthful provider that deduplicates by request key, every interleaving
   applies at most one effect per operation, in plan order, and never meets
   conflicting evidence; a settled plan has applied every operation exactly once.
   */
  lemma {:induction false} DeduplicatedExactlyOnce(facts: RoundFacts, policy: SettlementPolicy, now: int, steps: seq<Step>)
    requires Settleable(facts, policy) && DistinctStages(PromisesOf(facts.intents, OutcomesOf(facts.round.transitions)))
    requires DeduplicatedRun(Start(facts, policy, now), steps)
    ensures ExactlyOnceSoFar(Run(Start(facts, policy, now), steps))
  {
    var st := Start(facts, policy, now);
    StartIsSafe(facts, policy, now);
    StartIsPlaced(facts, policy, now);
    hide Start, Settleable, Safe, Placed, ExactlyOnceSoFar;
    EveryInterleavingIsSafe(st, steps);
    DeduplicatedRunIsPlaced(st, steps);
    PlacedIsExactlyOnce(Run(st, steps));
  }

  /** The part of a run before step `k`. */
  lemma {:induction false} EffectsAndForeignGrow(st: State, steps: seq<Step>, k: nat)
    requires Safe(st) && k <= |steps|
    ensures Run(st, steps[..k]).effects <= Run(st, steps).effects
    ensures Run(st, steps[..k]).store.foreign <= Run(st, steps).store.foreign
  {
    if k == |steps| {
      assert steps[..k] == steps;
    } else {
      var init := steps[..|steps| - 1];
      assert init[..k] == steps[..k];
      EffectsAndForeignGrow(st, init, k);
      EveryInterleavingIsSafe(st, init);
      hide Safe, StoreSafe, Successor;
      StepGrows(Run(st, init), steps[|steps| - 1]);
    }
  }

  lemma StepGrows(st: State, step: Step)
    requires Safe(st)
    ensures st.effects <= Successor(st, step).effects && st.store.foreign <= Successor(st, step).store.foreign
  {
    StepKeepsStore(st, step);
    hide Safe, StoreSafe, FinalizeOperation, RecordRecovery, Close, ClaimLease, ReleaseLease;
  }

  /**
   A provider that gives two effects one signature, or one that another settlement
   stores, blocks the settlement for ever: at no later moment is it settled.
   */
  lemma {:induction false} SharedSignatureNeverSettles(facts: RoundFacts, policy: SettlementPolicy, now: int, steps: seq<Step>, k: nat)
    requires Settleable(facts, policy) && DistinctStages(PromisesOf(facts.intents, OutcomesOf(facts.round.transitions)))
    requires DeduplicatedRun(Start(facts, policy, now), steps) && k <= |steps|
    requires var earlier := Run(Start(facts, policy, now), steps[..k]); !OwnSignatures(earlier.effects, earlier.store.foreign)
    ensures Run(Start(facts, policy, now), steps).store.settlement.status != Settled
  {
    hide *;
    StartIsSafe(facts, policy, now);
    StartIsPlaced(facts, policy, now);
    SharedNeverSettles(Start(facts, policy, now), steps, k);
  }

  lemma SharedStaysShared(effects: seq<Applied>, foreign: set<string>, effects': seq<Applied>, foreign': set<string>)
    requires effects <= effects' && foreign <= foreign' && OwnSignatures(effects', foreign')
    ensures OwnSignatures(effects, foreign)
  {
    assert forall a :: 0 <= a < |effects| ==> effects[a] == effects'[a];
  }

  lemma {:induction false} SharedNeverSettles(st: State, steps: seq<Step>, k: nat)
    requires Safe(st) && Placed(st) && DeduplicatedRun(st, steps) && k <= |steps|
    requires !OwnSignatures(Run(st, steps[..k]).effects, Run(st, steps[..k]).store.foreign)
    ensures Run(st, steps).store.settlement.status != Settled
  {
    hide *;
    var before, after := Run(st, steps[..k]), Run(st, steps);
    EveryInterleavingIsSafe(st, steps);
    DeduplicatedRunIsPlaced(st, steps);
    EffectsAndForeignGrow(st, steps, k);
    if after.store.settlement.status == Settled {
      SettledSignaturesOwn(after);
      SharedStaysShared(before.effects, before.store.foreign, after.effects, after.store.foreign);
    }
  }
}
