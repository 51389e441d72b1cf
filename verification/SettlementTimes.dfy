/** The times a settlement records: in plan order, within the run, and none after the settlement's own. */
module SettlementTimes {
  import opened Support
  import opened Rounds
  import opened SettlementPlan
  import opened SettlementStore
  import opened SettlementProtocol
  import opened SettlementSafety

  /** Between the start of the run and now. */
  predicate During(at: Option<int>, start: int, now: int) {
    at.Some? && start <= at.value <= now
  }

  /** Finalized operations carry times of the run that never fall along the plan; the settlement's is no earlier than any. */
  ghost predicate TimesOrdered(st: State, start: int) {
    var operations, row := st.store.operations, st.store.settlement;
    && start <= st.now
    && (forall i :: 0 <= i < |operations| && operations[i].status == Finalized ==> During(operations[i].finalizedAt, start, st.now))
    && (forall i, j :: 0 <= i < j < |operations| && operations[i].status == Finalized && operations[j].status == Finalized ==>
          operations[i].finalizedAt.Some? && operations[j].finalizedAt.Some? && operations[i].finalizedAt.value <= operations[j].finalizedAt.value)
    && (row.status == Settled ==>
          && During(row.settledAt, start, st.now)
          && forall i :: 0 <= i < |operations| && operations[i].finalizedAt.Some? ==> operations[i].finalizedAt.value <= row.settledAt.value)
  }

  lemma FinalizeKeepsTimes(st: State, worker: nat, i: nat, result: ProviderResult, executed: bool, start: int)
    requires Safe(st) && TimesOrdered(st, start) && i < |st.store.operations| && i <= st.store.settlement.finalizedCount
    ensures TimesOrdered(FinalizeStep(st, worker, i, result, executed), start)
  {
    assert st.store.operations[i].status != Finalized ==> st.store.settlement.status != Settled && i == st.store.settlement.finalizedCount;
    assert FinalizedPrefix(st.store.operations, st.store.settlement.finalizedCount);
    hide SignatureFree, CountFinalized, UniqueSignatures, Finality, RowShape, StoreSafe;
  }

  lemma RecordKeepsTimes(st: State, worker: nat, i: nat, code: string, mode: RecoveryMode, signature: Option<string>, attempted: bool, start: int)
    requires Safe(st) && TimesOrdered(st, start) && i < |st.store.operations|
    ensures TimesOrdered(RecordStep(st, worker, i, code, mode, signature, attempted), start)
  {
    hide SignatureFree, RecoveryFree, CountFinalized, UniqueSignatures;
  }

  lemma CloseKeepsTimes(st: State, worker: nat, start: int)
    requires Safe(st) && TimesOrdered(st, start)
    ensures TimesOrdered(CloseStep(st, worker), start)
  {
    hide CountFinalized, UniqueSignatures, InventoryAfter, ReceiptOf, TerminalIntact;
  }

  lemma CommitKeepsTimes(st: State, worker: nat, start: int)
    requires Safe(st) && TimesOrdered(st, start) && worker in st.workers
    ensures TimesOrdered(CommitStep(st, worker, st.workers[worker]), start)
  {
    var phase := st.workers[worker];
    assert PhaseSafe(phase, st.store);
    hide StoreSafe, TimesOrdered, FinalizeStep, RecordStep, CloseStep;
    match phase
    case Finalizing(i, result, executed) => FinalizeKeepsTimes(st, worker, i, result, executed, start);
    case Recording(i, code, mode, signature, attempted) => RecordKeepsTimes(st, worker, i, code, mode, signature, attempted, start);
    case Reading(_) => CloseKeepsTimes(st, worker, start);
    case _ =>
  }

  lemma StepKeepsTimes(st: State, step: Step, start: int)
    requires Safe(st) && TimesOrdered(st, start)
    ensures TimesOrdered(Successor(st, step), start)
  {
    if step.Commit? && step.worker in st.workers {
      CommitKeepsTimes(st, step.worker, start);
      hide CommitStep, Safe, TimesOrdered;
    } else {
      hide CommitStep, StoreSafe, HeldHere, PhaseSafe;
    }
  }

  lemma StartHasNoTimes(facts: RoundFacts, policy: SettlementPolicy, now: int)
    requires Settleable(facts, policy)
    ensures TimesOrdered(Start(facts, policy, now), now)
  {
    hide RequestFor, BindingsFor, ExpectedPlan, PromisesVerified;
  }

  lemma {:induction false} RunKeepsTimes(st: State, steps: seq<Step>, start: int)
    requires Safe(st) && TimesOrdered(st, start)
    ensures TimesOrdered(Run(st, steps), start)
  {
    hide Safe, TimesOrdered, Successor;
    if steps != [] {
      var init := steps[..|steps| - 1];
      RunKeepsTimes(st, init, start);
      EveryInterleavingIsSafe(st, init);
      StepKeepsTimes(Run(st, init), steps[|steps| - 1], start);
    }
  }

  /** In every interleaving the recorded times are ordered as the plan is. */
  lemma {:induction false} TimesFollowPlan(facts: RoundFacts, policy: SettlementPolicy, now: int, steps: seq<Step>)
    requires Settleable(facts, policy)
    ensures TimesOrdered(Run(Start(facts, policy, now), steps), now)
  {
    hide *;
    StartIsSafe(facts, policy, now);
    StartHasNoTimes(facts, policy, now);
    RunKeepsTimes(Start(facts, policy, now), steps, now);
  }
}
