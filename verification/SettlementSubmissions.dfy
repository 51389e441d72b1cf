/** What an operation row's submission count counts: the execute calls made for it. */
module SettlementSubmissions {
  import opened Support
  import opened Rounds
  import opened RoundInvariants
  import opened SettlementPlan
  import opened SettlementCustody
  import opened SettlementStore
  import opened SettlementProtocol
  import opened SettlementSafety
  import opened SettlementEffects
  import opened SettlementLease
  import opened SettlementTheorems

  ghost predicate ExecutesFor(st: State, step: Step, i: nat) {
    AtExecute(st, step) && st.workers[step.worker].index == i
  }

  /** The execute calls made for operation `i` in the run. */
  ghost function Executions(st: State, steps: seq<Step>, i: nat): nat {
    if steps == [] then 0
    else
      var init, last := steps[..|steps| - 1], steps[|steps| - 1];
      Executions(st, init, i) + (if ExecutesFor(Run(st, init), last, i) then 1 else 0)
  }

  /** The worker is about to store how an execute call for operation `i` ended. */
  predicate Attempted(phase: Phase, i: nat) {
    match phase
    case Finalizing(k, _, executed) => k == i && executed
    case Recording(k, _, _, _, attempted) => k == i && attempted
    case _ => false
  }

  ghost predicate AttemptPending(st: State, i: nat) {
    exists w :: w in st.workers && Attempted(st.workers[w], i)
  }

  /** How an execute call ended is stored: its worker neither crashes before nor has that transaction refused. */
  ghost predicate OutcomeStored(st: State, step: Step, i: nat) {
    step.Crash? || step.CommitFails? || step.Commit? ==>
      step.worker in st.workers && Attempted(st.workers[step.worker], i) ==>
        && step.Commit?
        && match st.workers[step.worker]
           case Finalizing(k, result, executed) => k < |st.store.operations| && FinalizeOperation(st.store, k, result, executed, st.now).Ok?
           case Recording(k, code, mode, signature, attempted) =>
             k < |st.store.operations| && RecordRecovery(st.store, k, step.worker, code, mode, signature, attempted).Ok?
           case _ => true
  }

  ghost predicate StoredRun(st: State, steps: seq<Step>, i: nat) {
    steps == [] || (StoredRun(st, steps[..|steps| - 1], i) && OutcomeStored(Run(st, steps[..|steps| - 1]), steps[|steps| - 1], i))
  }

  ghost predicate Counted(st: State, i: nat, n: nat) {
    i < |st.store.operations| && st.store.operations[i].submissions + (if AttemptPending(st, i) then 1 else 0) == n
  }

  /** The worker moves to `phase` and its operation's count to the given one; nobody else is in flight. */
  lemma MovedCount(st: State, st': State, worker: nat, i: nat, n: nat)
    requires Disciplined(st) && worker in st.workers && Counted(st, i, n)
    requires st'.workers == st.workers - {worker} || (worker in st'.workers && st'.workers == st.workers[worker := st'.workers[worker]])
    requires |st'.store.operations| == |st.store.operations|
    ensures var before := if Attempted(st.workers[worker], i) then 1 else 0;
            var after := if worker in st'.workers && Attempted(st'.workers[worker], i) then 1 else 0;
            Counted(st', i, st'.store.operations[i].submissions + after) && st.store.operations[i].submissions + before == n
  {
    assert forall w :: w in st.workers ==> w == worker by {
      hide StoreSafe, Tidy;
      forall w | w in st.workers ensures w == worker {
        SoleWorker(st, w, worker);
      }
    }
    hide Disciplined;
  }

  lemma ExecuteCounts(st: State, step: Step, i: nat, n: nat)
    requires Disciplined(st) && Counted(st, i, n) && AtExecute(st, step)
    ensures Counted(Successor(st, step), i, n + (if ExecutesFor(st, step, i) then 1 else 0))
  {
    MovedCount(st, Successor(st, step), step.worker, i, n);
    hide Disciplined, Counted;
  }

  lemma CommitCounts(st: State, step: Step, i: nat, n: nat)
    requires Disciplined(st) && Counted(st, i, n) && OutcomeStored(st, step, i)
    requires step.Commit? && step.worker in st.workers
    ensures Counted(Successor(st, step), i, n)
  {
    var phase := st.workers[step.worker];
    assert PhaseTidy(phase, st.store) && |Successor(st, step).store.operations| == |st.store.operations|;
    assert (phase.Finalizing? || phase.Recording?) ==> st.store.operations[phase.index].status != Finalized by {
      assert Tidy(st.store);
    }
    MovedCount(st, Successor(st, step), step.worker, i, n);
    hide Disciplined, Counted, SignatureFree, RecoveryFree, CountFinalized, InventoryAfter, ReceiptOf, TerminalIntact, AllComplete, Tidy, PhaseTidy;
  }

  lemma WorkerCount(st: State, step: Step, i: nat, n: nat)
    requires Disciplined(st) && Counted(st, i, n) && OutcomeStored(st, step, i) && !AtExecute(st, step) && !step.Commit?
    requires !step.Tick? && !step.Elsewhere? && !step.Claim? && step.worker in st.workers
    ensures Counted(Successor(st, step), i, n)
  {
    MovedCount(st, Successor(st, step), step.worker, i, n);
    hide Disciplined, Counted, CommitStep;
  }

  lemma OthersCount(st: State, step: Step, i: nat, n: nat)
    requires Disciplined(st) && Counted(st, i, n) && OutcomeStored(st, step, i)
    requires !AtExecute(st, step) && !(step.Commit? && step.worker in st.workers)
    ensures Counted(Successor(st, step), i, n)
  {
    if step.Tick? || step.Elsewhere? {
    } else if step.Claim? {
      assert forall w :: w in st.workers ==> w < st.issued by {
        hide StoreSafe;
      }
      hide Disciplined;
      ClaimedCount(st, i, n);
    } else if step.worker in st.workers {
      WorkerCount(st, step, i, n);
    }
  }

  lemma ClaimedCount(st: State, i: nat, n: nat)
    requires Counted(st, i, n) && forall w :: w in st.workers ==> w < st.issued
    ensures Counted(ClaimStep(st), i, n)
  {
    var st' := ClaimStep(st);
    if AttemptPending(st, i) {
      var w :| w in st.workers && Attempted(st.workers[w], i);
      assert w in st'.workers && st'.workers[w] == st.workers[w];
    }
  }

  lemma {:induction false} SubmissionsRun(st: State, steps: seq<Step>, i: nat)
    requires Disciplined(st) && Counted(st, i, 0) && LeasedRun(st, steps) && StoredRun(st, steps, i)
    ensures Counted(Run(st, steps), i, Executions(st, steps, i))
  {
    if steps != [] {
      var init, last := steps[..|steps| - 1], steps[|steps| - 1];
      SubmissionsRun(st, init, i);
      LeasedRunIsDisciplined(st, init);
      var at, n := Run(st, init), Executions(st, init, i);
      hide Disciplined, Counted, OutcomeStored;
      if AtExecute(at, last) {
        ExecuteCounts(at, last, i, n);
      } else if last.Commit? && last.worker in at.workers {
        CommitCounts(at, last, i, n);
      } else {
        OthersCount(at, last, i, n);
      }
    }
  }

  /**
   While leases are kept and every execute call's outcome is stored, an
   operation's submission count is the number of execute calls made for it, but
   for one whose outcome is about to be stored; reconciliation is not counted.
   */
  lemma {:induction false} SubmissionsAreExecutions(facts: RoundFacts, policy: SettlementPolicy, now: int, steps: seq<Step>, i: nat)
    requires Settleable(facts, policy) && DistinctStages(PromisesOf(facts.intents, OutcomesOf(facts.round.transitions)))
    requires LeasedRun(Start(facts, policy, now), steps) && StoredRun(Start(facts, policy, now), steps, i)
    requires i < |ExpectedPlan(facts, policy)|
    ensures var st := Run(Start(facts, policy, now), steps);
            && i < |st.store.operations|
            && st.store.operations[i].submissions + (if AttemptPending(st, i) then 1 else 0) == Executions(Start(facts, policy, now), steps, i)
  {
    var st := Start(facts, policy, now);
    StartIsDisciplined(facts, policy, now);
    StartFields(facts, policy, now);
    hide Start, Settleable, Disciplined, ExpectedPlan;
    SubmissionsRun(st, steps, i);
  }
}
