/**
 What the settlement promises: exactly-once effects even without provider
 deduplication when no lease is overrun and no executed result is lost, a runtime
 verifier that accepts exactly the right moments, and custody that every applied
 effect respects.
 */
module SettlementTheorems {
  import opened Support
  import opened Treasury
  import opened Rounds
  import opened RoundInvariants
  import opened SettlementPlan
  import opened SettlementCustody
  import opened SettlementStore
  import opened SettlementProtocol
  import opened SettlementSafety
  import opened SettlementEffects
  import opened SettlementLease

  // ---------------------------------------------------------------- exactly once without deduplication

  /** The worker holds the outcome of an execute call that is not in the rows yet. */
  predicate Unrecorded(phase: Phase) {
    (phase.Finalizing? && phase.executed) || (phase.Recording? && phase.mode == ReconcileOnly && phase.attempted)
  }

  /** No crash and no failed transaction falls between an execute call and its recording. */
  ghost predicate NothingLost(st: State, step: Step) {
    (step.Crash? || step.CommitFails?) && step.worker in st.workers ==> !Unrecorded(st.workers[step.worker])
  }

  /** When the outcome of an execute call is recorded, no other row holds the signature it reports. */
  ghost predicate Admitted(st: State, step: Step) {
    step.Commit? && step.worker in st.workers ==>
      && var phase := st.workers[step.worker];
      && (phase.Finalizing? && phase.executed ==> SignatureFree(st.store, phase.index, phase.result.signature))
      && (phase.Recording? && phase.attempted ==> RecoveryFree(st.store, phase.index, phase.signature))
  }

  ghost predicate RecordedRun(st: State, steps: seq<Step>) {
    steps == [] || (
      var init, last := steps[..|steps| - 1], steps[|steps| - 1];
      RecordedRun(st, init) && NothingLost(Run(st, init), last) && Admitted(Run(st, init), last))
  }

  /** An effect past the finalized operations is marked reconcile-only, or its worker is about to record it. */
  ghost predicate Accounted(st: State) {
    var row := st.store.settlement;
    |st.effects| == row.finalizedCount + 1 ==>
      && row.finalizedCount < |st.store.operations|
      && (|| st.store.operations[row.finalizedCount].mode == ReconcileOnly
          || (row.leaseOwner.Some? && row.leaseOwner.value in st.workers && Unrecorded(st.workers[row.leaseOwner.value])))
  }

  lemma AccountedIsNext(st: State, step: Step)
    requires Disciplined(st) && Placed(st) && Accounted(st)
    ensures NextInPlan(st, step)
  {
    if AtExecute(st, step) && step.effect.Some? {
      assert PhaseTidy(st.workers[step.worker], st.store);
    }
  }

  lemma ExecuteKeepsAccounted(st: State, step: Step)
    requires Disciplined(st) && Placed(st) && Accounted(st) && Truthful(st, step) && AtExecute(st, step)
    ensures Accounted(Successor(st, step))
  {
    var phase := st.workers[step.worker];
    assert PhaseTidy(phase, st.store);
    hide StoreSafe, Tidy, EffectsConform, DistinctRequests, EvidenceIsApplied, Known;
  }

  lemma FinalizeKeepsAccounted(st: State, step: Step)
    requires Disciplined(st) && Placed(st) && Accounted(st) && Admitted(st, step)
    requires step.Commit? && step.worker in st.workers && st.workers[step.worker].Finalizing?
    ensures Accounted(Successor(st, step))
  {
    var phase := st.workers[step.worker];
    assert PhaseTidy(phase, st.store) && ResultApplied(phase, st.effects);
    var op := st.store.operations[phase.index];
    assert EvidenceAccepted(op) && op.status != Finalized;
    if phase.executed {
      FinalizingIsAccepted(st, step.worker);
    }
    hide SignatureFree;
    if FinalizeOperation(st.store, phase.index, phase.result, phase.executed, st.now).Ok? {
      FinalizeKeepsTidy(st.store, phase.index, phase.result, phase.executed, st.now);
    }
    hide StoreSafe, Tidy, EffectsConform, DistinctRequests, EvidenceIsApplied;
  }

  lemma RecordKeepsAccounted(st: State, step: Step)
    requires Disciplined(st) && Placed(st) && Accounted(st) && Admitted(st, step)
    requires step.Commit? && step.worker in st.workers && st.workers[step.worker].Recording?
    ensures Accounted(Successor(st, step))
  {
    var phase := st.workers[step.worker];
    assert PhaseTidy(phase, st.store);
    RecordingIsAccepted(st, step.worker);
    hide RecoveryFree;
    assert EvidenceAccepted(st.store.operations[phase.index]);
    hide StoreSafe, EffectsConform, DistinctRequests, EvidenceIsApplied;
  }

  lemma CloseKeepsAccounted(st: State, step: Step)
    requires Disciplined(st) && Placed(st) && Accounted(st)
    requires step.Commit? && step.worker in st.workers && st.workers[step.worker].Reading?
    ensures Accounted(Successor(st, step))
  {
    var phase := st.workers[step.worker];
    assert PhaseSafe(phase, st.store);
    hide StoreSafe, Tidy, EffectsConform, DistinctRequests, EvidenceIsApplied, InventoryAfter;
  }

  lemma OthersKeepAccounted(st: State, step: Step)
    requires Disciplined(st) && Placed(st) && Accounted(st) && NothingLost(st, step)
    requires !AtExecute(st, step) && !(step.Commit? && step.worker in st.workers)
    ensures Accounted(Successor(st, step))
  {
    hide StoreSafe, Tidy, EffectsConform, DistinctRequests, EvidenceIsApplied;
    if step.Claim? && ClaimLease(st.store, st.issued, st.now).Some? {
      assert forall w :: w !in st.workers;
    }
  }

  lemma StepKeepsAccounted(st: State, step: Step)
    requires Disciplined(st) && Placed(st) && Accounted(st) && Truthful(st, step) && NothingLost(st, step) && Admitted(st, step)
    ensures Accounted(Successor(st, step))
  {
    hide Disciplined, Placed, Accounted, Truthful, NothingLost, Admitted;
    if AtExecute(st, step) {
      ExecuteKeepsAccounted(st, step);
    } else if step.Commit? && step.worker in st.workers {
      var phase := st.workers[step.worker];
      if phase.Finalizing? { FinalizeKeepsAccounted(st, step); }
      else if phase.Recording? { RecordKeepsAccounted(st, step); }
      else if phase.Reading? { CloseKeepsAccounted(st, step); }
    } else {
      OthersKeepAccounted(st, step);
    }
  }

  lemma {:induction false} RecordedRunIsPlaced(st: State, steps: seq<Step>)
    requires Disciplined(st) && Placed(st) && Accounted(st) && LeasedRun(st, steps) && RecordedRun(st, steps)
    ensures Placed(Run(st, steps)) && Accounted(Run(st, steps))
  {
    if steps != [] {
      var init, last := steps[..|steps| - 1], steps[|steps| - 1];
      RecordedRunIsPlaced(st, init);
      LeasedRunIsDisciplined(st, init);
      DisciplinedParts(Run(st, init));
      hide Disciplined, Placed, Accounted, Truthful, NothingLost, Admitted, NoOverrun, WellFormed, NextInPlan;
      AccountedIsNext(Run(st, init), last);
      StepKeepsPlaced(Run(st, init), last);
      StepKeepsAccounted(Run(st, init), last);
    }
  }

  lemma StartIsDisciplined(facts: RoundFacts, policy: SettlementPolicy, now: int)
    requires Settleable(facts, policy)
    requires DistinctStages(PromisesOf(facts.intents, OutcomesOf(facts.round.transitions)))
    ensures Disciplined(Start(facts, policy, now)) && Placed(Start(facts, policy, now)) && Accounted(Start(facts, policy, now))
  {
    StartIsSafe(facts, policy, now);
    StartIsPlaced(facts, policy, now);
    StartFields(facts, policy, now);
    hide *;
    FreshIsDisciplined(Start(facts, policy, now), ExpectedPlan(facts, policy));
  }

  lemma FreshIsDisciplined(st: State, plan: seq<Planned>)
    requires Safe(st) && Placed(st)
    requires st.store.operations == NewOperations(plan) && st.effects == [] && st.workers == map[]
    requires st.store.settlement.finalizedCount == 0 && st.store.settlement.reason.None? && st.store.settlement.status == Pending
    ensures Disciplined(st) && Accounted(st)
  {
    hide Finality, RowShape, DistinctRequests;
  }

  /**
   Even a provider that does not deduplicate, and whose reconciliation may lag,
   applies each operation at most once, provided no lease is overrun, nothing
   executed is lost before it is recorded, and no signature it reports for an
   executed call is held by another row.
   */
  lemma {:induction false} RecordedExactlyOnce(facts: RoundFacts, policy: SettlementPolicy, now: int, steps: seq<Step>)
    requires Settleable(facts, policy) && DistinctStages(PromisesOf(facts.intents, OutcomesOf(facts.round.transitions)))
    requires LeasedRun(Start(facts, policy, now), steps) && RecordedRun(Start(facts, policy, now), steps)
    ensures ExactlyOnceSoFar(Run(Start(facts, policy, now), steps))
  {
    var st := Start(facts, policy, now);
    StartIsDisciplined(facts, policy, now);
    hide Start, Settleable, Disciplined, Safe, Placed, Accounted, ExactlyOnceSoFar;
    RecordedRunIsPlaced(st, steps);
    LeasedRunIsDisciplined(st, steps);
    DisciplinedParts(Run(st, steps));
    PlacedIsExactlyOnce(Run(st, steps));
  }

  // ---------------------------------------------------------------- the runtime verifier

  /** The rows still belong to the plan the settlement was opened with. */
  lemma OpenedBindingsHold(facts: RoundFacts, policy: SettlementPolicy, now: int, store: Store)
    requires Settleable(facts, policy) && Progress(Start(facts, policy, now).store, store)
    ensures store.facts == facts
    ensures var plan := ExpectedPlan(facts, policy);
            && store.settlement.request == RequestFor(facts.round, policy, plan)
            && store.settlement.bindings == BindingsFor(facts.round, policy, |plan|)
            && |store.operations| == |plan|
            && forall k :: 0 <= k < |plan| ==> store.operations[k].planned == plan[k]
  {
    hide PromisesVerified;
    var plan, start := ExpectedPlan(facts, policy), Start(facts, policy, now).store;
    forall k | 0 <= k < |plan| ensures store.operations[k].planned == plan[k] {
      assert start.operations[k] == NewOperation(plan[k]);
    }
  }

  lemma TidyIsAccepted(st: State)
    requires Disciplined(st)
    ensures RecoveryAccepted(st.store.settlement, st.store.operations)
    ensures forall k :: 0 <= k < |st.store.operations| ==> EvidenceAccepted(st.store.operations[k])
    ensures st.store.settlement.finalizedCount == CountFinalized(st.store.operations)
    ensures FinalityAccepted(st.store)
    ensures st.store.columns.status != st.store.settlement.status ==>
              st.store.settlement.status == Pending && st.store.columns.status == RecoveryNeeded
  {
    PrefixCount(st.store.operations, st.store.settlement.finalizedCount);
    var row := st.store.settlement;
    if row.status == RecoveryNeeded {
      assert EvidenceAccepted(st.store.operations[row.finalizedCount]);
    }
  }

  /**
   On every leased run, at every moment, crashed and half-finished ones included:
   the verifier accepts the stored rows if and only if the round's status column
   equals the settlement's.
   */
  lemma {:induction false} VerifierAcceptsExactly(facts: RoundFacts, policy: SettlementPolicy, now: int, steps: seq<Step>)
    requires Settleable(facts, policy) && DistinctStages(PromisesOf(facts.intents, OutcomesOf(facts.round.transitions)))
    requires LeasedRun(Start(facts, policy, now), steps)
    ensures var store := Run(Start(facts, policy, now), steps).store;
            Verified(store, policy) <==> store.columns.status == store.settlement.status
  {
    var st := Start(facts, policy, now);
    StartIsDisciplined(facts, policy, now);
    DisciplinedParts(st);
    LeasedRunIsDisciplined(st, steps);
    FinalityIsForever(st, steps);
    var after := Run(st, steps);
    OpenedBindingsHold(facts, policy, now, after.store);
    TidyIsAccepted(after);
    AcceptedIsVerified(facts, policy, after.store);
  }

  lemma AcceptedIsVerified(facts: RoundFacts, policy: SettlementPolicy, store: Store)
    requires Settleable(facts, policy) && store.facts == facts
    requires var plan := ExpectedPlan(facts, policy);
             && store.settlement.request == RequestFor(facts.round, policy, plan)
             && store.settlement.bindings == BindingsFor(facts.round, policy, |plan|)
             && |store.operations| == |plan|
             && forall k :: 0 <= k < |plan| ==> store.operations[k].planned == plan[k]
    requires RecoveryAccepted(store.settlement, store.operations)
    requires forall k :: 0 <= k < |store.operations| ==> EvidenceAccepted(store.operations[k])
    requires store.settlement.finalizedCount == CountFinalized(store.operations)
    requires FinalityAccepted(store)
    ensures Verified(store, policy) <==> store.columns.status == store.settlement.status
  {
    hide RecoveryAccepted, EvidenceAccepted, CountFinalized, FinalityAccepted, ExpectedPlan, PromisesVerified, RequestFor, BindingsFor;
  }

  /** A claimed resume call that returns normally leaves rows the verifier accepts. */
  lemma {:induction false} NormalReturnIsVerified(facts: RoundFacts, policy: SettlementPolicy, now: int, steps: seq<Step>, w: nat)
    requires Settleable(facts, policy) && DistinctStages(PromisesOf(facts.intents, OutcomesOf(facts.round.transitions)))
    requires LeasedRun(Start(facts, policy, now), steps + [Commit(w)])
    requires var before, after := Run(Start(facts, policy, now), steps), Run(Start(facts, policy, now), steps + [Commit(w)]);
             w in before.workers && w !in after.workers
    ensures var store := Run(Start(facts, policy, now), steps + [Commit(w)]).store;
            && Verified(store, policy)
            && (store.settlement.status == Settled || store.settlement.status == RecoveryNeeded)
  {
    var st, all := Start(facts, policy, now), steps + [Commit(w)];
    assert all[..|all| - 1] == steps;
    VerifierAcceptsExactly(facts, policy, now, all);
    StartIsDisciplined(facts, policy, now);
    hide Start, Settleable, Verified, Disciplined, Truthful, NoOverrun, WellFormed;
    LeasedRunIsDisciplined(st, steps);
    EndingCommitAgrees(Run(st, steps), w);
  }

  lemma EndingCommitAgrees(st: State, w: nat)
    requires Disciplined(st) && w in st.workers && w !in Successor(st, Commit(w)).workers
    ensures var store := Successor(st, Commit(w)).store;
            store.columns.status == store.settlement.status && (store.settlement.status == Settled || store.settlement.status == RecoveryNeeded)
  {
    var phase := st.workers[w];
    hide Disciplined, Finality, Tidy;
    if phase.Recording? {
      RecordStepKeepsDisciplined(st, Commit(w));
    } else if phase.Reading? {
      CloseStepKeepsDisciplined(st, Commit(w));
    }
  }

  /** Reading a snapshot never fails its recovery check, whatever the moment it is read. */
  lemma {:induction false} SnapshotNeverFails(facts: RoundFacts, policy: SettlementPolicy, now: int, steps: seq<Step>)
    requires Settleable(facts, policy) && DistinctStages(PromisesOf(facts.intents, OutcomesOf(facts.round.transitions)))
    requires LeasedRun(Start(facts, policy, now), steps)
    ensures var store := Run(Start(facts, policy, now), steps).store;
            RecoveryAccepted(store.settlement, store.operations)
  {
    StartIsDisciplined(facts, policy, now);
    hide Start, Settleable, Disciplined, RecoveryAccepted;
    LeasedRunIsDisciplined(Start(facts, policy, now), steps);
    TidyIsAccepted(Run(Start(facts, policy, now), steps));
  }

  // ---------------------------------------------------------------- custody of applied effects

  function DraftsApplied(effects: seq<Applied>): (drafts: seq<Draft>)
    ensures |drafts| == |effects|
    ensures forall j :: 0 <= j < |effects| ==> drafts[j] == effects[j].request.draft
  {
    if effects == [] then [] else DraftsApplied(effects[..|effects| - 1]) + [effects[|effects| - 1].request.draft]
  }

  lemma ExecutablePrefix(start: Item -> Wallet, drafts: seq<Draft>, applied: seq<Draft>)
    requires Executable(start, drafts) && applied <= drafts
    ensures Executable(start, applied)
  {
    forall m | 0 <= m < |applied| ensures Holder(applied[m].item, start(applied[m].item), applied[..m]) == applied[m].source {
      assert applied[..m] == drafts[..m];
    }
  }

  /** Whatever has been applied so far, each effect found its item with the holder it took it from. */
  lemma {:induction false} AppliedEffectsRespectCustody(facts: RoundFacts, policy: SettlementPolicy, now: int, steps: seq<Step>)
    requires Settleable(facts, policy)
    requires DistinctAssets(PromisesOf(facts.intents, OutcomesOf(facts.round.transitions)))
    requires ExactlyOnceSoFar(Run(Start(facts, policy, now), steps))
    ensures Executable(item => StartHolder(PromisesOf(facts.intents, OutcomesOf(facts.round.transitions)), policy, item),
                       DraftsApplied(Run(Start(facts, policy, now), steps).effects))
  {
    var promises := PromisesOf(facts.intents, OutcomesOf(facts.round.transitions));
    var kind := KindOf(facts.round);
    AppliedArePlanned(facts, policy, now, steps);
    hide Start, ExactlyOnceSoFar, DistinctAssets, StartHolder, AllDrafts, Executable, PromisesOf, DraftsApplied, Run, KindOf;
    PlanExecutable(facts.round.id, kind, policy, facts.round.wallet, facts.round.pot, promises);
    ExecutablePrefix(item => StartHolder(promises, policy, item),
                     AllDrafts(facts.round.id, kind, policy, facts.round.wallet, facts.round.pot, promises),
                     DraftsApplied(Run(Start(facts, policy, now), steps).effects));
  }

  lemma AppliedInPlan(facts: RoundFacts, policy: SettlementPolicy, now: int, st: State)
    requires Settleable(facts, policy) && ExactlyOnceSoFar(st) && Progress(Start(facts, policy, now).store, st.store)
    ensures var promises := PromisesOf(facts.intents, OutcomesOf(facts.round.transitions));
            DraftsApplied(st.effects) <= AllDrafts(facts.round.id, KindOf(facts.round), policy, facts.round.wallet, facts.round.pot, promises)
  {
    hide Start, Progress, ExactlyOnceSoFar, PromisesOf, AllDrafts, OutcomesOf, KindOf, RequestFor, BindingsFor, ExpectedPlan,
         DraftsApplied;
    OpenedBindingsHold(facts, policy, now, st.store);
    PlanDrafts(facts, policy);
    AppliedFollow(st, ExpectedPlan(facts, policy),
                  AllDrafts(facts.round.id, KindOf(facts.round), policy, facts.round.wallet, facts.round.pot,
                            PromisesOf(facts.intents, OutcomesOf(facts.round.transitions))));
  }

  lemma PlanDrafts(facts: RoundFacts, policy: SettlementPolicy)
    requires Settleable(facts, policy)
    ensures var promises := PromisesOf(facts.intents, OutcomesOf(facts.round.transitions));
            var drafts := AllDrafts(facts.round.id, KindOf(facts.round), policy, facts.round.wallet, facts.round.pot, promises);
            var plan := ExpectedPlan(facts, policy);
            |plan| == |drafts| && forall k :: 0 <= k < |plan| ==> plan[k].draft == drafts[k]
  {
    hide PromisesOf, AllDrafts, OutcomesOf;
  }

  lemma AppliedFollow(st: State, plan: seq<Planned>, drafts: seq<Draft>)
    requires ExactlyOnceSoFar(st) && |st.store.operations| == |plan| == |drafts|
    requires forall k :: 0 <= k < |plan| ==> st.store.operations[k].planned == plan[k] && plan[k].draft == drafts[k]
    ensures DraftsApplied(st.effects) <= drafts
  {
    hide EffectsOf, FinalizeOperation;
    assert EffectsArePrefix(st.store, st.effects);
    forall j | 0 <= j < |st.effects| ensures DraftsApplied(st.effects)[j] == drafts[j] {
      assert st.store.operations[j].planned == plan[j];
    }
  }

  lemma {:induction false} AppliedArePlanned(facts: RoundFacts, policy: SettlementPolicy, now: int, steps: seq<Step>)
    requires Settleable(facts, policy)
    requires ExactlyOnceSoFar(Run(Start(facts, policy, now), steps))
    ensures var promises := PromisesOf(facts.intents, OutcomesOf(facts.round.transitions));
            DraftsApplied(Run(Start(facts, policy, now), steps).effects)
            <= AllDrafts(facts.round.id, KindOf(facts.round), policy, facts.round.wallet, facts.round.pot, promises)
  {
    hide *;
    StartIsSafe(facts, policy, now);
    FinalityIsForever(Start(facts, policy, now), steps);
    AppliedInPlan(facts, policy, now, Run(Start(facts, policy, now), steps));
  }

  /** A settled plan has been applied in full. */
  lemma {:induction false} SettledAppliesAll(facts: RoundFacts, policy: SettlementPolicy, now: int, steps: seq<Step>)
    requires Settleable(facts, policy)
    requires ExactlyOnceSoFar(Run(Start(facts, policy, now), steps))
    requires Run(Start(facts, policy, now), steps).store.settlement.status == Settled
    ensures var promises := PromisesOf(facts.intents, OutcomesOf(facts.round.transitions));
            DraftsApplied(Run(Start(facts, policy, now), steps).effects)
            == AllDrafts(facts.round.id, KindOf(facts.round), policy, facts.round.wallet, facts.round.pot, promises)
  {
    var st := Run(Start(facts, policy, now), steps);
    AppliedArePlanned(facts, policy, now, steps);
    StartIsSafe(facts, policy, now);
    FinalityIsForever(Start(facts, policy, now), steps);
    OpenedBindingsHold(facts, policy, now, st.store);
    hide Start, Run, DraftsApplied, PromisesVerified, Progress, Safe;
  }

  /** Two promised assets are not both in session custody after any prefix of the whole plan, proceeds included. */
  lemma OneAssetInPrefix(roundId: string, kind: SettlementKind, policy: SettlementPolicy, player: Wallet, pot: nat, promises: seq<Promised>,
                         applied: seq<Draft>, a: nat, b: nat)
    requires a < b < |promises| && DistinctAssets(promises)
    requires applied <= AllDrafts(roundId, kind, policy, player, pot, promises)
    requires FinalHolder(kind, policy, player) != policy.sessionCustody
    requires forall k :: 0 <= k < |promises| ==> promises[k].source != policy.sessionCustody
    ensures !(Holder(PromisedItem(promises[a].asset), promises[a].source, applied) == policy.sessionCustody
              && Holder(PromisedItem(promises[b].asset), promises[b].source, applied) == policy.sessionCustody)
  {
    var drafts, proceeds := DraftsForPromises(promises, kind, policy, player), ProceedsDrafts(roundId, kind, policy, player, pot);
    if |applied| <= |drafts| {
      assert applied == drafts[..|applied|];
      OneAssetInSession(promises, a, b, kind, policy, player, |applied|);
    } else {
      assert applied == drafts + proceeds;
      HolderAppend(PromisedItem(promises[a].asset), promises[a].source, drafts, proceeds);
      assert !Mentions(proceeds, PromisedItem(promises[a].asset));
      HolderUnmentioned(PromisedItem(promises[a].asset), Holder(PromisedItem(promises[a].asset), promises[a].source, drafts), proceeds);
      AllDelivered(promises, a, kind, policy, player);
      assert drafts[..|drafts|] == drafts;
    }
  }

  /** At no moment do the applied effects leave two promised assets in session custody. */
  lemma {:induction false} OneAssetAtATime(facts: RoundFacts, policy: SettlementPolicy, now: int, steps: seq<Step>, a: nat, b: nat)
    requires Settleable(facts, policy)
    requires var promises := PromisesOf(facts.intents, OutcomesOf(facts.round.transitions));
             && a < b < |promises| && DistinctAssets(promises)
             && forall k :: 0 <= k < |promises| ==> promises[k].source != policy.sessionCustody
    requires FinalHolder(KindOf(facts.round), policy, facts.round.wallet) != policy.sessionCustody
    requires ExactlyOnceSoFar(Run(Start(facts, policy, now), steps))
    ensures var promises := PromisesOf(facts.intents, OutcomesOf(facts.round.transitions));
            var applied := DraftsApplied(Run(Start(facts, policy, now), steps).effects);
            !(Holder(PromisedItem(promises[a].asset), promises[a].source, applied) == policy.sessionCustody
              && Holder(PromisedItem(promises[b].asset), promises[b].source, applied) == policy.sessionCustody)
  {
    var promises := PromisesOf(facts.intents, OutcomesOf(facts.round.transitions));
    AppliedArePlanned(facts, policy, now, steps);
    hide Start, ExactlyOnceSoFar, DistinctAssets, AllDrafts, PromisesOf, DraftsApplied, Run, Holder, FinalHolder;
    OneAssetInPrefix(facts.round.id, KindOf(facts.round), policy, facts.round.wallet, facts.round.pot, promises,
                     DraftsApplied(Run(Start(facts, policy, now), steps).effects), a, b);
  }
}
