/** What the house inventory holds at the end of every settlement, in every interleaving. */
module SettlementOutcome {
  import opened Support
  import opened Treasury
  import opened Rounds
  import opened RoundInvariants
  import opened SettlementPlan
  import opened SettlementCustody
  import opened SettlementStore
  import opened SettlementInventory
  import opened SettlementProtocol
  import opened SettlementSafety
  import opened SettlementTheorems

  ghost predicate InventoryExact(facts: RoundFacts, policy: SettlementPolicy, store: Store)
    requires Settleable(facts, policy)
  {
    var promises := PromisesOf(facts.intents, OutcomesOf(facts.round.transitions));
    if store.settlement.status == Settled && KindOf(facts.round) == Bust then
      && Recorded(store.inventory, promises, |promises|, policy, store.settlement.bindings)
      && ValueOf(store.inventory.rows) == PromisedValue(promises)
    else store.inventory == Inventory([], [])
  }

  /** Only the transaction that settles touches the inventory. */
  lemma OnlyCloseTouchesInventory(st: State, step: Step)
    requires Safe(st)
    ensures var after := Successor(st, step).store;
            && after.settlement.bindings == st.store.settlement.bindings
            && (|| (after.inventory == st.store.inventory && (after.settlement.status == Settled) == (st.store.settlement.status == Settled))
                || (&& st.store.settlement.status != Settled && after.settlement.status == Settled && AllComplete(st.store.operations)
                    && InventoryAfter(st.store).Ok? && after.inventory == InventoryAfter(st.store).value))
  {
    hide InventoryAfter, FinalizedRow, CountFinalized, RecoveringRow, TerminalIntact, ReceiptOf;
    if step.Commit? && step.worker in st.workers {
      var phase := st.workers[step.worker];
      assert PhaseSafe(phase, st.store);
      SettledHasNothingLeft(st.store);
    }
  }

  lemma SettledHasNothingLeft(store: Store)
    requires StoreSafe(store)
    ensures store.settlement.status == Settled ==> forall k :: 0 <= k < |store.operations| ==> store.operations[k].status == Finalized
    ensures store.settlement.status == Settled <==> store.columns.receiptHash.Some?
  {
  }

  /** The stored operations of a bust are those its promises planned. */
  lemma CompletedBust(facts: RoundFacts, policy: SettlementPolicy, now: int, store: Store)
    requires Settleable(facts, policy) && KindOf(facts.round) == Bust
    requires Progress(Start(facts, policy, now).store, store) && AllComplete(store.operations)
    ensures BustOperations(store.operations, PromisesOf(facts.intents, OutcomesOf(facts.round.transitions)), policy, facts.round.wallet)
    ensures store.settlement.bindings.kind == Bust && store.settlement.bindings.inventoryCustody == policy.inventoryCustody
  {
    hide Progress, Start, PromisesOf, OutcomesOf, DraftsForPromises, BustOperations, ExpectedPlan, KindOf, PlanOf;
    var promises := PromisesOf(facts.intents, OutcomesOf(facts.round.transitions));
    OpenedBindingsHold(facts, policy, now, store);
    BustPlan(facts, policy, promises);
    PlannedBust(store.operations, ExpectedPlan(facts, policy), promises, policy, facts.round.wallet);
  }

  /** A bust plans the drafts of its promises and no proceeds, numbered from one. */
  lemma BustPlan(facts: RoundFacts, policy: SettlementPolicy, promises: seq<Promised>)
    requires Settleable(facts, policy) && KindOf(facts.round) == Bust
    requires promises == PromisesOf(facts.intents, OutcomesOf(facts.round.transitions))
    ensures var plan, drafts := ExpectedPlan(facts, policy), DraftsForPromises(promises, Bust, policy, facts.round.wallet);
            |plan| == |drafts| && forall j :: 0 <= j < |plan| ==> plan[j].draft == drafts[j] && plan[j].sequence == j + 1
  {
    hide PromisesOf, OutcomesOf, DraftsForPromises;
    var drafts := DraftsForPromises(promises, Bust, policy, facts.round.wallet);
    assert AllDrafts(facts.round.id, Bust, policy, facts.round.wallet, facts.round.pot, promises) == drafts;
    var plan := ExpectedPlan(facts, policy);
    assert forall j :: 0 <= j < |drafts| ==> plan[j] == Number(drafts[j], j, policy, facts.round.id);
  }

  lemma PlannedBust(operations: seq<Operation>, plan: seq<Planned>, promises: seq<Promised>, policy: SettlementPolicy, player: Wallet)
    requires |operations| == |plan| == |DraftsForPromises(promises, Bust, policy, player)| && AllComplete(operations)
    requires forall k :: 0 <= k < |plan| ==> operations[k].planned == plan[k]
    requires var drafts := DraftsForPromises(promises, Bust, policy, player);
             forall j :: 0 <= j < |plan| ==> plan[j].draft == drafts[j] && plan[j].sequence == j + 1
    ensures BustOperations(operations, promises, policy, player)
  {
    hide DraftsForPromises;
    forall j | 0 <= j < |operations| ensures operations[j].finalizedAt.Some? {
      assert Complete(operations[j]);
    }
  }

  lemma PayoutKind(facts: RoundFacts, policy: SettlementPolicy, now: int, store: Store)
    requires Settleable(facts, policy) && Progress(Start(facts, policy, now).store, store)
    ensures store.settlement.bindings.kind == KindOf(facts.round)
  {
    OpenedBindingsHold(facts, policy, now, store);
  }

  /** What the closing transaction leaves. */
  lemma {:induction false} ClosedInventory(facts: RoundFacts, policy: SettlementPolicy, now: int, store: Store, after: Store)
    requires Settleable(facts, policy) && DistinctAssets(PromisesOf(facts.intents, OutcomesOf(facts.round.transitions)))
    requires Progress(Start(facts, policy, now).store, store) && store.inventory == Inventory([], [])
    requires AllComplete(store.operations) && InventoryAfter(store).Ok? && after.inventory == InventoryAfter(store).value
    requires after.settlement.bindings == store.settlement.bindings && after.settlement.status == Settled
    ensures InventoryExact(facts, policy, after)
  {
    hide Start, PromisesOf, DistinctAssets, Recorded, ValueOf, PromisedValue, Progress, BustOperations, AllComplete, RecordForfeits;
    PayoutKind(facts, policy, now, store);
    if KindOf(facts.round) == Bust {
      CompletedBust(facts, policy, now, store);
      BustInventoryIsExact(store, PromisesOf(facts.intents, OutcomesOf(facts.round.transitions)), policy, facts.round.wallet);
    }
  }

  lemma UntouchedInventory(facts: RoundFacts, policy: SettlementPolicy, store: Store, after: Store)
    requires Settleable(facts, policy) && InventoryExact(facts, policy, store) && after.inventory == store.inventory
    requires after.settlement.bindings == store.settlement.bindings
    requires (after.settlement.status == Settled) == (store.settlement.status == Settled)
    ensures InventoryExact(facts, policy, after)
  {
    hide Settleable, PromisesOf, Recorded, ValueOf, PromisedValue;
  }

  lemma UnsettledIsEmpty(facts: RoundFacts, policy: SettlementPolicy, store: Store)
    requires Settleable(facts, policy) && InventoryExact(facts, policy, store) && store.settlement.status != Settled
    ensures store.inventory == Inventory([], [])
  {
  }

  lemma {:induction false} StepKeepsInventory(facts: RoundFacts, policy: SettlementPolicy, now: int, st: State, step: Step)
    requires Settleable(facts, policy) && DistinctAssets(PromisesOf(facts.intents, OutcomesOf(facts.round.transitions)))
    requires Safe(st) && Progress(Start(facts, policy, now).store, st.store) && InventoryExact(facts, policy, st.store)
    ensures InventoryExact(facts, policy, Successor(st, step).store)
  {
    hide *;
    var after := Successor(st, step).store;
    OnlyCloseTouchesInventory(st, step);
    if after.inventory == st.store.inventory && (after.settlement.status == Settled) == (st.store.settlement.status == Settled) {
      UntouchedInventory(facts, policy, st.store, after);
    } else {
      UnsettledIsEmpty(facts, policy, st.store);
      ClosedInventory(facts, policy, now, st.store, after);
    }
  }

  /**
   In every interleaving: a settled bust has exactly one inventory row and one
   forfeiture entry per promised asset, in order and worth what was promised,
   disposed exactly when the policy liquidates; before that, and for every
   cash-out, there is none.
   */
  lemma {:induction false} SettlementInventoryIsExact(facts: RoundFacts, policy: SettlementPolicy, now: int, steps: seq<Step>)
    requires Settleable(facts, policy) && DistinctAssets(PromisesOf(facts.intents, OutcomesOf(facts.round.transitions)))
    ensures InventoryExact(facts, policy, Run(Start(facts, policy, now), steps).store)
  {
    var st := Start(facts, policy, now);
    if steps != [] {
      var init := steps[..|steps| - 1];
      SettlementInventoryIsExact(facts, policy, now, init);
      StartIsSafe(facts, policy, now);
      EveryInterleavingIsSafe(st, init);
      FinalityIsForever(st, init);
      hide InventoryExact, Safe, Progress, Start;
      StepKeepsInventory(facts, policy, now, Run(st, init), steps[|steps| - 1]);
    }
  }
}
