/** What the receipt of a settled round shows: the plan, the effects applied for it, and the round's own end. */
module SettlementReceipt {
  import opened Support
  import opened Rounds
  import opened RoundInvariants
  import opened SettlementPlan
  import opened SettlementCustody
  import opened SettlementStore
  import opened SettlementProtocol
  import opened SettlementSafety
  import opened SettlementEffects
  import opened SettlementLease
  import opened SettlementTheorems

  /** Line `k` shows planned operation `k` and the digest and signature of the effect applied for it. */
  ghost predicate LinesShow(lines: seq<ReceiptLine>, plan: seq<Planned>, effects: seq<Applied>) {
    && |lines| == |plan| == |effects|
    && forall k :: 0 <= k < |lines| ==>
         && lines[k].planned == plan[k] == effects[k].request
         && lines[k].digest == Some(effects[k].result.digest) && lines[k].signature == Some(effects[k].result.signature)
  }

  /** The terminal part repeats the round's last transition, the rest its bindings and the policy's. */
  predicate EndShown(receipt: Receipt, round: Round, policy: SettlementPolicy) {
    && round.transitions != []
    && var t, shown := round.transitions[|round.transitions| - 1], receipt.terminal;
    && (shown.id, shown.kind, shown.reason) == (t.sequence, t.kind, t.terminalReason)
    && (shown.payout, shown.outcome) == (t.payout, t.outcome)
    && (shown.potBefore, shown.potAfter) == (t.potBefore, t.potAfter)
    && receipt.roundId == round.id && receipt.binding == round.binding && receipt.policy == policy.bound
    && (receipt.riskRulesHash, receipt.riskRulesVersion) == (round.riskRulesHash, round.riskRulesVersion)
    && (receipt.kind == Bust <==> round.status == Busted || round.status == Defaulted)
  }

  /** Settlement and round hold one and the same receipt, which shows the plan as it was carried out. */
  ghost predicate Receipted(facts: RoundFacts, policy: SettlementPolicy, st: State)
    requires Settleable(facts, policy)
  {
    var row, columns := st.store.settlement, st.store.columns;
    && row.receipt.Some? && row.receiptHash == columns.receiptHash == row.receipt
    && row.settledAt.Some? && columns.settledAt == row.settledAt && columns.status == Settled
    && LinesShow(row.receipt.value.lines, ExpectedPlan(facts, policy), st.effects)
    && EndShown(row.receipt.value, facts.round, policy)
  }

  lemma LinesAreShown(st: State, plan: seq<Planned>)
    requires EvidenceIsApplied(st.store, st.effects) && st.store.settlement.finalizedCount == |st.store.operations| == |st.effects|
    requires |plan| == |st.store.operations| && forall k :: 0 <= k < |plan| ==> st.store.operations[k].planned == plan[k] == st.effects[k].request
    requires st.store.facts.round.transitions != []
    ensures LinesShow(ReceiptOf(st.store.settlement, st.store.operations, st.store.facts.round).lines, plan, st.effects)
  {
  }

  lemma EndIsShown(policy: SettlementPolicy, store: Store, count: nat)
    requires store.facts.round.status != Active && store.facts.round.transitions != [] && PolicyMatches(store.facts.round, policy)
    requires store.settlement.bindings == BindingsFor(store.facts.round, policy, count)
    ensures EndShown(ReceiptOf(store.settlement, store.operations, store.facts.round), store.facts.round, policy)
  {
    hide LinesOf;
  }

  lemma SettleableEnds(facts: RoundFacts, policy: SettlementPolicy)
    requires Settleable(facts, policy)
    ensures facts.round.status != Active && facts.round.transitions != [] && PolicyMatches(facts.round, policy)
  {
    hide PromisesVerified;
  }

  lemma ReceiptedParts(facts: RoundFacts, policy: SettlementPolicy, st: State)
    requires Settleable(facts, policy) && st.store.facts == facts && facts.round.transitions != []
    requires var row, columns, receipt := st.store.settlement, st.store.columns, ReceiptOf(st.store.settlement, st.store.operations, facts.round);
             && row.receipt == Some(receipt) && row.receiptHash == Some(receipt) && columns.receiptHash == Some(receipt)
             && row.settledAt.Some? && columns.settledAt == row.settledAt && columns.status == Settled
             && EndShown(receipt, facts.round, policy)
    requires LinesShow(ReceiptOf(st.store.settlement, st.store.operations, facts.round).lines, ExpectedPlan(facts, policy), st.effects)
    ensures Receipted(facts, policy, st)
  {
    hide LinesShow, EndShown, ExpectedPlan, Settleable, LinesOf;
  }

  lemma SettledIsReceipted(facts: RoundFacts, policy: SettlementPolicy, now: int, st: State)
    requires Settleable(facts, policy) && Progress(Start(facts, policy, now).store, st.store)
    requires Safe(st) && Placed(st) && st.store.settlement.status == Settled
    ensures Receipted(facts, policy, st)
  {
    var plan := ExpectedPlan(facts, policy);
    SettleableEnds(facts, policy);
    hide *;
    OpenedBindingsHold(facts, policy, now, st.store);
    SettledMeansExactlyOnce(st);
    SettledRow(st);
    LinesAreShown(st, plan);
    EndIsShown(policy, st.store, |plan|);
    ReceiptedParts(facts, policy, st);
  }

  lemma SettledRow(st: State)
    requires Safe(st) && Placed(st) && st.store.settlement.status == Settled
    ensures EvidenceIsApplied(st.store, st.effects) && st.store.settlement.finalizedCount == |st.store.operations|
    ensures st.store.facts.round.transitions != [] && st.store.columns.status == Settled
    ensures var row, columns, receipt := st.store.settlement, st.store.columns, ReceiptOf(st.store.settlement, st.store.operations, st.store.facts.round);
            && row.receipt == Some(receipt) && row.receiptHash == Some(receipt) && columns.receiptHash == Some(receipt)
            && row.settledAt.Some? && columns.settledAt == row.settledAt
  {
    hide ReceiptOf, UniqueSignatures, DistinctRequests, EffectsArePrefix, RowShape, CountFinalized;
  }

  /** In every interleaving with a truthful, deduplicating provider a settled settlement's receipt is the evidence of its effects. */
  lemma {:induction false} ReceiptIsEvidence(facts: RoundFacts, policy: SettlementPolicy, now: int, steps: seq<Step>)
    requires Settleable(facts, policy) && DistinctStages(PromisesOf(facts.intents, OutcomesOf(facts.round.transitions)))
    requires DeduplicatedRun(Start(facts, policy, now), steps)
    requires Run(Start(facts, policy, now), steps).store.settlement.status == Settled
    ensures Receipted(facts, policy, Run(Start(facts, policy, now), steps))
  {
    var st := Start(facts, policy, now);
    StartIsSafe(facts, policy, now);
    StartIsPlaced(facts, policy, now);
    hide Start, Settleable, Safe, Placed, Receipted, Progress;
    EveryInterleavingIsSafe(st, steps);
    FinalityIsForever(st, steps);
    DeduplicatedRunIsPlaced(st, steps);
    SettledIsReceipted(facts, policy, now, Run(st, steps));
  }

  /** Without deduplication likewise, under the hypotheses of RecordedExactlyOnce. */
  lemma {:induction false} RecordedReceiptIsEvidence(facts: RoundFacts, policy: SettlementPolicy, now: int, steps: seq<Step>)
    requires Settleable(facts, policy) && DistinctStages(PromisesOf(facts.intents, OutcomesOf(facts.round.transitions)))
    requires LeasedRun(Start(facts, policy, now), steps) && RecordedRun(Start(facts, policy, now), steps)
    requires Run(Start(facts, policy, now), steps).store.settlement.status == Settled
    ensures Receipted(facts, policy, Run(Start(facts, policy, now), steps))
  {
    var st := Start(facts, policy, now);
    StartIsDisciplined(facts, policy, now);
    DisciplinedParts(st);
    hide Start, Settleable, Disciplined, Safe, Placed, Accounted, Receipted, Progress;
    EveryInterleavingIsSafe(st, steps);
    FinalityIsForever(st, steps);
    RecordedRunIsPlaced(st, steps);
    SettledIsReceipted(facts, policy, now, Run(st, steps));
  }

  // ---------------------------------------------------------------- what a plan request pins

  /** The end of a round as a settlement depends on it. */
  predicate SameEnd(a: Round, b: Round)
    requires a.transitions != [] && b.transitions != []
  {
    var s, t := a.transitions[|a.transitions| - 1], b.transitions[|b.transitions| - 1];
    && (s.sequence, s.kind, s.outcome) == (t.sequence, t.kind, t.outcome)
    && (s.payout, s.terminalReason) == (t.payout, t.terminalReason)
    && (s.potBefore, s.potAfter) == (t.potBefore, t.potAfter)
  }

  /** A stored plan is replayed for nothing else: equal requests have the same plan, player, pot, rules, policy and end. */
  lemma RequestPinsRound(a: Round, b: Round, policyA: SettlementPolicy, policyB: SettlementPolicy, planA: seq<Planned>, planB: seq<Planned>)
    requires a.status != Active && a.transitions != [] && b.status != Active && b.transitions != []
    requires RequestFor(a, policyA, planA) == RequestFor(b, policyB, planB)
    ensures planA == planB && policyA.bound == policyB.bound && KindOf(a) == KindOf(b)
    ensures (a.wallet, a.pot, a.binding) == (b.wallet, b.pot, b.binding)
    ensures (a.riskRulesHash, a.riskRulesVersion) == (b.riskRulesHash, b.riskRulesVersion)
    ensures SameEnd(a, b)
  {
    assert TerminalOf(a) == TerminalOf(b);
  }

  // ---------------------------------------------------------------- whatever the rows

  lemma {:induction false} CountAll(operations: seq<Operation>)
    ensures CountFinalized(operations) <= |operations|
    ensures CountFinalized(operations) == |operations| ==> forall k :: 0 <= k < |operations| ==> operations[k].status == Finalized
  {
    if operations != [] {
      CountAll(operations[..|operations| - 1]);
    }
  }

  /** Row `k` is the planned operation carried out: a signature, and the hash of the planned request with it. */
  predicate CarriedOut(op: Operation, planned: Planned) {
    && op.planned == planned && op.status == Finalized && op.mode == NoRecovery && op.failureCode.None?
    && op.signature.Some? && op.signature.value != "" && op.finalizedAt.Some?
    && op.digest == Some(DigestOf(planned.requestHash, op.signature.value)) && op.evidence == Some(planned.requestKey)
  }

  /** The receipt shows those rows line by line. */
  ghost predicate ReceiptShows(receipt: Receipt, operations: seq<Operation>) {
    && |receipt.lines| == |operations|
    && forall k :: 0 <= k < |operations| ==>
         receipt.lines[k] == ReceiptLine(operations[k].planned, operations[k].digest, operations[k].signature)
  }

  /**
   Rows of any origin that the runtime verifier accepts as settled carry out the
   whole recomputed plan, and both receipt columns hold the receipt of those rows.
   */
  lemma {:induction false} AcceptedSettlementIsComplete(store: Store, policy: SettlementPolicy)
    requires Verified(store, policy) && store.settlement.status == Settled
    ensures var plan, row := ExpectedPlan(store.facts, policy), store.settlement;
            && |store.operations| == |plan| && (forall k :: 0 <= k < |plan| ==> CarriedOut(store.operations[k], plan[k]))
            && row.receipt.Some? && ReceiptShows(row.receipt.value, store.operations) && EndShown(row.receipt.value, store.facts.round, policy)
            && row.receiptHash == row.receipt == store.columns.receiptHash
            && store.columns.status == Settled && row.settledAt.Some? && store.columns.settledAt == row.settledAt
  {
    CountAll(store.operations);
    EndIsShown(policy, store, |ExpectedPlan(store.facts, policy)|);
    hide ExpectedPlan, PromisesVerified, RecoveryAccepted, EndShown, RequestFor, BindingsFor;
    AcceptedCount(store, policy);
  }

  lemma AcceptedCount(store: Store, policy: SettlementPolicy)
    requires Verified(store, policy) && store.settlement.status == Settled
    ensures CountFinalized(store.operations) == |store.operations|
  {
    hide ExpectedPlan, PromisesVerified, RecoveryAccepted, RequestFor;
  }

  /** Accepted as open, they carry no receipt, and at most the operation that the reason names is in recovery. */
  lemma AcceptedRecoveryIsNamed(store: Store, policy: SettlementPolicy, k: nat)
    requires Verified(store, policy) && store.settlement.status != Settled && k < |store.operations|
    ensures store.settlement.receipt.None? && store.columns.receiptHash.None? && store.columns.settledAt.None?
    ensures store.operations[k].status == Recovering
            <==> store.settlement.status == RecoveryNeeded && store.settlement.reason.Some? && store.settlement.reason.value.operation == k
    ensures store.operations[k].status == Recovering ==>
              store.operations[k].failureCode == Some(store.settlement.reason.value.code) && store.operations[k].mode != NoRecovery
              && (store.operations[k].mode == ReconcileOnly || store.operations[k].signature.None?)
  {
    hide ExpectedPlan, PromisesVerified, RequestFor, BindingsFor, CountFinalized;
  }
}
