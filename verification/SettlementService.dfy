/**
 The settlement worker over mutable tables and the in-memory fixture provider
 (apps/api/src/crash/crash-settlement.service.ts, crash-settlement.provider.ts).
 Each transaction method writes the fields step by step and is proved equal to
 the store transaction it models; a resume call is proved to be a run of the
 protocol.
 */
module SettlementService {
  import opened Support
  import opened Treasury
  import opened Rounds
  import opened RoundInvariants
  import opened SettlementPlan
  import opened SettlementStore
  import opened SettlementProtocol

  class SettlementTables {
    const facts: RoundFacts
    var settlement: SettlementRow
    var operations: seq<Operation>
    var columns: RoundColumns
    var inventory: Inventory
    var foreign: set<string>

    function Rows(): Store
      reads this
    {
      Store(facts, settlement, operations, columns, inventory, foreign)
    }

    constructor (store: Store)
      ensures Rows() == store
    {
      facts, settlement, operations, columns := store.facts, store.settlement, store.operations, store.columns;
      inventory, foreign := store.inventory, store.foreign;
    }

    method ClaimLease(owner: nat, now: int) returns (claimed: bool)
      modifies this`settlement
      ensures claimed == SettlementStore.ClaimLease(old(Rows()), owner, now).Some?
      ensures Rows() == if claimed then SettlementStore.ClaimLease(old(Rows()), owner, now).value else old(Rows())
    {
      claimed := false;
      if settlement.status != Settled {
        if settlement.leaseOwner.None? || settlement.leaseExpiresAt.None? || settlement.leaseExpiresAt.value <= now {
          settlement := settlement.(
            leaseOwner := Some(owner), leaseExpiresAt := Some(now + SETTLEMENT_LEASE_MS), version := settlement.version + 1);
          claimed := true;
        }
      }
    }

    method ReleaseLease(owner: nat)
      modifies this`settlement
      ensures Rows() == SettlementStore.ReleaseLease(old(Rows()), owner)
    {
      if settlement.leaseOwner == Some(owner) && settlement.status != Settled {
        settlement := settlement.(leaseOwner := None, leaseExpiresAt := None, version := settlement.version + 1);
      }
    }

    method CountFinalizedRows() returns (count: nat)
      ensures count == CountFinalized(operations)
    {
      count := 0;
      for k := 0 to |operations|
        invariant count == CountFinalized(operations[..k])
      {
        assert operations[..k + 1][..k] == operations[..k];
        if operations[k].status == Finalized {
          count := count + 1;
        }
      }
      assert operations[..|operations|] == operations;
    }

    /** The unique index on signatures: a scan of every other row of the table. */
    method IndexAdmits(i: nat, signature: string) returns (ok: bool)
      ensures ok <==> SignatureFree(Rows(), i, signature)
    {
      if signature in foreign {
        return false;
      }
      for k := 0 to |operations|
        invariant forall j :: 0 <= j < k && j != i ==> operations[j].signature != Some(signature)
      {
        if k != i && operations[k].signature == Some(signature) {
          return false;
        }
      }
      ok := true;
    }

    method FinalizeOperation(i: nat, result: ProviderResult, executed: bool, now: int) returns (ok: bool)
      requires i < |operations|
      modifies this`operations, this`settlement
      ensures ok == SettlementStore.FinalizeOperation(old(Rows()), i, result, executed, now).Ok?
      ensures Rows() == if ok then SettlementStore.FinalizeOperation(old(Rows()), i, result, executed, now).value else old(Rows())
    {
      var current := operations[i];
      if !WellShaped(result) || result.requestKey != current.planned.requestKey {
        return false;
      }
      if current.status == Finalized {
        return current.signature == Some(result.signature) && current.digest == Some(result.digest);
      }
      if !SignatureKept(current, result.signature) {
        return false;
      }
      var admitted := IndexAdmits(i, result.signature);
      if !admitted {
        return false;
      }
      operations := operations[i := FinalizedRow(current, result, executed, now)];
      var count := CountFinalizedRows();
      if settlement.status != Settled {
        settlement := settlement.(finalizedCount := count, reason := None, status := Pending, version := settlement.version + 1);
      }
      ok := true;
    }

    method RecordRecovery(i: nat, owner: nat, code: string, mode: RecoveryMode, signature: Option<string>, attempted: bool) returns (ok: bool)
      requires i < |operations|
      modifies this`operations, this`settlement, this`columns
      ensures ok == SettlementStore.RecordRecovery(old(Rows()), i, owner, code, mode, signature, attempted).Ok?
      ensures Rows() == if ok then SettlementStore.RecordRecovery(old(Rows()), i, owner, code, mode, signature, attempted).value else old(Rows())
    {
      hide SignatureFree, RecoveringRow, RecoveringSettlement;
      var current := operations[i];
      var next := if current.status == Finalized then current else RecoveringRow(current, code, mode, signature, attempted);
      if current.signature.Some? && next.signature != current.signature {
        return false;
      }
      var admitted := current.status == Finalized || signature.None? || signature.value == "";
      if !admitted {
        admitted := IndexAdmits(i, signature.value);
      }
      if !admitted {
        return false;
      }
      if columns.receiptHash.Some? || columns.settledAt.Some? {
        return false;
      }
      operations := operations[i := next];
      settlement := RecoveringSettlement(settlement, i, owner, code);
      columns := columns.(status := RecoveryNeeded);
      ok := true;
    }

    /** The forfeiture loop; a row from an earlier attempt is kept when it still matches. */
    method RecordBustInventory() returns (r: Result<Inventory, StoreError>)
      ensures r == RecordForfeits(inventory, operations, |operations|, settlement.bindings)
    {
      var recorded := inventory;
      for k := 0 to |operations|
        invariant RecordForfeits(inventory, operations, k, settlement.bindings) == Ok(recorded)
      {
        var operation := operations[k];
        if Forfeits(operation, settlement.bindings.inventoryCustody) {
          var existing := FindInventory(recorded.rows, operation.planned.sequence);
          if existing.Some? {
            var row := recorded.rows[existing.value];
            if row.roundId != settlement.bindings.roundId || row.item != operation.planned.draft.item
               || row.custody != settlement.bindings.inventoryCustody
            {
              RecordForfeitsFails(inventory, operations, k + 1, settlement.bindings);
              return Err(InventoryChanged);
            }
          } else {
            recorded := Inventory(
              recorded.rows + [NewInventoryRow(operation, operations, settlement.bindings)],
              recorded.entries + [NewForfeitEntry(operation, settlement.bindings)]);
          }
        }
      }
      r := Ok(recorded);
    }

    /** The recovery part of the runtime check: no recovering row, or exactly the one the reason names. */
    method VerifyRecovery() returns (ok: bool)
      ensures ok <==> RecoveryAccepted(settlement, operations)
    {
      var recovering: Option<nat> := None;
      for k := 0 to |operations|
        invariant recovering.None? ==> forall j :: 0 <= j < k ==> operations[j].status != Recovering
        invariant recovering.Some? ==> recovering.value < k && operations[recovering.value].status == Recovering
        invariant recovering.Some? ==> forall j :: 0 <= j < k && j != recovering.value ==> operations[j].status != Recovering
      {
        if operations[k].status == Recovering {
          if recovering.Some? {
            return false;
          }
          recovering := Some(k);
        }
      }
      if settlement.status != RecoveryNeeded {
        return recovering.None? && settlement.reason.None?;
      }
      if recovering.None? {
        return false;
      }
      var operation := operations[recovering.value];
      ok := EvidenceAccepted(operation) && settlement.reason == Some(Reason(recovering.value, operation.failureCode.value));
    }

    /** Every stored operation is its planned one, in one of the accepted shapes. */
    method VerifyOperations(plan: seq<Planned>) returns (ok: bool)
      requires |operations| == |plan|
      ensures ok <==> forall k :: 0 <= k < |plan| ==> operations[k].planned == plan[k] && EvidenceAccepted(operations[k])
    {
      for k := 0 to |plan|
        invariant forall j :: 0 <= j < k ==> operations[j].planned == plan[j] && EvidenceAccepted(operations[j])
      {
        if operations[k].planned != plan[k] || !EvidenceAccepted(operations[k]) {
          return false;
        }
      }
      ok := true;
    }

    /** The runtime verifier: the plan is recomputed, then every durable column is compared. */
    method AssertVerifiedSettlement(policy: SettlementPolicy) returns (ok: bool)
      ensures ok <==> Verified(Rows(), policy)
    {
      var round := facts.round;
      if !PolicyMatches(round, policy) || round.transitions == [] || LastTransition(round).toStatus == Active || round.status == Active {
        return false;
      }
      var planned := PlanOperations(round, facts.intents, policy);
      if planned.None? {
        return false;
      }
      var plan := planned.value;
      if settlement.request != RequestFor(round, policy, plan) {
        return false;
      }
      if settlement.bindings != BindingsFor(round, policy, |plan|) || |operations| != |plan| {
        return false;
      }
      var matches := VerifyOperations(plan);
      if !matches {
        return false;
      }
      var count := CountFinalizedRows();
      if settlement.finalizedCount != count || columns.status != settlement.status {
        return false;
      }
      var recovery := VerifyRecovery();
      ok := recovery && FinalityAccepted(Rows());
    }

    method FinalizeSettlement(owner: nat, now: int) returns (ok: bool)
      modifies this`settlement, this`columns, this`inventory
      ensures ok == Close(old(Rows()), owner, now).Ok?
      ensures Rows() == if ok then Close(old(Rows()), owner, now).value else old(Rows())
    {
      if settlement.status == Settled {
        return true;
      }
      if settlement.leaseOwner != Some(owner) || |operations| != settlement.bindings.expectedCount || !AllComplete(operations) {
        return false;
      }
      if !TerminalIntact(facts, settlement.bindings) {
        return false;
      }
      var receipt := ReceiptOf(settlement, operations, facts.round);
      var recorded := inventory;
      if settlement.bindings.kind == Bust {
        var forfeited := RecordBustInventory();
        if forfeited.Err? {
          return false;
        }
        recorded := forfeited.value;
      }
      if columns.receiptHash.Some? || !(columns.status == Pending || columns.status == RecoveryNeeded) || facts.round.status == Active {
        return false;
      }
      inventory := recorded;
      settlement := settlement.(
        finalizedCount := settlement.bindings.expectedCount, leaseOwner := None, leaseExpiresAt := None, receipt := Some(receipt),
        receiptHash := Some(receipt), reason := None, settledAt := Some(now), status := Settled, version := settlement.version + 1);
      columns := RoundColumns(Settled, Some(receipt), Some(now));
      ok := true;
    }
  }

  /** The stored settlement is the one this terminal round and policy would plan again. */
  ghost predicate ReplaysPlan(facts: RoundFacts, policy: SettlementPolicy, stored: Store) {
    && facts.round.status != Active && facts.round.transitions != [] && LastTransition(facts.round).toStatus != Active
    && PolicyMatches(facts.round, policy) && PromisesVerified(facts.round, facts.intents, policy)
    && stored.settlement.request == RequestFor(facts.round, policy, ExpectedPlan(facts, policy))
  }

  /**
   Open the settlement of a terminal round, or recognise the one already stored.
   A settlement is opened exactly when the round is settleable, and a stored one
   is accepted exactly when its plan recomputes.
   */
  method EnsurePlan(facts: RoundFacts, policy: SettlementPolicy, stored: Option<Store>) returns (r: Option<Store>)
    ensures stored.None? ==> (r.Some? <==> Settleable(facts, policy))
    ensures stored.None? && r.Some? ==> r.value == OpenSettlement(facts, policy, ExpectedPlan(facts, policy))
    ensures stored.Some? ==> r == if ReplaysPlan(facts, policy, stored.value) then stored else None
  {
    var round := facts.round;
    if !PolicyMatches(round, policy) || round.transitions == [] || LastTransition(round).toStatus == Active || round.status == Active {
      return None;
    }
    var planned := PlanOperations(round, facts.intents, policy);
    if planned.None? {
      return None;
    }
    if stored.Some? {
      return if stored.value.settlement.request == RequestFor(round, policy, planned.value) then stored else None;
    }
    if facts.reservation.status != Released || facts.reservation.riskRulesHash != policy.riskRulesHash {
      return None;
    }
    r := Some(OpenSettlement(facts, policy, planned.value));
  }

  lemma {:induction false} RecordForfeitsFails(inventory: Inventory, operations: seq<Operation>, n: nat, bindings: Bindings)
    requires n <= |operations| && RecordForfeits(inventory, operations, n, bindings).Err?
    ensures RecordForfeits(inventory, operations, |operations|, bindings) == RecordForfeits(inventory, operations, n, bindings)
    decreases |operations| - n
  {
    if n < |operations| {
      RecordForfeitsFails(inventory, operations, n + 1, bindings);
    }
  }

  /** The fixture's result for a request; `digest` stands for its hash of a request key. */
  function FixtureResult(digest: RequestKey -> string, request: Planned): (result: ProviderResult)
    ensures result.requestKey == request.requestKey && WellShaped(result) && result.digest == DigestOf(request.requestHash, result.signature)
  {
    var signature := "fixture-signature:" + digest(request.requestKey);
    ProviderResult(request.requestKey, DigestOf(request.requestHash, signature), signature)
  }

  /** The keyed effect map of the deterministic fixture provider. */
  class FixtureProvider {
    var results: map<RequestKey, ProviderResult>
    const digest: RequestKey -> string

    constructor (digest: RequestKey -> string)
      ensures results == map[] && this.digest == digest
    {
      results, this.digest := map[], digest;
    }

    method Execute(request: Planned) returns (result: ProviderResult)
      modifies this`results
      ensures result == if request.requestKey in old(results) then old(results)[request.requestKey] else FixtureResult(digest, request)
      ensures results == old(results)[request.requestKey := result]
    {
      if request.requestKey in results {
        result := results[request.requestKey];
      } else {
        result := FixtureResult(digest, request);
        results := results[request.requestKey := result];
      }
    }

    method Reconcile(request: Planned) returns (answer: Option<ProviderResult>)
      ensures answer == if request.requestKey in results then Some(results[request.requestKey]) else None
    {
      answer := if request.requestKey in results then Some(results[request.requestKey]) else None;
    }
  }
}
