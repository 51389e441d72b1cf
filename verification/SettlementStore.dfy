/**
 The durable rows of one settlement and the transactions that write them
 (apps/api/src/crash/crash-settlement.service.ts).  A transaction is a function
 of the stored rows: the new rows, or the reason it rolls back.  The database's
 own triggers and checks are part of the transaction.
 */
module SettlementStore {
  import opened Support
  import opened Treasury
  import opened Rounds
  import opened RoundInvariants
  import opened SettlementPlan

  const SETTLEMENT_LEASE_MS: int := 60_000

  datatype OperationStatus = Prepared | Recovering | Finalized

  datatype RecoveryMode = NoRecovery | Retryable | ReconcileOnly

  /** A result hash: the hash of a request and a signature, some other hash, or text of the wrong shape. */
  datatype Digest = DigestOf(request: RequestHash, signature: string) | OtherDigest(text: string) | NotADigest(text: string)

  datatype ProviderResult = ProviderResult(requestKey: RequestKey, digest: Digest, signature: string)

  datatype Operation = Operation(
    planned: Planned, status: OperationStatus, mode: RecoveryMode, failureCode: Option<string>, signature: Option<string>,
    digest: Option<Digest>, evidence: Option<RequestKey>, finalizedAt: Option<int>, submissions: nat)

  datatype RoundBinding = RoundBinding(binding: Binding, player: Wallet, pot: nat, riskRulesHash: string, riskRulesVersion: string)

  datatype TerminalBinding = TerminalBinding(
    id: nat, kind: TransitionKind, outcome: Option<Outcome>, payout: Option<nat>, reason: Option<TerminalReason>,
    potBefore: nat, potAfter: nat)

  /** What the settlement's request hash is taken over. */
  datatype PlanRequest = PlanRequest(
    kind: SettlementKind, plan: seq<Planned>, policy: PolicyBinding, round: RoundBinding, terminal: TerminalBinding)

  datatype Bindings = Bindings(
    roundId: string, terminalId: nat, kind: SettlementKind, player: Wallet, sessionCustody: Wallet, inventoryCustody: Wallet,
    policy: PolicyBinding, binding: Binding, riskRulesHash: string, riskRulesVersion: string, expectedCount: nat)

  datatype ReceiptLine = ReceiptLine(planned: Planned, digest: Option<Digest>, signature: Option<string>)

  /** The canonical receipt; its hash is the receipt itself. */
  datatype Receipt = Receipt(
    policy: PolicyBinding, binding: Binding, riskRulesHash: string, riskRulesVersion: string,
    kind: SettlementKind, lines: seq<ReceiptLine>, roundId: string, terminal: TerminalBinding)

  datatype Reason = Reason(operation: nat, code: string)

  datatype SettlementRow = SettlementRow(
    request: PlanRequest, bindings: Bindings, status: SettlementStatus, finalizedCount: nat, reason: Option<Reason>,
    leaseOwner: Option<nat>, leaseExpiresAt: Option<int>, version: nat,
    receipt: Option<Receipt>, receiptHash: Option<Receipt>, settledAt: Option<int>)

  /** The round's own three settlement columns. */
  datatype RoundColumns = RoundColumns(status: SettlementStatus, receiptHash: Option<Receipt>, settledAt: Option<int>)

  datatype InventoryRow = InventoryRow(
    operation: nat, roundId: string, item: Item, custody: Wallet, value: nat, disposedAt: Option<int>, realized: Option<nat>)

  datatype ForfeitEntry = ForfeitEntry(operation: nat, roundId: string, amount: nat, stage: Option<int>)

  datatype Inventory = Inventory(rows: seq<InventoryRow>, entries: seq<ForfeitEntry>)

  /** The terminal round's rows that the settlement reads and never writes. */
  datatype RoundFacts = RoundFacts(round: Round, intents: seq<Intent>, reservation: Reservation)

  /**
   `foreign` holds the provider signatures stored by the operations of other
   settlements, as far as they matter here: none when the settlement is opened,
   more as the protocol's Elsewhere steps store them.
   */
  datatype Store = Store(
    facts: RoundFacts, settlement: SettlementRow, operations: seq<Operation>, columns: RoundColumns, inventory: Inventory, foreign: set<string>)

  datatype StoreError =
    | BadResult | DifferentEvidence | SignatureChanged | SignatureTaken | RoundSettled | NotComplete | TerminalChanged | InventoryChanged | Raced

  // ---------------------------------------------------------------- opening a settlement

  predicate PolicyMatches(round: Round, policy: SettlementPolicy) {
    && round.binding == policy.binding
    && round.riskRulesHash == policy.riskRulesHash && round.riskRulesVersion == policy.riskRulesVersion
  }

  /** Terminal, bound to the policy, promises verified and the risk reservation released. */
  ghost predicate Settleable(facts: RoundFacts, policy: SettlementPolicy) {
    && facts.round.status != Active
    && facts.round.transitions != [] && LastTransition(facts.round).toStatus != Active
    && PolicyMatches(facts.round, policy)
    && PromisesVerified(facts.round, facts.intents, policy)
    && facts.reservation.status == Released && facts.reservation.riskRulesHash == policy.riskRulesHash
  }

  function LastTransition(round: Round): Transition
    requires round.transitions != []
  {
    round.transitions[|round.transitions| - 1]
  }

  ghost function ExpectedPlan(facts: RoundFacts, policy: SettlementPolicy): seq<Planned>
    requires facts.round.status != Active && PromisesVerified(facts.round, facts.intents, policy)
  {
    PlanOf(facts.round, policy, PromisesOf(facts.intents, OutcomesOf(facts.round.transitions)))
  }

  function TerminalOf(round: Round): TerminalBinding
    requires round.transitions != []
  {
    var t := LastTransition(round);
    TerminalBinding(t.sequence, t.kind, t.outcome, t.payout, t.terminalReason, t.potBefore, t.potAfter)
  }

  function RequestFor(round: Round, policy: SettlementPolicy, plan: seq<Planned>): PlanRequest
    requires round.status != Active && round.transitions != []
  {
    PlanRequest(KindOf(round), plan, policy.bound,
                RoundBinding(round.binding, round.wallet, round.pot, round.riskRulesHash, round.riskRulesVersion), TerminalOf(round))
  }

  function BindingsFor(round: Round, policy: SettlementPolicy, count: nat): Bindings
    requires round.status != Active && round.transitions != []
  {
    Bindings(round.id, LastTransition(round).sequence, KindOf(round), round.wallet, policy.sessionCustody, policy.inventoryCustody,
             policy.bound, round.binding, policy.riskRulesHash, policy.riskRulesVersion, count)
  }

  function NewOperation(planned: Planned): Operation {
    Operation(planned, Prepared, NoRecovery, None, None, None, None, None, 0)
  }

  function NewOperations(plan: seq<Planned>): (operations: seq<Operation>)
    ensures |operations| == |plan|
    ensures forall k :: 0 <= k < |plan| ==> operations[k] == NewOperation(plan[k])
  {
    if plan == [] then [] else NewOperations(plan[..|plan| - 1]) + [NewOperation(plan[|plan| - 1])]
  }

  function OpenSettlement(facts: RoundFacts, policy: SettlementPolicy, plan: seq<Planned>): Store
    requires facts.round.status != Active && facts.round.transitions != []
  {
    var row := SettlementRow(RequestFor(facts.round, policy, plan), BindingsFor(facts.round, policy, |plan|), Pending, 0, None, None, None, 0,
                             None, None, None);
    Store(facts, row, NewOperations(plan), RoundColumns(Pending, None, None), Inventory([], []), {})
  }

  // ---------------------------------------------------------------- the lease

  /** An unsettled settlement whose lease is free or has expired is claimed for a minute. */
  function ClaimLease(store: Store, owner: nat, now: int): Option<Store> {
    var row := store.settlement;
    if row.status != Settled
       && (row.leaseOwner.None? || row.leaseExpiresAt.None? || row.leaseExpiresAt.value <= now)
    then Some(store.(settlement := row.(leaseOwner := Some(owner), leaseExpiresAt := Some(now + SETTLEMENT_LEASE_MS), version := row.version + 1)))
    else None
  }

  function ReleaseLease(store: Store, owner: nat): Store {
    var row := store.settlement;
    if row.leaseOwner == Some(owner) && row.status != Settled
    then store.(settlement := row.(leaseOwner := None, leaseExpiresAt := None, version := row.version + 1))
    else store
  }

  // ---------------------------------------------------------------- finalizing one operation

  function CountFinalized(operations: seq<Operation>): nat {
    if operations == [] then 0
    else CountFinalized(operations[..|operations| - 1]) + (if operations[|operations| - 1].status == Finalized then 1 else 0)
  }

  /** The static checks on a provider result. */
  predicate WellShaped(result: ProviderResult) {
    !result.digest.NotADigest? && result.signature != ""
  }

  function FinalizedRow(op: Operation, result: ProviderResult, executed: bool, now: int): Operation {
    op.(status := Finalized, mode := NoRecovery, failureCode := None, signature := Some(result.signature), digest := Some(result.digest),
        evidence := Some(result.requestKey), finalizedAt := Some(now), submissions := op.submissions + (if executed then 1 else 0))
  }

  /** A recorded signature can never be replaced by a different one. */
  predicate SignatureKept(op: Operation, signature: string) {
    op.signature.Some? ==> op.signature.value == signature
  }

  predicate HeldHere(store: Store, signature: string) {
    exists j :: 0 <= j < |store.operations| && store.operations[j].signature == Some(signature)
  }

  /** No other row of the operation table holds the signature, so its unique index admits it on row `i`. */
  predicate SignatureFree(store: Store, i: nat, signature: string) {
    && signature !in store.foreign
    && forall j :: 0 <= j < |store.operations| && j != i ==> store.operations[j].signature != Some(signature)
  }

  function FinalizeOperation(store: Store, i: nat, result: ProviderResult, executed: bool, now: int): Result<Store, StoreError>
    requires i < |store.operations|
  {
    var op := store.operations[i];
    if !WellShaped(result) || result.requestKey != op.planned.requestKey then Err(BadResult)
    else if op.status == Finalized then
      if op.signature != Some(result.signature) || op.digest != Some(result.digest) then Err(DifferentEvidence) else Ok(store)
    else if !SignatureKept(op, result.signature) then Err(SignatureChanged)
    else if !SignatureFree(store, i, result.signature) then Err(SignatureTaken)
    else
      var operations := store.operations[i := FinalizedRow(op, result, executed, now)];
      var row := store.settlement;
      var row' := if row.status == Settled then row
                  else row.(finalizedCount := CountFinalized(operations), reason := None, status := Pending, version := row.version + 1);
      Ok(store.(operations := operations, settlement := row'))
  }

  // ---------------------------------------------------------------- recording a recovery

  /** The signature a recovery record writes is admitted by the unique index; a missing or empty one is not written. */
  predicate RecoveryFree(store: Store, i: nat, signature: Option<string>) {
    signature.Some? && signature.value != "" ==> SignatureFree(store, i, signature.value)
  }

  function RecoveringRow(op: Operation, code: string, mode: RecoveryMode, signature: Option<string>, attempted: bool): Operation {
    op.(status := Recovering, mode := mode, failureCode := Some(code),
        signature := if signature.Some? && signature.value != "" then signature else op.signature,
        submissions := op.submissions + (if attempted then 1 else 0))
  }

  /** Under the caller's own lease the settlement names the failure and gives the lease up. */
  function RecoveringSettlement(row: SettlementRow, i: nat, owner: nat, code: string): SettlementRow {
    if row.leaseOwner == Some(owner) && row.status != Settled
    then row.(leaseOwner := None, leaseExpiresAt := None, reason := Some(Reason(i, code)), status := RecoveryNeeded, version := row.version + 1)
    else row
  }

  /**
   The operation unless it is final, the settlement only under the caller's own
   lease, and the round always: a settled round's receipt columns make that last
   write break the round's column contract, so the whole transaction fails.
   */
  function RecordRecovery(store: Store, i: nat, owner: nat, code: string, mode: RecoveryMode, signature: Option<string>, attempted: bool)
    : Result<Store, StoreError>
    requires i < |store.operations|
  {
    var op := store.operations[i];
    var op' := if op.status == Finalized then op else RecoveringRow(op, code, mode, signature, attempted);
    var row' := RecoveringSettlement(store.settlement, i, owner, code);
    if op.signature.Some? && op'.signature != op.signature then Err(SignatureChanged)
    else if op.status != Finalized && !RecoveryFree(store, i, signature) then Err(SignatureTaken)
    else if store.columns.receiptHash.Some? || store.columns.settledAt.Some? then Err(RoundSettled)
    else Ok(store.(operations := store.operations[i := op'], settlement := row', columns := store.columns.(status := RecoveryNeeded)))
  }

  // ---------------------------------------------------------------- closing the settlement

  predicate Complete(op: Operation) {
    op.status == Finalized && op.signature.Some? && op.signature.value != "" && op.digest.Some? && op.finalizedAt.Some?
  }

  predicate AllComplete(operations: seq<Operation>) {
    forall k :: 0 <= k < |operations| ==> Complete(operations[k])
  }

  function LineOf(op: Operation): ReceiptLine {
    ReceiptLine(op.planned, op.digest, op.signature)
  }

  function LinesOf(operations: seq<Operation>): (lines: seq<ReceiptLine>)
    ensures |lines| == |operations|
    ensures forall k :: 0 <= k < |operations| ==> lines[k] == LineOf(operations[k])
  {
    if operations == [] then [] else LinesOf(operations[..|operations| - 1]) + [LineOf(operations[|operations| - 1])]
  }

  function ReceiptOf(row: SettlementRow, operations: seq<Operation>, round: Round): Receipt
    requires round.transitions != []
  {
    var b := row.bindings;
    Receipt(b.policy, b.binding, b.riskRulesHash, b.riskRulesVersion, b.kind, LinesOf(operations), b.roundId, TerminalOf(round))
  }

  /** Operations that put a forfeited asset into inventory custody. */
  predicate Forfeits(op: Operation, inventoryCustody: Wallet) {
    op.planned.draft.kind == Transfer && op.planned.draft.stage.Some? && op.planned.draft.destination == inventoryCustody
  }

  predicate SellsFor(candidate: Operation, op: Operation) {
    && candidate.planned.draft.kind == Liquidate
    && candidate.planned.draft.item == op.planned.draft.item && candidate.planned.draft.stage == op.planned.draft.stage
  }

  function FindSale(operations: seq<Operation>, op: Operation): (found: Option<nat>)
    ensures found.Some? ==> found.value < |operations| && SellsFor(operations[found.value], op)
    ensures found.None? ==> forall k :: 0 <= k < |operations| ==> !SellsFor(operations[k], op)
  {
    if operations == [] then None
    else
      var earlier := FindSale(operations[..|operations| - 1], op);
      if earlier.Some? then earlier
      else if SellsFor(operations[|operations| - 1], op) then Some(|operations| - 1) else None
  }

  function FindInventory(rows: seq<InventoryRow>, operation: nat): (found: Option<nat>)
    ensures found.Some? ==> found.value < |rows| && rows[found.value].operation == operation
    ensures found.None? ==> forall k :: 0 <= k < |rows| ==> rows[k].operation != operation
  {
    if rows == [] then None
    else if rows[|rows| - 1].operation == operation then Some(|rows| - 1)
    else FindInventory(rows[..|rows| - 1], operation)
  }

  function NewInventoryRow(op: Operation, operations: seq<Operation>, bindings: Bindings): InventoryRow {
    var sale := FindSale(operations, op);
    InventoryRow(op.planned.sequence, bindings.roundId, op.planned.draft.item, bindings.inventoryCustody, op.planned.draft.amount,
                 if sale.Some? then operations[sale.value].finalizedAt else None,
                 if sale.Some? then Some(operations[sale.value].planned.draft.amount) else None)
  }

  function NewForfeitEntry(op: Operation, bindings: Bindings): ForfeitEntry {
    ForfeitEntry(op.planned.sequence, bindings.roundId, op.planned.draft.amount, op.planned.draft.stage)
  }

  function RecordForfeit(inventory: Inventory, op: Operation, operations: seq<Operation>, bindings: Bindings): Result<Inventory, StoreError> {
    if !Forfeits(op, bindings.inventoryCustody) then Ok(inventory)
    else
      match FindInventory(inventory.rows, op.planned.sequence)
      case Some(j) =>
        var row := inventory.rows[j];
        if row.roundId != bindings.roundId || row.item != op.planned.draft.item || row.custody != bindings.inventoryCustody
        then Err(InventoryChanged) else Ok(inventory)
      case None =>
        Ok(Inventory(inventory.rows + [NewInventoryRow(op, operations, bindings)], inventory.entries + [NewForfeitEntry(op, bindings)]))
  }

  /** The first `n` operations recorded, in order. */
  function RecordForfeits(inventory: Inventory, operations: seq<Operation>, n: nat, bindings: Bindings): Result<Inventory, StoreError>
    requires n <= |operations|
  {
    if n == 0 then Ok(inventory)
    else
      match RecordForfeits(inventory, operations, n - 1, bindings)
      case Err(e) => Err(e)
      case Ok(before) => RecordForfeit(before, operations[n - 1], operations, bindings)
  }

  function InventoryAfter(store: Store): Result<Inventory, StoreError> {
    if store.settlement.bindings.kind == Bust
    then RecordForfeits(store.inventory, store.operations, |store.operations|, store.settlement.bindings)
    else Ok(store.inventory)
  }

  predicate TerminalIntact(facts: RoundFacts, bindings: Bindings) {
    && facts.round.transitions != [] && LastTransition(facts.round).sequence == bindings.terminalId
    && facts.reservation.status == Released && facts.reservation.riskRulesHash == bindings.riskRulesHash
  }

  function Close(store: Store, owner: nat, now: int): Result<Store, StoreError> {
    var row := store.settlement;
    if row.status == Settled then Ok(store)
    else if row.leaseOwner != Some(owner) || |store.operations| != row.bindings.expectedCount || !AllComplete(store.operations) then Err(NotComplete)
    else if !TerminalIntact(store.facts, row.bindings) then Err(TerminalChanged)
    else
      match InventoryAfter(store)
      case Err(e) => Err(e)
      case Ok(inventory) =>
        var receipt := ReceiptOf(row, store.operations, store.facts.round);
        if store.columns.receiptHash.Some? || !(store.columns.status == Pending || store.columns.status == RecoveryNeeded)
           || store.facts.round.status == Active
        then Err(Raced)
        else
          var row' := row.(finalizedCount := row.bindings.expectedCount, leaseOwner := None, leaseExpiresAt := None, receipt := Some(receipt),
                           receiptHash := Some(receipt), reason := None, settledAt := Some(now), status := Settled, version := row.version + 1);
          Ok(store.(settlement := row', columns := RoundColumns(Settled, Some(receipt), Some(now)), inventory := inventory))
  }

  // ---------------------------------------------------------------- the runtime verifier

  /** Exactly one of the three shapes an operation row may have. */
  predicate EvidenceAccepted(op: Operation) {
    || (&& op.status == Finalized && op.mode == NoRecovery && op.failureCode.None?
        && op.signature.Some? && op.signature.value != ""
        && op.digest == Some(DigestOf(op.planned.requestHash, op.signature.value))
        && op.evidence == Some(op.planned.requestKey) && op.finalizedAt.Some?)
    || (&& op.status == Prepared && op.mode == NoRecovery && op.failureCode.None? && op.signature.None?
        && op.digest.None? && op.evidence.None? && op.finalizedAt.None?)
    || (&& op.status == Recovering && op.mode != NoRecovery && op.failureCode.Some? && op.failureCode.value != ""
        && (op.mode == ReconcileOnly || op.signature.None?)
        && op.digest.None? && op.evidence.None? && op.finalizedAt.None?)
  }

  /** Recovery is claimed by exactly one operation, the one the reason names, or by none. */
  ghost predicate RecoveryAccepted(row: SettlementRow, operations: seq<Operation>) {
    if row.status != RecoveryNeeded then
      row.reason.None? && forall k :: 0 <= k < |operations| ==> operations[k].status != Recovering
    else
      && row.reason.Some? && row.reason.value.operation < |operations|
      && var r := row.reason.value;
      && operations[r.operation].status == Recovering && operations[r.operation].failureCode == Some(r.code) && r.code != ""
      && EvidenceAccepted(operations[r.operation])
      && forall k :: 0 <= k < |operations| && k != r.operation ==> operations[k].status != Recovering
  }

  predicate FinalityAccepted(store: Store)
    requires store.facts.round.transitions != []
  {
    var row, columns := store.settlement, store.columns;
    if row.status == Settled then
      var receipt := ReceiptOf(row, store.operations, store.facts.round);
      && CountFinalized(store.operations) == row.bindings.expectedCount && row.reason.None?
      && row.receipt == Some(receipt) && row.receiptHash == Some(receipt) && columns.receiptHash == Some(receipt)
      && row.settledAt.Some? && columns.settledAt == row.settledAt
    else row.receipt.None? && row.receiptHash.None? && row.settledAt.None? && columns.receiptHash.None? && columns.settledAt.None?
  }

  /** The whole runtime check of a stored settlement against a recomputed plan. */
  ghost predicate Verified(store: Store, policy: SettlementPolicy) {
    var round, row := store.facts.round, store.settlement;
    && round.status != Active && round.transitions != [] && LastTransition(round).toStatus != Active
    && PolicyMatches(round, policy) && PromisesVerified(round, store.facts.intents, policy)
    && var plan := ExpectedPlan(store.facts, policy);
    && row.request == RequestFor(round, policy, plan)
    && row.bindings == BindingsFor(round, policy, |plan|)
    && |store.operations| == |plan|
    && (forall k :: 0 <= k < |plan| ==> store.operations[k].planned == plan[k] && EvidenceAccepted(store.operations[k]))
    && row.finalizedCount == CountFinalized(store.operations)
    && store.columns.status == row.status
    && RecoveryAccepted(row, store.operations)
    && FinalityAccepted(store)
  }
}
