/**
 Every interleaving of settlement workers over one settlement.  A worker is a
 call of resumeFixtureSettlement between two of its transactions or provider
 calls: its program counter and the row it last read are part of the state.
 Nothing is assumed here about clocks, crashes, leases or the provider; the
 theorems add what they need as predicates on single steps.
 */
module SettlementProtocol {
  import opened Support
  import opened Rounds
  import opened SettlementPlan
  import opened SettlementStore

  /** Where a worker is.  `row` is the operation row it read; `index` the operation it works on. */
  datatype Phase =
    | Reading(index: nat)
    | Reconciling(index: nat, row: Operation)
    | Executing(index: nat, row: Operation)
    | Finalizing(index: nat, result: ProviderResult, executed: bool)
    | Recording(index: nat, code: string, mode: RecoveryMode, signature: Option<string>, attempted: bool)
    | Releasing

  /** An effect the provider applied for one request. */
  datatype Applied = Applied(request: Planned, result: ProviderResult)

  datatype State = State(store: Store, effects: seq<Applied>, workers: map<nat, Phase>, issued: nat, now: int)

  /** What the caller sees of an execute call. */
  datatype Response = Returned(result: ProviderResult) | Ambiguous(code: string, signature: Option<string>) | DefinitelyNot(code: string)

  datatype Step =
    | Tick(to: int)
    | Elsewhere(signature: string)
    | Claim
    | Read(worker: nat)
    | Reconcile(worker: nat, answer: Option<ProviderResult>)
    | ReconcileThrows(worker: nat)
    | Execute(worker: nat, effect: Option<ProviderResult>, response: Response)
    | Commit(worker: nat)
    | CommitFails(worker: nat)
    | Release(worker: nat)
    | ReleaseFails(worker: nat)
    | Crash(worker: nat)

  const RESULT_AMBIGUOUS: string := "PROVIDER_RESULT_AMBIGUOUS"

  function MoveTo(st: State, worker: nat, phase: Phase): State {
    st.(workers := st.workers[worker := phase])
  }

  function Finish(st: State, worker: nat): State {
    st.(workers := st.workers - {worker})
  }

  function ReadStep(st: State, worker: nat, i: nat): State {
    if i >= |st.store.operations| then st
    else
      var row := st.store.operations[i];
      MoveTo(st, worker, if row.status == Finalized then Reading(i + 1) else Reconciling(i, row))
  }

  function ReconcileStep(st: State, worker: nat, i: nat, row: Operation, answer: Option<ProviderResult>): State {
    MoveTo(st, worker,
      if answer.Some? then Finalizing(i, answer.value, false)
      else if row.mode == ReconcileOnly then Recording(i, RESULT_AMBIGUOUS, ReconcileOnly, row.signature, false)
      else Executing(i, row))
  }

  function AfterExecute(i: nat, response: Response): Phase {
    match response
    case Returned(result) => Finalizing(i, result, true)
    case Ambiguous(code, signature) => Recording(i, code, ReconcileOnly, signature, true)
    case DefinitelyNot(code) => Recording(i, code, Retryable, None, true)
  }

  function ExecuteStep(st: State, worker: nat, i: nat, row: Operation, effect: Option<ProviderResult>, response: Response): State {
    var effects := if effect.Some? then st.effects + [Applied(row.planned, effect.value)] else st.effects;
    MoveTo(st, worker, AfterExecute(i, response)).(effects := effects)
  }

  /** A transaction that fails throws, and the worker goes on to release its lease. */
  function FinalizeStep(st: State, worker: nat, i: nat, result: ProviderResult, executed: bool): State
    requires i < |st.store.operations|
  {
    match FinalizeOperation(st.store, i, result, executed, st.now)
    case Err(_) => MoveTo(st, worker, Releasing)
    case Ok(store) => MoveTo(st, worker, Reading(i + 1)).(store := store)
  }

  function RecordStep(st: State, worker: nat, i: nat, code: string, mode: RecoveryMode, signature: Option<string>, attempted: bool): State
    requires i < |st.store.operations|
  {
    match RecordRecovery(st.store, i, worker, code, mode, signature, attempted)
    case Err(_) => MoveTo(st, worker, Releasing)
    case Ok(store) => Finish(st, worker).(store := store)
  }

  function CloseStep(st: State, worker: nat): State {
    match Close(st.store, worker, st.now)
    case Err(_) => MoveTo(st, worker, Releasing)
    case Ok(store) => Finish(st, worker).(store := store)
  }

  /** The transaction the worker is about to run: finalize, record, or close once every operation is passed. */
  function CommitStep(st: State, worker: nat, phase: Phase): State {
    match phase
    case Finalizing(i, result, executed) => if i < |st.store.operations| then FinalizeStep(st, worker, i, result, executed) else st
    case Recording(i, code, mode, signature, attempted) =>
      if i < |st.store.operations| then RecordStep(st, worker, i, code, mode, signature, attempted) else st
    case Reading(i) => if i == |st.store.operations| then CloseStep(st, worker) else st
    case _ => st
  }

  predicate InTransaction(phase: Phase, count: nat) {
    phase.Finalizing? || phase.Recording? || (phase.Reading? && phase.index == count)
  }

  /** One step of one worker, or nothing when the worker is not at that point. */
  function WorkerStep(st: State, step: Step, worker: nat, phase: Phase): State {
    match step
    case Read(_) => if phase.Reading? then ReadStep(st, worker, phase.index) else st
    case Reconcile(_, answer) => if phase.Reconciling? then ReconcileStep(st, worker, phase.index, phase.row, answer) else st
    case ReconcileThrows(_) => if phase.Reconciling? then MoveTo(st, worker, Releasing) else st
    case Execute(_, effect, response) =>
      if phase.Executing? then ExecuteStep(st, worker, phase.index, phase.row, effect, response) else st
    case Commit(_) => CommitStep(st, worker, phase)
    case CommitFails(_) => if InTransaction(phase, |st.store.operations|) then MoveTo(st, worker, Releasing) else st
    case Release(_) => if phase.Releasing? then Finish(st, worker).(store := ReleaseLease(st.store, worker)) else st
    case ReleaseFails(_) => if phase.Releasing? then Finish(st, worker) else st
    case Crash(_) => Finish(st, worker)
    case _ => st
  }

  function ClaimStep(st: State): State {
    match ClaimLease(st.store, st.issued, st.now)
    case None => st
    case Some(store) => MoveTo(st, st.issued, Reading(0)).(store := store, issued := st.issued + 1)
  }

  /** Another settlement stores a signature, which the unique index admits unless an operation here holds it. */
  function ElsewhereStep(st: State, signature: string): State {
    if HeldHere(st.store, signature) then st else st.(store := st.store.(foreign := st.store.foreign + {signature}))
  }

  function Successor(st: State, step: Step): State {
    match step
    case Tick(to) => if to >= st.now then st.(now := to) else st
    case Elsewhere(signature) => ElsewhereStep(st, signature)
    case Claim => ClaimStep(st)
    case _ => if step.worker in st.workers then WorkerStep(st, step, step.worker, st.workers[step.worker]) else st
  }

  ghost function Start(facts: RoundFacts, policy: SettlementPolicy, now: int): State
    requires Settleable(facts, policy)
  {
    State(OpenSettlement(facts, policy, ExpectedPlan(facts, policy)), [], map[], 0, now)
  }

  function Run(st: State, steps: seq<Step>): State {
    if steps == [] then st else Successor(Run(st, steps[..|steps| - 1]), steps[|steps| - 1])
  }
}
