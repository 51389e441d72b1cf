/**
 One call of resumeFixtureSettlement: the claim, the loop over the plan and the
 close, over mutable tables and the keyed provider.  The ghost state is the
 protocol state of SettlementProtocol; the call is proved to be a run of it, with
 any number of other workers suspended at their own points.
 */
module SettlementWorker {
  import opened Support
  import opened Rounds
  import opened SettlementPlan
  import opened SettlementStore
  import opened SettlementProtocol
  import opened SettlementSafety
  import opened SettlementEffects
  import opened SettlementService
  import opened SettlementPasses

  class CrashSettlementService {
    const tables: SettlementTables
    const provider: FixtureProvider
    var nextOwner: nat
    var now: int
    ghost var st: State

    /** The real rows and the provider's map are the protocol state. */
    ghost predicate Valid()
      reads this, tables, provider
    {
      && tables.Rows() == st.store && Mirrors(provider.results, st.effects) && nextOwner == st.issued && now == st.now
      && (forall w :: w in st.workers ==> w < st.issued)
    }

    constructor (store: Store, digest: RequestKey -> string, now: int)
      ensures Valid() && fresh(tables) && fresh(provider) && st == State(store, [], map[], 0, now)
    {
      tables := new SettlementTables(store);
      provider := new FixtureProvider(digest);
      nextOwner, this.now := 0, now;
      st := State(store, [], map[], 0, now);
      new;
    }

    /** The transaction that ends an operation: on failure the lease is released. */
    method FinalizeOrRelease(owner: nat, i: nat, result: ProviderResult, executed: bool, turn: Turn, ghost start: State, ghost before: seq<Step>)
      returns (ok: bool, ghost steps: seq<Step>)
      requires Valid() && owner in st.workers && st.workers[owner] == Finalizing(i, result, executed) && i < |tables.operations|
      requires st == Run(start, before) && DeduplicatedRun(start, before)
      modifies this`st, tables
      ensures Valid() && st == Run(start, steps) && DeduplicatedRun(start, steps)
      ensures ok <==> turn.fault != DatabaseDown && SettlementStore.FinalizeOperation(old(st).store, i, result, executed, old(st).now).Ok?
      ensures tables.Rows() == if ok then SettlementStore.FinalizeOperation(old(st).store, i, result, executed, old(st).now).value
                               else if turn.stranded then old(st).store else SettlementStore.ReleaseLease(old(st).store, owner)
      ensures st.now == old(st).now && st.issued == old(st).issued
      ensures st.workers == if ok then old(st).workers[owner := Reading(i + 1)] else old(st).workers - {owner}
    {
      hide Run, DeduplicatedRun, Mirrors;
      if turn.fault == DatabaseDown {
        ok := false;
        steps := FailAndUnwind(owner, turn.stranded, start, before);
        return;
      }
      ok := tables.FinalizeOperation(i, result, executed, now);
      steps := before + [Commit(owner)];
      DeduplicatedAppend(start, before, Commit(owner));
      st := Successor(st, Commit(owner));
      if !ok {
        steps := Unwind(owner, turn.stranded, start, steps);
      }
    }

    /** The transaction fails as a whole. */
    method FailAndUnwind(owner: nat, stranded: bool, ghost start: State, ghost before: seq<Step>) returns (ghost steps: seq<Step>)
      requires Valid() && owner in st.workers && InTransaction(st.workers[owner], |tables.operations|)
      requires st == Run(start, before) && DeduplicatedRun(start, before)
      modifies this`st, tables
      ensures Valid() && st == Run(start, steps) && DeduplicatedRun(start, steps)
      ensures st.now == old(st).now && st.issued == old(st).issued && st.workers == old(st).workers - {owner}
      ensures tables.Rows() == if stranded then old(st).store else SettlementStore.ReleaseLease(old(st).store, owner)
    {
      hide Run, DeduplicatedRun, Mirrors;
      steps := before + [CommitFails(owner)];
      DeduplicatedAppend(start, before, CommitFails(owner));
      st := Successor(st, CommitFails(owner));
      steps := Unwind(owner, stranded, start, steps);
    }

    /** The catch branch: release the lease, ignoring a failure to, and rethrow. */
    method Unwind(owner: nat, stranded: bool, ghost start: State, ghost before: seq<Step>) returns (ghost steps: seq<Step>)
      requires Valid() && owner in st.workers && st.workers[owner] == Releasing
      requires st == Run(start, before) && DeduplicatedRun(start, before)
      modifies this`st, tables
      ensures Valid() && st == Run(start, steps) && DeduplicatedRun(start, steps)
      ensures st.now == old(st).now && st.issued == old(st).issued && st.workers == old(st).workers - {owner}
      ensures tables.Rows() == if stranded then old(st).store else SettlementStore.ReleaseLease(old(st).store, owner)
    {
      hide Run, DeduplicatedRun, Mirrors;
      if stranded {
        steps := before + [ReleaseFails(owner)];
        DeduplicatedAppend(start, before, ReleaseFails(owner));
        st := Successor(st, ReleaseFails(owner));
        return;
      }
      tables.ReleaseLease(owner);
      steps := before + [Release(owner)];
      DeduplicatedAppend(start, before, Release(owner));
      st := Successor(st, Release(owner));
    }

    method RecordAndStop(owner: nat, i: nat, code: string, mode: RecoveryMode, signature: Option<string>, attempted: bool,
                         turn: Turn, ghost start: State, ghost before: seq<Step>)
      returns (ghost steps: seq<Step>)
      requires Valid() && owner in st.workers && st.workers[owner] == Recording(i, code, mode, signature, attempted) && i < |tables.operations|
      requires st == Run(start, before) && DeduplicatedRun(start, before)
      modifies this`st, tables
      ensures Valid() && st == Run(start, steps) && DeduplicatedRun(start, steps)
      ensures st.now == old(st).now && st.issued == old(st).issued && st.workers == old(st).workers - {owner}
      ensures var recorded := SettlementStore.RecordRecovery(old(st).store, i, owner, code, mode, signature, attempted);
              tables.Rows() == if turn.fault != DatabaseDown && recorded.Ok? then recorded.value
                               else if turn.stranded then old(st).store else SettlementStore.ReleaseLease(old(st).store, owner)
    {
      hide Run, DeduplicatedRun, Mirrors;
      if turn.fault == DatabaseDown {
        steps := FailAndUnwind(owner, turn.stranded, start, before);
        return;
      }
      var ok := tables.RecordRecovery(i, owner, code, mode, signature, attempted);
      steps := before + [Commit(owner)];
      DeduplicatedAppend(start, before, Commit(owner));
      st := Successor(st, Commit(owner));
      if !ok {
        steps := Unwind(owner, turn.stranded, start, steps);
      }
    }

    /** A provider execute call, with the protocol step it amounts to. */
    method CallExecute(owner: nat, i: nat, row: Operation, fault: Fault, ghost start: State, ghost before: seq<Step>)
      returns (response: Response, ghost steps: seq<Step>)
      requires Valid() && owner in st.workers && st.workers[owner] == Executing(i, row)
      requires st == Run(start, before) && DeduplicatedRun(start, before)
      modifies this`st, provider
      ensures Valid() && st == Run(start, steps) && DeduplicatedRun(start, steps)
      ensures st.store == old(st.store) && st.now == old(st).now && st.issued == old(st).issued
      ensures st.workers == old(st).workers[owner := AfterExecute(i, response)]
      ensures match fault
              case Refuses(code) => response == DefinitelyNot(code)
              case DropsCall(code, signature) => response == Ambiguous(code, signature)
              case LosesReply(code, signature) => response == Ambiguous(code, signature)
              case _ => response.Returned?
      ensures provider.results
              == if fault.Refuses? || fault.DropsCall? then old(provider.results)
                 else old(provider.results)[row.planned.requestKey := Answer(old(provider.results), provider.digest, row.planned)]
      ensures response.Returned? ==>
                response.result == Answer(old(provider.results), provider.digest, row.planned)
    {
      hide Run, DeduplicatedRun, Mirrors, Known, KeyApplied, FixtureResult;
      ghost var known := row.planned.requestKey in provider.results;
      ghost var effect: Option<ProviderResult> := None;
      if known {
        MirrorsKnown(provider.results, st.effects, row.planned);
      }
      if fault.Refuses? {
        response := DefinitelyNot(fault.code);
      } else if fault.DropsCall? {
        response := Ambiguous(fault.code, fault.signature);
      } else {
        ghost var results := provider.results;
        var result := provider.Execute(row.planned);
        if !known {
          effect := Some(result);
          MirrorsInsert(results, st.effects, row.planned, result);
        } else {
          assert provider.results == results;
        }
        response := if fault.LosesReply? then Ambiguous(fault.code, fault.signature) else Returned(result);
      }
      ghost var step := Execute(owner, effect, response);
      steps := before + [step];
      DeduplicatedAppend(start, before, step);
      st := Successor(st, step);
    }

    /** The operation row, as the worker reads it. */
    method ReadRow(owner: nat, i: nat, ghost start: State, ghost before: seq<Step>) returns (row: Operation)
      requires Valid() && owner in st.workers && st.workers[owner] == Reading(i) && i < |tables.operations|
      requires st == Run(start, before) && DeduplicatedRun(start, before)
      modifies this`st
      ensures Valid() && st == Run(start, before + [Read(owner)]) && DeduplicatedRun(start, before + [Read(owner)])
      ensures row == tables.operations[i] && st == ReadStep(old(st), owner, i)
    {
      hide Run, DeduplicatedRun, Mirrors;
      row := tables.operations[i];
      DeduplicatedAppend(start, before, Read(owner));
      st := Successor(st, Read(owner));
    }

    /** Execute, then finalize or record what came back. */
    method ExecuteAndSettle(owner: nat, i: nat, row: Operation, turn: Turn, ghost start: State, ghost before: seq<Step>)
      returns (going: bool, ghost steps: seq<Step>)
      requires Valid() && i < |tables.operations| && owner in st.workers && st.workers[owner] == Executing(i, row) && row == tables.operations[i]
      requires st == Run(start, before) && DeduplicatedRun(start, before)
      modifies this`st, provider, tables
      ensures Valid() && st == Run(start, steps) && DeduplicatedRun(start, steps)
      ensures st.now == old(st).now && st.issued == old(st).issued
      ensures st.workers == if going then old(st).workers[owner := Reading(i + 1)] else old(st).workers - {owner}
      ensures going ==> WentOn(old(tables.Rows()), old(provider.results), tables.Rows(), provider.results, provider.digest, i, true, now)
      ensures row.status != Finalized && Finalizable(old(tables.Rows()), i, old(provider.results), provider.digest) ==>
                && (turn.fault.Works? ==> going)
                && (!going && Owned(old(tables.Rows()), owner) && Harmless(turn, Answer(old(provider.results), provider.digest, row.planned)) ==>
                      LeftOpen(old(tables.Rows()), old(provider.results), tables.Rows(), provider.results, provider.digest, i))
    {
      hide Run, DeduplicatedRun, Mirrors, FinalizedRow, CountFinalized, LeftOpen, SettlementStore.RecordRecovery, SettlementStore.ReleaseLease;
      ghost var rows, results := tables.Rows(), provider.results;
      ghost var open := row.status != Finalized && Finalizable(rows, i, results, provider.digest) && Owned(rows, owner)
                        && Harmless(turn, Answer(results, provider.digest, row.planned));
      var response;
      response, steps := CallExecute(owner, i, row, turn.fault, start, before);
      if open {
        ReleaseLeavesOpen(rows, results, provider.results, provider.digest, i, owner);
      }
      match response
      case Returned(result) =>
        going, steps := FinalizeOrRelease(owner, i, result, true, turn, start, steps);
      case Ambiguous(code, signature) =>
        going := false;
        steps := RecordAndStop(owner, i, code, ReconcileOnly, signature, true, turn, start, steps);
        if open && SettlementStore.RecordRecovery(rows, i, owner, code, ReconcileOnly, signature, true).Ok? {
          RecordLeavesOpen(rows, results, provider.results, provider.digest, i, owner, code, ReconcileOnly, signature);
        }
      case DefinitelyNot(code) =>
        going := false;
        steps := RecordAndStop(owner, i, code, Retryable, None, true, turn, start, steps);
        if open && SettlementStore.RecordRecovery(rows, i, owner, code, Retryable, None, true).Ok? {
          RecordLeavesOpen(rows, results, provider.results, provider.digest, i, owner, code, Retryable, None);
        }
    }

    /** Reconcile first; then finalize what was found, stop at an ambiguous effect, or execute. */
    method SettleRead(owner: nat, i: nat, row: Operation, turn: Turn, ghost start: State, ghost before: seq<Step>)
      returns (going: bool, ghost executed: bool, ghost steps: seq<Step>)
      requires Valid() && owner in st.workers && st.workers[owner] == Reconciling(i, row) && i < |tables.operations|
      requires row == tables.operations[i] && row.status != Finalized
      requires st == Run(start, before) && DeduplicatedRun(start, before)
      modifies this`st, provider, tables
      ensures Valid() && st == Run(start, steps) && DeduplicatedRun(start, steps)
      ensures st.now == old(st).now && st.issued == old(st).issued
      ensures st.workers == if going then old(st).workers[owner := Reading(i + 1)] else old(st).workers - {owner}
      ensures going ==> WentOn(old(tables.Rows()), old(provider.results), tables.Rows(), provider.results, provider.digest, i, executed, now)
      ensures Finalizable(old(tables.Rows()), i, old(provider.results), provider.digest) ==>
                && (turn.fault.Works? ==> going)
                && (!going && Owned(old(tables.Rows()), owner) && Harmless(turn, Answer(old(provider.results), provider.digest, row.planned)) ==>
                      LeftOpen(old(tables.Rows()), old(provider.results), tables.Rows(), provider.results, provider.digest, i))
    {
      hide Run, DeduplicatedRun, Mirrors, SettlementStore.FinalizeOperation, Finalizable, FixtureResult, LeftOpen, SettlementStore.ReleaseLease,
           SettlementStore.RecordRecovery;
      if Finalizable(tables.Rows(), i, provider.results, provider.digest) && Owned(tables.Rows(), owner) {
        ReleaseLeavesOpen(tables.Rows(), provider.results, provider.results, provider.digest, i, owner);
      }
      if Finalizable(tables.Rows(), i, provider.results, provider.digest) {
        FinalizableIsAccepted(tables.Rows(), i, provider.results, provider.digest, false, now);
      }
      executed := false;
      if turn.fault.ReconcileDown? {
        going := false;
        steps := Throw(owner, turn.stranded, start, before);
        return;
      }
      var answer := CallReconcile(owner, i, row, start, before);
      steps := before + [Reconcile(owner, answer)];
      if answer.Some? {
        going, steps := FinalizeOrRelease(owner, i, answer.value, false, turn, start, steps);
      } else if row.mode == ReconcileOnly {
        going := false;
        steps := RecordAndStop(owner, i, RESULT_AMBIGUOUS, ReconcileOnly, row.signature, false, turn, start, steps);
      } else {
        executed := true;
        going, steps := ExecuteAndSettle(owner, i, row, turn, start, steps);
      }
    }

    /** Read one operation and carry it to its next durable point. */
    method SettleOne(owner: nat, i: nat, turn: Turn, ghost start: State, ghost before: seq<Step>)
      returns (going: bool, ghost executed: bool, ghost steps: seq<Step>)
      requires Valid() && owner in st.workers && st.workers[owner] == Reading(i) && i < |tables.operations|
      requires st == Run(start, before) && DeduplicatedRun(start, before)
      modifies this`st, provider, tables
      ensures Valid() && st == Run(start, steps) && DeduplicatedRun(start, steps)
      ensures st.now == old(st).now && st.issued == old(st).issued
      ensures st.workers == if going then old(st).workers[owner := Reading(i + 1)] else old(st).workers - {owner}
      ensures going && old(tables.operations[i]).status == Finalized ==>
                tables.Rows() == old(tables.Rows()) && provider.results == old(provider.results)
      ensures going && old(tables.operations[i]).status != Finalized ==>
                WentOn(old(tables.Rows()), old(provider.results), tables.Rows(), provider.results, provider.digest, i, executed, now)
      ensures Finalizable(old(tables.Rows()), i, old(provider.results), provider.digest) ==>
                && (turn.fault.Works? ==> going)
                && (!going && Owned(old(tables.Rows()), owner)
                    && Harmless(turn, Answer(old(provider.results), provider.digest, old(tables.operations[i]).planned)) ==>
                      LeftOpen(old(tables.Rows()), old(provider.results), tables.Rows(), provider.results, provider.digest, i))
      ensures !going ==> old(tables.operations[i]).status != Finalized
    {
      hide Run, DeduplicatedRun, Mirrors, WentOn, Finalizable, LeftOpen, Harmless, Owned;
      executed := false;
      var current := ReadRow(owner, i, start, before);
      steps := before + [Read(owner)];
      if current.status == Finalized {
        return true, executed, steps;
      }
      going, executed, steps := SettleRead(owner, i, current, turn, start, steps);
    }

    method CallReconcile(owner: nat, i: nat, row: Operation, ghost start: State, ghost before: seq<Step>) returns (answer: Option<ProviderResult>)
      requires Valid() && owner in st.workers && st.workers[owner] == Reconciling(i, row)
      requires st == Run(start, before) && DeduplicatedRun(start, before)
      modifies this`st
      ensures Valid() && st == Run(start, before + [Reconcile(owner, answer)]) && DeduplicatedRun(start, before + [Reconcile(owner, answer)])
      ensures st == ReconcileStep(old(st), owner, i, row, answer)
      ensures answer == if row.planned.requestKey in provider.results then Some(provider.results[row.planned.requestKey]) else None
    {
      hide Run, DeduplicatedRun;
      answer := provider.Reconcile(row.planned);
      if answer.Some? {
        MirrorsKnown(provider.results, st.effects, row.planned);
      }
      DeduplicatedAppend(start, before, Reconcile(owner, answer));
      st := Successor(st, Reconcile(owner, answer));
    }

    /** The provider is unreachable before anything was executed. */
    method Throw(owner: nat, stranded: bool, ghost start: State, ghost before: seq<Step>) returns (ghost steps: seq<Step>)
      requires Valid() && owner in st.workers && st.workers[owner].Reconciling?
      requires st == Run(start, before) && DeduplicatedRun(start, before)
      modifies this`st, tables
      ensures Valid() && st == Run(start, steps) && DeduplicatedRun(start, steps)
      ensures st.now == old(st).now && st.issued == old(st).issued && st.workers == old(st).workers - {owner}
      ensures tables.Rows() == if stranded then old(st).store else SettlementStore.ReleaseLease(old(st).store, owner)
    {
      hide Run, DeduplicatedRun, Mirrors;
      steps := before + [ReconcileThrows(owner)];
      DeduplicatedAppend(start, before, ReconcileThrows(owner));
      st := Successor(st, ReconcileThrows(owner));
      steps := Unwind(owner, stranded, start, steps);
    }

    /** Close, or release the lease when the close is refused. */
    method CloseAndStop(owner: nat, turn: Turn, ghost start: State, ghost before: seq<Step>) returns (ok: bool, ghost steps: seq<Step>)
      requires Valid() && owner in st.workers && st.workers[owner] == Reading(|tables.operations|)
      requires st == Run(start, before) && DeduplicatedRun(start, before)
      modifies this`st, tables
      ensures Valid() && st == Run(start, steps) && DeduplicatedRun(start, steps)
      ensures st.now == old(st).now && st.issued == old(st).issued && st.workers == old(st).workers - {owner}
      ensures ok <==> turn.fault != DatabaseDown && Close(old(st).store, owner, old(st).now).Ok?
      ensures ok ==> tables.settlement.status == Settled
      ensures !ok ==> tables.Rows() == if turn.stranded then old(st).store else SettlementStore.ReleaseLease(old(st).store, owner)
    {
      hide Run, DeduplicatedRun, Mirrors, InventoryAfter;
      if turn.fault == DatabaseDown {
        ok := false;
        steps := FailAndUnwind(owner, turn.stranded, start, before);
        return;
      }
      ok := tables.FinalizeSettlement(owner, now);
      steps := before + [Commit(owner)];
      DeduplicatedAppend(start, before, Commit(owner));
      st := Successor(st, Commit(owner));
      if !ok {
        steps := Unwind(owner, turn.stranded, start, steps);
      }
    }

    method Claim() returns (claimed: bool)
      requires Valid()
      modifies this, tables
      ensures Valid() && st == Successor(old(st), SettlementProtocol.Claim)
      ensures claimed == SettlementStore.ClaimLease(old(st).store, old(st).issued, old(st).now).Some?
      ensures !claimed ==> st == old(st)
      ensures provider.results == old(provider.results)
    {
      hide Mirrors;
      claimed := tables.ClaimLease(nextOwner, now);
      st := Successor(st, SettlementProtocol.Claim);
      if claimed {
        nextOwner := nextOwner + 1;
      }
    }

    /** The loop over the plan: it stops early, or leaves every operation passed. */
    method SettleAll(owner: nat, script: seq<Turn>, ghost start: State, ghost before: seq<Step>) returns (going: bool, ghost steps: seq<Step>)
      requires Valid() && owner in st.workers && st.workers[owner] == Reading(0)
      requires st == Run(start, before) && DeduplicatedRun(start, before)
      requires Owned(tables.Rows(), owner)
      modifies this`st, this`now, provider, tables
      ensures Valid() && st == Run(start, steps) && DeduplicatedRun(start, steps)
      ensures st.issued == old(st).issued
      ensures st.workers == if going then old(st).workers[owner := Reading(|tables.operations|)] else old(st).workers - {owner}
      ensures going ==> Owned(tables.Rows(), owner) && tables.inventory == old(tables.inventory)
      ensures going ==> |tables.operations| == |old(tables.operations)|
      ensures Passable(old(tables.Rows()), old(provider.results), provider.digest) ==>
                && (FaultFree(script) ==> going)
                && (going ==> Passable(tables.Rows(), provider.results, provider.digest))
                && (going && CloseReady(old(tables.Rows())) ==> CloseReady(tables.Rows()))
                && (!going && CloseReady(old(tables.Rows())) && HarmlessFrom(script, old(tables.Rows()), old(provider.results), provider.digest, 0) ==>
                      Resumable(tables.Rows(), provider.results, provider.digest))
    {
      hide Run, DeduplicatedRun, Mirrors, Passable, CloseReady, Harmless, SameAhead;
      steps := before;
      ghost var passable := Passable(tables.Rows(), provider.results, provider.digest);
      ghost var harmless := passable && CloseReady(tables.Rows()) && HarmlessFrom(script, tables.Rows(), provider.results, provider.digest, 0);
      var i := 0;
      while i < |tables.operations|
        invariant 0 <= i <= |tables.operations|
        invariant Valid() && st == Run(start, steps) && DeduplicatedRun(start, steps)
        invariant st.issued == old(st).issued
        invariant st.workers == old(st).workers[owner := Reading(i)]
        invariant Owned(tables.Rows(), owner) && tables.inventory == old(tables.inventory)
        invariant |tables.operations| == |old(tables.operations)|
        invariant passable ==> Passable(tables.Rows(), provider.results, provider.digest)
        invariant CloseReady(old(tables.Rows())) ==> CloseReady(tables.Rows())
        invariant harmless ==> HarmlessFrom(script, tables.Rows(), provider.results, provider.digest, i)
        decreases |tables.operations| - i
      {
        ghost var rows, results := tables.Rows(), provider.results;
        going, steps := SettleNext(owner, i, TurnOf(script, i), start, steps);
        if !going {
          return;
        }
        if harmless {
          AheadKeepsHarmless(script, rows, results, tables.Rows(), provider.results, provider.digest, i);
        }
        i := i + 1;
      }
      going := true;
    }

    /** One turn of that loop, some time after the one before. */
    method SettleNext(owner: nat, i: nat, turn: Turn, ghost start: State, ghost before: seq<Step>) returns (going: bool, ghost steps: seq<Step>)
      requires Valid() && owner in st.workers && st.workers[owner] == Reading(i) && i < |tables.operations|
      requires st == Run(start, before) && DeduplicatedRun(start, before)
      modifies this`st, this`now, provider, tables
      ensures Valid() && st == Run(start, steps) && DeduplicatedRun(start, steps)
      ensures st.issued == old(st).issued
      ensures going ==> |tables.operations| == |old(tables.operations)|
      ensures st.workers == if going then old(st).workers[owner := Reading(i + 1)] else old(st).workers - {owner}
      ensures going ==> tables.settlement.leaseOwner == old(tables.settlement.leaseOwner) && tables.inventory == old(tables.inventory)
      ensures going && Owned(old(tables.Rows()), owner) ==> Owned(tables.Rows(), owner)
      ensures going && CloseReady(old(tables.Rows())) ==> CloseReady(tables.Rows())
      ensures Passable(old(tables.Rows()), old(provider.results), provider.digest) ==>
                && (turn.fault.Works? ==> going)
                && (going ==> && Passable(tables.Rows(), provider.results, provider.digest)
                              && SameAhead(old(tables.Rows()), old(provider.results), tables.Rows(), provider.results, provider.digest))
                && (!going && Owned(old(tables.Rows()), owner)
                    && Harmless(turn, Answer(old(provider.results), provider.digest, old(tables.operations[i]).planned)) ==>
                      && Passable(tables.Rows(), provider.results, provider.digest) && tables.settlement.leaseOwner.None?
                      && (CloseReady(old(tables.Rows())) ==> CloseReady(tables.Rows())))
      ensures !going ==> old(tables.operations[i]).status != Finalized
    {
      hide Run, DeduplicatedRun, Mirrors, CountFinalized, FinalizedRow, Ready, SignatureFree, CloseReady, Harmless, Answer;
      ghost var executed;
      ghost var rows, results := tables.Rows(), provider.results;
      steps := Wait(turn.elapsed, start, before);
      going, executed, steps := SettleOne(owner, i, turn, start, steps);
      if going && rows.operations[i].status != Finalized {
        WentOnKeepsCloseReady(rows, results, tables.Rows(), provider.results, provider.digest, i, executed, now);
      }
      if Passable(rows, results, provider.digest) && rows.operations[i].status != Finalized {
        if going {
          PassableKept(rows, results, tables.Rows(), provider.results, provider.digest, i, executed, now);
        } else if Owned(rows, owner) && Harmless(turn, Answer(results, provider.digest, rows.operations[i].planned)) {
          LeftOpenKeeps(rows, results, tables.Rows(), provider.results, provider.digest, i);
        }
      }
    }

    method Wait(elapsed: nat, ghost start: State, ghost before: seq<Step>) returns (ghost steps: seq<Step>)
      requires Valid() && st == Run(start, before) && DeduplicatedRun(start, before)
      modifies this`st, this`now
      ensures Valid() && st == Run(start, steps) && DeduplicatedRun(start, steps)
      ensures st == old(st).(now := old(st).now + elapsed)
    {
      hide Run, DeduplicatedRun, Mirrors;
      now := now + elapsed;
      steps := before + [Tick(now)];
      DeduplicatedAppend(start, before, Tick(now));
      st := Successor(st, Tick(now));
    }

    /** Everything after the claim. */
    method PassAndClose(owner: nat, script: seq<Turn>, ghost start: State, ghost before: seq<Step>) returns (ghost steps: seq<Step>)
      requires Valid() && owner in st.workers && st.workers[owner] == Reading(0) && Owned(tables.Rows(), owner)
      requires Safe(start) && st == Run(start, before) && DeduplicatedRun(start, before)
      modifies this`st, this`now, provider, tables
      ensures Valid() && st == Run(start, steps) && DeduplicatedRun(start, steps)
      ensures st.workers == old(st).workers - {owner}
      ensures Passable(old(tables.Rows()), old(provider.results), provider.digest) && CloseReady(old(tables.Rows())) ==>
                && (FaultFree(script) ==> tables.settlement.status == Settled)
                && (HarmlessFrom(script, old(tables.Rows()), old(provider.results), provider.digest, 0) ==>
                      tables.settlement.status == Settled || Resumable(tables.Rows(), provider.results, provider.digest))
    {
      hide Passable, CloseReady, Mirrors, Safe, Harmless, Run, DeduplicatedRun;
      var going;
      going, steps := SettleAll(owner, script, start, before);
      if !going {
        return;
      }
      var last := TurnOf(script, |tables.operations|);
      steps := Wait(last.elapsed, start, steps);
      CloseWillSucceed(start, steps, owner);
      ghost var passed := tables.Rows();
      going, steps := CloseAndStop(owner, last, start, steps);
      if !going && Passable(passed, provider.results, provider.digest) && CloseReady(passed) {
        ReleaseIsResumable(passed, owner, provider.results, provider.digest);
      }
    }

    /**
     The whole call: a run of the protocol that ends with this worker gone.  When
     nothing fails and nothing is in the way the settlement is settled; when only
     harmless things go wrong it is settled or the next call can settle it.
     */
    method ResumeFixtureSettlement(script: seq<Turn>) returns (claimed: bool, ghost steps: seq<Step>)
      requires Valid() && Safe(st)
      modifies this, tables, provider
      ensures Valid() && st == Run(old(st), steps) && DeduplicatedRun(old(st), steps)
      ensures st.workers == old(st).workers
      ensures claimed == (SettlementStore.ClaimLease(old(st).store, old(st).issued, old(st).now).Some?)
      ensures !claimed ==> st == old(st)
      ensures claimed && Passable(old(tables.Rows()), old(provider.results), provider.digest) && CloseReady(old(tables.Rows())) ==>
                && (FaultFree(script) ==> tables.settlement.status == Settled)
                && (HarmlessFrom(script, old(tables.Rows()), old(provider.results), provider.digest, 0) ==>
                      tables.settlement.status == Settled || Resumable(tables.Rows(), provider.results, provider.digest))
    {
      hide Passable, CloseReady, Mirrors, Safe, Harmless;
      ghost var start, rows := st, tables.Rows();
      steps := [];
      if tables.settlement.status == Settled {
        return false, steps;
      }
      var owner := nextOwner;
      claimed := Claim();
      if !claimed {
        return;
      }
      if Passable(rows, provider.results, provider.digest) {
        ClaimKeepsPassable(rows, owner, start.now, provider.results, provider.digest);
      }
      ClaimIsOwned(rows, owner, start.now);
      DeduplicatedAppend(start, [], SettlementProtocol.Claim);
      steps := [] + [SettlementProtocol.Claim];
      steps := PassAndClose(owner, script, start, steps);
    }

    /**
     Two calls of the reconciler for one settlement: after a first one in which
     only harmless things went wrong, a second one without faults ends it.
     */
    method RetryFixtureSettlement(first: seq<Turn>, second: seq<Turn>) returns (ghost steps: seq<Step>)
      requires Valid() && Safe(st)
      modifies this, tables, provider
      ensures Valid() && st == Run(old(st), steps) && st.workers == old(st).workers
      ensures && SettlementStore.ClaimLease(old(tables.Rows()), old(st).issued, old(st).now).Some?
              && Passable(old(tables.Rows()), old(provider.results), provider.digest) && CloseReady(old(tables.Rows()))
              && HarmlessFrom(first, old(tables.Rows()), old(provider.results), provider.digest, 0) && FaultFree(second) ==>
                tables.settlement.status == Settled
    {
      hide Passable, CloseReady, Mirrors, HarmlessFrom, DeduplicatedRun;
      ghost var start := st;
      var claimed, again;
      ghost var more;
      claimed, steps := ResumeFixtureSettlement(first);
      EveryInterleavingIsSafe(start, steps);
      hide Safe;
      again, more := ResumeFixtureSettlement(second);
      RunConcat(start, steps, more);
      steps := steps + more;
    }
  }

  lemma {:induction false} RunConcat(st: State, steps: seq<Step>, more: seq<Step>)
    ensures Run(Run(st, steps), more) == Run(st, steps + more)
  {
    if more == [] {
      assert steps + more == steps;
    } else {
      var n := |more| - 1;
      RunConcat(st, steps, more[..n]);
      assert (steps + more)[..|steps| + n] == steps + more[..n];
    }
  }

  lemma ClaimIsOwned(store: Store, owner: nat, now: int)
    requires SettlementStore.ClaimLease(store, owner, now).Some?
    ensures Owned(SettlementStore.ClaimLease(store, owner, now).value, owner)
  {
  }

  /** After a full pass the close is accepted, if the rows it depends on are intact. */
  lemma CloseWillSucceed(start: State, steps: seq<Step>, owner: nat)
    requires Safe(start)
    requires var at := Run(start, steps);
             && owner in at.workers && at.workers[owner] == Reading(|at.store.operations|)
             && at.store.settlement.leaseOwner == Some(owner)
    ensures CloseReady(Run(start, steps).store) ==> Close(Run(start, steps).store, owner, Run(start, steps).now).Ok?
  {
    var at := Run(start, steps);
    EveryInterleavingIsSafe(start, steps);
    hide Run;
    assert PhaseSafe(at.workers[owner], at.store);
    if CloseReady(at.store) {
      FinalizedPlanCloses(at.store, owner, at.now);
    }
  }
}
