/**
 When a pass over the plan goes through, what may go wrong on the way, and why
 a settlement left half-way can still be settled.
 */
module SettlementPasses {
  import opened Support
  import opened Rounds
  import opened SettlementPlan
  import opened SettlementStore
  import opened SettlementProtocol
  import opened SettlementSafety
  import opened SettlementEffects
  import opened SettlementService

  /** What happens to the provider calls of one operation, or to the transaction that follows them. */
  datatype Fault =
    | Works
    | DatabaseDown
    | LosesReply(code: string, signature: Option<string>)
    | DropsCall(code: string, signature: Option<string>)
    | Refuses(code: string)
    | ReconcileDown

  /** The time that passes before one turn of the loop, what goes wrong in it, and whether a release goes wrong too. */
  datatype Turn = Turn(elapsed: nat, fault: Fault, stranded: bool)

  /** The turn of operation `i`; past the plan, that of the close. */
  function TurnOf(script: seq<Turn>, i: nat): Turn {
    if i < |script| then script[i] else Turn(0, Works, false)
  }

  predicate FaultFree(script: seq<Turn>) {
    forall i :: 0 <= i < |script| ==> script[i].fault == Works
  }

  /** The provider's map is its effect log. */
  ghost predicate Mirrors(results: map<RequestKey, ProviderResult>, effects: seq<Applied>) {
    && (forall key :: key in results ==> KeyApplied(effects, key))
    && (forall j :: 0 <= j < |effects| ==>
          effects[j].request.requestKey in results && results[effects[j].request.requestKey] == effects[j].result)
  }

  lemma DeduplicatedAppend(st: State, steps: seq<Step>, step: Step)
    requires DeduplicatedRun(st, steps) && Truthful(Run(st, steps), step) && Deduplicates(Run(st, steps), step)
    ensures DeduplicatedRun(st, steps + [step]) && Run(st, steps + [step]) == Successor(Run(st, steps), step)
  {
    assert (steps + [step])[..|steps|] == steps;
  }

  lemma MirrorsKnown(results: map<RequestKey, ProviderResult>, effects: seq<Applied>, request: Planned)
    requires Mirrors(results, effects) && request.requestKey in results
    ensures Known(effects, request, results[request.requestKey])
  {
    assert KeyApplied(effects, request.requestKey);
    var j :| 0 <= j < |effects| && effects[j].request.requestKey == request.requestKey;
    assert effects[j].result == results[request.requestKey];
  }

  lemma MirrorsInsert(results: map<RequestKey, ProviderResult>, effects: seq<Applied>, request: Planned, result: ProviderResult)
    requires Mirrors(results, effects) && request.requestKey !in results
    ensures Mirrors(results[request.requestKey := result], effects + [Applied(request, result)])
    ensures !KeyApplied(effects, request.requestKey)
  {
    var results', effects' := results[request.requestKey := result], effects + [Applied(request, result)];
    forall key | key in results' ensures KeyApplied(effects', key) {
      if key == request.requestKey {
        assert effects'[|effects|].request.requestKey == key;
      } else {
        assert KeyApplied(effects, key);
        var j :| 0 <= j < |effects| && effects[j].request.requestKey == key;
        assert effects'[j].request.requestKey == key;
      }
    }
  }

  ghost predicate Numbered(operations: seq<Operation>) {
    forall k :: 0 <= k < |operations| ==> operations[k].planned.sequence == k + 1
  }

  /** From an empty inventory the forfeiture loop never meets a conflicting row. */
  lemma {:induction false} NumberedForfeitsAccepted(operations: seq<Operation>, n: nat, bindings: Bindings)
    requires Numbered(operations) && n <= |operations|
    ensures var recorded := RecordForfeits(Inventory([], []), operations, n, bindings);
            recorded.Ok? && forall k :: 0 <= k < |recorded.value.rows| ==> recorded.value.rows[k].operation <= n
  {
    if n > 0 {
      NumberedForfeitsAccepted(operations, n - 1, bindings);
    }
  }

  /** What the close still needs besides finalized operations. */
  ghost predicate CloseReady(store: Store) {
    && store.facts.round.status != Active && TerminalIntact(store.facts, store.settlement.bindings)
    && store.inventory == Inventory([], []) && Numbered(store.operations)
  }

  lemma FinalizedPlanCloses(store: Store, owner: nat, now: int)
    requires StoreSafe(store) && CloseReady(store)
    requires store.settlement.finalizedCount == |store.operations| && store.settlement.leaseOwner == Some(owner)
    ensures Close(store, owner, now).Ok?
  {
    NumberedForfeitsAccepted(store.operations, |store.operations|, store.settlement.bindings);
    assert forall k :: 0 <= k < |store.operations| ==> RowShape(store.operations[k]);
  }

  /** What executing a request returns: the recorded result of its key, or a fresh one. */
  function Answer(results: map<RequestKey, ProviderResult>, digest: RequestKey -> string, request: Planned): ProviderResult {
    if request.requestKey in results then results[request.requestKey] else FixtureResult(digest, request)
  }

  /** The stored signature, if any, is the one the provider answers with, and a reconcile-only effect is there to be found. */
  ghost predicate Ready(op: Operation, results: map<RequestKey, ProviderResult>, digest: RequestKey -> string) {
    op.status != Finalized ==>
      && WellShaped(Answer(results, digest, op.planned)) && Answer(results, digest, op.planned).requestKey == op.planned.requestKey
      && SignatureKept(op, Answer(results, digest, op.planned).signature)
      && (op.mode == ReconcileOnly ==> op.planned.requestKey in results)
  }

  /** Operation `i` is ready and, unless it is final, the unique index admits the signature the provider answers with. */
  ghost predicate Finalizable(store: Store, i: nat, results: map<RequestKey, ProviderResult>, digest: RequestKey -> string)
    requires i < |store.operations|
  {
    var op := store.operations[i];
    && Ready(op, results, digest)
    && (op.status != Finalized ==> SignatureFree(store, i, Answer(results, digest, op.planned).signature))
  }

  lemma FinalizableIsAccepted(store: Store, i: nat, results: map<RequestKey, ProviderResult>, digest: RequestKey -> string, executed: bool, now: int)
    requires i < |store.operations| && store.operations[i].status != Finalized && Finalizable(store, i, results, digest)
    ensures SettlementStore.FinalizeOperation(store, i, Answer(results, digest, store.operations[i].planned), executed, now).Ok?
    ensures store.operations[i].mode == ReconcileOnly ==> store.operations[i].planned.requestKey in results
  {
    hide SignatureFree, Answer, CountFinalized;
  }

  /** A fault-free pass can go through: the answers it will get carry signatures of their own. */
  ghost predicate Passable(store: Store, results: map<RequestKey, ProviderResult>, digest: RequestKey -> string) {
    && (forall j :: 0 <= j < |store.operations| ==> Finalizable(store, j, results, digest))
    && (forall j, k :: 0 <= j < k < |store.operations| && store.operations[k].status != Finalized ==>
          Answer(results, digest, store.operations[j].planned).signature != Answer(results, digest, store.operations[k].planned).signature)
  }

  /**
   The turn leaves an unfinalized operation as it should be left: the lease is
   released, and a reply that is lost carries no signature or the right one.
   What may still happen is a definite refusal, an unreachable reconciliation,
   a failed transaction, or such a lost reply; a call dropped without a trace may not.
   */
  predicate Harmless(turn: Turn, answer: ProviderResult) {
    && !turn.stranded
    && match turn.fault
       case DropsCall(_, _) => false
       case LosesReply(_, signature) => signature.Some? && signature.value != "" ==> signature.value == answer.signature
       case _ => true
  }

  /** Every turn of the script that meets an unfinalized operation from `from` on is harmless, and so is the close. */
  ghost predicate HarmlessFrom(script: seq<Turn>, store: Store, results: map<RequestKey, ProviderResult>, digest: RequestKey -> string, from: nat) {
    && !TurnOf(script, |store.operations|).stranded
    && forall j :: from <= j < |store.operations| && store.operations[j].status != Finalized ==>
         Harmless(TurnOf(script, j), Answer(results, digest, store.operations[j].planned))
  }

  /** What an operation that goes on has done: its row finalized with the provider's answer, which the map now holds. */
  predicate WentOn(store: Store, results: map<RequestKey, ProviderResult>, store': Store, results': map<RequestKey, ProviderResult>,
                   digest: RequestKey -> string, i: nat, executed: bool, now: int)
    requires i < |store.operations|
  {
    var result := Answer(results, digest, store.operations[i].planned);
    var finalized := SettlementStore.FinalizeOperation(store, i, result, executed, now);
    && finalized.Ok? && store' == finalized.value
    && results' == results[store.operations[i].planned.requestKey := result]
  }

  /** Whatever is still unfinalized is the operation it was and will be answered as before. */
  ghost predicate SameAhead(store: Store, results: map<RequestKey, ProviderResult>, store': Store, results': map<RequestKey, ProviderResult>,
                            digest: RequestKey -> string) {
    && |store'.operations| == |store.operations|
    && forall j :: 0 <= j < |store'.operations| && store'.operations[j].status != Finalized ==>
         && store'.operations[j] == store.operations[j]
         && Answer(results', digest, store.operations[j].planned) == Answer(results, digest, store.operations[j].planned)
  }

  /** Finalizing operation `i` leaves the pass as open as it was. */
  lemma PassableKept(store: Store, results: map<RequestKey, ProviderResult>, store': Store, results': map<RequestKey, ProviderResult>,
                     digest: RequestKey -> string, i: nat, executed: bool, now: int)
    requires i < |store.operations| && store.operations[i].status != Finalized
    requires Passable(store, results, digest) && WentOn(store, results, store', results', digest, i, executed, now)
    ensures Passable(store', results', digest) && SameAhead(store, results, store', results', digest)
  {
    hide CountFinalized, Ready;
    var answer := Answer(results, digest, store.operations[i].planned);
    forall j | 0 <= j < |store'.operations|
      ensures Finalizable(store', j, results', digest)
      ensures store'.operations[j].status != Finalized ==>
                j != i && store'.operations[j] == store.operations[j]
                && Answer(results', digest, store.operations[j].planned) == Answer(results, digest, store.operations[j].planned)
      ensures Answer(results', digest, store'.operations[j].planned).signature
              in {answer.signature, Answer(results, digest, store.operations[j].planned).signature}
    {
      assert Finalizable(store, j, results, digest);
      if j == i {
        FinalIsReady(store'.operations[i], results', digest);
      } else {
        assert store'.operations[j] == store.operations[j];
        if store.operations[j].status != Finalized {
          ReadyKept(store.operations[j], results, digest, store.operations[i].planned);
        } else {
          FinalIsReady(store.operations[j], results', digest);
        }
      }
    }
  }

  lemma WentOnKeepsCloseReady(store: Store, results: map<RequestKey, ProviderResult>, store': Store, results': map<RequestKey, ProviderResult>,
                              digest: RequestKey -> string, i: nat, executed: bool, now: int)
    requires i < |store.operations| && WentOn(store, results, store', results', digest, i, executed, now)
    ensures CloseReady(store) ==> CloseReady(store')
  {
    hide CountFinalized, SignatureFree, Answer, TerminalIntact;
  }

  lemma AheadKeepsHarmless(script: seq<Turn>, store: Store, results: map<RequestKey, ProviderResult>, store': Store,
                           results': map<RequestKey, ProviderResult>, digest: RequestKey -> string, i: nat)
    requires SameAhead(store, results, store', results', digest) && HarmlessFrom(script, store, results, digest, i)
    ensures HarmlessFrom(script, store', results', digest, i + 1)
  {
    hide Answer, Harmless;
  }

  lemma FinalIsReady(op: Operation, results: map<RequestKey, ProviderResult>, digest: RequestKey -> string)
    requires op.status == Finalized
    ensures Ready(op, results, digest)
  {
  }

  /** Answering one request leaves any other operation as ready as it was. */
  lemma ReadyKept(op: Operation, results: map<RequestKey, ProviderResult>, digest: RequestKey -> string, request: Planned)
    requires Ready(op, results, digest)
    requires op.status != Finalized ==> Answer(results, digest, request).signature != Answer(results, digest, op.planned).signature
    ensures Ready(op, results[request.requestKey := Answer(results, digest, request)], digest)
    ensures op.status != Finalized ==>
              Answer(results[request.requestKey := Answer(results, digest, request)], digest, op.planned) == Answer(results, digest, op.planned)
  {
  }

  /**
   What a worker that stops at an unfinalized operation leaves: the lease free,
   the operation to be executed again or with its effect there to be found, and
   everything else in place.
   */
  ghost predicate LeftOpen(store: Store, results: map<RequestKey, ProviderResult>, store': Store, results': map<RequestKey, ProviderResult>,
                           digest: RequestKey -> string, i: nat)
    requires i < |store.operations|
  {
    var op, answer := store.operations[i], Answer(results, digest, store.operations[i].planned);
    && store'.facts == store.facts && store'.settlement.bindings == store.settlement.bindings && store'.inventory == store.inventory
    && store'.foreign == store.foreign && store'.settlement.leaseOwner.None?
    && (results' == results || results' == results[op.planned.requestKey := answer])
    && |store'.operations| == |store.operations|
    && (forall j :: 0 <= j < |store.operations| && j != i ==> store'.operations[j] == store.operations[j])
    && var op' := store'.operations[i];
    && op'.planned == op.planned && op'.status != Finalized
    && (op'.signature == op.signature || op'.signature == Some(answer.signature))
    && (op'.mode == ReconcileOnly ==> op.planned.requestKey in results')
  }

  /** The next call can claim the settlement and carry it to its end. */
  ghost predicate Resumable(store: Store, results: map<RequestKey, ProviderResult>, digest: RequestKey -> string) {
    store.settlement.leaseOwner.None? && Passable(store, results, digest) && CloseReady(store)
  }

  /** The worker holds the lease of a settlement that is not settled. */
  predicate Owned(store: Store, owner: nat) {
    store.settlement.leaseOwner == Some(owner) && store.settlement.status != Settled
  }

  lemma ReleaseLeavesOpen(store: Store, results: map<RequestKey, ProviderResult>, results': map<RequestKey, ProviderResult>,
                          digest: RequestKey -> string, i: nat, owner: nat)
    requires i < |store.operations| && store.operations[i].status != Finalized && Owned(store, owner) && Finalizable(store, i, results, digest)
    requires var request := store.operations[i].planned;
             results' == results || results' == results[request.requestKey := Answer(results, digest, request)]
    ensures LeftOpen(store, results, SettlementStore.ReleaseLease(store, owner), results', digest, i)
  {
  }

  /** A recovery record leaves the operation open when a reconcile-only effect is there, under the answer's signature or none. */
  lemma RecordLeavesOpen(store: Store, results: map<RequestKey, ProviderResult>, results': map<RequestKey, ProviderResult>,
                         digest: RequestKey -> string, i: nat, owner: nat, code: string, mode: RecoveryMode, signature: Option<string>)
    requires i < |store.operations| && store.operations[i].status != Finalized && Owned(store, owner)
    requires var request := store.operations[i].planned;
             && (results' == results || results' == results[request.requestKey := Answer(results, digest, request)])
             && (mode == ReconcileOnly ==> request.requestKey in results')
             && (signature.Some? && signature.value != "" ==> signature.value == Answer(results, digest, request).signature)
    requires SettlementStore.RecordRecovery(store, i, owner, code, mode, signature, true).Ok?
    ensures LeftOpen(store, results, SettlementStore.RecordRecovery(store, i, owner, code, mode, signature, true).value, results', digest, i)
  {
  }

  /** Such a stop closes no way: the pass and the close are as open as before. */
  lemma LeftOpenKeeps(store: Store, results: map<RequestKey, ProviderResult>, store': Store, results': map<RequestKey, ProviderResult>,
                      digest: RequestKey -> string, i: nat)
    requires i < |store.operations| && store.operations[i].status != Finalized
    requires Passable(store, results, digest) && LeftOpen(store, results, store', results', digest, i)
    ensures Passable(store', results', digest)
    ensures CloseReady(store) ==> CloseReady(store')
  {
    var answer := Answer(results, digest, store.operations[i].planned);
    forall j | 0 <= j < |store'.operations|
      ensures Finalizable(store', j, results', digest)
      ensures Answer(results', digest, store'.operations[j].planned).signature
              in {answer.signature, Answer(results, digest, store.operations[j].planned).signature}
      ensures store'.operations[j].status != Finalized ==>
                Answer(results', digest, store'.operations[j].planned).signature == Answer(results, digest, store.operations[j].planned).signature
    {
      assert Finalizable(store, j, results, digest);
      if j == i {
        StoppedFinalizable(store, results, store', results', digest, i);
      } else {
        OtherFinalizable(store, results, store', results', digest, i, j);
      }
    }
    hide Finalizable, Ready, Answer, TerminalIntact;
  }

  lemma StoppedFinalizable(store: Store, results: map<RequestKey, ProviderResult>, store': Store, results': map<RequestKey, ProviderResult>,
                           digest: RequestKey -> string, i: nat)
    requires i < |store.operations| && store.operations[i].status != Finalized
    requires Finalizable(store, i, results, digest) && LeftOpen(store, results, store', results', digest, i)
    ensures Finalizable(store', i, results', digest)
    ensures Answer(results', digest, store'.operations[i].planned) == Answer(results, digest, store.operations[i].planned)
  {
  }

  lemma OtherFinalizable(store: Store, results: map<RequestKey, ProviderResult>, store': Store, results': map<RequestKey, ProviderResult>,
                         digest: RequestKey -> string, i: nat, j: nat)
    requires i < |store.operations| && store.operations[i].status != Finalized && j < |store.operations| && j != i
    requires Passable(store, results, digest) && LeftOpen(store, results, store', results', digest, i)
    ensures Finalizable(store', j, results', digest)
    ensures store'.operations[j] == store.operations[j]
    ensures Answer(results', digest, store.operations[j].planned).signature
            in {Answer(results, digest, store.operations[i].planned).signature, Answer(results, digest, store.operations[j].planned).signature}
    ensures store.operations[j].status != Finalized ==>
              Answer(results', digest, store.operations[j].planned) == Answer(results, digest, store.operations[j].planned)
  {
    hide Ready, FixtureResult, CloseReady;
    assert Finalizable(store, j, results, digest);
    if store.operations[j].status == Finalized {
      FinalIsReady(store.operations[j], results', digest);
    } else {
      ReadyKept(store.operations[j], results, digest, store.operations[i].planned);
    }
  }

  /** The lease plays no part. */
  lemma ClaimKeepsPassable(store: Store, owner: nat, now: int, results: map<RequestKey, ProviderResult>, digest: RequestKey -> string)
    requires SettlementStore.ClaimLease(store, owner, now).Some? && Passable(store, results, digest)
    ensures var store' := SettlementStore.ClaimLease(store, owner, now).value;
            && Passable(store', results, digest) && Owned(store', owner)
            && (CloseReady(store) ==> CloseReady(store'))
            && forall script :: HarmlessFrom(script, store, results, digest, 0) ==> HarmlessFrom(script, store', results, digest, 0)
  {
    hide Ready, Answer, Harmless, TerminalIntact;
    var store' := SettlementStore.ClaimLease(store, owner, now).value;
    forall j | 0 <= j < |store'.operations| ensures Finalizable(store', j, results, digest) {
      assert Finalizable(store, j, results, digest);
    }
  }

  /** Giving the lease up after a pass leaves the settlement to the next call. */
  lemma ReleaseIsResumable(store: Store, owner: nat, results: map<RequestKey, ProviderResult>, digest: RequestKey -> string)
    requires Owned(store, owner) && Passable(store, results, digest) && CloseReady(store)
    ensures Resumable(SettlementStore.ReleaseLease(store, owner), results, digest)
  {
    hide Ready, Answer, TerminalIntact;
    var store' := SettlementStore.ReleaseLease(store, owner);
    forall j | 0 <= j < |store'.operations| ensures Finalizable(store', j, results, digest) {
      assert Finalizable(store, j, results, digest);
    }
  }

  /** The digest separates the request keys of the plan, and no other settlement stores a signature of the fixture. */
  ghost predicate SeparatesKeys(store: Store, digest: RequestKey -> string) {
    && (forall j :: 0 <= j < |store.operations| ==> FixtureResult(digest, store.operations[j].planned).signature !in store.foreign)
    && (forall j, k :: 0 <= j < k < |store.operations| ==> digest(store.operations[j].planned.requestKey) != digest(store.operations[k].planned.requestKey))
  }

  /** A plan nothing has touched yet goes through with a fixture whose hash separates its request keys. */
  lemma FreshPlanPasses(store: Store, plan: seq<Planned>, digest: RequestKey -> string)
    requires store.operations == NewOperations(plan) && SeparatesKeys(store, digest)
    ensures Passable(store, map[], digest)
  {
    var prefix := "fixture-signature:";
    forall j, k | 0 <= j < k < |store.operations|
      ensures Answer(map[], digest, store.operations[j].planned).signature != Answer(map[], digest, store.operations[k].planned).signature
    {
      var a, b := digest(store.operations[j].planned.requestKey), digest(store.operations[k].planned.requestKey);
      assert (prefix + a)[|prefix|..] == a && (prefix + b)[|prefix|..] == b;
    }
  }

  /** A settlement just opened for a terminal round is open to its first call. */
  lemma {:induction false} OpenedIsResumable(facts: RoundFacts, policy: SettlementPolicy, digest: RequestKey -> string)
    requires Settleable(facts, policy) && SeparatesKeys(OpenSettlement(facts, policy, ExpectedPlan(facts, policy)), digest)
    ensures Resumable(OpenSettlement(facts, policy, ExpectedPlan(facts, policy)), map[], digest)
  {
    hide Passable, SeparatesKeys, PromisesVerified, RequestFor, AllDrafts;
    var plan := ExpectedPlan(facts, policy);
    FreshPlanPasses(OpenSettlement(facts, policy, plan), plan, digest);
  }
}
