/**
 From a terminal round to its ordered settlement plan
 (apps/api/src/crash/crash-settlement.service.ts).  Keys and request hashes are
 the hashed values themselves.
 */
module SettlementPlan {
  import opened Support
  import opened Treasury
  import opened Rounds
  import opened RoundInvariants

  datatype Disposition = Hold | Sell

  datatype PolicyBinding = PolicyBinding(
    custodyPolicyHash: string, custodyPolicyVersion: string, inventoryPolicyHash: string, inventoryPolicyVersion: string,
    policyHash: string, policyVersion: string)

  datatype SettlementPolicy = SettlementPolicy(
    sessionCustody: Wallet, inventoryCustody: Wallet, disposition: Disposition,
    binding: Binding, riskRulesHash: string, riskRulesVersion: string, bound: PolicyBinding)

  predicate ValidPolicy(policy: SettlementPolicy) {
    policy.sessionCustody != policy.inventoryCustody
  }

  datatype SettlementKind = Payout | Bust

  datatype OperationKind = Purchase | Open | Transfer | Liquidate

  datatype Item = PromisedItem(asset: Asset) | ProceedsItem(proceedsOf: string)

  datatype OperationKey = StageKey(keyStage: int, keyKind: OperationKind, keyAsset: Asset) | ProceedsKey(keyRound: string)

  datatype RequestKey = RequestKey(operationKey: OperationKey, policyHash: string, roundId: string)

  datatype Draft = Draft(
    kind: OperationKind, item: Item, source: Wallet, destination: Wallet, amount: nat, stage: Option<int>, key: OperationKey)

  datatype RequestHash = RequestHash(draft: Draft, requestKey: RequestKey, roundId: string, sequence: nat)

  datatype Planned = Planned(sequence: nat, draft: Draft, requestKey: RequestKey, requestHash: RequestHash)

  /** One asset the ledger promised, with the wallet its prepared intent moves it from. */
  datatype Promised = Promised(stage: int, asset: Asset, amount: nat, source: Wallet)

  // ---------------------------------------------------------------- promised assets

  function FindIntentById(intents: seq<Intent>, id: IntentId): (found: Option<nat>)
    ensures found.Some? ==> found.value < |intents| && intents[found.value].id == id
    ensures found.None? ==> forall i :: 0 <= i < |intents| ==> intents[i].id != id
  {
    if intents == [] then None
    else if intents[|intents| - 1].id == id then Some(|intents| - 1)
    else FindIntentById(intents[..|intents| - 1], id)
  }

  /** The intent an outcome names still binds the outcome's asset and stage, the round and the policy. */
  predicate IntentBinds(intent: Intent, round: Round, policy: SettlementPolicy, outcome: Outcome) {
    && intent.movement.roundId == round.id
    && intent.movement.asset == outcome.custody.asset
    && intent.movement.expectedStage == outcome.provider.stage
    && intent.movement.player == round.wallet
    && intent.movement.requestedRecipient == Some(policy.sessionCustody)
    && intent.recovery.None? && intent.policy.Some?
    && intent.policy.value.sessionCustody == policy.sessionCustody
    && intent.policy.value.policyHash == policy.bound.custodyPolicyHash
    && intent.policy.value.policyVersion == policy.bound.custodyPolicyVersion
    && intent.movement.binding == round.binding
  }

  predicate OutcomeBacked(intents: seq<Intent>, round: Round, policy: SettlementPolicy, outcome: Outcome) {
    var found := FindIntentById(intents, outcome.custody.reference);
    found.Some? && IntentBinds(intents[found.value], round, policy, outcome)
  }

  ghost predicate DistinctReferences(outcomes: seq<Outcome>) {
    forall a, b :: 0 <= a < b < |outcomes| ==> outcomes[a].custody.reference != outcomes[b].custody.reference
  }

  /** Every outcome is backed by its own intent, and no intent is left over. */
  ghost predicate PromisesVerified(round: Round, intents: seq<Intent>, policy: SettlementPolicy) {
    var outcomes := OutcomesOf(round.transitions);
    && |outcomes| == |intents|
    && DistinctReferences(outcomes)
    && forall k :: 0 <= k < |outcomes| ==> OutcomeBacked(intents, round, policy, outcomes[k])
  }

  function PromiseFor(intents: seq<Intent>, outcome: Outcome): Promised
    requires FindIntentById(intents, outcome.custody.reference).Some?
  {
    Promised(outcome.provider.stage, outcome.custody.asset, outcome.provider.stageValue,
             intents[FindIntentById(intents, outcome.custody.reference).value].movement.source)
  }

  function PromisesOf(intents: seq<Intent>, outcomes: seq<Outcome>): (promises: seq<Promised>)
    requires forall k :: 0 <= k < |outcomes| ==> FindIntentById(intents, outcomes[k].custody.reference).Some?
    ensures |promises| == |outcomes|
    ensures forall k :: 0 <= k < |outcomes| ==> promises[k] == PromiseFor(intents, outcomes[k])
  {
    if outcomes == [] then []
    else PromisesOf(intents, outcomes[..|outcomes| - 1]) + [PromiseFor(intents, outcomes[|outcomes| - 1])]
  }

  /** The loop with its set of matched intents accepts exactly the verified rounds. */
  method VerifyPromisedAssets(round: Round, intents: seq<Intent>, policy: SettlementPolicy) returns (r: Option<seq<Promised>>)
    ensures r.Some? <==> PromisesVerified(round, intents, policy)
    ensures r.Some? ==> r.value == PromisesOf(intents, OutcomesOf(round.transitions))
  {
    hide IntentBinds, FindIntentById, PromiseFor;
    var outcomes := OutcomesOf(round.transitions);
    if |outcomes| != |intents| {
      return None;
    }
    var matched: set<IntentId> := {};
    var promises: seq<Promised> := [];
    for k := 0 to |outcomes|
      invariant forall j :: 0 <= j < k ==> OutcomeBacked(intents, round, policy, outcomes[j])
      invariant DistinctReferences(outcomes[..k])
      invariant forall id :: id in matched <==> exists j :: 0 <= j < k && outcomes[j].custody.reference == id
      invariant |promises| == k && forall j :: 0 <= j < k ==> promises[j] == PromiseFor(intents, outcomes[j])
    {
      var outcome := outcomes[k];
      var found := FindIntentById(intents, outcome.custody.reference);
      if found.None? || outcome.custody.reference in matched || !IntentBinds(intents[found.value], round, policy, outcome) {
        assert outcome.custody.reference in matched || !OutcomeBacked(intents, round, policy, outcomes[k]);
        return None;
      }
      matched := matched + {outcome.custody.reference};
      promises := promises + [PromiseFor(intents, outcome)];
    }
    assert outcomes[..|outcomes|] == outcomes;
    assert promises == PromisesOf(intents, outcomes);
    r := Some(promises);
  }

  function References(outcomes: seq<Outcome>): (ids: set<IntentId>)
    ensures forall id :: id in ids <==> exists k :: 0 <= k < |outcomes| && outcomes[k].custody.reference == id
  {
    set k | 0 <= k < |outcomes| :: outcomes[k].custody.reference
  }

  function IntentIds(intents: seq<Intent>): (ids: set<IntentId>)
    ensures forall id :: id in ids <==> exists i :: 0 <= i < |intents| && intents[i].id == id
  {
    set i | 0 <= i < |intents| :: intents[i].id
  }

  lemma ReferencesSplit(outcomes: seq<Outcome>, n: nat)
    requires |outcomes| == n + 1
    ensures References(outcomes) == References(outcomes[..n]) + {outcomes[n].custody.reference}
  {
    forall id | id in References(outcomes) ensures id in References(outcomes[..n]) + {outcomes[n].custody.reference} {
      var k :| 0 <= k < |outcomes| && outcomes[k].custody.reference == id;
      assert k < n ==> outcomes[..n][k] == outcomes[k];
    }
    forall id | id in References(outcomes[..n]) ensures id in References(outcomes) {
      var k :| 0 <= k < n && outcomes[..n][k].custody.reference == id;
      assert outcomes[k].custody.reference == id;
    }
  }

  lemma {:induction false} ReferenceCount(outcomes: seq<Outcome>)
    requires DistinctReferences(outcomes)
    ensures |References(outcomes)| == |outcomes|
  {
    if outcomes != [] {
      var n := |outcomes| - 1;
      ReferenceCount(outcomes[..n]);
      ReferencesSplit(outcomes, n);
      assert outcomes[n].custody.reference !in References(outcomes[..n]);
    }
  }

  lemma IntentIdOfLast(intents: seq<Intent>, id: IntentId)
    requires intents != []
    ensures id in IntentIds(intents) <==> id in IntentIds(intents[..|intents| - 1]) || id == intents[|intents| - 1].id
  {
    var init := intents[..|intents| - 1];
    if id in IntentIds(init) {
      var k :| 0 <= k < |init| && init[k].id == id;
      assert intents[k].id == id;
    }
    if id in IntentIds(intents) {
      var k :| 0 <= k < |intents| && intents[k].id == id;
      assert k < |init| ==> init[k].id == id;
    }
    assert intents[|intents| - 1].id in IntentIds(intents);
  }

  lemma {:induction false} IntentIdCount(intents: seq<Intent>)
    ensures |IntentIds(intents)| <= |intents|
  {
    if intents != [] {
      var n := |intents| - 1;
      var before := IntentIds(intents[..n]);
      IntentIdCount(intents[..n]);
      forall id ensures id in IntentIds(intents) <==> id in before || id == intents[n].id {
        IntentIdOfLast(intents, id);
      }
      assert IntentIds(intents) == before + {intents[n].id};
    }
  }

  lemma SubsetOfEqualSize<T>(a: set<T>, b: set<T>)
    requires a <= b && |b| <= |a|
    ensures a == b
  {
    if a != b {
      var x :| x in b && x !in a;
      assert a + {x} <= b;
      SubsetIsNoLarger(a + {x}, b);
    }
  }

  lemma {:induction false} SubsetIsNoLarger<T>(a: set<T>, b: set<T>)
    requires a <= b
    ensures |a| <= |b|
  {
    if a != {} {
      var x :| x in a;
      SubsetIsNoLarger(a - {x}, b - {x});
    }
  }

  /** In a verified round outcomes and intents are in bijection: no intent is unused. */
  lemma VerifiedIsBijection(round: Round, intents: seq<Intent>, policy: SettlementPolicy)
    requires PromisesVerified(round, intents, policy)
    ensures IntentIds(intents) == References(OutcomesOf(round.transitions))
  {
    var outcomes := OutcomesOf(round.transitions);
    ReferenceCount(outcomes);
    IntentIdCount(intents);
    forall id | id in References(outcomes) ensures id in IntentIds(intents) {
      var k :| 0 <= k < |outcomes| && outcomes[k].custody.reference == id;
      assert OutcomeBacked(intents, round, policy, outcomes[k]);
    }
    SubsetOfEqualSize(References(outcomes), IntentIds(intents));
  }

  // ---------------------------------------------------------------- the plan

  function KindOf(round: Round): SettlementKind
    requires round.status != Active
  {
    if round.status == CashedOut || round.status == Completed then Payout else Bust
  }

  /** Where a promised asset ends. */
  function FinalHolder(kind: SettlementKind, policy: SettlementPolicy, player: Wallet): Wallet {
    if kind == Payout then player else policy.inventoryCustody
  }

  function AssetDraft(p: Promised, kind: OperationKind, source: Wallet, destination: Wallet): Draft {
    Draft(kind, PromisedItem(p.asset), source, destination, p.amount, Some(p.stage), StageKey(p.stage, kind, p.asset))
  }

  /** Purchase into session custody, open there, transfer out; a sold bust asset is liquidated in inventory. */
  function DraftsForPromise(p: Promised, kind: SettlementKind, policy: SettlementPolicy, player: Wallet): seq<Draft> {
    [ AssetDraft(p, Purchase, p.source, policy.sessionCustody),
      AssetDraft(p, Open, policy.sessionCustody, policy.sessionCustody),
      AssetDraft(p, Transfer, policy.sessionCustody, FinalHolder(kind, policy, player)) ]
    + (if kind == Bust && policy.disposition == Sell
       then [AssetDraft(p, Liquidate, policy.inventoryCustody, policy.inventoryCustody)] else [])
  }

  function DraftsForPromises(promises: seq<Promised>, kind: SettlementKind, policy: SettlementPolicy, player: Wallet): seq<Draft> {
    if promises == [] then []
    else
      DraftsForPromises(promises[..|promises| - 1], kind, policy, player)
      + DraftsForPromise(promises[|promises| - 1], kind, policy, player)
  }

  function ProceedsDrafts(roundId: string, kind: SettlementKind, policy: SettlementPolicy, player: Wallet, pot: nat): seq<Draft> {
    if kind == Payout && pot > 0
    then [Draft(Transfer, ProceedsItem(roundId), policy.sessionCustody, player, pot, None, ProceedsKey(roundId))] else []
  }

  function Number(draft: Draft, index: nat, policy: SettlementPolicy, roundId: string): Planned {
    var key := RequestKey(draft.key, policy.bound.policyHash, roundId);
    Planned(index + 1, draft, key, RequestHash(draft, key, roundId, index + 1))
  }

  function NumberAll(drafts: seq<Draft>, policy: SettlementPolicy, roundId: string): (plan: seq<Planned>)
    ensures |plan| == |drafts|
    ensures forall k :: 0 <= k < |drafts| ==> plan[k] == Number(drafts[k], k, policy, roundId)
  {
    if drafts == [] then []
    else NumberAll(drafts[..|drafts| - 1], policy, roundId) + [Number(drafts[|drafts| - 1], |drafts| - 1, policy, roundId)]
  }

  function AllDrafts(roundId: string, kind: SettlementKind, policy: SettlementPolicy, player: Wallet, pot: nat, promises: seq<Promised>): seq<Draft> {
    DraftsForPromises(promises, kind, policy, player) + ProceedsDrafts(roundId, kind, policy, player, pot)
  }

  function PlanOf(round: Round, policy: SettlementPolicy, promises: seq<Promised>): seq<Planned>
    requires round.status != Active
  {
    NumberAll(AllDrafts(round.id, KindOf(round), policy, round.wallet, round.pot, promises), policy, round.id)
  }

  /** The push loop over the promised assets. */
  method PushDrafts(promises: seq<Promised>, kind: SettlementKind, policy: SettlementPolicy, player: Wallet) returns (drafts: seq<Draft>)
    ensures drafts == DraftsForPromises(promises, kind, policy, player)
  {
    drafts := [];
    var destination := if kind == Payout then player else policy.inventoryCustody;
    for k := 0 to |promises|
      invariant drafts == DraftsForPromises(promises[..k], kind, policy, player)
    {
      var asset := promises[k];
      assert promises[..k + 1][..k] == promises[..k];
      var pushed := [AssetDraft(asset, Purchase, asset.source, policy.sessionCustody)];
      pushed := pushed + [AssetDraft(asset, Open, policy.sessionCustody, policy.sessionCustody)];
      pushed := pushed + [AssetDraft(asset, Transfer, policy.sessionCustody, destination)];
      if kind == Bust && policy.disposition == Sell {
        pushed := pushed + [AssetDraft(asset, Liquidate, policy.inventoryCustody, policy.inventoryCustody)];
      }
      assert pushed == DraftsForPromise(asset, kind, policy, player);
      drafts := drafts + pushed;
    }
    assert promises[..|promises|] == promises;
  }

  /** Verified promises, pushed and numbered, are exactly that plan. */
  method PlanOperations(round: Round, intents: seq<Intent>, policy: SettlementPolicy) returns (r: Option<seq<Planned>>)
    requires round.status != Active
    ensures r.Some? <==> PromisesVerified(round, intents, policy)
    ensures r.Some? ==> r.value == PlanOf(round, policy, PromisesOf(intents, OutcomesOf(round.transitions)))
  {
    var kind := KindOf(round);
    var verified := VerifyPromisedAssets(round, intents, policy);
    if verified.None? {
      return None;
    }
    var drafts := PushDrafts(verified.value, kind, policy, round.wallet);
    if kind == Payout && round.pot > 0 {
      drafts := drafts + [Draft(Transfer, ProceedsItem(round.id), policy.sessionCustody, round.wallet, round.pot, None, ProceedsKey(round.id))];
    }
    assert drafts == AllDrafts(round.id, kind, policy, round.wallet, round.pot, verified.value);
    r := Some(NumberAll(drafts, policy, round.id));
  }
}
