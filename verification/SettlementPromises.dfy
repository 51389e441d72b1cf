/** What a verified plan consists of, operation by operation, and what its verification pins down in the intents. */
module SettlementPromises {
  import opened Support
  import opened Treasury
  import opened Rounds
  import opened RoundInvariants
  import opened SettlementPlan

  // ---------------------------------------------------------------- the plan by index

  /** Operations per promised asset: a sold bust asset is also liquidated. */
  function PerAsset(kind: SettlementKind, disposition: Disposition): nat {
    if kind == Bust && disposition == Sell then 4 else 3
  }

  /** The j-th operation on an asset: what it does, from where to where. */
  function Leg(p: Promised, kind: SettlementKind, policy: SettlementPolicy, player: Wallet, j: nat): (OperationKind, Wallet, Wallet) {
    match j
    case 0 => (Purchase, p.source, policy.sessionCustody)
    case 1 => (Open, policy.sessionCustody, policy.sessionCustody)
    case 2 => (Transfer, policy.sessionCustody, if kind == Payout then player else policy.inventoryCustody)
    case _ => (Liquidate, policy.inventoryCustody, policy.inventoryCustody)
  }

  /** The operation moves the promised asset, at its value and stage, along that leg. */
  predicate MovesAsset(draft: Draft, p: Promised, kind: SettlementKind, policy: SettlementPolicy, player: Wallet, j: nat) {
    && (draft.kind, draft.source, draft.destination) == Leg(p, kind, policy, player, j)
    && draft.item == PromisedItem(p.asset) && draft.amount == p.amount && draft.stage == Some(p.stage)
    && draft.key == StageKey(p.stage, draft.kind, p.asset)
  }

  lemma DraftsOfOne(p: Promised, kind: SettlementKind, policy: SettlementPolicy, player: Wallet)
    ensures var drafts := DraftsForPromise(p, kind, policy, player);
            && |drafts| == PerAsset(kind, policy.disposition)
            && forall j :: 0 <= j < |drafts| ==> MovesAsset(drafts[j], p, kind, policy, player, j)
  {
  }

  lemma {:induction false} DraftsByIndex(promises: seq<Promised>, kind: SettlementKind, policy: SettlementPolicy, player: Wallet, k: nat, j: nat)
    requires k < |promises| && j < PerAsset(kind, policy.disposition)
    ensures var drafts, per := DraftsForPromises(promises, kind, policy, player), PerAsset(kind, policy.disposition);
            && |drafts| == per * |promises| && per * k + j < |drafts|
            && MovesAsset(drafts[per * k + j], promises[k], kind, policy, player, j)
  {
    var n, per := |promises| - 1, PerAsset(kind, policy.disposition);
    DraftsOfOne(promises[n], kind, policy, player);
    hide MovesAsset, DraftsForPromise;
    assert per * |promises| == per * n + per;
    if n == 0 {
      assert DraftsForPromises(promises[..0], kind, policy, player) == [];
    } else {
      DraftsByIndex(promises[..n], kind, policy, player, if k < n then k else 0, if k < n then j else 0);
    }
  }

  /** The plan's operation for leg `j` of asset `k`, if there is such a leg, stands at its place and moves the asset along it. */
  ghost predicate LegPlanned(plan: seq<Planned>, promises: seq<Promised>, kind: SettlementKind, policy: SettlementPolicy, player: Wallet,
                             k: nat, j: nat) {
    var per := PerAsset(kind, policy.disposition);
    k < |promises| && j < per ==>
      per * k + j < |plan| && MovesAsset(plan[per * k + j].draft, promises[k], kind, policy, player, j)
  }

  /** Numbered from one, under request keys of round and policy, each request hash over its own draft, key and number. */
  predicate NumberedAs(planned: Planned, index: nat, round: Round, policy: SettlementPolicy) {
    && planned.sequence == index + 1
    && planned.requestKey == RequestKey(planned.draft.key, policy.bound.policyHash, round.id)
    && planned.requestHash == RequestHash(planned.draft, planned.requestKey, round.id, planned.sequence)
  }

  /**
   The plan operation by operation: for the k-th promised asset its purchase into
   session custody, its opening there, its transfer to the player or into
   inventory, and its sale when a bust is sold; then, when a pot is owed, its
   transfer to the player; numbered and keyed in that order.
   */
  lemma {:induction false} PlanByIndex(round: Round, policy: SettlementPolicy, promises: seq<Promised>)
    requires round.status != Active
    ensures var plan, kind, per := PlanOf(round, policy, promises), KindOf(round), PerAsset(KindOf(round), policy.disposition);
            var owed := if kind == Payout && round.pot > 0 then 1 else 0;
            && (kind == Payout <==> round.status == CashedOut || round.status == Completed)
            && |plan| == per * |promises| + owed
            && (forall i :: 0 <= i < |plan| ==> NumberedAs(plan[i], i, round, policy))
            && (forall k: nat, j: nat :: LegPlanned(plan, promises, kind, policy, round.wallet, k, j))
            && (owed == 1 ==>
                  plan[per * |promises|].draft
                  == Draft(Transfer, ProceedsItem(round.id), policy.sessionCustody, round.wallet, round.pot, None, ProceedsKey(round.id)))
  {
    var plan, kind, per := PlanOf(round, policy, promises), KindOf(round), PerAsset(KindOf(round), policy.disposition);
    var drafts := DraftsForPromises(promises, kind, policy, round.wallet);
    if promises == [] {
      assert drafts == [] && per * |promises| == 0;
    } else {
      DraftsByIndex(promises, kind, policy, round.wallet, 0, 0);
    }
    forall i | 0 <= i < |drafts| ensures plan[i].draft == drafts[i] {
      assert AllDrafts(round.id, kind, policy, round.wallet, round.pot, promises)[i] == drafts[i];
    }
    hide MovesAsset, DraftsForPromise, DraftsForPromises, PerAsset, PlanOf;
    forall k: nat, j: nat ensures LegPlanned(plan, promises, kind, policy, round.wallet, k, j) {
      if k < |promises| && j < per {
        DraftsByIndex(promises, kind, policy, round.wallet, k, j);
      }
    }
  }

  /** Two rounds, or one under two policies, never send the provider the same request key. */
  lemma {:induction false} RequestKeysNameRound(a: Round, b: Round, policyA: SettlementPolicy, policyB: SettlementPolicy,
                                                promisesA: seq<Promised>, promisesB: seq<Promised>, i: nat, j: nat)
    requires a.status != Active && b.status != Active
    requires i < |PlanOf(a, policyA, promisesA)| && j < |PlanOf(b, policyB, promisesB)|
    requires PlanOf(a, policyA, promisesA)[i].requestKey == PlanOf(b, policyB, promisesB)[j].requestKey
    ensures a.id == b.id && policyA.bound.policyHash == policyB.bound.policyHash
  {
    PlanByIndex(a, policyA, promisesA);
    PlanByIndex(b, policyB, promisesB);
    hide PlanOf, LegPlanned;
  }

  // ---------------------------------------------------------------- what verification pins

  /** Two intents that agree on everything a settlement depends on. */
  predicate SameEvidence(a: Intent, b: Intent) {
    && a.id == b.id && a.movement.roundId == b.movement.roundId && a.movement.asset == b.movement.asset
    && a.movement.expectedStage == b.movement.expectedStage && a.movement.player == b.movement.player
    && a.movement.requestedRecipient == b.movement.requestedRecipient && a.movement.binding == b.movement.binding
    && a.recovery.None? && b.recovery.None? && a.policy.Some? && b.policy.Some?
    && a.policy.value.sessionCustody == b.policy.value.sessionCustody
    && a.policy.value.policyHash == b.policy.value.policyHash && a.policy.value.policyVersion == b.policy.value.policyVersion
  }

  ghost predicate DistinctIds(intents: seq<Intent>) {
    forall a, b :: 0 <= a < b < |intents| ==> intents[a].id != intents[b].id
  }

  lemma {:induction false} IdFinds(intents: seq<Intent>, j: nat)
    requires DistinctIds(intents) && j < |intents|
    ensures FindIntentById(intents, intents[j].id) == Some(j)
  {
    var found := FindIntentById(intents, intents[j].id);
    assert found.Some? && intents[found.value].id == intents[j].id;
  }

  /** The outcome that a stored intent backs, in a verified round. */
  lemma OutcomeOf(round: Round, intents: seq<Intent>, policy: SettlementPolicy, j: nat) returns (k: nat)
    requires PromisesVerified(round, intents, policy) && DistinctIds(intents) && j < |intents|
    ensures var outcomes := OutcomesOf(round.transitions);
            k < |outcomes| && outcomes[k].custody.reference == intents[j].id && IntentBinds(intents[j], round, policy, outcomes[k])
  {
    VerifiedIsBijection(round, intents, policy);
    var outcomes := OutcomesOf(round.transitions);
    assert intents[j].id in References(outcomes);
    k :| 0 <= k < |outcomes| && outcomes[k].custody.reference == intents[j].id;
    IdFinds(intents, j);
    assert OutcomeBacked(intents, round, policy, outcomes[k]);
  }

  /**
   Verification leaves no room for other evidence: two sets of intents with the
   same identifiers that both verify a round agree on round, asset, stage,
   player, recipient, rules and custody policy of every one.
   */
  lemma {:induction false} VerifiedPinsIntents(round: Round, a: seq<Intent>, b: seq<Intent>, policy: SettlementPolicy, j: nat)
    requires PromisesVerified(round, a, policy) && PromisesVerified(round, b, policy) && DistinctIds(a) && DistinctIds(b)
    requires j < |a| == |b| && a[j].id == b[j].id
    ensures SameEvidence(a[j], b[j])
  {
    var k := OutcomeOf(round, a, policy, j);
    var m := OutcomeOf(round, b, policy, j);
    assert k == m by {
      assert DistinctReferences(OutcomesOf(round.transitions));
    }
    hide PromisesVerified;
  }
}
