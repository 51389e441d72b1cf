/**
 Where every item is while a plan is carried out.  An item's location is read
 off the operations applied so far, so it is in exactly one place by definition;
 what is proved is that each operation finds its item where it expects it.
 */
module SettlementCustody {
  import opened Support
  import opened Treasury
  import opened Rounds
  import opened RoundInvariants
  import opened SettlementPlan

  /** The holder of `item` after `drafts`, starting with `holder`. */
  function Holder(item: Item, holder: Wallet, drafts: seq<Draft>): Wallet {
    if drafts == [] then holder
    else if drafts[|drafts| - 1].item == item then drafts[|drafts| - 1].destination
    else Holder(item, holder, drafts[..|drafts| - 1])
  }

  /** Every operation's source holds its item when the operation is reached. */
  ghost predicate Executable(start: Item -> Wallet, drafts: seq<Draft>) {
    forall n :: 0 <= n < |drafts| ==> Holder(drafts[n].item, start(drafts[n].item), drafts[..n]) == drafts[n].source
  }

  predicate Mentions(drafts: seq<Draft>, item: Item) {
    exists n :: 0 <= n < |drafts| && drafts[n].item == item
  }

  ghost predicate DistinctAssets(promises: seq<Promised>) {
    forall a, b :: 0 <= a < b < |promises| ==> promises[a].asset != promises[b].asset
  }

  /** Initial holders: each promised asset with its source, everything else in session custody. */
  function StartHolder(promises: seq<Promised>, policy: SettlementPolicy, item: Item): Wallet {
    if promises == [] then policy.sessionCustody
    else if item == PromisedItem(promises[|promises| - 1].asset) then promises[|promises| - 1].source
    else StartHolder(promises[..|promises| - 1], policy, item)
  }

  lemma {:induction false} HolderAppend(item: Item, holder: Wallet, a: seq<Draft>, b: seq<Draft>)
    ensures Holder(item, holder, a + b) == Holder(item, Holder(item, holder, a), b)
  {
    if b == [] {
      assert a + b == a;
    } else {
      assert (a + b)[..|a + b| - 1] == a + b[..|b| - 1];
      HolderAppend(item, holder, a, b[..|b| - 1]);
    }
  }

  lemma {:induction false} HolderUnmentioned(item: Item, holder: Wallet, drafts: seq<Draft>)
    requires !Mentions(drafts, item)
    ensures Holder(item, holder, drafts) == holder
  {
    if drafts != [] {
      var n := |drafts| - 1;
      assert drafts[n].item != item;
      forall k | 0 <= k < n ensures drafts[..n][k].item != item {
        assert drafts[k].item != item;
      }
      HolderUnmentioned(item, holder, drafts[..n]);
    }
  }

  /** A promise's drafts mention its own asset and nothing else. */
  lemma {:induction false} DraftsMention(promises: seq<Promised>, kind: SettlementKind, policy: SettlementPolicy, player: Wallet, n: nat)
    requires n < |DraftsForPromises(promises, kind, policy, player)|
    ensures exists k :: 0 <= k < |promises| && DraftsForPromises(promises, kind, policy, player)[n].item == PromisedItem(promises[k].asset)
  {
    var init, last := promises[..|promises| - 1], promises[|promises| - 1];
    var rest := DraftsForPromises(init, kind, policy, player);
    if n < |rest| {
      DraftsMention(init, kind, policy, player, n);
      var k :| 0 <= k < |init| && rest[n].item == PromisedItem(init[k].asset);
      assert promises[k] == init[k];
    } else {
      assert DraftsForPromises(promises, kind, policy, player)[n] == DraftsForPromise(last, kind, policy, player)[n - |rest|];
    }
  }

  lemma EarlierDraftsSilent(promises: seq<Promised>, kind: SettlementKind, policy: SettlementPolicy, player: Wallet, item: Item)
    requires forall k :: 0 <= k < |promises| ==> PromisedItem(promises[k].asset) != item
    ensures !Mentions(DraftsForPromises(promises, kind, policy, player), item)
  {
    var drafts := DraftsForPromises(promises, kind, policy, player);
    if Mentions(drafts, item) {
      var n :| 0 <= n < |drafts| && drafts[n].item == item;
      DraftsMention(promises, kind, policy, player, n);
    }
  }

  /** Where a promise's own drafts leave its asset after the first `m` of them. */
  lemma OwnDrafts(p: Promised, kind: SettlementKind, policy: SettlementPolicy, player: Wallet, m: nat)
    requires m <= |DraftsForPromise(p, kind, policy, player)|
    ensures Holder(PromisedItem(p.asset), p.source, DraftsForPromise(p, kind, policy, player)[..m])
            == (if m == 0 then p.source else if m <= 2 then policy.sessionCustody else FinalHolder(kind, policy, player))
    ensures m < |DraftsForPromise(p, kind, policy, player)| ==>
              DraftsForPromise(p, kind, policy, player)[m].source
              == Holder(PromisedItem(p.asset), p.source, DraftsForPromise(p, kind, policy, player)[..m])
  {
    var own := DraftsForPromise(p, kind, policy, player);
    assert m > 0 ==> own[..m][..m - 1] == own[..m - 1];
    assert m > 0 ==> own[..m][m - 1] == own[m - 1];
  }

  /** A promised asset's holder after `n` operations of the whole plan. */
  function HolderAt(promises: seq<Promised>, k: nat, kind: SettlementKind, policy: SettlementPolicy, player: Wallet, n: nat): Wallet
    requires k < |promises| && n <= |DraftsForPromises(promises, kind, policy, player)|
  {
    Holder(PromisedItem(promises[k].asset), promises[k].source, DraftsForPromises(promises, kind, policy, player)[..n])
  }

  /** The three regimes of the last promise, and of every earlier one. */
  lemma HolderOfLast(promises: seq<Promised>, kind: SettlementKind, policy: SettlementPolicy, player: Wallet, n: nat)
    requires promises != [] && DistinctAssets(promises) && n <= |DraftsForPromises(promises, kind, policy, player)|
    ensures var rest := |DraftsForPromises(promises[..|promises| - 1], kind, policy, player)|;
            HolderAt(promises, |promises| - 1, kind, policy, player, n)
            == (if n <= rest then promises[|promises| - 1].source
                else if n <= rest + 2 then policy.sessionCustody else FinalHolder(kind, policy, player))
  {
    var init, last := promises[..|promises| - 1], promises[|promises| - 1];
    var rest, own := DraftsForPromises(init, kind, policy, player), DraftsForPromise(last, kind, policy, player);
    var item := PromisedItem(last.asset);
    EarlierDraftsSilent(init, kind, policy, player, item);
    if n <= |rest| {
      assert (rest + own)[..n] == rest[..n];
      PrefixSilent(rest, n, item);
      HolderUnmentioned(item, last.source, rest[..n]);
    } else {
      assert (rest + own)[..n] == rest + own[..n - |rest|];
      HolderAppend(item, last.source, rest, own[..n - |rest|]);
      HolderUnmentioned(item, last.source, rest);
      OwnDrafts(last, kind, policy, player, n - |rest|);
    }
  }

  lemma PrefixSilent(drafts: seq<Draft>, n: nat, item: Item)
    requires n <= |drafts| && !Mentions(drafts, item)
    ensures !Mentions(drafts[..n], item)
  {
    forall k | 0 <= k < n ensures drafts[..n][k].item != item {
      assert drafts[k].item != item;
    }
  }

  lemma HolderOfEarlier(promises: seq<Promised>, k: nat, kind: SettlementKind, policy: SettlementPolicy, player: Wallet, n: nat)
    requires k < |promises| - 1 && DistinctAssets(promises) && n <= |DraftsForPromises(promises, kind, policy, player)|
    ensures var init := promises[..|promises| - 1];
            var rest := |DraftsForPromises(init, kind, policy, player)|;
            HolderAt(promises, k, kind, policy, player, n) == HolderAt(init, k, kind, policy, player, if n <= rest then n else rest)
  {
    var init, last := promises[..|promises| - 1], promises[|promises| - 1];
    var rest, own := DraftsForPromises(init, kind, policy, player), DraftsForPromise(last, kind, policy, player);
    var item := PromisedItem(promises[k].asset);
    if n <= |rest| {
      assert (rest + own)[..n] == rest[..n];
    } else {
      assert (rest + own)[..n] == rest + own[..n - |rest|];
      assert rest[..|rest|] == rest;
      assert !Mentions(own[..n - |rest|], item);
      HolderAppend(item, promises[k].source, rest, own[..n - |rest|]);
      HolderUnmentioned(item, Holder(item, promises[k].source, rest), own[..n - |rest|]);
    }
  }

  /** Once a promise's drafts are all applied its asset is with its final holder. */
  lemma {:induction false} AllDelivered(promises: seq<Promised>, k: nat, kind: SettlementKind, policy: SettlementPolicy, player: Wallet)
    requires k < |promises| && DistinctAssets(promises)
    ensures HolderAt(promises, k, kind, policy, player, |DraftsForPromises(promises, kind, policy, player)|) == FinalHolder(kind, policy, player)
  {
    var n := |DraftsForPromises(promises, kind, policy, player)|;
    if k == |promises| - 1 {
      HolderOfLast(promises, kind, policy, player, n);
    } else {
      HolderOfEarlier(promises, k, kind, policy, player, n);
      AllDelivered(promises[..|promises| - 1], k, kind, policy, player);
    }
  }

  /** When player, inventory and source are all distinct from session custody, at most one asset is ever held there. */
  lemma {:induction false} OneAssetInSession(promises: seq<Promised>, a: nat, b: nat, kind: SettlementKind, policy: SettlementPolicy, player: Wallet, n: nat)
    requires a < b < |promises| && DistinctAssets(promises) && n <= |DraftsForPromises(promises, kind, policy, player)|
    requires FinalHolder(kind, policy, player) != policy.sessionCustody
    requires forall k :: 0 <= k < |promises| ==> promises[k].source != policy.sessionCustody
    ensures !(HolderAt(promises, a, kind, policy, player, n) == policy.sessionCustody
              && HolderAt(promises, b, kind, policy, player, n) == policy.sessionCustody)
  {
    var init := promises[..|promises| - 1];
    var rest := |DraftsForPromises(init, kind, policy, player)|;
    HolderOfEarlier(promises, a, kind, policy, player, n);
    if b < |promises| - 1 {
      HolderOfEarlier(promises, b, kind, policy, player, n);
      OneAssetInSession(init, a, b, kind, policy, player, if n <= rest then n else rest);
    } else {
      HolderOfLast(promises, kind, policy, player, n);
      if n > rest {
        AllDelivered(init, a, kind, policy, player);
      }
    }
  }

  lemma {:induction false} StartOfPromise(promises: seq<Promised>, policy: SettlementPolicy, k: nat)
    requires k < |promises| && DistinctAssets(promises)
    ensures StartHolder(promises, policy, PromisedItem(promises[k].asset)) == promises[k].source
  {
    if k < |promises| - 1 {
      StartOfPromise(promises[..|promises| - 1], policy, k);
    }
  }

  lemma {:induction false} StartOfProceeds(promises: seq<Promised>, policy: SettlementPolicy, roundId: string)
    ensures StartHolder(promises, policy, ProceedsItem(roundId)) == policy.sessionCustody
  {
    if promises != [] {
      StartOfProceeds(promises[..|promises| - 1], policy, roundId);
    }
  }

  lemma {:induction false} PromisesExecutable(promises: seq<Promised>, kind: SettlementKind, policy: SettlementPolicy, player: Wallet, n: nat)
    requires DistinctAssets(promises) && n < |DraftsForPromises(promises, kind, policy, player)|
    ensures var drafts := DraftsForPromises(promises, kind, policy, player);
            Holder(drafts[n].item, StartHolder(promises, policy, drafts[n].item), drafts[..n]) == drafts[n].source
  {
    var init, last := promises[..|promises| - 1], promises[|promises| - 1];
    var rest, own := DraftsForPromises(init, kind, policy, player), DraftsForPromise(last, kind, policy, player);
    var drafts := DraftsForPromises(promises, kind, policy, player);
    if n < |rest| {
      DraftsMention(init, kind, policy, player, n);
      assert drafts[..n] == rest[..n] && drafts[n] == rest[n];
      PromisesExecutable(init, kind, policy, player, n);
    } else {
      assert drafts[n] == own[n - |rest|];
      StartOfPromise(promises, policy, |promises| - 1);
      HolderOfLast(promises, kind, policy, player, n);
      OwnDrafts(last, kind, policy, player, n - |rest|);
    }
  }

  /** Custody conservation for the whole plan, proceeds included. */
  lemma PlanExecutable(roundId: string, kind: SettlementKind, policy: SettlementPolicy, player: Wallet, pot: nat, promises: seq<Promised>)
    requires DistinctAssets(promises)
    ensures Executable(item => StartHolder(promises, policy, item), AllDrafts(roundId, kind, policy, player, pot, promises))
  {
    var rest, proceeds := DraftsForPromises(promises, kind, policy, player), ProceedsDrafts(roundId, kind, policy, player, pot);
    var drafts := AllDrafts(roundId, kind, policy, player, pot, promises);
    forall n | 0 <= n < |drafts|
      ensures Holder(drafts[n].item, StartHolder(promises, policy, drafts[n].item), drafts[..n]) == drafts[n].source
    {
      if n < |rest| {
        assert drafts[..n] == rest[..n] && drafts[n] == rest[n];
        PromisesExecutable(promises, kind, policy, player, n);
      } else {
        assert drafts[..n] == rest && drafts[n] == proceeds[0];
        StartOfProceeds(promises, policy, roundId);
        EarlierDraftsSilent(promises, kind, policy, player, ProceedsItem(roundId));
        HolderUnmentioned(ProceedsItem(roundId), policy.sessionCustody, rest);
      }
    }
  }

  /** What the plan pays the player in proceeds. */
  function ProceedsPaid(drafts: seq<Draft>, player: Wallet): nat {
    if drafts == [] then 0
    else
      var last := drafts[|drafts| - 1];
      ProceedsPaid(drafts[..|drafts| - 1], player)
      + (if last.item.ProceedsItem? && last.kind == Transfer && last.destination == player then last.amount else 0)
  }

  lemma {:induction false} ProceedsPaidAppend(a: seq<Draft>, b: seq<Draft>, player: Wallet)
    ensures ProceedsPaid(a + b, player) == ProceedsPaid(a, player) + ProceedsPaid(b, player)
  {
    if b == [] {
      assert a + b == a;
    } else {
      assert (a + b)[..|a + b| - 1] == a + b[..|b| - 1];
      ProceedsPaidAppend(a, b[..|b| - 1], player);
    }
  }

  lemma {:induction false} PromisesPayNoProceeds(promises: seq<Promised>, kind: SettlementKind, policy: SettlementPolicy, player: Wallet)
    ensures ProceedsPaid(DraftsForPromises(promises, kind, policy, player), player) == 0
  {
    if promises != [] {
      var init, last := promises[..|promises| - 1], promises[|promises| - 1];
      PromisesPayNoProceeds(init, kind, policy, player);
      ProceedsPaidAppend(DraftsForPromises(init, kind, policy, player), DraftsForPromise(last, kind, policy, player), player);
      AssetsPayNoProceeds(DraftsForPromise(last, kind, policy, player), player);
    }
  }

  lemma {:induction false} AssetsPayNoProceeds(drafts: seq<Draft>, player: Wallet)
    requires forall n :: 0 <= n < |drafts| ==> drafts[n].item.PromisedItem?
    ensures ProceedsPaid(drafts, player) == 0
  {
    if drafts != [] {
      AssetsPayNoProceeds(drafts[..|drafts| - 1], player);
    }
  }

  /** The plan pays exactly what the terminal transition promised. */
  lemma PlannedProceedsArePromised(round: Round, policy: SettlementPolicy, promises: seq<Promised>)
    requires round.status != Active
    ensures ProceedsPaid(AllDrafts(round.id, KindOf(round), policy, round.wallet, round.pot, promises), round.wallet) == Proceeds(round)
  {
    hide ProceedsPaid, ProceedsDrafts, DraftsForPromises, KindOf, Proceeds;
    var kind := KindOf(round);
    PromisesPayNoProceeds(promises, kind, policy, round.wallet);
    ProceedsPaidAppend(DraftsForPromises(promises, kind, policy, round.wallet), ProceedsDrafts(round.id, kind, policy, round.wallet, round.pot),
                       round.wallet);
    ProceedsDraftPays(round, policy);
  }

  lemma ProceedsDraftPays(round: Round, policy: SettlementPolicy)
    requires round.status != Active
    ensures ProceedsPaid(ProceedsDrafts(round.id, KindOf(round), policy, round.wallet, round.pot), round.wallet) == Proceeds(round)
  {
    var proceeds := ProceedsDrafts(round.id, KindOf(round), policy, round.wallet, round.pot);
    if proceeds != [] {
      assert proceeds[..0] == [];
    }
  }

  // ---------------------------------------------------------------- distinct keys

  ghost predicate DistinctKeys(drafts: seq<Draft>) {
    forall a, b :: 0 <= a < b < |drafts| ==> drafts[a].key != drafts[b].key
  }

  ghost predicate DistinctStages(promises: seq<Promised>) {
    forall a, b :: 0 <= a < b < |promises| ==> promises[a].stage != promises[b].stage
  }

  lemma {:induction false} DraftKeysNameStage(promises: seq<Promised>, kind: SettlementKind, policy: SettlementPolicy, player: Wallet, n: nat)
    requires n < |DraftsForPromises(promises, kind, policy, player)|
    ensures var key := DraftsForPromises(promises, kind, policy, player)[n].key;
            key.StageKey? && exists k :: 0 <= k < |promises| && key.keyStage == promises[k].stage
  {
    var init, last := promises[..|promises| - 1], promises[|promises| - 1];
    var rest := DraftsForPromises(init, kind, policy, player);
    if n < |rest| {
      DraftKeysNameStage(init, kind, policy, player, n);
      var k :| 0 <= k < |init| && rest[n].key.keyStage == init[k].stage;
      assert promises[k] == init[k];
    } else {
      assert DraftsForPromises(promises, kind, policy, player)[n] == DraftsForPromise(last, kind, policy, player)[n - |rest|];
    }
  }

  lemma {:induction false} PromiseKeysDistinct(promises: seq<Promised>, kind: SettlementKind, policy: SettlementPolicy, player: Wallet)
    requires DistinctStages(promises)
    ensures DistinctKeys(DraftsForPromises(promises, kind, policy, player))
  {
    if promises != [] {
      var init, last := promises[..|promises| - 1], promises[|promises| - 1];
      var rest, own := DraftsForPromises(init, kind, policy, player), DraftsForPromise(last, kind, policy, player);
      PromiseKeysDistinct(init, kind, policy, player);
      var drafts: seq<Draft> := rest + own;
      forall a, b | 0 <= a < b < |drafts| ensures drafts[a].key != drafts[b].key {
        if b < |rest| {
        } else if a < |rest| {
          DraftKeysNameStage(init, kind, policy, player, a);
        } else {
          assert own[a - |rest|].key != own[b - |rest|].key;
        }
      }
    }
  }

  /** All operation keys of a plan differ, so all its provider request keys differ. */
  lemma PlanKeysDistinct(round: Round, policy: SettlementPolicy, promises: seq<Promised>)
    requires round.status != Active && DistinctStages(promises)
    ensures var plan := PlanOf(round, policy, promises);
            forall a, b :: 0 <= a < b < |plan| ==> plan[a].requestKey != plan[b].requestKey
  {
    var kind := KindOf(round);
    var rest := DraftsForPromises(promises, kind, policy, round.wallet);
    var drafts := AllDrafts(round.id, kind, policy, round.wallet, round.pot, promises);
    PromiseKeysDistinct(promises, kind, policy, round.wallet);
    var plan := PlanOf(round, policy, promises);
    forall a, b | 0 <= a < b < |plan| ensures plan[a].requestKey != plan[b].requestKey {
      assert drafts[a] == rest[a] by { assert a < |rest|; }
      DraftKeysNameStage(promises, kind, policy, round.wallet, a);
      if b < |rest| {
        assert drafts[b] == rest[b];
      }
      assert drafts[a].key != drafts[b].key;
    }
  }
}
