/**
 From reachable rounds to their settlement: a terminal round of any
 service-driven run meets every hypothesis of the settlement theorems, and keeps
 the same plan forever.
 */
module ServiceSettlement {
  import opened Support
  import opened Calculators
  import opened Treasury
  import opened Rounds
  import opened RoundInvariants
  import opened RoundGuarantees
  import opened PlayerDecisions
  import opened SettlementPlan
  import opened SettlementCustody
  import opened SettlementStore
  import RoundRuns
  import RoundTheorems
  import SettlementProtocol
  import SettlementEffects
  import SettlementTheorems

  /** The settlement policy names the rules' bindings and the custody policy the intents were prepared under. */
  predicate PolicyFits(policy: SettlementPolicy, rules: Rules, custody: CustodyPolicy) {
    && ValidPolicy(policy)
    && policy.binding == rules.binding && policy.riskRulesHash == rules.risk.rulesHash && policy.riskRulesVersion == rules.risk.rulesVersion
    && policy.sessionCustody == custody.sessionCustody
    && policy.bound.custodyPolicyHash == custody.policyHash && policy.bound.custodyPolicyVersion == custody.policyVersion
  }

  function FactsOf(db: Database, i: nat): RoundFacts
    requires i < |db.rounds| && i < |db.tables.crash|
  {
    RoundFacts(db.rounds[i], IntentsFor(db.intents, db.rounds[i].id), db.tables.crash[i])
  }

  lemma {:induction false} FitsByIndex(round: Round, mine: seq<Intent>, outcomes: seq<Outcome>, custody: CustodyPolicy, k: nat)
    requires |mine| == |outcomes| && k < |mine|
    requires forall j :: 0 <= j < |outcomes| ==> Fits(mine[j], outcomes[j], round, custody, j)
    ensures FindIntentById(mine, outcomes[k].custody.reference) == Some(k)
  {
    var found := FindIntentById(mine, outcomes[k].custody.reference);
    assert mine[k].id == outcomes[k].custody.reference;
    var j := found.value;
    assert Fits(mine[j], outcomes[j], round, custody, j) && Fits(mine[k], outcomes[k], round, custody, k);
    assert mine[j].movement.key == mine[k].movement.key;
  }

  /** A backed round's promises are verified, with distinct stages and assets, and none starts in session custody. */
  lemma BackedIsVerified(round: Round, mine: seq<Intent>, custody: CustodyPolicy, policy: SettlementPolicy)
    requires policy.sessionCustody == custody.sessionCustody
    requires policy.bound.custodyPolicyHash == custody.policyHash && policy.bound.custodyPolicyVersion == custody.policyVersion
    requires var outcomes := OutcomesOf(round.transitions);
             && |mine| == |outcomes|
             && forall k :: 0 <= k < |outcomes| ==> Fits(mine[k], outcomes[k], round, custody, k) && outcomes[k].provider.stage == k + 1
    ensures PromisesVerified(round, mine, policy)
    ensures var promises := PromisesOf(mine, OutcomesOf(round.transitions));
            && DistinctStages(promises) && DistinctAssets(promises)
            && forall k :: 0 <= k < |promises| ==> promises[k].source != policy.sessionCustody
  {
    hide OutcomesOf;
    var outcomes := OutcomesOf(round.transitions);
    forall k | 0 <= k < |outcomes|
      ensures OutcomeBacked(mine, round, policy, outcomes[k])
      ensures FindIntentById(mine, outcomes[k].custody.reference) == Some(k)
    {
      FitsByIndex(round, mine, outcomes, custody, k);
      assert Fits(mine[k], outcomes[k], round, custody, k);
    }
    forall a, b | 0 <= a < b < |outcomes| ensures outcomes[a].custody.reference != outcomes[b].custody.reference {
      FitsByIndex(round, mine, outcomes, custody, a);
      FitsByIndex(round, mine, outcomes, custody, b);
    }
    var promises := PromisesOf(mine, outcomes);
    forall k | 0 <= k < |promises|
      ensures promises[k].stage == k + 1 && promises[k].asset == FixtureAsset(round.id, k + 1) && promises[k].source != policy.sessionCustody
    {
      assert promises[k] == PromiseFor(mine, outcomes[k]);
      assert Fits(mine[k], outcomes[k], round, custody, k);
    }
    PromisesDistinct(promises, round.id);
  }

  lemma PromisesDistinct(promises: seq<Promised>, roundId: string)
    requires forall k :: 0 <= k < |promises| ==> promises[k].stage == k + 1 && promises[k].asset == FixtureAsset(roundId, k + 1)
    ensures DistinctStages(promises) && DistinctAssets(promises)
  {
  }

  lemma {:induction false} BackedAt(rules: Rules, custody: CustodyPolicy, steps: seq<RoundRuns.Step>, i: nat)
    requires ValidRules(rules) && ServiceRun(steps, custody) && i < |RoundRuns.Run(rules, steps).rounds|
    ensures var db := RoundRuns.Run(rules, steps);
            && i < |db.tables.crash|
            && var round, mine := db.rounds[i], IntentsFor(db.intents, db.rounds[i].id);
            && Slot(rules, round, db.tables.crash[i]) && RowMatches(round, db.tables.crash[i])
            && PlayerKeysOnly(round)
            && var outcomes := OutcomesOf(round.transitions);
            && |mine| == |outcomes|
            && forall k :: 0 <= k < |outcomes| ==> Fits(mine[k], outcomes[k], round, custody, k) && outcomes[k].provider.stage == k + 1
  {
    ServiceRunsAreBacked(rules, custody, steps);
    RoundRuns.EveryRunIsSound(rules, steps);
    var db := RoundRuns.Run(rules, steps);
    hide RoundRuns.Run, LedgerReplays, Aligned, WithinCaps, OutcomesOf, IntentsFor, Fits, LedgerAccepted, PotAccounted;
    RoundRuns.SlotOf(db, rules, i);
    assert Backed(db.rounds[i], db.intents, custody) && PlayerKeysOnly(db.rounds[i]);
  }

  /**
   What a service-driven terminal round promises, read off its ledger: for each
   outcome the asset of its stage, at the value that stage was paid for, from the
   provider's wallet of that stage.
   */
  lemma {:induction false} PromisesReadLedger(rules: Rules, custody: CustodyPolicy, steps: seq<RoundRuns.Step>, i: nat, k: nat)
    requires ValidRules(rules) && ServiceRun(steps, custody) && i < |RoundRuns.Run(rules, steps).rounds|
    requires k < |OutcomesOf(RoundRuns.Run(rules, steps).rounds[i].transitions)|
    ensures var db := RoundRuns.Run(rules, steps);
            var round, mine := db.rounds[i], IntentsFor(db.intents, db.rounds[i].id);
            var outcome := OutcomesOf(round.transitions)[k];
            && outcome.provider.stage == k + 1
            && FindIntentById(mine, outcome.custody.reference).Some?
            && PromiseFor(mine, outcome) == Promised(k + 1, FixtureAsset(round.id, k + 1), outcome.provider.stageValue, ProviderWallet(round.id, k + 1))
  {
    BackedAt(rules, custody, steps, i);
    var db := RoundRuns.Run(rules, steps);
    var round, mine := db.rounds[i], IntentsFor(db.intents, db.rounds[i].id);
    hide RoundRuns.Run, OutcomesOf, IntentsFor, Slot, PlayerKeysOnly;
    FitsByIndex(round, mine, OutcomesOf(round.transitions), custody, k);
    assert Fits(mine[k], OutcomesOf(round.transitions)[k], round, custody, k);
  }

  /** Every terminal round of every service-driven run can be settled under a fitting policy. */
  lemma {:induction false} TerminalRoundsAreSettleable(rules: Rules, custody: CustodyPolicy, policy: SettlementPolicy, steps: seq<RoundRuns.Step>, i: nat)
    requires ValidRules(rules) && ServiceRun(steps, custody) && PolicyFits(policy, rules, custody)
    requires i < |RoundRuns.Run(rules, steps).rounds| && RoundRuns.Run(rules, steps).rounds[i].status != Active
    ensures i < |RoundRuns.Run(rules, steps).tables.crash|
    ensures var facts := FactsOf(RoundRuns.Run(rules, steps), i);
            && Settleable(facts, policy)
            && DistinctStages(PromisesOf(facts.intents, OutcomesOf(facts.round.transitions)))
            && DistinctAssets(PromisesOf(facts.intents, OutcomesOf(facts.round.transitions)))
            && forall k :: 0 <= k < |PromisesOf(facts.intents, OutcomesOf(facts.round.transitions))| ==>
                 PromisesOf(facts.intents, OutcomesOf(facts.round.transitions))[k].source != policy.sessionCustody
  {
    BackedAt(rules, custody, steps, i);
    var db := RoundRuns.Run(rules, steps);
    hide RoundRuns.Run, OutcomesOf, IntentsFor, Fits, PotAccounted, OutcomesInOrder;
    BackedIsVerified(db.rounds[i], IntentsFor(db.intents, db.rounds[i].id), custody, policy);
    hide PromisesVerified;
    TerminalIsSettleable(rules, policy, FactsOf(db, i));
  }

  lemma TerminalIsSettleable(rules: Rules, policy: SettlementPolicy, facts: RoundFacts)
    requires Slot(rules, facts.round, facts.reservation) && RowMatches(facts.round, facts.reservation) && facts.round.status != Active
    requires policy.binding == rules.binding && policy.riskRulesHash == rules.risk.rulesHash && policy.riskRulesVersion == rules.risk.rulesVersion
    requires PromisesVerified(facts.round, facts.intents, policy)
    ensures Settleable(facts, policy)
  {
    hide PotAccounted, OutcomesInOrder, PromisesVerified;
  }

  /** On service-driven runs the default is accepted from the deadline on, with no exception. */
  lemma {:induction false} ServiceDefaultAlwaysAccepted(rules: Rules, custody: CustodyPolicy, steps: seq<RoundRuns.Step>, i: nat, now: int)
    requires ValidRules(rules) && ServiceRun(steps, custody)
    requires i < |RoundRuns.Run(rules, steps).rounds| && RoundRuns.Run(rules, steps).rounds[i].status == Active
    ensures var db := RoundRuns.Run(rules, steps);
            && db.rounds[i].deadline.Some?
            && (ApplyDefault(db, CandidateOf(db.rounds[i]), now).Committed? <==> now >= db.rounds[i].deadline.value)
  {
    BackedAt(rules, custody, steps, i);
    DefaultAcceptedExactly(rules, steps, i, now);
    hide RoundRuns.Run, OutcomesOf, IntentsFor, Fits, Slot, ApplyDefault;
  }

  // ---------------------------------------------------------------- the plan never changes

  lemma StepGrowsIntents(db: Database, rules: Rules, step: RoundRuns.Step)
    requires ValidRules(rules)
    ensures db.intents <= RoundRuns.After(db, rules, step).intents
  {
    hide ApplyMove, Resolve, Reserve, Release, FindRound, FindTransition;
  }

  lemma {:induction false} RunGrowsIntents(rules: Rules, steps: seq<RoundRuns.Step>, k: nat)
    requires ValidRules(rules) && k <= |steps|
    ensures RoundRuns.Run(rules, steps[..k]).intents <= RoundRuns.Run(rules, steps).intents
  {
    if k == |steps| {
      assert steps[..k] == steps;
    } else {
      var init := steps[..|steps| - 1];
      assert init[..k] == steps[..k];
      RunGrowsIntents(rules, init, k);
      StepGrowsIntents(RoundRuns.Run(rules, init), rules, steps[|steps| - 1]);
    }
  }

  lemma {:induction false} IntentsForPrefix(a: seq<Intent>, b: seq<Intent>, roundId: string)
    requires a <= b
    ensures IntentsFor(a, roundId) <= IntentsFor(b, roundId)
  {
    if |b| > |a| {
      IntentsForPrefix(a, b[..|b| - 1], roundId);
    } else {
      assert a == b;
    }
  }

  /** A terminal round's settlement request recomputes to the same value at every later moment, so a plan replay always matches. */
  lemma PlanIsStable(rules: Rules, custody: CustodyPolicy, policy: SettlementPolicy, steps: seq<RoundRuns.Step>, k: nat, i: nat)
    requires ValidRules(rules) && ServiceRun(steps, custody) && PolicyFits(policy, rules, custody) && k <= |steps|
    requires i < |RoundRuns.Run(rules, steps[..k]).rounds| && RoundRuns.Run(rules, steps[..k]).rounds[i].status != Active
    ensures var before, after := RoundRuns.Run(rules, steps[..k]), RoundRuns.Run(rules, steps);
            && i < |before.tables.crash| && i < |after.rounds| && i < |after.tables.crash|
            && var facts, facts' := FactsOf(before, i), FactsOf(after, i);
            && Settleable(facts, policy) && Settleable(facts', policy)
            && RequestFor(facts'.round, policy, ExpectedPlan(facts', policy)) == RequestFor(facts.round, policy, ExpectedPlan(facts, policy))
  {
    hide RoundRuns.Run, OutcomesOf, IntentsFor, Fits, Slot, Settleable, ValidRules, FromService, ExpectedPlan, RequestFor;
    var before, after := RoundRuns.Run(rules, steps[..k]), RoundRuns.Run(rules, steps);
    assert ServiceRun(steps[..k], custody);
    RoundTheorems.RunFollows(rules, steps, k, i);
    RunGrowsIntents(rules, steps, k);
    IntentsForPrefix(before.intents, after.intents, before.rounds[i].id);
    BackedAt(rules, custody, steps[..k], i);
    BackedAt(rules, custody, steps, i);
    TerminalRoundsAreSettleable(rules, custody, policy, steps[..k], i);
    TerminalRoundsAreSettleable(rules, custody, policy, steps, i);
    assert IntentsFor(after.intents, after.rounds[i].id) == IntentsFor(before.intents, before.rounds[i].id);
    SameFactsSameRequest(policy, FactsOf(before, i), FactsOf(after, i));
  }

  lemma SameFactsSameRequest(policy: SettlementPolicy, facts: RoundFacts, facts': RoundFacts)
    requires Settleable(facts, policy) && Settleable(facts', policy) && facts'.intents == facts.intents
    requires facts'.round == facts.round.(settlementStatus := facts'.round.settlementStatus, receiptHash := facts'.round.receiptHash,
                                          settledAt := facts'.round.settledAt)
    ensures RequestFor(facts'.round, policy, ExpectedPlan(facts', policy)) == RequestFor(facts.round, policy, ExpectedPlan(facts, policy))
  {
    hide PromisesOf, AllDrafts;
  }

  // ---------------------------------------------------------------- end to end

  /** Exactly once so far, each effect in custody order, the whole plan once settled, and the promised payout planned. */
  ghost predicate Kept(facts: RoundFacts, policy: SettlementPolicy, end: SettlementProtocol.State)
    requires Settleable(facts, policy)
  {
    var promises := PromisesOf(facts.intents, OutcomesOf(facts.round.transitions));
    var drafts := AllDrafts(facts.round.id, KindOf(facts.round), policy, facts.round.wallet, facts.round.pot, promises);
    && SettlementEffects.ExactlyOnceSoFar(end)
    && Executable(item => StartHolder(promises, policy, item), SettlementTheorems.DraftsApplied(end.effects))
    && (end.store.settlement.status == Settled ==> SettlementTheorems.DraftsApplied(end.effects) == drafts)
    && LastTransition(facts.round).payout == Some(ProceedsPaid(drafts, facts.round.wallet))
  }

  /**
   A terminal round reached through the service, settled by any interleaving of
   workers over a deduplicating provider: every effect at most once and in custody
   order, all of them once settled, and the plan pays exactly the payout its
   terminal transition recorded.
   */
  lemma {:induction false} PromisesAreKept(rules: Rules, custody: CustodyPolicy, policy: SettlementPolicy, steps: seq<RoundRuns.Step>, i: nat,
                        facts: RoundFacts, now: int, work: seq<SettlementProtocol.Step>)
    requires ValidRules(rules) && ServiceRun(steps, custody) && PolicyFits(policy, rules, custody)
    requires i < |RoundRuns.Run(rules, steps).rounds| && RoundRuns.Run(rules, steps).rounds[i].status != Active
    requires i < |RoundRuns.Run(rules, steps).tables.crash| && facts == FactsOf(RoundRuns.Run(rules, steps), i)
    requires Settleable(facts, policy)
    requires SettlementEffects.DeduplicatedRun(SettlementProtocol.Start(facts, policy, now), work)
    ensures Kept(facts, policy, SettlementProtocol.Run(SettlementProtocol.Start(facts, policy, now), work))
  {
    hide *;
    FactsRound(RoundRuns.Run(rules, steps), i);
    TerminalRoundsAreSettleable(rules, custody, policy, steps, i);
    PromisedPayoutRecorded(rules, steps, i);
    KeptFor(facts, policy, now, work);
  }

  lemma FactsRound(db: Database, i: nat)
    requires i < |db.rounds| && i < |db.tables.crash|
    ensures FactsOf(db, i).round == db.rounds[i]
  {
  }

  lemma {:induction false} KeptFor(facts: RoundFacts, policy: SettlementPolicy, now: int, work: seq<SettlementProtocol.Step>)
    requires Settleable(facts, policy)
    requires DistinctStages(PromisesOf(facts.intents, OutcomesOf(facts.round.transitions)))
    requires DistinctAssets(PromisesOf(facts.intents, OutcomesOf(facts.round.transitions)))
    requires facts.round.transitions != [] && facts.round.transitions[|facts.round.transitions| - 1].payout == Some(Proceeds(facts.round))
    requires SettlementEffects.DeduplicatedRun(SettlementProtocol.Start(facts, policy, now), work)
    ensures Kept(facts, policy, SettlementProtocol.Run(SettlementProtocol.Start(facts, policy, now), work))
  {
    hide PromisesOf, AllDrafts, Executable, StartHolder, Settleable, Proceeds, ProceedsPaid, PromisesVerified, DistinctStages, DistinctAssets,
         SettlementEffects.ExactlyOnceSoFar, SettlementEffects.DeduplicatedRun, SettlementTheorems.DraftsApplied,
         SettlementProtocol.Start, SettlementProtocol.Run, OutcomesOf, KindOf;
    SettlementEffects.DeduplicatedExactlyOnce(facts, policy, now, work);
    SettlementTheorems.AppliedEffectsRespectCustody(facts, policy, now, work);
    if SettlementProtocol.Run(SettlementProtocol.Start(facts, policy, now), work).store.settlement.status == Settled {
      SettlementTheorems.SettledAppliesAll(facts, policy, now, work);
    }
    TerminalWithPlan(facts, policy);
    PlannedProceedsArePromised(facts.round, policy, PromisesOf(facts.intents, OutcomesOf(facts.round.transitions)));
  }

  lemma TerminalWithPlan(facts: RoundFacts, policy: SettlementPolicy)
    requires Settleable(facts, policy)
    ensures facts.round.status != Active && facts.round.transitions != [] && PromisesVerified(facts.round, facts.intents, policy)
    ensures forall k :: 0 <= k < |OutcomesOf(facts.round.transitions)| ==>
              FindIntentById(facts.intents, OutcomesOf(facts.round.transitions)[k].custody.reference).Some?
  {
  }
}
