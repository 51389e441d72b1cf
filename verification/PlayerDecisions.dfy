/**
 Rounds driven only through the player decision service
 (apps/api/src/crash/crash-decision.service.ts): every continue carries its own
 custody intent in the same transaction, whatever was retried, replayed or
 refused before.
 */
module PlayerDecisions {
  import opened Support
  import opened Calculators
  import opened Treasury
  import opened Rounds
  import opened RoundInvariants
  import opened RoundSteps
  import opened RoundRuns

  const FIXTURE_STAGE_VALUE: nat := 1_000_000

  datatype Action = PlayContinue | PlayCashOut

  datatype PlayerInput = PlayerInput(roundId: string, action: Action, stage: int, version: int, publicKey: string)

  function CustodyKeyOf(input: PlayerInput): CustodyKey {
    CustodyKey(input.stage, input.version, input.publicKey, input.roundId)
  }

  /** The decision the service derives from the snapshot it read; the pot it saw may be stale. */
  function FixtureDecision(rules: Rules, health: Option<Health>, input: PlayerInput, seenPot: nat, rollPpm: int): Result<Decision, CalculatorError>
    requires forall k :: 0 <= k < |rules.stages| ==> rules.stages[k].potContributionBps >= 0
  {
    match input.action
    case PlayCashOut => Ok(CashOut(input.stage, input.version, PlayerKey(input.publicKey), seenPot))
    case PlayContinue =>
      match CalculateBust(rules.stages, input.stage, rollPpm)
      case Err(e) => Err(e)
      case Ok(busted) =>
        match CalculatePot(rules.stages, input.stage, seenPot, FIXTURE_STAGE_VALUE)
        case Err(e) => Err(e)
        case Ok(pot) =>
          var terminal := busted || input.stage == |rules.stages|;
          Ok(Continue(
            input.stage, input.version, PlayerKey(input.publicKey), FIXTURE_STAGE_VALUE,
            Custody(FixtureAsset(input.roundId, input.stage), IntentOf(input.roundId, CustodyKeyOf(input))),
            Provider(input.stage, rollPpm, FIXTURE_STAGE_VALUE),
            if terminal then Some(if busted then 0 else pot.next) else None, health))
  }

  function MovementOf(input: PlayerInput, player: Wallet, recipient: Option<Wallet>, binding: Binding): Movement {
    Movement(input.roundId, input.stage, input.version, CustodyKeyOf(input), player, recipient,
             FixtureAsset(input.roundId, input.stage), ProviderWallet(input.roundId, if input.stage < 0 then 0 else input.stage), binding)
  }

  function EffectOf(input: PlayerInput, player: Wallet, recipient: Option<Wallet>, policy: Option<CustodyPolicy>, binding: Binding): Effect {
    if input.action == PlayContinue then Prepare(MovementOf(input, player, recipient, binding), policy) else NoEffect
  }

  /** What a step looks like when only the service drives decisions, under one custody policy or none. */
  predicate FromService(step: Step, policy: CustodyPolicy) {
    step.Take? ==>
      && step.decision.key.PlayerKey?
      && (step.decision.CashOut? ==> step.effect == NoEffect)
      && (step.decision.Continue? ==>
            && var input := PlayerInput(step.id, PlayContinue, step.decision.expectedStage, step.decision.expectedVersion, step.decision.key.publicKey);
            && step.decision.custody == Custody(FixtureAsset(input.roundId, input.stage), IntentOf(input.roundId, CustodyKeyOf(input)))
            && step.effect.Prepare?
            && step.effect.movement
               == MovementOf(input, step.effect.movement.player, step.effect.movement.requestedRecipient, step.effect.movement.binding)
            && (step.effect.policy.Some? ==> step.effect.policy.value == policy))
  }

  /** Every call of the service makes such a step, whatever snapshot it read. */
  lemma ServiceCallsAreFromService(rules: Rules, house: House, health: Option<Health>, input: PlayerInput, seenPot: nat, rollPpm: int,
                                   player: Wallet, recipient: Option<Wallet>, policy: CustodyPolicy, resolved: Option<CustodyPolicy>, now: int)
    requires forall k :: 0 <= k < |rules.stages| ==> rules.stages[k].potContributionBps >= 0
    requires FixtureDecision(rules, health, input, seenPot, rollPpm).Ok? && (resolved == None || resolved == Some(policy))
    ensures FromService(Take(house, input.roundId, FixtureDecision(rules, health, input, seenPot, rollPpm).value, now,
                             EffectOf(input, player, recipient, resolved, rules.binding)), policy)
  {
  }

  ghost predicate ServiceRun(steps: seq<Step>, policy: CustodyPolicy) {
    forall k :: 0 <= k < |steps| ==> FromService(steps[k], policy)
  }

  // ---------------------------------------------------------------- one round's intents

  function IntentsFor(intents: seq<Intent>, roundId: string): seq<Intent> {
    if intents == [] then []
    else
      var last := intents[|intents| - 1];
      IntentsFor(intents[..|intents| - 1], roundId) + (if last.movement.roundId == roundId then [last] else [])
  }

  lemma IntentsForAppend(intents: seq<Intent>, intent: Intent, roundId: string)
    ensures IntentsFor(intents + [intent], roundId)
            == IntentsFor(intents, roundId) + (if intent.movement.roundId == roundId then [intent] else [])
  {
    assert (intents + [intent])[..|intents|] == intents;
  }

  lemma {:induction false} IntentsForFinds(intents: seq<Intent>, j: nat)
    requires j < |intents|
    ensures intents[j] in IntentsFor(intents, intents[j].movement.roundId)
  {
    var n := |intents| - 1;
    if j < n {
      IntentsForFinds(intents[..n], j);
    }
  }

  lemma {:induction false} NoIntentsFor(intents: seq<Intent>, roundId: string)
    requires forall j :: 0 <= j < |intents| ==> intents[j].movement.roundId != roundId
    ensures IntentsFor(intents, roundId) == []
  {
    if intents != [] {
      NoIntentsFor(intents[..|intents| - 1], roundId);
    }
  }

  /** The `k`-th intent is the prepared movement of the `k`-th outcome, approved under the policy. */
  predicate Fits(intent: Intent, outcome: Outcome, round: Round, policy: CustodyPolicy, k: nat) {
    && intent.id == outcome.custody.reference == IntentOf(round.id, intent.movement.key)
    && intent.movement.roundId == round.id && intent.movement.expectedStage == intent.movement.key.stage == k + 1
    && intent.movement.asset == outcome.custody.asset == FixtureAsset(round.id, k + 1)
    && intent.movement.source == ProviderWallet(round.id, k + 1) && intent.movement.source != policy.sessionCustody
    && intent.movement.player == round.wallet && intent.movement.requestedRecipient == Some(policy.sessionCustody)
    && intent.policy == Some(policy) && intent.recovery.None? && intent.movement.binding == round.binding
  }

  /** Outcomes and intents of a round correspond one to one, in stage order. */
  ghost predicate Backed(round: Round, intents: seq<Intent>, policy: CustodyPolicy) {
    var outcomes, mine := OutcomesOf(round.transitions), IntentsFor(intents, round.id);
    && |mine| == |outcomes|
    && forall k :: 0 <= k < |outcomes| ==> Fits(mine[k], outcomes[k], round, policy, k)
  }

  /** An active round's ledger holds only start and player keys. */
  ghost predicate PlayerKeysOnly(round: Round) {
    round.status == Active ==>
      forall k :: 0 <= k < |round.transitions| ==> round.transitions[k].key == StartKey || round.transitions[k].key.PlayerKey?
  }

  ghost predicate AllBacked(db: Database, policy: CustodyPolicy) {
    && (forall i :: 0 <= i < |db.rounds| ==> Backed(db.rounds[i], db.intents, policy) && PlayerKeysOnly(db.rounds[i]))
    && (forall j :: 0 <= j < |db.intents| ==> FindRound(db.rounds, db.intents[j].movement.roundId).Some?)
  }

  // ---------------------------------------------------------------- steps

  lemma EarlierIntentStage(round: Round, intents: seq<Intent>, policy: CustodyPolicy, j: nat)
    requires Backed(round, intents, policy) && j < |intents| && intents[j].movement.roundId == round.id
    ensures intents[j].movement.key.stage <= |OutcomesOf(round.transitions)|
  {
    IntentsForFinds(intents, j);
    var mine := IntentsFor(intents, round.id);
    var k :| 0 <= k < |mine| && mine[k] == intents[j];
    assert Fits(mine[k], OutcomesOf(round.transitions)[k], round, policy, k);
  }

  /** A continue of the current stage never finds an earlier intent under its custody key. */
  lemma CustodyKeyIsFresh(round: Round, intents: seq<Intent>, policy: CustodyPolicy, key: CustodyKey)
    requires Backed(round, intents, policy) && |OutcomesOf(round.transitions)| < key.stage
    ensures FindIntent(intents, round.id, key).None?
  {
    hide Backed;
    var found := FindIntent(intents, round.id, key);
    if found.Some? {
      EarlierIntentStage(round, intents, policy, found.value);
    }
  }

  lemma ContinueBacked(rules: Rules, round: Round, intents: seq<Intent>, policy: CustodyPolicy, step: Step, next: Next, intents': seq<Intent>)
    requires step.Take? && FromService(step, policy) && step.decision.Continue? && step.id == round.id
    requires Backed(round, intents, policy) && OutcomesInOrder(round) && round.status == Active
    requires step.decision.expectedStage == round.stage
    requires next.outcome.Some? && next.outcome.value.custody == step.decision.custody
    requires RunEffect(intents, round, step.effect) == Ok(intents')
    ensures Backed(Advance(rules, round, step.decision, next), intents', policy)
    ensures intents' == intents + [Intent(IntentOf(round.id, step.effect.movement.key), step.effect.movement, Some(policy), Some(policy), None)]
  {
    var movement := step.effect.movement;
    CustodyKeyIsFresh(round, intents, policy, movement.key);
    OutcomesAppend(round.transitions, TransitionFor(rules, round, step.decision, next));
    var intent := Intent(IntentOf(round.id, movement.key), movement, Some(policy), Some(policy), None);
    IntentsForAppend(intents, intent, round.id);
    hide FindIntent, IntentsFor, OutcomesOf;
    var k := |OutcomesOf(round.transitions)|;
    var round' := Advance(rules, round, step.decision, next);
    assert Fits(intent, next.outcome.value, round', policy, k);
  }

  lemma CashOutBacked(rules: Rules, round: Round, intents: seq<Intent>, policy: CustodyPolicy, decision: Decision, next: Next)
    requires Backed(round, intents, policy) && next.outcome.None?
    ensures Backed(Advance(rules, round, decision, next), intents, policy)
  {
    OutcomesAppend(round.transitions, TransitionFor(rules, round, decision, next));
    assert OutcomesOf(round.transitions) + [] == OutcomesOf(round.transitions);
    hide IntentsFor, OutcomesOf;
  }

  lemma DefaultBacked(round: Round, intents: seq<Intent>, policy: CustodyPolicy, candidate: Candidate, now: int)
    requires Backed(round, intents, policy)
    ensures Backed(Forfeit(round, candidate, now), intents, policy)
  {
    OutcomesAppend(round.transitions, DefaultTransition(round, candidate));
    assert OutcomesOf(round.transitions) + [] == OutcomesOf(round.transitions);
    hide IntentsFor, OutcomesOf;
  }

  /** Other rounds keep their intents when one round gains one. */
  lemma OtherRoundBacked(round: Round, intents: seq<Intent>, intent: Intent, policy: CustodyPolicy)
    requires Backed(round, intents, policy) && intent.movement.roundId != round.id
    ensures Backed(round, intents + [intent], policy)
  {
    IntentsForAppend(intents, intent, round.id);
  }

  lemma KeysStayPlayers(round: Round, t: Transition, round': Round)
    requires PlayerKeysOnly(round) && round.status == Active && t.key.PlayerKey? && round'.transitions == round.transitions + [t]
    ensures PlayerKeysOnly(round')
  {
  }

  /** Replacing one round by a successor of the same identity, possibly with one more intent of its own. */
  lemma ReplaceKeepsBacked(db: Database, policy: CustodyPolicy, i: nat, round': Round, intents': seq<Intent>, after: Database)
    requires AllBacked(db, policy) && DistinctRoundIds(db.rounds) && i < |db.rounds| && round'.id == db.rounds[i].id
    requires Backed(round', intents', policy) && PlayerKeysOnly(round')
    requires intents' == db.intents || (exists intent :: intents' == db.intents + [intent] && intent.movement.roundId == round'.id)
    requires after.rounds == db.rounds[i := round'] && after.intents == intents'
    ensures AllBacked(after, policy)
  {
    hide Backed, PlayerKeysOnly;
    FindAfterUpdate(db.rounds, i, round');
    forall k | 0 <= k < |after.rounds| ensures Backed(after.rounds[k], after.intents, policy) && PlayerKeysOnly(after.rounds[k]) {
      if k != i && intents' != db.intents {
        assert db.rounds[k].id != db.rounds[i].id;
        var intent :| intents' == db.intents + [intent] && intent.movement.roundId == round'.id;
        OtherRoundBacked(db.rounds[k], db.intents, intent, policy);
      }
    }
    forall j | 0 <= j < |after.intents| ensures FindRound(after.rounds, after.intents[j].movement.roundId).Some? {
      if j < |db.intents| {
        assert after.intents[j] == db.intents[j];
      } else {
        assert after.rounds[i].id == after.intents[j].movement.roundId;
      }
    }
  }

  lemma {:induction false} TakeKeepsBacked(db: Database, rules: Rules, policy: CustodyPolicy, step: Step, i: nat)
    requires ValidRules(rules) && Sound(db, rules) && AllBacked(db, policy) && step.Take? && FromService(step, policy)
    requires i < |db.rounds| && db.rounds[i].id == step.id
    requires forall k :: 0 <= k < |rules.stages| ==> rules.stages[k].potContributionBps >= 0
    requires DecideOn(db, i, rules, step.house, step.decision, step.now, step.effect).Committed?
    ensures AllBacked(DecideOn(db, i, rules, step.house, step.decision, step.now, step.effect).db, policy)
  {
    hide AllBacked, Sound, ApplyMove, Fits;
    var round, decision := db.rounds[i], step.decision;
    var next := Resolve(rules, round, decision, step.now).value;
    var intents' := RunEffect(db.intents, round, step.effect).value;
    var round' := Advance(rules, round, decision, next);
    var after := DecideOn(db, i, rules, step.house, decision, step.now, step.effect).db;
    assert after.rounds == db.rounds[i := round'] && after.intents == intents';
    ResolveGivesFacts(rules, round, decision, step.now);
    BackedParts(db, rules, policy, i);
    KeysStayPlayers(round, TransitionFor(rules, round, decision, next), round');
    if decision.Continue? {
      ContinueBacked(rules, round, db.intents, policy, step, next, intents');
    } else {
      CashOutBacked(rules, round, db.intents, policy, decision, next);
    }
    hide Resolve, RunEffect, DecideOn, FromService, Backed, OutcomesInOrder, NextFacts;
    ReplaceKeepsBacked(db, policy, i, round', intents', after);
  }

  lemma {:induction false} BackedParts(db: Database, rules: Rules, policy: CustodyPolicy, i: nat)
    requires Sound(db, rules) && AllBacked(db, policy) && i < |db.rounds|
    ensures Backed(db.rounds[i], db.intents, policy) && PlayerKeysOnly(db.rounds[i]) && OutcomesInOrder(db.rounds[i])
    ensures DistinctRoundIds(db.rounds) && |db.rounds| == |db.tables.crash|
    ensures FindRound(db.rounds, db.rounds[i].id) == Some(i)
  {
    SlotOf(db, rules, i);
    FoundIsUnique(db.rounds, db.tables.crash, i);
  }

  lemma {:induction false} DefaultKeepsBacked(db: Database, rules: Rules, policy: CustodyPolicy, candidate: Candidate, now: int)
    requires Sound(db, rules) && AllBacked(db, policy) && ApplyDefault(db, candidate, now).Committed?
    ensures AllBacked(ApplyDefault(db, candidate, now).db, policy)
  {
    hide AllBacked, Sound, Release;
    var i := FindRound(db.rounds, candidate.id).value;
    var round' := Forfeit(db.rounds[i], candidate, now);
    BackedParts(db, rules, policy, i);
    DefaultBacked(db.rounds[i], db.intents, policy, candidate, now);
    ReplaceKeepsBacked(db, policy, i, round', db.intents, ApplyDefault(db, candidate, now).db);
  }

  lemma {:induction false} SettleKeepsBacked(db: Database, rules: Rules, policy: CustodyPolicy, id: string, status: SettlementStatus, hash: Option<string>, at: Option<int>)
    requires Sound(db, rules) && AllBacked(db, policy) && SettleColumns(db, id, status, hash, at).Committed?
    ensures AllBacked(SettleColumns(db, id, status, hash, at).db, policy)
  {
    hide AllBacked, Sound;
    var i := FindRound(db.rounds, id).value;
    var round' := db.rounds[i].(settlementStatus := status, receiptHash := hash, settledAt := at);
    BackedParts(db, rules, policy, i);
    ReplaceKeepsBacked(db, policy, i, round', db.intents, SettleColumns(db, id, status, hash, at).db);
  }

  lemma NewRoundBacked(rules: Rules, id: string, wallet: Wallet, pot: nat, now: int, intents: seq<Intent>, policy: CustodyPolicy)
    requires IntentsFor(intents, id) == []
    ensures Backed(NewRound(rules, id, wallet, pot, now), intents, policy) && PlayerKeysOnly(NewRound(rules, id, wallet, pot, now))
  {
    var round := NewRound(rules, id, wallet, pot, now);
    OutcomesAppend([], round.transitions[0]);
    assert [] + round.transitions == round.transitions;
  }

  lemma CreateKeepsBacked(db: Database, rules: Rules, policy: CustodyPolicy, house: House, id: string, wallet: Wallet, pot: nat,
                          health: Option<Health>, now: int)
    requires AllBacked(db, policy) && CreateRound(db, rules, house, id, wallet, pot, health, now).Committed?
    ensures AllBacked(CreateRound(db, rules, house, id, wallet, pot, health, now).db, policy)
  {
    hide Reserve, Backed, PlayerKeysOnly;
    var after := CreateRound(db, rules, house, id, wallet, pot, health, now).db;
    var round := NewRound(rules, id, wallet, pot, now);
    assert FindRound(db.rounds, id).None? && after.rounds == db.rounds + [round] && after.intents == db.intents;
    NoIntentsFor(db.intents, id);
    NewRoundBacked(rules, id, wallet, pot, now, db.intents, policy);
    forall j | 0 <= j < |db.intents| ensures FindRound(after.rounds, db.intents[j].movement.roundId).Some? {
      FindAfterAppend(db.rounds, round, db.intents[j].movement.roundId);
    }
  }

  lemma {:induction false} StepKeepsBacked(db: Database, rules: Rules, policy: CustodyPolicy, step: Step)
    requires ValidRules(rules) && Sound(db, rules) && AllBacked(db, policy) && FromService(step, policy)
    ensures AllBacked(After(db, rules, step), policy)
  {
    hide Sound, FromService, CreateRound, ApplyDefault, SettleColumns;
    if VerdictOf(db, rules, step).Committed? {
      match step
      case Create(house, id, wallet, pot, health, now) => CreateKeepsBacked(db, rules, policy, house, id, wallet, pot, health, now);
      case Take(house, id, decision, now, effect) => CommittedTakeKeepsBacked(db, rules, policy, step);
      case Expire(candidate, now) => DefaultKeepsBacked(db, rules, policy, candidate, now);
      case OtherSources(rows) =>
      case SettlementColumns(id, status, hash, at) => SettleKeepsBacked(db, rules, policy, id, status, hash, at);
    }
  }

  lemma {:induction false} CommittedTakeKeepsBacked(db: Database, rules: Rules, policy: CustodyPolicy, step: Step)
    requires ValidRules(rules) && Sound(db, rules) && AllBacked(db, policy) && step.Take? && FromService(step, policy)
    requires AttemptDecision(db, rules, step.house, step.id, step.decision, step.now, step.effect).Committed?
    ensures AllBacked(AttemptDecision(db, rules, step.house, step.id, step.decision, step.now, step.effect).db, policy)
  {
    hide Sound, AllBacked, FromService, DecideOn;
    assert forall k :: 0 <= k < |rules.stages| ==> ValidStage(rules.stages[k]);
    TakeKeepsBacked(db, rules, policy, step, FindRound(db.rounds, step.id).value);
  }

  /**
   On every run driven through the service, with any mix of stale snapshots,
   failures, retries and environment steps, each round's outcomes are those of
   stages 1, 2, ... and correspond one to one with its prepared intents.
   */
  lemma {:induction false} ServiceRunsAreBacked(rules: Rules, policy: CustodyPolicy, steps: seq<Step>)
    requires ValidRules(rules) && ServiceRun(steps, policy)
    ensures AllBacked(Run(rules, steps), policy)
  {
    if steps != [] {
      var init := steps[..|steps| - 1];
      ServiceRunsAreBacked(rules, policy, init);
      EveryRunIsSound(rules, init);
      assert FromService(steps[|steps| - 1], policy);
      hide Sound, AllBacked, FromService;
      StepKeepsBacked(Run(rules, init), rules, policy, steps[|steps| - 1]);
    }
  }
}
