/**
 What an undisturbed call of the player service does to a round that only the
 service drives: the exact answer, and the fields it leaves.
 */
module PlayerOutcomes {
  import opened Support
  import opened Calculators
  import opened Treasury
  import opened Rounds
  import opened RoundInvariants
  import opened RoundSteps
  import opened RoundRuns
  import opened RoundTheorems
  import opened RoundGuarantees
  import opened RoundOutcomes
  import opened PlayerDecisions
  import opened ExpiryBatch
  import opened PlayerService

  /** The player's call for their own active round, naming its stage and version under an unused key. */
  ghost predicate Addressed(db: Database, i: nat, input: PlayerInput, player: Wallet)
    requires i < |db.rounds|
  {
    var round := db.rounds[i];
    && round.status == Active && round.deadline.Some?
    && input.roundId == round.id && player == round.wallet
    && input.stage == round.stage && input.version == round.version
    && KeyUnused(round, PlayerKey(input.publicKey))
  }

  /** The policy resolves, binds the configured rules, and does not name the provider's wallet of this stage. */
  predicate CustodyReady(setting: Setting, round: Round) {
    && setting.policy.Some?
    && setting.policy.value.binding == setting.rules.binding
    && setting.policy.value.sessionCustody != ProviderWallet(round.id, round.stage)
  }

  /** The answer to an addressed call in time. */
  function ReplyInTime(t: Tables, setting: Setting, i: nat, round: Round, action: Action): TurnReply
    requires Staged(setting.rules, round) && i < |t.crash|
  {
    var rules, pot := setting.rules, GrownPot(setting.rules, round, FIXTURE_STAGE_VALUE);
    var after := Raised(t, i, pot);
    if action == PlayCashOut then Played
    else if !(0 <= setting.rollPpm < 1_000_000) then Refused(CalculatorRejected(InvalidInput))
    else if pot > rules.stages[round.stage - 1].maxPot then Refused(CalculatorRejected(PotLimitExceeded))
    else if !EvidenceInTime(setting.health, rules.risk, setting.decidedAt) then Refused(RiskRejected(UnhealthyEvidence))
    else if StatusAfter(rules.stages, round.stage, setting.rollPpm) == Active && round.stage >= rules.risk.maxStage then Refused(RiskRejected(StageLimit))
    else if !Affordable(after, rules.risk, setting.house, round.wallet, pot)
    then Refused(RiskRejected(Shortfall(after, rules.risk, setting.house, round.wallet, pot)))
    else if !CustodyReady(setting, round) then Refused(InvalidEvidence)
    else Played
  }

  /** Status and pot after a played action. */
  function PlayedStatus(setting: Setting, round: Round, action: Action): RoundStatus
    requires Staged(setting.rules, round)
  {
    if action == PlayCashOut then CashedOut else StatusAfter(setting.rules.stages, round.stage, setting.rollPpm)
  }

  function PlayedPot(setting: Setting, round: Round, action: Action): nat
    requires Staged(setting.rules, round)
  {
    if action == PlayCashOut then round.pot else GrownPot(setting.rules, round, FIXTURE_STAGE_VALUE)
  }

  /** The prepared movement from the provider's wallet of the stage into session custody. */
  function StageIntent(setting: Setting, round: Round, input: PlayerInput): Intent
    requires setting.policy.Some?
  {
    var key := CustodyKey(input.stage, input.version, input.publicKey, round.id);
    Intent(IntentOf(round.id, key),
           Movement(round.id, round.stage, round.version, key, round.wallet, Some(setting.policy.value.sessionCustody),
                    FixtureAsset(round.id, round.stage), ProviderWallet(round.id, round.stage), setting.rules.binding),
           setting.policy, setting.policy, None)
  }

  /** What a played call leaves: status, pot, promised payout, reservation, and for a continue its prepared intent. */
  ghost predicate PlayedLeaves(setting: Setting, db: Database, i: nat, input: PlayerInput, after: Database)
    requires i < |db.rounds| && i < |db.tables.crash| && Staged(setting.rules, db.rounds[i])
    requires input.action == PlayContinue ==> setting.policy.Some?
  {
    var round := db.rounds[i];
    var pot, status := PlayedPot(setting, round, input.action), PlayedStatus(setting, round, input.action);
    && OthersKept(db, i, after)
    && ColumnsLeft(setting.rules, round, after.rounds[i], status, pot, setting.decidedAt)
    && RowLeft(db.tables.crash[i], after.tables.crash[i], status, pot)
    && |after.rounds[i].transitions| == |round.transitions| + 1
    && var t := after.rounds[i].transitions[|round.transitions|];
    && t.key == PlayerKey(input.publicKey)
    && t.payout == (if status == CashedOut then Some(pot) else SettlementFor(status, pot))
    && after.intents == (if input.action == PlayCashOut then db.intents else db.intents + [StageIntent(setting, round, input)])
  }

  // ---------------------------------------------------------------- the derived decision

  /** A continue on the stored pot that fits, with the configured evidence and roll. */
  ghost predicate MadeFrom(setting: Setting, input: PlayerInput, round: Round, decision: Decision)
    requires Staged(setting.rules, round)
  {
    && decision.Continue? && ContinueFits(setting.rules, round, decision)
    && decision.expectedStage == round.stage && decision.expectedVersion == round.version
    && decision.key == PlayerKey(input.publicKey) && decision.health == setting.health
    && decision.provider.stageValue == decision.payment == FIXTURE_STAGE_VALUE && decision.provider.rollPpm == setting.rollPpm
  }

  /** A fixture decision on the pot that is stored fits: its settlement is the one the roll calls for. */
  lemma FixtureFits(setting: Setting, input: PlayerInput, round: Round)
    requires ValidRules(setting.rules) && Bounded(setting.rules, round) && Staged(setting.rules, round)
    requires input.action == PlayContinue && input.stage == round.stage && input.version == round.version
    requires forall k :: 0 <= k < |setting.rules.stages| ==> setting.rules.stages[k].potContributionBps >= 0
    ensures var rules, made := setting.rules, FixtureDecision(setting.rules, setting.health, input, round.pot, setting.rollPpm);
            var limit := rules.stages[round.stage - 1].maxPot;
            && (!(0 <= setting.rollPpm < 1_000_000) ==> made == Err(InvalidInput))
            && (0 <= setting.rollPpm < 1_000_000 && GrownPot(rules, round, FIXTURE_STAGE_VALUE) > limit ==> made == Err(PotLimitExceeded))
            && (0 <= setting.rollPpm < 1_000_000 && GrownPot(rules, round, FIXTURE_STAGE_VALUE) <= limit ==>
                  made.Ok? && MadeFrom(setting, input, round, made.value))
  {
    StageOf(setting.rules, round);
    hide ValidRules;
  }

  lemma IntentStage(round: Round, intents: seq<Intent>, policy: CustodyPolicy, j: nat)
    requires Backed(round, intents, policy) && j < |intents| && intents[j].movement.roundId == round.id
    ensures intents[j].movement.expectedStage <= |OutcomesOf(round.transitions)|
  {
    IntentsForFinds(intents, j);
    var mine := IntentsFor(intents, round.id);
    var k :| 0 <= k < |mine| && mine[k] == intents[j];
    assert Fits(mine[k], OutcomesOf(round.transitions)[k], round, policy, k);
  }

  /** No earlier intent of a backed round belongs to its current stage. */
  lemma StageIsUnprepared(round: Round, intents: seq<Intent>, policy: CustodyPolicy, m: Movement)
    requires Backed(round, intents, policy) && |OutcomesOf(round.transitions)| < m.expectedStage && m.roundId == round.id
    ensures !AlreadyPrepared(intents, m)
  {
    hide Backed;
    forall j | 0 <= j < |intents| && intents[j].movement.roundId == round.id ensures intents[j].movement.expectedStage < m.expectedStage {
      IntentStage(round, intents, policy, j);
    }
  }

  /** The custody effect of a continue is prepared exactly when the policy is ready, and otherwise stops the decision. */
  lemma EffectPrepared(setting: Setting, input: PlayerInput, round: Round, intents: seq<Intent>, custody: CustodyPolicy)
    requires Backed(round, intents, custody) && |OutcomesOf(round.transitions)| < round.stage <= MAX_STAGES
    requires round.status == Active && round.version >= 1 && round.binding == setting.rules.binding
    requires input.action == PlayContinue && input.roundId == round.id && input.stage == round.stage && input.version == round.version
    ensures RunEffect(intents, round, EffectFor(setting, input, round))
            == if CustodyReady(setting, round) then Ok(intents + [StageIntent(setting, round, input)]) else Err(InvalidEvidence)
  {
    var m := EffectFor(setting, input, round).movement;
    CustodyKeyIsFresh(round, intents, custody, m.key);
    StageIsUnprepared(round, intents, custody, m);
    hide Backed, FindIntent, AlreadyPrepared, OutcomesOf;
  }

  // ---------------------------------------------------------------- the call

  /** An addressed call before the deadline changes nothing until it submits its decision. */
  lemma AddressedPlays(db: Database, i: nat, setting: Setting, input: PlayerInput, player: Wallet)
    requires ValidRules(setting.rules) && i < |db.rounds| && FindRound(db.rounds, db.rounds[i].id) == Some(i)
    requires Addressed(db, i, input, player) && SameRules(db.rounds[i], setting.rules)
    requires setting.resumedAt < db.rounds[i].deadline.value
    requires forall k :: 0 <= k < |setting.rules.stages| ==> setting.rules.stages[k].potContributionBps >= 0
    ensures var round := db.rounds[i];
            var made := FixtureDecision(setting.rules, setting.health, input, round.pot, setting.rollPpm);
            PlayerTurn(db, setting, input, player, ALONE)
            == if made.Err? then Turn(db, Refused(CalculatorRejected(made.error)))
               else Submitted(db, AttemptDecision(db, setting.rules, setting.house, round.id, made.value, setting.decidedAt, EffectFor(setting, input, round)),
                              setting, input, player, [])
  {
    KeyUnusedExactly(db.rounds[i], PlayerKey(input.publicKey));
    hide FindRound, FindTransition, KeyUnused, FixtureDecision, EffectFor, AttemptDecision, ApplyDefault, Submitted, ValidRules;
    assert Others(db, setting.rules, []) == db;
  }

  /** What a service-driven run gives about an active round. */
  lemma {:induction false} ServedRound(rules: Rules, custody: CustodyPolicy, steps: seq<Step>, i: nat)
    requires ValidRules(rules) && ServiceRun(steps, custody)
    requires i < |Run(rules, steps).rounds| && Run(rules, steps).rounds[i].status == Active
    ensures var db := Run(rules, steps);
            var round := db.rounds[i];
            && i < |db.tables.crash| && Staged(rules, round) && Bounded(rules, round) && SameRules(round, rules)
            && FindRound(db.rounds, round.id) == Some(i)
            && round.deadline.Some? && round.version == round.stage
            && Backed(round, db.intents, custody) && |OutcomesOf(round.transitions)| < round.stage <= MAX_STAGES && PlayerKeysOnly(round)
  {
    RunActiveSlot(rules, steps, i);
    EveryRunIsSound(rules, steps);
    ServiceRunsAreBacked(rules, custody, steps);
    hide Run, Sound, AllBacked, Backed, PlayerKeysOnly, RowReady, FindRound, OutcomesOf;
    StageOf(rules, Run(rules, steps).rounds[i]);
    BackedParts(Run(rules, steps), rules, custody, i);
  }

  /** Past the derived decision, the answer is the gate's and the custody's. */
  lemma ReplyIsPlayed(db: Database, setting: Setting, i: nat, input: PlayerInput, decision: Decision)
    requires i < |db.rounds| && i < |db.tables.crash| && Staged(setting.rules, db.rounds[i]) && input.action == PlayContinue
    requires MadeFrom(setting, input, db.rounds[i], decision)
    ensures ReplyInTime(db.tables, setting, i, db.rounds[i], PlayContinue) == Played
            <==> ContinueAdmitted(db.tables, setting.rules, setting.house, i, db.rounds[i], decision, setting.decidedAt) && CustodyReady(setting, db.rounds[i])
  {
    hide Affordable, EvidenceInTime, StatusAfter, PotAfter, Shortfall, CustodyReady;
  }

  lemma ReplyIsRefusal(db: Database, setting: Setting, i: nat, input: PlayerInput, decision: Decision, effect: Effect)
    requires i < |db.rounds| && i < |db.tables.crash| && Staged(setting.rules, db.rounds[i]) && input.action == PlayContinue
    requires MadeFrom(setting, input, db.rounds[i], decision) && InTime(db.rounds[i], decision, setting.decidedAt)
    requires ReplyInTime(db.tables, setting, i, db.rounds[i], PlayContinue) != Played
    requires RunEffect(db.intents, db.rounds[i], effect).Err? <==> !CustodyReady(setting, db.rounds[i])
    requires RunEffect(db.intents, db.rounds[i], effect).Err? ==> RunEffect(db.intents, db.rounds[i], effect).error == InvalidEvidence
    ensures var error := RefusalOf(db, setting.rules, setting.house, i, decision, setting.decidedAt, effect);
            ReplyInTime(db.tables, setting, i, db.rounds[i], PlayContinue) == Refused(error) && !Lost(error)
  {
    hide Affordable, EvidenceInTime, StatusAfter, PotAfter, Shortfall, CustodyReady, RunEffect;
  }

  lemma LeavesPlayed(setting: Setting, db: Database, i: nat, input: PlayerInput, decision: Decision, after: Database)
    requires i < |db.rounds| && i < |db.tables.crash| && Staged(setting.rules, db.rounds[i]) && input.action == PlayContinue
    requires setting.policy.Some? && MadeFrom(setting, input, db.rounds[i], decision)
    requires ContinueLeaves(setting.rules, db, i, decision, setting.decidedAt, after)
    requires after.intents == db.intents + [StageIntent(setting, db.rounds[i], input)]
    ensures PlayedLeaves(setting, db, i, input, after)
  {
    hide PotAfter, OthersKept, ColumnsLeft, RowLeft, StageIntent;
  }

  /** The decision the service submits, answered on the round it was read from. */
  ghost predicate Answered(db: Database, setting: Setting, i: nat, input: PlayerInput, verdict: Verdict)
    requires i < |db.rounds| && i < |db.tables.crash| && Staged(setting.rules, db.rounds[i])
  {
    var reply := ReplyInTime(db.tables, setting, i, db.rounds[i], input.action);
    match verdict
    case Committed(after) => reply == Played && (input.action == PlayContinue ==> setting.policy.Some?) && PlayedLeaves(setting, db, i, input, after)
    case Rejected(error) => reply == Refused(error) && !Lost(error)
    case _ => false
  }

  lemma {:induction false} ContinuePlayed(setting: Setting, custody: CustodyPolicy, steps: seq<Step>, i: nat, input: PlayerInput, player: Wallet, decision: Decision)
    requires ValidRules(setting.rules) && ServiceRun(steps, custody)
    requires i < |Run(setting.rules, steps).rounds| && Addressed(Run(setting.rules, steps), i, input, player) && input.action == PlayContinue
    requires setting.decidedAt < Run(setting.rules, steps).rounds[i].deadline.value
    requires Staged(setting.rules, Run(setting.rules, steps).rounds[i]) && MadeFrom(setting, input, Run(setting.rules, steps).rounds[i], decision)
    ensures var db := Run(setting.rules, steps);
            && i < |db.tables.crash|
            && Answered(db, setting, i, input, AttemptDecision(db, setting.rules, setting.house, db.rounds[i].id, decision, setting.decidedAt,
                                                               EffectFor(setting, input, db.rounds[i])))
  {
    var db := Run(setting.rules, steps);
    var round := db.rounds[i];
    ServedRound(setting.rules, custody, steps, i);
    EffectPrepared(setting, input, round, db.intents, custody);
    var effect := EffectFor(setting, input, round);
    hide Run, Bounded, AttemptDecision, FindRound, KeyUnused, RunEffect, EffectFor, Malformed, ValidRules, Backed, PlayerKeysOnly, OutcomesOf, StageIntent,
         ServiceRun, ContinueAdmitted, ContinueLeaves, PlayedLeaves, ReplyInTime, RefusalOf, ContinueFits;
    WellFormedWhenAccepted(setting.rules, round, decision, setting.decidedAt);
    ContinueAcceptedExactly(setting.rules, steps, setting.house, i, decision, setting.decidedAt, effect);
    ReplyIsPlayed(db, setting, i, input, decision);
    var verdict := AttemptDecision(db, setting.rules, setting.house, round.id, decision, setting.decidedAt, effect);
    if verdict.Committed? {
      LeavesPlayed(setting, db, i, input, decision, verdict.db);
    } else {
      ContinueRefusedFor(setting.rules, steps, setting.house, i, decision, setting.decidedAt, effect);
      ReplyIsRefusal(db, setting, i, input, decision, effect);
    }
  }

  lemma {:induction false} CashOutPlayed(setting: Setting, custody: CustodyPolicy, steps: seq<Step>, i: nat, input: PlayerInput, player: Wallet, decision: Decision)
    requires ValidRules(setting.rules) && ServiceRun(steps, custody)
    requires i < |Run(setting.rules, steps).rounds| && Addressed(Run(setting.rules, steps), i, input, player) && input.action == PlayCashOut
    requires setting.decidedAt < Run(setting.rules, steps).rounds[i].deadline.value
    requires decision == CashOut(input.stage, input.version, PlayerKey(input.publicKey), Run(setting.rules, steps).rounds[i].pot)
    ensures var db := Run(setting.rules, steps);
            && i < |db.tables.crash| && Staged(setting.rules, db.rounds[i])
            && Answered(db, setting, i, input, AttemptDecision(db, setting.rules, setting.house, db.rounds[i].id, decision, setting.decidedAt, NoEffect))
  {
    var db := Run(setting.rules, steps);
    ServedRound(setting.rules, custody, steps, i);
    hide Run, Bounded, AttemptDecision, FindRound, KeyUnused, Malformed, ValidRules, Backed, PlayerKeysOnly, OutcomesOf, OthersKept, ColumnsLeft, RowLeft, ServiceRun;
    CashOutAcceptedExactly(setting.rules, steps, setting.house, i, decision, setting.decidedAt, NoEffect);
  }

  /** What the call then ends with. */
  ghost predicate TurnAnswered(db: Database, setting: Setting, i: nat, input: PlayerInput, turn: Turn)
    requires i < |db.rounds| && i < |db.tables.crash| && Staged(setting.rules, db.rounds[i])
  {
    && turn.reply == ReplyInTime(db.tables, setting, i, db.rounds[i], input.action)
    && (if turn.reply == Played
        then (input.action == PlayContinue ==> setting.policy.Some?) && PlayedLeaves(setting, db, i, input, turn.db)
        else turn.db == db)
  }

  lemma AnsweredIsTurn(db: Database, setting: Setting, i: nat, input: PlayerInput, player: Wallet, verdict: Verdict)
    requires ValidRules(setting.rules) && i < |db.rounds| && i < |db.tables.crash| && Staged(setting.rules, db.rounds[i])
    requires Answered(db, setting, i, input, verdict)
    ensures TurnAnswered(db, setting, i, input, Submitted(db, verdict, setting, input, player, []))
  {
    hide PlayedLeaves, ReplyInTime, LookAgain, ValidRules;
  }

  lemma NotMadeIsReply(db: Database, setting: Setting, i: nat, input: PlayerInput)
    requires ValidRules(setting.rules) && i < |db.rounds| && i < |db.tables.crash| && Staged(setting.rules, db.rounds[i])
    requires Bounded(setting.rules, db.rounds[i])
    requires input.action == PlayContinue && input.stage == db.rounds[i].stage && input.version == db.rounds[i].version
    requires forall k :: 0 <= k < |setting.rules.stages| ==> setting.rules.stages[k].potContributionBps >= 0
    ensures var made := FixtureDecision(setting.rules, setting.health, input, db.rounds[i].pot, setting.rollPpm);
            if made.Ok? then MadeFrom(setting, input, db.rounds[i], made.value)
            else TurnAnswered(db, setting, i, input, Turn(db, Refused(CalculatorRejected(made.error))))
  {
    FixtureFits(setting, input, db.rounds[i]);
    hide FixtureDecision, MadeFrom, StatusAfter, Affordable, EvidenceInTime, Shortfall, PotAfter, ValidRules;
  }

  /**
   An undisturbed call in time for an active round of a service-driven run is
   answered by the pot, the gate and the custody policy and by nothing else: a
   cash-out is always played, a continue is played exactly when its pot fits, the
   gate admits it and its movement can be prepared, and it is never refused for
   the evidence it derived itself.  A refusal changes nothing.
   */
  lemma {:induction false} TurnAnsweredExactly(setting: Setting, custody: CustodyPolicy, steps: seq<Step>, i: nat, input: PlayerInput, player: Wallet)
    requires ValidRules(setting.rules) && ServiceRun(steps, custody)
    requires i < |Run(setting.rules, steps).rounds| && Addressed(Run(setting.rules, steps), i, input, player)
    requires setting.resumedAt < Run(setting.rules, steps).rounds[i].deadline.value && setting.decidedAt < Run(setting.rules, steps).rounds[i].deadline.value
    ensures var db := Run(setting.rules, steps);
            var turn := PlayerTurn(db, setting, input, player, ALONE);
            i < |db.tables.crash| && Staged(setting.rules, db.rounds[i]) && TurnAnswered(db, setting, i, input, turn)
  {
    var db := Run(setting.rules, steps);
    var round := db.rounds[i];
    ServedRound(setting.rules, custody, steps, i);
    StagesAreValid(setting.rules);
    hide Run, Bounded, AttemptDecision, FindRound, KeyUnused, ValidRules, Backed, PlayerKeysOnly, OutcomesOf, ServiceRun, PlayedLeaves, PlayerTurn,
         MadeFrom, ReplyInTime, Submitted, Answered, Staged, EffectFor;
    AddressedPlays(db, i, setting, input, player);
    var made := FixtureDecision(setting.rules, setting.health, input, round.pot, setting.rollPpm);
    var effect := EffectFor(setting, input, round);
    if input.action == PlayCashOut {
      CashOutEffect(setting, input, round);
      CashOutPlayed(setting, custody, steps, i, input, player, made.value);
    } else {
      hide FixtureDecision;
      NotMadeIsReply(db, setting, i, input);
      if made.Ok? {
        ContinuePlayed(setting, custody, steps, i, input, player, made.value);
      }
    }
    if made.Ok? {
      AnsweredIsTurn(db, setting, i, input, player,
                     AttemptDecision(db, setting.rules, setting.house, round.id, made.value, setting.decidedAt, effect));
    }
  }

  lemma CashOutEffect(setting: Setting, input: PlayerInput, round: Round)
    requires input.action == PlayCashOut
    ensures EffectFor(setting, input, round) == NoEffect
  {
  }

  // ---------------------------------------------------------------- a call after the deadline

  lemma DefaultKeyFree(round: Round)
    requires PlayerKeysOnly(round) && round.status == Active && round.deadline.Some?
    ensures KeyUnused(round, DeadlineKey(round.stage, round.deadline.value))
  {
  }

  /** A defaulted round answers an unused key with its default. */
  lemma DefaultedAnswers(rules: Rules, db: Database, i: nat, now: int, after: Database, input: PlayerInput)
    requires i < |db.rounds| && i < |db.tables.crash| && db.rounds[i].deadline.Some?
    requires DefaultLeaves(rules, db, i, CandidateOf(db.rounds[i]), now, after)
    requires KeyUnused(db.rounds[i], PlayerKey(input.publicKey))
    ensures Answer(after.rounds[i], input) == Some(AlreadyDefaulted)
  {
    assert KeyUnused(after.rounds[i], PlayerKey(input.publicKey));
    KeyUnusedExactly(after.rounds[i], PlayerKey(input.publicKey));
    hide FindTransition;
  }

  lemma DueEnters(db: Database, rules: Rules, i: nat, input: PlayerInput, player: Wallet, now: int)
    requires i < |db.rounds| && FindRound(db.rounds, input.roundId) == Some(i) && SameRules(db.rounds[i], rules)
    requires db.rounds[i].wallet == player && Due(db.rounds[i], now) && ApplyDefault(db, CandidateOf(db.rounds[i]), now).Committed?
    ensures Enter(db, rules, input, player, now) == Entered(ApplyDefault(db, CandidateOf(db.rounds[i]), now).db, i)
  {
    hide ApplyDefault, FindRound;
  }

  /** A due round of a service-driven run is defaulted by whoever enters it, and answers that it was. */
  lemma {:induction false} EnteredDefaulted(rules: Rules, custody: CustodyPolicy, steps: seq<Step>, i: nat, input: PlayerInput, player: Wallet, now: int)
    returns (after: Database)
    requires ValidRules(rules) && ServiceRun(steps, custody)
    requires i < |Run(rules, steps).rounds| && Run(rules, steps).rounds[i].status == Active
    requires var round := Run(rules, steps).rounds[i];
             && input.roundId == round.id && player == round.wallet && KeyUnused(round, PlayerKey(input.publicKey))
             && round.deadline.Some? && round.deadline.value <= now
    ensures var db := Run(rules, steps);
            && i < |db.tables.crash| && DefaultLeaves(rules, db, i, CandidateOf(db.rounds[i]), now, after)
            && Enter(db, rules, input, player, now) == Entered(after, i) && Answer(after.rounds[i], input) == Some(AlreadyDefaulted)
  {
    var db := Run(rules, steps);
    ServedRound(rules, custody, steps, i);
    DefaultKeyFree(db.rounds[i]);
    hide Run, Bounded, FindRound, KeyUnused, ValidRules, Backed, PlayerKeysOnly, OutcomesOf, ServiceRun, DefaultLeaves, Enter, Answer, ApplyDefault;
    CandidateAcceptedExactly(rules, steps, i, CandidateOf(db.rounds[i]), now);
    after := ApplyDefault(db, CandidateOf(db.rounds[i]), now).db;
    DueEnters(db, rules, i, input, player, now);
    DefaultedAnswers(rules, db, i, now, after, input);
  }

  /** A call that finds its round past the deadline defaults it and says so, whatever the player asked for. */
  lemma {:induction false} LateTurnIsDefaulted(setting: Setting, custody: CustodyPolicy, steps: seq<Step>, i: nat, input: PlayerInput, player: Wallet,
                                               meantime: Meantime)
    requires ValidRules(setting.rules) && ServiceRun(steps, custody)
    requires i < |Run(setting.rules, steps).rounds| && Run(setting.rules, steps).rounds[i].status == Active
    requires var round := Run(setting.rules, steps).rounds[i];
             && input.roundId == round.id && player == round.wallet && KeyUnused(round, PlayerKey(input.publicKey))
             && round.deadline.Some? && round.deadline.value <= setting.resumedAt
    ensures var db := Run(setting.rules, steps);
            var turn := PlayerTurn(db, setting, input, player, meantime);
            && i < |db.tables.crash| && turn.reply == AlreadyDefaulted
            && DefaultLeaves(setting.rules, db, i, CandidateOf(db.rounds[i]), setting.resumedAt, turn.db)
  {
    var after := EnteredDefaulted(setting.rules, custody, steps, i, input, player, setting.resumedAt);
    hide Run, KeyUnused, ValidRules, ServiceRun, DefaultLeaves, Enter, Answer, Submit, Submitted, FixtureDecision;
  }

  /** The deadline may pass between the resume and the decision: the decision is lost, and the second look finds the default. */
  lemma {:induction false} OvertakenTurnIsDefaulted(setting: Setting, custody: CustodyPolicy, steps: seq<Step>, i: nat, input: PlayerInput, player: Wallet)
    requires ValidRules(setting.rules) && ServiceRun(steps, custody)
    requires i < |Run(setting.rules, steps).rounds| && Addressed(Run(setting.rules, steps), i, input, player)
    requires var deadline := Run(setting.rules, steps).rounds[i].deadline.value;
             setting.resumedAt < deadline <= setting.decidedAt && deadline <= setting.againAt
    requires forall k :: 0 <= k < |setting.rules.stages| ==> setting.rules.stages[k].potContributionBps >= 0
    requires FixtureDecision(setting.rules, setting.health, input, Run(setting.rules, steps).rounds[i].pot, setting.rollPpm).Ok?
    ensures var db := Run(setting.rules, steps);
            var turn := PlayerTurn(db, setting, input, player, ALONE);
            && i < |db.tables.crash| && turn.reply == AlreadyDefaulted
            && DefaultLeaves(setting.rules, db, i, CandidateOf(db.rounds[i]), setting.againAt, turn.db)
  {
    var db := Run(setting.rules, steps);
    var round := db.rounds[i];
    ServedRound(setting.rules, custody, steps, i);
    var after := EnteredDefaulted(setting.rules, custody, steps, i, input, player, setting.againAt);
    hide Run, Bounded, AttemptDecision, FindRound, ValidRules, Backed, PlayerKeysOnly, OutcomesOf, ServiceRun, DefaultLeaves, PlayerTurn, Answer, Enter,
         EffectFor, KeyUnused, FixtureDecision;
    AddressedPlays(db, i, setting, input, player);
    var made := FixtureDecision(setting.rules, setting.health, input, round.pot, setting.rollPpm).value;
    MadeNamesRound(setting, input, round);
    LateIsExpired(db, setting.rules, setting.house, i, made, setting.decidedAt, EffectFor(setting, input, round));
    assert Others(db, setting.rules, []) == db;
  }

  lemma MadeNamesRound(setting: Setting, input: PlayerInput, round: Round)
    requires ValidRules(setting.rules) && Bounded(setting.rules, round) && round.version >= 1
    requires input.stage == round.stage && input.version == round.version
    requires forall k :: 0 <= k < |setting.rules.stages| ==> setting.rules.stages[k].potContributionBps >= 0
    requires FixtureDecision(setting.rules, setting.health, input, round.pot, setting.rollPpm).Ok?
    ensures var made := FixtureDecision(setting.rules, setting.health, input, round.pot, setting.rollPpm).value;
            && Malformed(made).None? && made.key == PlayerKey(input.publicKey)
            && made.expectedStage == round.stage && made.expectedVersion == round.version
  {
    StageOf(setting.rules, round);
    if input.action == PlayContinue {
      FixtureFits(setting, input, round);
    }
  }

  lemma LateIsExpired(db: Database, rules: Rules, house: House, i: nat, decision: Decision, now: int, effect: Effect)
    requires ValidRules(rules) && i < |db.rounds| && FindRound(db.rounds, db.rounds[i].id) == Some(i)
    requires Malformed(decision).None? && KeyUnused(db.rounds[i], decision.key)
    requires SameRules(db.rounds[i], rules) && db.rounds[i].status == Active && db.rounds[i].deadline.Some? && db.rounds[i].deadline.value <= now
    requires decision.expectedStage == db.rounds[i].stage && decision.expectedVersion == db.rounds[i].version
    ensures AttemptDecision(db, rules, house, db.rounds[i].id, decision, now, effect) == Rejected(DeadlineExpired)
  {
    KeyUnusedExactly(db.rounds[i], decision.key);
    hide FindTransition, FindRound, KeyUnused, Malformed, Resolve, ApplyMove, RunEffect;
  }

  // ---------------------------------------------------------------- a call whose transaction fails

  /** What a failed transaction comes to: it is reported only while the round still stands where the decision expects it. */
  function ReplyAfterFailure(round: Round, input: PlayerInput): TurnReply {
    if round.status == Active && round.stage == input.stage && round.version == input.version then Refused(TransactionFailed)
    else if round.status == Defaulted then AlreadyDefaulted
    else Refused(InvalidTransition)
  }

  lemma FailureIsAnswered(db: Database, setting: Setting, i: nat, input: PlayerInput, player: Wallet, decision: Decision)
    requires ValidRules(setting.rules) && i < |db.rounds| && FindRound(db.rounds, input.roundId) == Some(i) && db.rounds[i].wallet == player
    requires SameRules(db.rounds[i], setting.rules) && KeyUnused(db.rounds[i], PlayerKey(input.publicKey)) && !Due(db.rounds[i], setting.againAt)
    requires Malformed(decision).None? && decision.key == PlayerKey(input.publicKey)
    requires decision.expectedStage == input.stage && decision.expectedVersion == input.version
    ensures Submitted(db, AfterConflict(db, setting.rules, input.roundId, decision), setting, input, player, [])
            == Turn(db, ReplyAfterFailure(db.rounds[i], input))
  {
    KeyUnusedExactly(db.rounds[i], PlayerKey(input.publicKey));
    assert Others(db, setting.rules, []) == db;
    hide FindRound, FindTransition, KeyUnused, Malformed, ApplyDefault, ValidRules;
  }

  lemma {:induction false} RoundAt(rules: Rules, steps: seq<Step>, i: nat)
    requires ValidRules(rules) && i < |Run(rules, steps).rounds|
    ensures FindRound(Run(rules, steps).rounds, Run(rules, steps).rounds[i].id) == Some(i) && SameRules(Run(rules, steps).rounds[i], rules)
  {
    IdFindsIndex(rules, steps, i);
    EveryRunIsSound(rules, steps);
    hide Run, LedgerReplays, WithinCaps, Aligned, LedgerAccepted, OutcomesInOrder, PotAccounted, BustsDecided, StartRecorded, PhaseMatches;
    SlotOf(Run(rules, steps), rules, i);
  }

  /**
   A call whose transaction fails: it is reported as failed when the round is
   still where the decision expects it, and explained by what others made of the
   round meanwhile when it is not.
   */
  lemma {:induction false} FailedCallIsExplained(setting: Setting, custody: CustodyPolicy, steps: seq<Step>, others: seq<Step>, i: nat,
                                                 input: PlayerInput, player: Wallet)
    requires ValidRules(setting.rules) && ServiceRun(steps, custody)
    requires i < |Run(setting.rules, steps).rounds| && Addressed(Run(setting.rules, steps), i, input, player)
    requires setting.resumedAt < Run(setting.rules, steps).rounds[i].deadline.value
    requires forall k :: 0 <= k < |setting.rules.stages| ==> setting.rules.stages[k].potContributionBps >= 0
    requires FixtureDecision(setting.rules, setting.health, input, Run(setting.rules, steps).rounds[i].pot, setting.rollPpm).Ok?
    requires var later := Run(setting.rules, steps + others);
             i < |later.rounds| ==> KeyUnused(later.rounds[i], PlayerKey(input.publicKey)) && !Due(later.rounds[i], setting.againAt)
    ensures var later := Run(setting.rules, steps + others);
            && i < |later.rounds|
            && PlayerTurn(Run(setting.rules, steps), setting, input, player, Meantime(others, [], true))
               == Turn(later, ReplyAfterFailure(later.rounds[i], input))
  {
    var db, later := Run(setting.rules, steps), Run(setting.rules, steps + others);
    var round := db.rounds[i];
    ServedRound(setting.rules, custody, steps, i);
    assert (steps + others)[..|steps|] == steps;
    RunFollows(setting.rules, steps + others, |steps|, i);
    RoundAt(setting.rules, steps + others, i);
    OthersIsRun(setting.rules, steps, others);
    MadeNamesRound(setting, input, round);
    var made := FixtureDecision(setting.rules, setting.health, input, round.pot, setting.rollPpm).value;
    hide Run, Bounded, FindRound, KeyUnused, ValidRules, Backed, PlayerKeysOnly, OutcomesOf, ServiceRun, FixtureDecision, PlayerTurn, Malformed, Due,
         AfterConflict, Submitted, Others, EffectFor;
    FailureIsAnswered(later, setting, i, input, player, made);
    AddressedFails(db, i, setting, input, player, others);
  }

  lemma AddressedFails(db: Database, i: nat, setting: Setting, input: PlayerInput, player: Wallet, others: seq<Step>)
    requires ValidRules(setting.rules) && i < |db.rounds| && FindRound(db.rounds, db.rounds[i].id) == Some(i)
    requires Addressed(db, i, input, player) && SameRules(db.rounds[i], setting.rules)
    requires setting.resumedAt < db.rounds[i].deadline.value
    requires forall k :: 0 <= k < |setting.rules.stages| ==> setting.rules.stages[k].potContributionBps >= 0
    requires FixtureDecision(setting.rules, setting.health, input, db.rounds[i].pot, setting.rollPpm).Ok?
    ensures var made := FixtureDecision(setting.rules, setting.health, input, db.rounds[i].pot, setting.rollPpm).value;
            var at := Others(db, setting.rules, others);
            PlayerTurn(db, setting, input, player, Meantime(others, [], true))
            == Submitted(at, AfterConflict(at, setting.rules, input.roundId, made), setting, input, player, [])
  {
    KeyUnusedExactly(db.rounds[i], PlayerKey(input.publicKey));
    hide FindRound, FindTransition, KeyUnused, FixtureDecision, EffectFor, AfterConflict, ApplyDefault, Submitted, ValidRules, Others;
  }

  // ---------------------------------------------------------------- a call that addresses nothing

  /** Somebody else's round is not found, and a stage or version the round has left behind is refused; neither changes anything. */
  lemma {:induction false} UnaddressedIsRefused(setting: Setting, custody: CustodyPolicy, steps: seq<Step>, i: nat, input: PlayerInput, player: Wallet,
                                                meantime: Meantime)
    requires ValidRules(setting.rules) && ServiceRun(steps, custody)
    requires i < |Run(setting.rules, steps).rounds| && Run(setting.rules, steps).rounds[i].status == Active
    requires var round := Run(setting.rules, steps).rounds[i];
             && input.roundId == round.id && KeyUnused(round, PlayerKey(input.publicKey))
             && round.deadline.Some? && setting.resumedAt < round.deadline.value
             && (player == round.wallet ==> (input.stage, input.version) != (round.stage, round.version))
    ensures var db := Run(setting.rules, steps);
            PlayerTurn(db, setting, input, player, meantime)
            == Turn(db, Refused(if player == db.rounds[i].wallet then InvalidTransition else NotFound))
  {
    ServedRound(setting.rules, custody, steps, i);
    var round := Run(setting.rules, steps).rounds[i];
    KeyUnusedExactly(round, PlayerKey(input.publicKey));
    hide Run, KeyUnused, ValidRules, ServiceRun, FindTransition, FindRound, Submit, Submitted, FixtureDecision, Backed, PlayerKeysOnly, OutcomesOf, Bounded;
  }
}
