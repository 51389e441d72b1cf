/**
 What the player service answers when other transactions run between its own:
 every answer is true of the tables it leaves, and a played decision is
 recognised by every later call, whatever happened in between.
 */
module PlayerRaces {
  import opened Support
  import opened Calculators
  import opened Treasury
  import opened Rounds
  import opened RoundInvariants
  import opened RoundSteps
  import opened RoundRuns
  import opened RoundTheorems
  import opened RoundGuarantees
  import opened PlayerDecisions
  import opened ExpiryBatch
  import opened PlayerService

  /** The round's ledger holds this key with this action, stage and version. */
  predicate Recorded(db: Database, input: PlayerInput) {
    var found := FindRound(db.rounds, input.roundId);
    found.Some? && FindReplay(db.rounds[found.value], input) == Ok(true)
  }

  predicate TrueReply(turn: Turn, input: PlayerInput) {
    var found := FindRound(turn.db.rounds, input.roundId);
    match turn.reply
    case Played => Recorded(turn.db, input)
    case AlreadyPlayed => Recorded(turn.db, input)
    case AlreadyDefaulted => found.Some? && turn.db.rounds[found.value].status == Defaulted
    case Refused(_) => true
  }

  /** The decision is the one this input makes. */
  predicate Makes(input: PlayerInput, decision: Decision) {
    && (decision.Continue? <==> input.action == PlayContinue) && decision.key == PlayerKey(input.publicKey)
    && decision.expectedStage == input.stage && decision.expectedVersion == input.version
  }

  lemma FixtureMakes(setting: Setting, input: PlayerInput, seenPot: nat)
    requires forall k :: 0 <= k < |setting.rules.stages| ==> setting.rules.stages[k].potContributionBps >= 0
    requires FixtureDecision(setting.rules, setting.health, input, seenPot, setting.rollPpm).Ok?
    ensures Makes(input, FixtureDecision(setting.rules, setting.health, input, seenPot, setting.rollPpm).value)
  {
  }

  // ---------------------------------------------------------------- soundness of what a call reads

  lemma {:induction false} OthersKeepSound(db: Database, rules: Rules, steps: seq<Step>)
    requires ValidRules(rules) && Sound(db, rules)
    ensures Sound(Others(db, rules, steps), rules)
  {
    if steps != [] {
      OthersKeepSound(db, rules, steps[..|steps| - 1]);
      StepKeepsSound(Others(db, rules, steps[..|steps| - 1]), rules, steps[|steps| - 1]);
    }
  }

  lemma FoundAt(db: Database, rules: Rules, i: nat, id: string)
    requires Sound(db, rules) && i < |db.rounds| && db.rounds[i].id == id
    ensures FindRound(db.rounds, id) == Some(i)
  {
    FoundIsUnique(db.rounds, db.tables.crash, i);
  }

  lemma {:induction false} EnterKeepsSound(db: Database, rules: Rules, input: PlayerInput, player: Wallet, now: int)
    requires ValidRules(rules) && Sound(db, rules)
    ensures var entry := Enter(db, rules, input, player, now);
            entry.Entered? ==> Sound(entry.db, rules) && FindRound(entry.db.rounds, input.roundId) == Some(entry.i)
  {
    hide Sound, ApplyDefault, ValidRules;
    var entry := Enter(db, rules, input, player, now);
    if entry.Entered? {
      EnteredId(db, rules, input, player, now);
      if entry.db != db {
        DefaultKeepsSound(db, rules, CandidateOf(db.rounds[entry.i]), now);
      }
      FoundAt(entry.db, rules, entry.i, input.roundId);
    }
  }

  // ---------------------------------------------------------------- one answer

  lemma SlotRecorded(rules: Rules, round: Round, row: Reservation)
    requires Slot(rules, round, row)
    ensures DecisionsRecorded(round.transitions) && DistinctTransitionKeys(round.transitions) && SameRules(round, rules)
  {
  }

  lemma {:induction false} RoundRecords(db: Database, rules: Rules, i: nat)
    requires Sound(db, rules) && i < |db.rounds|
    ensures var round := db.rounds[i];
            DecisionsRecorded(round.transitions) && DistinctTransitionKeys(round.transitions) && SameRules(round, rules)
  {
    SlotOf(db, rules, i);
    hide Slot, WithinCaps, LedgerReplays;
    SlotRecorded(rules, db.rounds[i], db.tables.crash[i]);
  }

  /** A stored request of the decision is a record of its input. */
  lemma {:induction false} RequestIsRecord(db: Database, rules: Rules, i: nat, k: nat, input: PlayerInput)
    requires Sound(db, rules) && i < |db.rounds| && k < |db.rounds[i].transitions| && db.rounds[i].id == input.roundId
    requires db.rounds[i].transitions[k].request.DecisionRequest? && Makes(input, db.rounds[i].transitions[k].request.decision)
    ensures Recorded(db, input)
  {
    hide Sound, FindTransition, FindRound, DistinctTransitionKeys;
    RoundRecords(db, rules, i);
    FoundAt(db, rules, i, input.roundId);
    assert RecordedAs(db.rounds[i].transitions[k]);
    DistinctKeyFound(db.rounds[i].transitions, k);
  }

  lemma {:induction false} SubmitIsRecorded(db: Database, setting: Setting, input: PlayerInput, decision: Decision, effect: Effect, conflict: bool)
    requires ValidRules(setting.rules) && Sound(db, setting.rules) && Makes(input, decision)
    ensures var verdict := Submit(db, setting, input.roundId, decision, effect, conflict);
            && (verdict.Committed? ==> Sound(verdict.db, setting.rules) && Recorded(verdict.db, input))
            && (!verdict.Committed? && !verdict.Rejected? ==> Recorded(db, input))
  {
    hide Sound, ValidRules, DecideOn, Recorded, Makes, Malformed;
    var verdict := Submit(db, setting, input.roundId, decision, effect, conflict);
    if verdict.Committed? {
      var step := Take(setting.house, input.roundId, decision, setting.decidedAt, effect);
      StepKeepsSound(db, setting.rules, step);
      CommittedDecisionIsLast(db, setting.rules, setting.house, input.roundId, decision, setting.decidedAt, effect);
      var i := FindRound(db.rounds, input.roundId).value;
      RequestIsRecord(verdict.db, setting.rules, i, |verdict.db.rounds[i].transitions| - 1, input);
    } else if !verdict.Rejected? {
      RepeatedFinds(db, setting, input, decision, effect, conflict);
      var i := FindRound(db.rounds, input.roundId).value;
      RequestIsRecord(db, setting.rules, i, FindTransition(db.rounds[i].transitions, decision.key).value, input);
    }
  }

  lemma RepeatedFinds(db: Database, setting: Setting, input: PlayerInput, decision: Decision, effect: Effect, conflict: bool)
    requires ValidRules(setting.rules)
    requires var verdict := Submit(db, setting, input.roundId, decision, effect, conflict); !verdict.Committed? && !verdict.Rejected?
    ensures FindRound(db.rounds, input.roundId).Some?
    ensures var round := db.rounds[FindRound(db.rounds, input.roundId).value];
            var found := FindTransition(round.transitions, decision.key);
            found.Some? && round.transitions[found.value].request == DecisionRequest(decision, setting.rules.binding)
  {
    hide FindRound, FindTransition, Resolve, ApplyMove, RunEffect, Guard;
  }

  lemma {:induction false} AnswerIsTrue(db: Database, i: nat, input: PlayerInput, reply: TurnReply)
    requires FindRound(db.rounds, input.roundId) == Some(i) && Answer(db.rounds[i], input) == Some(reply)
    ensures TrueReply(Turn(db, reply), input)
  {
    hide FindReplay, FindRound;
  }

  lemma {:induction false} LookAgainIsTrue(db: Database, setting: Setting, input: PlayerInput, player: Wallet)
    requires ValidRules(setting.rules) && Sound(db, setting.rules)
    ensures var turn := LookAgain(db, setting, input, player); TrueReply(turn, input) && Sound(turn.db, setting.rules) && turn.reply != Played
  {
    hide Sound, ValidRules, Enter, FindReplay, Recorded, FindRound;
    EnterKeepsSound(db, setting.rules, input, player, setting.againAt);
    var entry := Enter(db, setting.rules, input, player, setting.againAt);
    if entry.Entered? && Answer(entry.db.rounds[entry.i], input).Some? {
      AnswerIsTrue(entry.db, entry.i, input, Answer(entry.db.rounds[entry.i], input).value);
    }
  }

  lemma {:induction false} SubmittedIsTrue(db: Database, setting: Setting, input: PlayerInput, player: Wallet, decision: Decision, effect: Effect,
                                           meantime: Meantime)
    requires ValidRules(setting.rules) && Sound(db, setting.rules) && Makes(input, decision)
    ensures var verdict := Submit(db, setting, input.roundId, decision, effect, meantime.conflict);
            var turn := Submitted(db, verdict, setting, input, player, meantime.beforeAgain);
            TrueReply(turn, input) && Sound(turn.db, setting.rules)
  {
    hide Sound, ValidRules, Submit, LookAgain, Recorded, Makes;
    SubmitIsRecorded(db, setting, input, decision, effect, meantime.conflict);
    OthersKeepSound(db, setting.rules, meantime.beforeAgain);
    LookAgainIsTrue(Others(db, setting.rules, meantime.beforeAgain), setting, input, player);
  }

  /**
   Whatever others commit between the call's own transactions: a call that says
   played or already played leaves the key recorded with its action, stage and
   version, and one that says defaulted leaves the round defaulted.
   */
  lemma {:induction false} RepliesAreTrue(db: Database, setting: Setting, input: PlayerInput, player: Wallet, meantime: Meantime)
    requires ValidRules(setting.rules) && Sound(db, setting.rules)
    ensures var turn := PlayerTurn(db, setting, input, player, meantime); TrueReply(turn, input) && Sound(turn.db, setting.rules)
  {
    hide Sound, ValidRules, Enter, Submit, Submitted, Answer, FixtureDecision, EffectFor, Makes, FindRound;
    EnterKeepsSound(db, setting.rules, input, player, setting.resumedAt);
    var entry := Enter(db, setting.rules, input, player, setting.resumedAt);
    if entry.Entered? {
      var round := entry.db.rounds[entry.i];
      StagesAreValid(setting.rules);
      var decision := FixtureDecision(setting.rules, setting.health, input, round.pot, setting.rollPpm);
      if Answer(round, input).Some? {
        AnswerIsTrue(entry.db, entry.i, input, Answer(round, input).value);
      } else if round.status == Active && round.stage == input.stage && round.version == input.version && decision.Ok? {
        FixtureMakes(setting, input, round.pot);
        EnteredId(db, setting.rules, input, player, setting.resumedAt);
        OthersKeepSound(entry.db, setting.rules, meantime.beforeDecision);
        SubmittedIsTrue(Others(entry.db, setting.rules, meantime.beforeDecision), setting, input, player, decision.value,
                        EffectFor(setting, input, round), meantime);
      }
    }
  }

  // ---------------------------------------------------------------- a record is recognised for ever

  predicate SamePlay(a: PlayerInput, b: PlayerInput) {
    a.action == b.action && a.stage == b.stage && a.version == b.version
  }

  /** What a record answers to any input under its key. */
  lemma RecordAnswers(round: Round, input: PlayerInput, again: PlayerInput)
    requires FindReplay(round, input) == Ok(true) && again.publicKey == input.publicKey
    ensures FindReplay(round, again) == if SamePlay(input, again) then Ok(true) else Err(KeyReused)
  {
    hide FindTransition;
  }

  /** A longer ledger with distinct keys keeps its records. */
  lemma {:induction false} RecordStays(round: Round, round': Round, input: PlayerInput)
    requires FindReplay(round, input) == Ok(true) && round.transitions <= round'.transitions && DistinctTransitionKeys(round'.transitions)
    ensures FindReplay(round', input) == Ok(true)
  {
    var k := FindTransition(round.transitions, PlayerKey(input.publicKey)).value;
    assert round'.transitions[k] == round.transitions[k];
    DistinctKeyFound(round'.transitions, k);
  }

  lemma {:induction false} RecordedStays(rules: Rules, steps: seq<Step>, k: nat, input: PlayerInput)
    requires ValidRules(rules) && k <= |steps| && Recorded(Run(rules, steps[..k]), input)
    ensures Recorded(Run(rules, steps), input)
    ensures var before, after := FindRound(Run(rules, steps[..k]).rounds, input.roundId), FindRound(Run(rules, steps).rounds, input.roundId);
            after.Some? && Run(rules, steps).rounds[after.value].wallet == Run(rules, steps[..k]).rounds[before.value].wallet
  {
    hide Run, ValidRules, FindRound, FindReplay, DistinctTransitionKeys;
    var i := FindRound(Run(rules, steps[..k]).rounds, input.roundId).value;
    RunFollows(rules, steps, k, i);
    IdFindsIndex(rules, steps, i);
    KeysDistinctAt(rules, steps, i);
    RecordStays(Run(rules, steps[..k]).rounds[i], Run(rules, steps).rounds[i], input);
  }

  /** The resume of a due round fails exactly when its deadline key is taken. */
  predicate DefaultBlocked(db: Database, i: nat, now: int)
    requires i < |db.rounds|
  {
    var round := db.rounds[i];
    Due(round, now) && FindTransition(round.transitions, DeadlineKey(round.stage, round.deadline.value)).Some?
  }

  /** The answer to a call whose key the round has recorded for `input`: no decision, and no row but a due default. */
  predicate Recognised(db: Database, input: PlayerInput, setting: Setting, again: PlayerInput, turn: Turn) {
    var found := FindRound(db.rounds, input.roundId);
    && found.Some?
    && if DefaultBlocked(db, found.value, setting.resumedAt) then turn == Turn(db, Refused(KeyReused))
       else turn == Turn(Applied(Resume(db, found.value, setting.resumedAt), db), if SamePlay(input, again) then AlreadyPlayed else Refused(KeyReused))
  }

  /** The resume of a sound round: refused if blocked, else the ledger grows by at most the default. */
  lemma {:induction false} ResumeOf(db: Database, rules: Rules, i: nat, now: int)
    requires ValidRules(rules) && Sound(db, rules) && i < |db.rounds|
    ensures var verdict := Resume(db, i, now);
            if DefaultBlocked(db, i, now) then verdict == Rejected(KeyReused)
            else !verdict.Rejected? && i < |Applied(verdict, db).rounds| && Sound(Applied(verdict, db), rules)
                 && db.rounds[i].transitions <= Applied(verdict, db).rounds[i].transitions
  {
    hide Sound, ValidRules, FindTransition, ApplyDefault;
    if Due(db.rounds[i], now) {
      if DefaultBlocked(db, i, now) {
        TakenIsRefused(db, rules, i, now);
      } else {
        FreeIsDefaulted(db, rules, i, now);
      }
    }
  }

  lemma {:induction false} RecordedTurn(db: Database, setting: Setting, input: PlayerInput, again: PlayerInput, player: Wallet, meantime: Meantime)
    requires ValidRules(setting.rules) && Sound(db, setting.rules) && Recorded(db, input)
    requires db.rounds[FindRound(db.rounds, input.roundId).value].wallet == player
    requires again.roundId == input.roundId && again.publicKey == input.publicKey
    ensures Recognised(db, input, setting, again, PlayerTurn(db, setting, again, player, meantime))
  {
    hide Sound, ValidRules, FindReplay, FindRound, Resume, DefaultBlocked, Submit, Submitted, FixtureDecision, DistinctTransitionKeys;
    var i := FindRound(db.rounds, input.roundId).value;
    RoundRecords(db, setting.rules, i);
    ResumeOf(db, setting.rules, i, setting.resumedAt);
    if !DefaultBlocked(db, i, setting.resumedAt) {
      var after := Applied(Resume(db, i, setting.resumedAt), db);
      RoundRecords(after, setting.rules, i);
      RecordStays(db.rounds[i], after.rounds[i], input);
      RecordAnswers(after.rounds[i], input, again);
    }
  }

  lemma PlayersOwn(db: Database, setting: Setting, input: PlayerInput, player: Wallet, meantime: Meantime)
    requires ValidRules(setting.rules) && !PlayerTurn(db, setting, input, player, meantime).reply.Refused?
    ensures FindRound(db.rounds, input.roundId).Some? && db.rounds[FindRound(db.rounds, input.roundId).value].wallet == player
  {
    hide Play, Resume;
  }

  /**
   Once a call has said played or already played, every later call by the same
   player under the same key is recognised: at any clock, after any further
   transactions, with any made during it.  The same action, stage and version is
   already played, any other is refused, and nothing but a due default is written;
   only a default blocked by its taken key can hide the answer.
   */
  lemma {:induction false} RetryIsRecognised(
    steps: seq<Step>, setting: Setting, input: PlayerInput, player: Wallet, meantime: Meantime,
    later: seq<Step>, setting': Setting, again: PlayerInput, meantime': Meantime)
    requires ValidRules(setting.rules) && setting'.rules == setting.rules
    requires var first := PlayerTurn(Run(setting.rules, steps), setting, input, player, meantime); first.reply == Played || first.reply == AlreadyPlayed
    requires again.roundId == input.roundId && again.publicKey == input.publicKey
    ensures var db := Others(PlayerTurn(Run(setting.rules, steps), setting, input, player, meantime).db, setting.rules, later);
            Recognised(db, input, setting', again, PlayerTurn(db, setting', again, player, meantime'))
  {
    hide Run, ValidRules, Others, PlayerTurn, Recorded, Recognised, Sound, FindRound;
    var rules := setting.rules;
    var custody := if setting.policy.Some? then setting.policy.value else CustodyPolicy(player, rules.binding, "", "");
    var more := TurnIsServiceRun(setting, input, player, custody, steps, meantime);
    EveryRunIsSound(rules, steps);
    RepliesAreTrue(Run(rules, steps), setting, input, player, meantime);
    PlayersOwn(Run(rules, steps), setting, input, player, meantime);
    var at := steps + more;
    WalletStays(rules, at, |steps|, input.roundId) by { assert at[..|steps|] == steps; }
    OthersIsRun(rules, at, later);
    var all := at + later;
    assert all[..|at|] == at;
    RecordedStays(rules, all, |at|, input);
    EveryRunIsSound(rules, all);
    RecordedTurn(Run(rules, all), setting', input, again, player, meantime');
  }

  lemma {:induction false} WalletStays(rules: Rules, steps: seq<Step>, k: nat, id: string)
    requires ValidRules(rules) && k <= |steps| && FindRound(Run(rules, steps[..k]).rounds, id).Some?
    ensures var before, after := FindRound(Run(rules, steps[..k]).rounds, id), FindRound(Run(rules, steps).rounds, id);
            after == before && before.value < |Run(rules, steps).rounds|
            && Run(rules, steps).rounds[after.value].wallet == Run(rules, steps[..k]).rounds[before.value].wallet
  {
    hide Run, ValidRules, FindRound;
    var i := FindRound(Run(rules, steps[..k]).rounds, id).value;
    RunFollows(rules, steps, k, i);
    IdFindsIndex(rules, steps, i);
  }

  lemma BackedIsUnblocked(db: Database, custody: CustodyPolicy, i: nat, now: int)
    requires AllBacked(db, custody) && i < |db.rounds|
    ensures !DefaultBlocked(db, i, now)
  {
    hide Backed, OutcomesInOrder;
    assert PlayerKeysOnly(db.rounds[i]);
  }

  /** When only the service drives the rounds, the answer is never hidden. */
  lemma {:induction false} ServiceRetryIsRecognised(
    custody: CustodyPolicy, steps: seq<Step>, setting: Setting, input: PlayerInput, player: Wallet, meantime: Meantime,
    later: seq<Step>, setting': Setting, again: PlayerInput, meantime': Meantime)
    requires ValidRules(setting.rules) && setting'.rules == setting.rules && (setting.policy.Some? ==> setting.policy.value == custody)
    requires ServiceRun(steps, custody) && ServiceRun(later, custody)
    requires ServiceRun(meantime.beforeDecision, custody) && ServiceRun(meantime.beforeAgain, custody)
    requires var first := PlayerTurn(Run(setting.rules, steps), setting, input, player, meantime); first.reply == Played || first.reply == AlreadyPlayed
    requires again.roundId == input.roundId && again.publicKey == input.publicKey
    ensures var db := Others(PlayerTurn(Run(setting.rules, steps), setting, input, player, meantime).db, setting.rules, later);
            PlayerTurn(db, setting', again, player, meantime').reply == if SamePlay(input, again) then AlreadyPlayed else Refused(KeyReused)
  {
    hide Run, ValidRules, Others, PlayerTurn, DefaultBlocked, FindRound, FromService, AllBacked, Resume;
    var rules := setting.rules;
    RetryIsRecognised(steps, setting, input, player, meantime, later, setting', again, meantime');
    var more := TurnIsServiceRun(setting, input, player, custody, steps, meantime);
    OthersIsRun(rules, steps + more, later);
    var all := steps + more + later;
    assert ServiceRun(all, custody);
    ServiceRunsAreBacked(rules, custody, all);
    var db := Run(rules, all);
    BackedIsUnblocked(db, custody, FindRound(db.rounds, input.roundId).value, setting'.resumedAt);
  }

  // ---------------------------------------------------------------- repeating a call at once

  /** What entering leaves: the same round, and the same again from there unless it is still due. */
  lemma {:induction false} EnterTwice(db: Database, rules: Rules, input: PlayerInput, player: Wallet, now: int, now': int)
    requires ValidRules(rules) && Sound(db, rules) && Enter(db, rules, input, player, now).Entered?
    ensures var entry := Enter(db, rules, input, player, now);
            && entry.db.rounds[entry.i].wallet == player && SameRules(entry.db.rounds[entry.i], rules)
            && (entry.db != db ==> entry.db.rounds[entry.i].status == Defaulted && Enter(entry.db, rules, input, player, now') == entry)
            && (!Due(entry.db.rounds[entry.i], now') ==> Enter(entry.db, rules, input, player, now') == entry)
  {
    hide Sound, ValidRules, FindRound, FindTransition, Release;
    EnterKeepsSound(db, rules, input, player, now);
  }

  lemma DefaultedAnswers(round: Round, input: PlayerInput)
    requires round.status == Defaulted
    ensures Answer(round, input).Some?
  {
  }

  /** A decision taken at or after the resume opens a stage that is not due at the resume. */
  lemma {:induction false} PlayedNotDue(db: Database, setting: Setting, input: PlayerInput, player: Wallet)
    requires ValidRules(setting.rules) && Sound(db, setting.rules) && setting.resumedAt <= setting.decidedAt
    requires PlayerTurn(db, setting, input, player, ALONE).reply == Played
    ensures var after := PlayerTurn(db, setting, input, player, ALONE).db;
            var found := FindRound(after.rounds, input.roundId);
            found.Some? && !Due(after.rounds[found.value], setting.resumedAt) && after.rounds[found.value].wallet == player
  {
    hide Sound, ValidRules, Enter, FindTransition, FindRound, FixtureDecision, EffectFor, LookAgain;
    EnterKeepsSound(db, setting.rules, input, player, setting.resumedAt);
    EnterTwice(db, setting.rules, input, player, setting.resumedAt, setting.resumedAt);
    EnteredId(db, setting.rules, input, player, setting.resumedAt);
    var entry := Enter(db, setting.rules, input, player, setting.resumedAt);
    var round := entry.db.rounds[entry.i];
    StagesAreValid(setting.rules);
    var decision := FixtureDecision(setting.rules, setting.health, input, round.pot, setting.rollPpm).value;
    assert Others(entry.db, setting.rules, []) == entry.db;
    LookAgainPlaysNothing(entry.db, setting, input, player);
    PlayIsDecision(entry.db, entry.i, setting, decision, EffectFor(setting, input, round));
  }

  lemma LookAgainPlaysNothing(db: Database, setting: Setting, input: PlayerInput, player: Wallet)
    ensures LookAgain(db, setting, input, player).reply != Played
  {
    hide Enter, FindReplay;
  }

  lemma DecidedRounds(db: Database, i: nat, setting: Setting, decision: Decision, effect: Effect)
    requires ValidRules(setting.rules) && i < |db.rounds| && FindRound(db.rounds, db.rounds[i].id) == Some(i)
    requires AttemptDecision(db, setting.rules, setting.house, db.rounds[i].id, decision, setting.decidedAt, effect).Committed?
    ensures forall k :: 0 <= k < |setting.rules.stages| ==> setting.rules.stages[k].potContributionBps >= 0
    ensures Resolve(setting.rules, db.rounds[i], decision, setting.decidedAt).Ok?
    ensures db.rounds[i].status == Active && db.rounds[i].deadline.Some? && setting.decidedAt < db.rounds[i].deadline.value
    ensures AttemptDecision(db, setting.rules, setting.house, db.rounds[i].id, decision, setting.decidedAt, effect).db.rounds
            == db.rounds[i := Advance(setting.rules, db.rounds[i], decision, Resolve(setting.rules, db.rounds[i], decision, setting.decidedAt).value)]
  {
    StagesAreValid(setting.rules);
    hide ValidRules, FindTransition, FindRound, Resolve, ApplyMove, RunEffect, Malformed, Advance;
  }

  lemma {:induction false} PlayIsDecision(db: Database, i: nat, setting: Setting, decision: Decision, effect: Effect)
    requires ValidRules(setting.rules) && Sound(db, setting.rules) && i < |db.rounds| && setting.resumedAt <= setting.decidedAt
    requires db.rounds[i].status == Active
    requires AttemptDecision(db, setting.rules, setting.house, db.rounds[i].id, decision, setting.decidedAt, effect).Committed?
    ensures var after := AttemptDecision(db, setting.rules, setting.house, db.rounds[i].id, decision, setting.decidedAt, effect).db;
            var found := FindRound(after.rounds, db.rounds[i].id);
            found.Some? && !Due(after.rounds[found.value], setting.resumedAt) && after.rounds[found.value].wallet == db.rounds[i].wallet
  {
    hide Sound, ValidRules, FindRound, AttemptDecision, Resolve, NextFacts, Due, RowReady, Bounded;
    ActiveSlotOf(db, setting.rules, i);
    var round := db.rounds[i];
    DecidedRounds(db, i, setting, decision, effect);
    var next := Resolve(setting.rules, round, decision, setting.decidedAt).value;
    FindReplaced(db.rounds, i, Advance(setting.rules, round, decision, next));
    ResolveGivesFacts(setting.rules, round, decision, setting.decidedAt);
    AdvancedNotDue(setting.rules, round, decision, next, setting.decidedAt, setting.resumedAt);
  }

  lemma AdvancedNotDue(rules: Rules, round: Round, decision: Decision, next: Next, decidedAt: int, now: int)
    requires ValidRules(rules) && NextFacts(rules, round, decision, next, decidedAt) && now <= decidedAt < round.riskExpiresAt
    ensures !Due(Advance(rules, round, decision, next), now)
  {
    hide ValidRiskRules, ValidStages;
  }

  /** A call that plays nothing writes at most the default of its round, and then holds its answer. */
  lemma {:induction false} UnplayedWrites(db: Database, setting: Setting, input: PlayerInput, player: Wallet)
    requires ValidRules(setting.rules) && Sound(db, setting.rules)
    requires PlayerTurn(db, setting, input, player, ALONE).reply != Played && PlayerTurn(db, setting, input, player, ALONE).db != db
    ensures var turn := PlayerTurn(db, setting, input, player, ALONE);
            var entry := Enter(turn.db, setting.rules, input, player, setting.resumedAt);
            && entry.Entered? && entry.db == turn.db && Answer(turn.db.rounds[entry.i], input) == Some(turn.reply)
  {
    hide Sound, ValidRules, Enter, FixtureDecision, EffectFor, Submit, Answer, FindRound;
    var entry := Enter(db, setting.rules, input, player, setting.resumedAt);
    assert Others(entry.db, setting.rules, []) == entry.db;
    if entry.db != db {
      EnterTwice(db, setting.rules, input, player, setting.resumedAt, setting.resumedAt);
      DefaultedAnswers(entry.db.rounds[entry.i], input);
    } else {
      var last := Enter(db, setting.rules, input, player, setting.againAt);
      assert last.Entered? && last.db != db;
      EnterTwice(db, setting.rules, input, player, setting.againAt, setting.resumedAt);
      DefaultedAnswers(last.db.rounds[last.i], input);
    }
  }

  /**
   Repeating a call at once changes nothing: a decision that was taken is
   recognised, a refusal or a default is given again, and the tables stay.
   */
  lemma {:induction false} RetryChangesNothing(db: Database, setting: Setting, input: PlayerInput, player: Wallet)
    requires ValidRules(setting.rules) && Sound(db, setting.rules) && setting.resumedAt <= setting.decidedAt
    ensures var first := PlayerTurn(db, setting, input, player, ALONE);
            var again := PlayerTurn(first.db, setting, input, player, ALONE);
            again.db == first.db && again.reply == (if first.reply == Played then AlreadyPlayed else first.reply)
  {
    hide Sound, ValidRules, Enter, Play, Recorded;
    var first := PlayerTurn(db, setting, input, player, ALONE);
    if first.reply == Played {
      RepliesAreTrue(db, setting, input, player, ALONE);
      PlayedNotDue(db, setting, input, player);
      hide PlayerTurn, FindRound;
      RecordedTurn(first.db, setting, input, input, player, ALONE);
    } else if first.db != db {
      UnplayedWrites(db, setting, input, player);
      var entry := Enter(first.db, setting.rules, input, player, setting.resumedAt);
      AnsweredPlay(entry.db, entry.i, setting, input, player);
    }
  }

  lemma AnsweredPlay(db: Database, i: nat, setting: Setting, input: PlayerInput, player: Wallet)
    requires ValidRules(setting.rules) && i < |db.rounds| && Answer(db.rounds[i], input).Some?
    ensures Play(db, i, setting, input, player, ALONE) == Turn(db, Answer(db.rounds[i], input).value)
  {
    hide Answer;
  }
}
