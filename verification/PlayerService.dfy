/**
 One call of the player decision service (apps/api/src/crash/crash-decision.service.ts):
 resume, replay check, decision with its custody effect, and the second look a
 call takes when its decision was lost.  Other transactions may run in between.
 Settling a terminal round is SettlementWorker's part.
 */
module PlayerService {
  import opened Support
  import opened Calculators
  import opened Treasury
  import opened Rounds
  import opened RoundInvariants
  import opened RoundSteps
  import opened RoundRuns
  import opened RoundGuarantees
  import opened PlayerDecisions
  import opened ExpiryBatch
  import opened CrashStageState

  datatype TurnReply = Played | AlreadyPlayed | AlreadyDefaulted | Refused(error: StateError)

  datatype Turn = Turn(db: Database, reply: TurnReply)

  /**
   The inputs of a call: configuration, health evidence, custody policy, the
   deterministic roll, and the clock as it is read when the round is resumed, when
   the decision is submitted and when a lost decision is looked up.
   */
  datatype Setting = Setting(
    rules: Rules, house: House, health: Option<Health>, policy: Option<CustodyPolicy>, rollPpm: int,
    resumedAt: int, decidedAt: int, againAt: int)

  /** The transactions of others during the call, and whether one of them makes the decision's transaction fail. */
  datatype Meantime = Meantime(beforeDecision: seq<Step>, beforeAgain: seq<Step>, conflict: bool)

  const ALONE: Meantime := Meantime([], [], false)

  function Others(db: Database, rules: Rules, steps: seq<Step>): Database
    requires ValidRules(rules)
  {
    if steps == [] then db else After(Others(db, rules, steps[..|steps| - 1]), rules, steps[|steps| - 1])
  }

  /** An expired round is defaulted before anything is answered. */
  function Resume(db: Database, i: nat, now: int): (verdict: Verdict)
    requires i < |db.rounds|
    ensures verdict.Committed? ==> |verdict.db.rounds| == |db.rounds|
  {
    var round := db.rounds[i];
    if Due(round, now) then ApplyDefault(db, CandidateOf(round), now) else Skipped
  }

  predicate SameRules(round: Round, rules: Rules) {
    && round.binding == rules.binding
    && round.riskRulesHash == rules.risk.rulesHash && round.riskRulesVersion == rules.risk.rulesVersion
  }

  datatype Entry = Entered(db: Database, i: nat) | Stopped(error: StateError)

  /** The player's own round, under the configured rules, resumed. */
  function Enter(db: Database, rules: Rules, input: PlayerInput, player: Wallet, now: int): (entry: Entry)
    ensures entry.Entered? ==> entry.i < |entry.db.rounds| == |db.rounds| && FindRound(db.rounds, input.roundId) == Some(entry.i)
  {
    match FindRound(db.rounds, input.roundId)
    case None => Stopped(NotFound)
    case Some(i) =>
      if db.rounds[i].wallet != player then Stopped(NotFound)
      else if !SameRules(db.rounds[i], rules) then Stopped(Disabled)
      else
        match Resume(db, i, now)
        case Rejected(e) => Stopped(e)
        case resumed => Entered(Applied(resumed, db), i)
  }

  function DecisionName(action: Action): DecisionKind {
    if action == PlayContinue then DecidedContinue else DecidedCashOut
  }

  /** Whether this key was already played, with the same action, stage and version. */
  function FindReplay(round: Round, input: PlayerInput): Result<bool, StateError> {
    match FindTransition(round.transitions, PlayerKey(input.publicKey))
    case None => Ok(false)
    case Some(j) =>
      var t := round.transitions[j];
      if t.decision != Some(DecisionName(input.action)) || t.fromStage.None? || t.fromStage.value != input.stage || t.sequence != input.version + 1
      then Err(KeyReused) else Ok(true)
  }

  /** The answer a resumed round already holds for this input, if it does. */
  function Answer(round: Round, input: PlayerInput): Option<TurnReply> {
    match FindReplay(round, input)
    case Err(e) => Some(Refused(e))
    case Ok(replayed) => if replayed then Some(AlreadyPlayed) else if round.status == Defaulted then Some(AlreadyDefaulted) else None
  }

  function EffectFor(setting: Setting, input: PlayerInput, round: Round): Effect {
    EffectOf(input, round.wallet, if setting.policy.Some? then Some(setting.policy.value.sessionCustody) else None, setting.policy,
             setting.rules.binding)
  }

  /** What the state service reports after its transaction failed: a replay, a lost race, or the failure itself. */
  function AfterConflict(db: Database, rules: Rules, id: string, decision: Decision): Verdict {
    match Malformed(decision)
    case Some(e) => Rejected(e)
    case None =>
      match FindRound(db.rounds, id)
      case None => Rejected(TransactionFailed)
      case Some(i) =>
        var round := db.rounds[i];
        match FindTransition(round.transitions, decision.key)
        case Some(j) => if round.transitions[j].request == DecisionRequest(decision, rules.binding) then Repeated else Rejected(KeyReused)
        case None =>
          Rejected(if round.status != Active || round.stage != decision.expectedStage || round.version != decision.expectedVersion
                   then ConcurrentTransition else TransactionFailed)
  }

  function Submit(db: Database, setting: Setting, id: string, decision: Decision, effect: Effect, conflict: bool): Verdict
    requires ValidRules(setting.rules)
  {
    if conflict then AfterConflict(db, setting.rules, id, decision)
    else AttemptDecision(db, setting.rules, setting.house, id, decision, setting.decidedAt, effect)
  }

  /** A lost decision: the round is resumed again, and answered if it holds an answer. */
  function LookAgain(db: Database, setting: Setting, input: PlayerInput, player: Wallet): Turn {
    match Enter(db, setting.rules, input, player, setting.againAt)
    case Stopped(e) => Turn(db, Refused(e))
    case Entered(after, i) =>
      var answer := Answer(after.rounds[i], input);
      Turn(after, if answer.Some? then answer.value else Refused(InvalidTransition))
  }

  predicate Lost(error: StateError) {
    error == ConcurrentTransition || error == DeadlineExpired
  }

  function Submitted(db: Database, verdict: Verdict, setting: Setting, input: PlayerInput, player: Wallet, late: seq<Step>): Turn
    requires ValidRules(setting.rules)
  {
    match verdict
    case Committed(after) => Turn(after, Played)
    case Rejected(e) => if Lost(e) then LookAgain(Others(db, setting.rules, late), setting, input, player) else Turn(db, Refused(e))
    case _ => Turn(db, AlreadyPlayed)
  }

  /** From the resumed round on: answer, or submit a decision on the pot that was read. */
  function Play(db: Database, i: nat, setting: Setting, input: PlayerInput, player: Wallet, meantime: Meantime): Turn
    requires ValidRules(setting.rules) && i < |db.rounds|
  {
    var round := db.rounds[i];
    match Answer(round, input)
    case Some(reply) => Turn(db, reply)
    case None =>
      if round.status != Active || round.stage != input.stage || round.version != input.version then Turn(db, Refused(InvalidTransition))
      else
        StagesAreValid(setting.rules);
        match FixtureDecision(setting.rules, setting.health, input, round.pot, setting.rollPpm)
        case Err(e) => Turn(db, Refused(CalculatorRejected(e)))
        case Ok(decision) =>
          var at := Others(db, setting.rules, meantime.beforeDecision);
          var verdict := Submit(at, setting, round.id, decision, EffectFor(setting, input, round), meantime.conflict);
          Submitted(at, verdict, setting, input, player, meantime.beforeAgain)
  }

  function PlayerTurn(db: Database, setting: Setting, input: PlayerInput, player: Wallet, meantime: Meantime): Turn
    requires ValidRules(setting.rules)
  {
    match Enter(db, setting.rules, input, player, setting.resumedAt)
    case Stopped(e) => Turn(db, Refused(e))
    case Entered(after, i) => Play(after, i, setting, input, player, meantime)
  }

  class CrashDecisionService {
    const tables: CrashDatabase

    constructor (tables: CrashDatabase)
      ensures this.tables == tables
    {
      this.tables := tables;
    }

    method EnterRound(rules: Rules, input: PlayerInput, player: Wallet, now: int) returns (r: Result<nat, StateError>)
      modifies tables
      ensures var entry := Enter(old(tables.Db()), rules, input, player, now);
              if entry.Entered? then r == Ok(entry.i) && tables.Db() == entry.db else r == Err(entry.error) && tables.Db() == old(tables.Db())
    {
      hide ApplyDefault;
      var found := FindRound(tables.rounds, input.roundId);
      if found.None? {
        return Err(NotFound);
      }
      var current := tables.rounds[found.value];
      if current.wallet != player {
        return Err(NotFound);
      }
      if !SameRules(current, rules) {
        return Err(Disabled);
      }
      if Due(current, now) {
        var defaulted := tables.ApplyDefault(CandidateOf(current), now);
        if defaulted.Failed? {
          return Err(defaulted.error);
        }
      }
      r := Ok(found.value);
    }

    /** The call when nobody else writes; the deadline may still pass between its two clock readings. */
    method DecideForPlayer(setting: Setting, input: PlayerInput, player: Wallet) returns (reply: TurnReply)
      requires ValidRules(setting.rules)
      modifies tables
      ensures Turn(tables.Db(), reply) == PlayerTurn(old(tables.Db()), setting, input, player, ALONE)
    {
      hide Play, Enter;
      var entered := EnterRound(setting.rules, input, player, setting.resumedAt);
      match entered
      case Err(error) => reply := Refused(error);
      case Ok(i) => reply := PlayResumed(setting, i, input, player);
    }

    method PlayResumed(setting: Setting, i: nat, input: PlayerInput, player: Wallet) returns (reply: TurnReply)
      requires ValidRules(setting.rules) && i < |tables.rounds|
      modifies tables
      ensures Turn(tables.Db(), reply) == Play(old(tables.Db()), i, setting, input, player, ALONE)
    {
      hide Rounds.Decide, FixtureDecision, Answer, EffectFor, LookAgain;
      var current := tables.rounds[i];
      var answer := Answer(current, input);
      if answer.Some? {
        return answer.value;
      }
      if current.status != Active || current.stage != input.stage || current.version != input.version {
        return Refused(InvalidTransition);
      }
      StagesAreValid(setting.rules);
      var decision := FixtureDecision(setting.rules, setting.health, input, current.pot, setting.rollPpm);
      if decision.Err? {
        return Refused(CalculatorRejected(decision.error));
      }
      var decided := tables.Decide(setting.rules, setting.house, current.id, decision.value, setting.decidedAt, EffectFor(setting, input, current));
      match decided
      case Done => reply := Played;
      case Failed(error) =>
        if Lost(error) {
          reply := AnswerLost(setting, input, player);
        } else {
          reply := Refused(error);
        }
      case _ => reply := AlreadyPlayed;
    }

    /** The catch branch. */
    method AnswerLost(setting: Setting, input: PlayerInput, player: Wallet) returns (reply: TurnReply)
      modifies tables
      ensures Turn(tables.Db(), reply) == LookAgain(old(tables.Db()), setting, input, player)
    {
      hide Enter, Answer;
      var entered := EnterRound(setting.rules, input, player, setting.againAt);
      if entered.Err? {
        return Refused(entered.error);
      }
      var answer := Answer(tables.rounds[entered.value], input);
      reply := if answer.Some? then answer.value else Refused(InvalidTransition);
    }
  }

  // ---------------------------------------------------------------- a call is part of a run

  lemma RunAppend(rules: Rules, steps: seq<Step>, step: Step)
    requires ValidRules(rules)
    ensures Run(rules, steps + [step]) == After(Run(rules, steps), rules, step)
  {
    assert (steps + [step])[..|steps|] == steps;
  }

  lemma {:induction false} OthersIsRun(rules: Rules, steps: seq<Step>, more: seq<Step>)
    requires ValidRules(rules)
    ensures Others(Run(rules, steps), rules, more) == Run(rules, steps + more)
  {
    if more == [] {
      assert steps + more == steps;
    } else {
      var n := |more| - 1;
      OthersIsRun(rules, steps, more[..n]);
      assert steps + more == steps + more[..n] + [more[n]];
      RunAppend(rules, steps + more[..n], more[n]);
    }
  }

  /** The steps a call adds to a run, its own and those of others, are service steps when the others' are. */
  ghost predicate Adds(custody: CustodyPolicy, meantime: Meantime, more: seq<Step>) {
    ServiceRun(meantime.beforeDecision, custody) && ServiceRun(meantime.beforeAgain, custody) ==> ServiceRun(more, custody)
  }

  lemma {:induction false} EnterIsRun(rules: Rules, steps: seq<Step>, input: PlayerInput, player: Wallet, now: int, custody: CustodyPolicy)
    returns (more: seq<Step>)
    requires ValidRules(rules)
    ensures ServiceRun(more, custody) && |more| <= 1
    ensures var entry := Enter(Run(rules, steps), rules, input, player, now);
            if entry.Entered? then entry.db == Run(rules, steps + more) else more == []
  {
    hide Run, ApplyDefault, ValidRules;
    var db := Run(rules, steps);
    var entry := Enter(db, rules, input, player, now);
    more := [];
    assert steps + more == steps;
    if entry.Entered? && entry.db != db {
      more := [Expire(CandidateOf(db.rounds[entry.i]), now)];
      RunAppend(rules, steps, more[0]);
    }
  }

  /** A committed submission is one committed service step. */
  lemma SubmitIsTake(db: Database, seen: Round, setting: Setting, input: PlayerInput, custody: CustodyPolicy, conflict: bool) returns (take: Step)
    requires ValidRules(setting.rules) && seen.id == input.roundId
    requires setting.policy.Some? ==> setting.policy.value == custody
    requires forall k :: 0 <= k < |setting.rules.stages| ==> setting.rules.stages[k].potContributionBps >= 0
    requires FixtureDecision(setting.rules, setting.health, input, seen.pot, setting.rollPpm).Ok?
    requires var decision := FixtureDecision(setting.rules, setting.health, input, seen.pot, setting.rollPpm).value;
             Submit(db, setting, seen.id, decision, EffectFor(setting, input, seen), conflict).Committed?
    ensures take.Take? && FromService(take, custody) && take.id == input.roundId && take.decision.key == PlayerKey(input.publicKey)
    ensures var decision := FixtureDecision(setting.rules, setting.health, input, seen.pot, setting.rollPpm).value;
            VerdictOf(db, setting.rules, take) == Submit(db, setting, seen.id, decision, EffectFor(setting, input, seen), conflict)
  {
    var decision := FixtureDecision(setting.rules, setting.health, input, seen.pot, setting.rollPpm).value;
    take := Take(setting.house, input.roundId, decision, setting.decidedAt, EffectFor(setting, input, seen));
    var recipient := if setting.policy.Some? then Some(setting.policy.value.sessionCustody) else None;
    ServiceCallsAreFromService(setting.rules, setting.house, setting.health, input, seen.pot, setting.rollPpm, seen.wallet, recipient, custody,
                               setting.policy, setting.decidedAt);
    hide Rounds.Decide, FromService, Malformed, FindTransition;
  }

  lemma {:induction false} SubmittedIsRun(setting: Setting, steps: seq<Step>, seen: Round, input: PlayerInput, player: Wallet, custody: CustodyPolicy,
                                          conflict: bool, late: seq<Step>)
    returns (more: seq<Step>)
    requires ValidRules(setting.rules) && seen.id == input.roundId
    requires setting.policy.Some? ==> setting.policy.value == custody
    requires forall k :: 0 <= k < |setting.rules.stages| ==> setting.rules.stages[k].potContributionBps >= 0
    requires FixtureDecision(setting.rules, setting.health, input, seen.pot, setting.rollPpm).Ok?
    ensures ServiceRun(late, custody) ==> ServiceRun(more, custody)
    ensures |more| <= |late| + 1
    ensures var decision := FixtureDecision(setting.rules, setting.health, input, seen.pot, setting.rollPpm).value;
            var db := Run(setting.rules, steps);
            var verdict := Submit(db, setting, seen.id, decision, EffectFor(setting, input, seen), conflict);
            Submitted(db, verdict, setting, input, player, late).db == Run(setting.rules, steps + more)
  {
    hide Run, FixtureDecision, EffectFor, Submit, ValidRules, Enter, Answer, FromService;
    var decision := FixtureDecision(setting.rules, setting.health, input, seen.pot, setting.rollPpm).value;
    var db := Run(setting.rules, steps);
    var verdict := Submit(db, setting, seen.id, decision, EffectFor(setting, input, seen), conflict);
    more := [];
    assert steps + more == steps;
    if verdict.Committed? {
      var take := SubmitIsTake(db, seen, setting, input, custody, conflict);
      more := [take];
      RunAppend(setting.rules, steps, take);
    } else if verdict.Rejected? && Lost(verdict.error) {
      OthersIsRun(setting.rules, steps, late);
      var again := EnterIsRun(setting.rules, steps + late, input, player, setting.againAt, custody);
      more := late + again;
      assert steps + late + again == steps + more;
      assert again == [] ==> more == late;
    }
  }

  /** Every call continues the run by at most a default, a decision or second default, and what others did meanwhile. */
  lemma {:induction false} TurnIsServiceRun(setting: Setting, input: PlayerInput, player: Wallet, custody: CustodyPolicy, steps: seq<Step>,
                                            meantime: Meantime)
    returns (more: seq<Step>)
    requires ValidRules(setting.rules) && (setting.policy.Some? ==> setting.policy.value == custody)
    ensures Adds(custody, meantime, more) && |more| <= |meantime.beforeDecision| + |meantime.beforeAgain| + 2
    ensures PlayerTurn(Run(setting.rules, steps), setting, input, player, meantime).db == Run(setting.rules, steps + more)
  {
    hide Run, FixtureDecision, EffectFor, Submit, Submitted, ValidRules, Enter, Answer, FromService;
    var db := Run(setting.rules, steps);
    var entry := Enter(db, setting.rules, input, player, setting.resumedAt);
    more := EnterIsRun(setting.rules, steps, input, player, setting.resumedAt, custody);
    assert steps + [] == steps;
    if entry.Entered? {
      var round := entry.db.rounds[entry.i];
      StagesAreValid(setting.rules);
      var decision := FixtureDecision(setting.rules, setting.health, input, round.pot, setting.rollPpm);
      if Answer(round, input).None? && round.status == Active && round.stage == input.stage && round.version == input.version && decision.Ok? {
        EnteredId(db, setting.rules, input, player, setting.resumedAt);
        var mid := meantime.beforeDecision;
        OthersIsRun(setting.rules, steps + more, mid);
        var rest := SubmittedIsRun(setting, steps + more + mid, round, input, player, custody, meantime.conflict, meantime.beforeAgain);
        assert steps + more + mid + rest == steps + (more + mid + rest);
        more := more + mid + rest;
      }
    }
  }

  lemma EnteredId(db: Database, rules: Rules, input: PlayerInput, player: Wallet, now: int)
    requires Enter(db, rules, input, player, now).Entered?
    ensures var entry := Enter(db, rules, input, player, now); entry.db.rounds[entry.i].id == input.roundId
  {
    hide Release, FindTransition;
  }
}
