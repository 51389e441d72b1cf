/**
 Which decisions a reachable round accepts, and what an accepted one leaves in
 the stored fields, stated on amounts, thresholds and limits.
 */
module RoundOutcomes {
  import opened Support
  import opened Calculators
  import opened Treasury
  import opened Rounds
  import opened RoundInvariants
  import opened RoundSteps
  import opened RoundRuns
  import opened RoundGuarantees

  // ---------------------------------------------------------------- what a decision should find and leave

  /** The pot grown by the whole units of the stage's share of the value. */
  function PotAfter(pot: nat, value: nat, bps: nat): nat {
    pot + value * bps / BPS_SCALE
  }

  /** What a continue must settle: nothing when it busts, the pot when it completes, and no settlement while it goes on. */
  function SettlementFor(status: RoundStatus, pot: nat): Option<nat> {
    match status
    case Busted => Some(0)
    case Completed => Some(pot)
    case _ => None
  }

  /** Healthy evidence about the right provider, pool and rules, seen from one minute before its time to its age limit. */
  predicate EvidenceInTime(health: Option<Health>, rules: RiskRules, now: int) {
    match health
    case None => false
    case Some(h) =>
      && h.providerHealthy && h.poolHealthy
      && (h.providerReference, h.poolReference, h.rulesHash) == (rules.providerReference, rules.poolReference, rules.rulesHash)
      && h.observedAt - 60_000 <= now <= h.observedAt + rules.evidenceMaxAgeMs
  }

  ghost predicate KeyUnused(round: Round, key: TransitionKey) {
    forall k :: 0 <= k < |round.transitions| ==> round.transitions[k].key != key
  }

  /** The decision names the round's stage and version, before its deadline. */
  predicate InTime(round: Round, decision: Decision, now: int) {
    && decision.expectedStage == round.stage && decision.expectedVersion == round.version
    && round.deadline.Some? && now < round.deadline.value
  }

  /** The tables with row `i` raised to the new pot. */
  function Raised(t: Tables, i: nat, pot: nat): Tables
    requires i < |t.crash|
  {
    t.(crash := t.crash[i := t.crash[i].(amount := pot)])
  }

  ghost predicate Staged(rules: Rules, round: Round) {
    1 <= round.stage <= |rules.stages| && rules.stages[round.stage - 1].potContributionBps >= 0
  }

  function GrownPot(rules: Rules, round: Round, value: nat): nat
    requires Staged(rules, round)
  {
    PotAfter(round.pot, value, rules.stages[round.stage - 1].potContributionBps)
  }

  /** Provider values in range, a pot within the stage's cap, and the settlement that the roll calls for. */
  predicate ContinueFits(rules: Rules, round: Round, decision: Decision)
    requires decision.Continue? && Staged(rules, round)
  {
    var pot := GrownPot(rules, round, decision.provider.stageValue);
    && decision.provider.stage == round.stage && 0 <= decision.provider.rollPpm < 1_000_000
    && decision.provider.stageValue <= MAX_U64 && decision.payment <= MAX_U64
    && pot <= rules.stages[round.stage - 1].maxPot
    && decision.settlement == SettlementFor(StatusAfter(rules.stages, round.stage, decision.provider.rollPpm), pot)
  }

  /** The risk gate's condition: evidence in time, a stage within the envelope, and affordable tables. */
  predicate ContinueAdmitted(t: Tables, rules: Rules, house: House, i: nat, round: Round, decision: Decision, now: int)
    requires decision.Continue? && Staged(rules, round) && i < |t.crash|
  {
    var pot := GrownPot(rules, round, decision.provider.stageValue);
    && EvidenceInTime(decision.health, rules.risk, now)
    && (StatusAfter(rules.stages, round.stage, decision.provider.rollPpm) == Active ==> round.stage < rules.risk.maxStage)
    && Affordable(Raised(t, i, pot), rules.risk, house, round.wallet, pot)
  }

  // ---------------------------------------------------------------- what is left behind

  predicate EarlierOf(x: int, a: int, b: int) {
    x <= a && x <= b && (x == a || x == b)
  }

  function ReasonFor(status: RoundStatus): Option<TerminalReason> {
    match status
    case Active => None
    case CashedOut => Some(PlayerCashOut)
    case Busted => Some(ProviderBustOutcome)
    case Completed => Some(FinalStageCompleted)
    case Defaulted => Some(DeadlineDefaultForfeit)
  }

  function KindFor(status: RoundStatus): TransitionKind {
    match status
    case Active => StageContinued
    case CashedOut => RoundCashedOut
    case Busted => RoundBusted
    case Completed => RoundCompleted
    case Defaulted => DeadlineDefaulted
  }

  /** Nothing but round `i`, its reservation, the ledger and the intents may change. */
  ghost predicate OthersKept(db: Database, i: nat, after: Database) {
    && |after.rounds| == |db.rounds| && |after.tables.crash| == |db.tables.crash|
    && (forall k :: 0 <= k < |db.rounds| && k != i ==> after.rounds[k] == db.rounds[k])
    && (forall k :: 0 <= k < |db.tables.crash| && k != i ==> after.tables.crash[k] == db.tables.crash[k])
    && after.tables.others == db.tables.others
    && db.tables.ledger <= after.tables.ledger
  }

  predicate IdentityKept(round: Round, round': Round) {
    && round'.id == round.id && round'.wallet == round.wallet && round'.binding == round.binding
    && round'.riskRulesHash == round.riskRulesHash && round'.riskRulesVersion == round.riskRulesVersion
    && round'.riskStartedAt == round.riskStartedAt && round'.riskExpiresAt == round.riskExpiresAt
  }

  /** Stage, pot and version, and the columns that go with the status. */
  predicate ColumnsLeft(rules: Rules, round: Round, round': Round, status: RoundStatus, pot: nat, now: int) {
    && IdentityKept(round, round')
    && round'.status == status && round'.pot == pot && round'.version == round.version + 1
    && round'.terminalReason == ReasonFor(status)
    && round'.receiptHash == round.receiptHash && round'.settledAt == round.settledAt
    && (if status == Active then
          && round'.stage == round.stage + 1 && round'.terminalAt.None? && round'.settlementStatus == round.settlementStatus
          && round'.deadline.Some? && EarlierOf(round'.deadline.value, now + rules.decisionTimeoutMs, round.riskExpiresAt)
        else
          && round'.stage == round.stage && round'.terminalAt == Some(now) && round'.settlementStatus == Pending && round'.deadline.None?)
  }

  /** An active round's reservation carries its pot; a terminal round's is released. */
  predicate RowLeft(row: Reservation, row': Reservation, status: RoundStatus, pot: nat) {
    && row'.crash == row.crash && row'.roundId == row.roundId && row'.wallet == row.wallet && row'.riskRulesHash == row.riskRulesHash
    && (if status == Active then row'.status == row.status && row'.amount == pot
        else row'.status == Released && row'.amount == row.amount)
  }

  /** One transition from the round as it was to the round as it is, with the decision and what it promises. */
  ghost predicate TransitionLeft(round: Round, round': Round, decision: Decision, outcome: Option<Outcome>, payout: Option<nat>) {
    && |round'.transitions| == |round.transitions| + 1 && round.transitions <= round'.transitions
    && var t := round'.transitions[|round.transitions|];
    && t.sequence == round'.version && t.kind == KindFor(round'.status) && t.key == decision.key
    && t.decision == Some(if decision.Continue? then DecidedContinue else DecidedCashOut)
    && t.request == DecisionRequest(decision, round.binding) && t.binding == round.binding
    && (t.fromStage, t.fromStatus) == (Some(round.stage), Some(round.status)) && (t.toStage, t.toStatus) == (round'.stage, round'.status)
    && t.potBefore == round.pot && t.potAfter == round'.pot
    && t.scheduledDeadline == round'.deadline && t.terminalReason == round'.terminalReason
    && t.outcome == outcome && t.payout == payout
  }

  /** What a committed continue leaves: the status the roll calls for, the grown pot, its outcome and its settlement. */
  ghost predicate ContinueLeaves(rules: Rules, db: Database, i: nat, decision: Decision, now: int, after: Database)
    requires i < |db.rounds| && i < |db.tables.crash| && decision.Continue? && Staged(rules, db.rounds[i])
  {
    var round, provider := db.rounds[i], decision.provider;
    var pot, status := GrownPot(rules, round, provider.stageValue), StatusAfter(rules.stages, round.stage, provider.rollPpm);
    var rest := provider.stageValue * rules.stages[round.stage - 1].potContributionBps % BPS_SCALE;
    && OthersKept(db, i, after)
    && ColumnsLeft(rules, round, after.rounds[i], status, pot, now)
    && RowLeft(db.tables.crash[i], after.tables.crash[i], status, pot)
    && TransitionLeft(round, after.rounds[i], decision, Some(Outcome(status == Busted, rest, decision.custody, provider)),
                      SettlementFor(status, pot))
  }

  ghost predicate CashOutLeaves(rules: Rules, db: Database, i: nat, decision: Decision, now: int, after: Database)
    requires i < |db.rounds| && i < |db.tables.crash|
  {
    var round := db.rounds[i];
    && OthersKept(db, i, after)
    && ColumnsLeft(rules, round, after.rounds[i], CashedOut, round.pot, now)
    && RowLeft(db.tables.crash[i], after.tables.crash[i], CashedOut, round.pot)
    && TransitionLeft(round, after.rounds[i], decision, None, Some(round.pot))
  }

  // ---------------------------------------------------------------- the transition alone

  lemma StageOf(rules: Rules, round: Round)
    requires ValidRules(rules) && Bounded(rules, round)
    ensures Staged(rules, round) && rules.stages[round.stage - 1].stage == round.stage
    ensures 0 <= rules.stages[round.stage - 1].maxPot <= MAX_U64 && round.pot <= MAX_U64
  {
    assert ValidStage(rules.stages[round.stage - 1]);
  }

  /** Where an accepted continue goes. */
  ghost predicate GoesTo(rules: Rules, round: Round, decision: Decision, next: Next, now: int)
    requires decision.Continue? && Staged(rules, round)
  {
    var provider := decision.provider;
    var pot, status := GrownPot(rules, round, provider.stageValue), StatusAfter(rules.stages, round.stage, provider.rollPpm);
    var rest := provider.stageValue * rules.stages[round.stage - 1].potContributionBps % BPS_SCALE;
    && next.status == status && next.potAfter == pot && next.kind == KindFor(status) && next.reason == ReasonFor(status)
    && next.stage == (if status == Active then round.stage + 1 else round.stage)
    && next.terminalAt == (if status == Active then None else Some(now))
    && next.deadline.Some? == (status == Active)
    && (next.deadline.Some? ==> EarlierOf(next.deadline.value, now + rules.decisionTimeoutMs, round.riskExpiresAt))
    && next.outcome == Some(Outcome(status == Busted, rest, decision.custody, provider))
    && next.payout == SettlementFor(status, pot)
  }

  /** A well-timed continue resolves exactly when it fits. */
  lemma ContinueResolves(rules: Rules, round: Round, decision: Decision, now: int)
    requires ValidRules(rules) && Bounded(rules, round) && decision.Continue? && Staged(rules, round)
    requires forall k :: 0 <= k < |rules.stages| ==> rules.stages[k].potContributionBps >= 0
    ensures Malformed(decision).None? && decision.expectedStage == round.stage && Resolve(rules, round, decision, now).Ok?
            ==> ContinueFits(rules, round, decision)
    ensures ContinueFits(rules, round, decision) && decision.expectedStage == round.stage && decision.expectedVersion > 0
            ==> Malformed(decision).None? && Resolve(rules, round, decision, now).Ok?
                && GoesTo(rules, round, decision, Resolve(rules, round, decision, now).value, now)
  {
    StageOf(rules, round);
    hide ValidRules;
  }

  // ---------------------------------------------------------------- the gate alone

  lemma EvidenceIsHealthy(health: Option<Health>, rules: RiskRules, now: int)
    ensures Healthy(health, rules, now) <==> EvidenceInTime(health, rules, now)
  {
  }

  /** The gate admits a continue exactly on evidence in time, within the envelope, with affordable tables. */
  lemma ContinueMoves(t: Tables, rules: Rules, house: House, i: nat, round: Round, decision: Decision, next: Next, now: int)
    requires ValidRules(rules) && Bounded(rules, round) && RowReady(t, i, round) && now < round.riskExpiresAt
    requires decision.Continue? && Staged(rules, round) && GoesTo(rules, round, decision, next, now)
    ensures MoveRefused(t, rules.risk, house, i, round, MoveFor(decision, next, now)).None?
            <==> ContinueAdmitted(t, rules, house, i, round, decision, now)
  {
    hide Healthy, EvidenceInTime, TotalExposure, WalletExposureOf, Affordable, Admission, WellFormedLedger, Replay, FindRow, StatusAfter, PotAfter;
    EvidenceIsHealthy(decision.health, rules.risk, now);
    var row := t.crash[i].(amount := next.potAfter);
    RaiseAdmittedExactly(t, rules.risk, house, i, row);
    AffordablePot(t.(crash := t.crash[i := row]), rules.risk, house, round.wallet, next.potAfter);
  }

  lemma AffordablePot(after: Tables, rules: RiskRules, house: House, wallet: Wallet, pot: nat)
    requires ValidRiskRules(rules)
    ensures Affordable(after, rules, house, wallet, pot) ==> pot <= MAX_U64
  {
  }

  // ---------------------------------------------------------------- the whole decision

  lemma AdvanceLeavesColumns(rules: Rules, round: Round, decision: Decision, next: Next, now: int)
    requires decision.Continue? && Staged(rules, round) && GoesTo(rules, round, decision, next, now)
    requires round.binding == rules.binding
    ensures var round', provider := Advance(rules, round, decision, next), decision.provider;
            var pot, status := GrownPot(rules, round, provider.stageValue), StatusAfter(rules.stages, round.stage, provider.rollPpm);
            && ColumnsLeft(rules, round, round', status, pot, now)
            && TransitionLeft(round, round', decision, next.outcome, next.payout)
  {
  }

  lemma ChangeLeavesRow(row: Reservation, decision: Decision, next: Next, now: int)
    ensures RowLeft(row, ChangedRow(row, ChangeFor(row, MoveFor(decision, next, now))), next.status, next.potAfter)
  {
  }

  lemma ReplacedLeavesOthers(db: Database, i: nat, round': Round, change: RowChange, intents: seq<Intent>)
    requires i < |db.rounds| && i < |db.tables.crash|
    ensures var after := Database(db.rounds[i := round'], Changed(db.tables, i, change), intents);
            OthersKept(db, i, after) && after.rounds[i] == round' && after.tables.crash[i] == ChangedRow(db.tables.crash[i], change)
  {
  }

  /** The four parts of the transaction body each go through. */
  ghost predicate PartsPass(db: Database, rules: Rules, house: House, i: nat, decision: Decision, now: int, effect: Effect)
    requires i < |db.rounds| && i < |db.tables.crash|
    requires forall k :: 0 <= k < |rules.stages| ==> rules.stages[k].potContributionBps >= 0
  {
    var round := db.rounds[i];
    && Guard(round, rules, decision, now).None?
    && Resolve(rules, round, decision, now).Ok?
    && MoveRefused(db.tables, rules.risk, house, i, round, MoveFor(decision, Resolve(rules, round, decision, now).value, now)).None?
    && RunEffect(db.intents, round, effect).Ok?
  }

  lemma DecidedInParts(db: Database, rules: Rules, house: House, i: nat, decision: Decision, now: int, effect: Effect)
    requires ValidRules(rules) && ActiveSlot(db, rules, i)
    requires forall k :: 0 <= k < |rules.stages| ==> rules.stages[k].potContributionBps >= 0
    ensures var round, verdict := db.rounds[i], DecideOn(db, i, rules, house, decision, now, effect);
            && i < |db.tables.crash|
            && (verdict.Committed? <==> PartsPass(db, rules, house, i, decision, now, effect))
            && (verdict.Committed? ==>
                  var next := Resolve(rules, round, decision, now).value;
                  verdict.db == Database(db.rounds[i := Advance(rules, round, decision, next)],
                                         Changed(db.tables, i, ChangeFor(db.tables.crash[i], MoveFor(decision, next, now))),
                                         RunEffect(db.intents, round, effect).value))
  {
    assert i < |db.tables.crash|;
    hide Resolve, RunEffect, ApplyMove, MoveRefused, Changed, ChangeFor, Advance, FindRound, ValidRules, RowReady, NextFacts;
    var round := db.rounds[i];
    if Guard(round, rules, decision, now).None? && Resolve(rules, round, decision, now).Ok? {
      var next := Resolve(rules, round, decision, now).value;
      ResolveGivesFacts(rules, round, decision, now);
      NextFollows(rules, round, decision, next, now);
      MoveIsRowChange(db.tables, rules.risk, house, i, round, MoveFor(decision, next, now));
    }
  }

  lemma ContinueDecided(db: Database, rules: Rules, house: House, i: nat, decision: Decision, now: int, effect: Effect)
    requires ValidRules(rules) && ActiveSlot(db, rules, i) && decision.Continue? && Staged(rules, db.rounds[i])
    requires forall k :: 0 <= k < |rules.stages| ==> rules.stages[k].potContributionBps >= 0
    requires Malformed(decision).None?
    ensures var round := db.rounds[i];
            && i < |db.tables.crash|
            && (PartsPass(db, rules, house, i, decision, now, effect)
                <==> && InTime(round, decision, now) && ContinueFits(rules, round, decision)
                     && ContinueAdmitted(db.tables, rules, house, i, round, decision, now)
                     && RunEffect(db.intents, round, effect).Ok?)
  {
    assert i < |db.tables.crash|;
    hide Malformed, Resolve, ContinueFits, ContinueAdmitted, RunEffect, MoveRefused, GoesTo, FindRound, ValidRules, RowReady;
    var round := db.rounds[i];
    ContinueResolves(rules, round, decision, now);
    if Guard(round, rules, decision, now).None? && Resolve(rules, round, decision, now).Ok? {
      ContinueMoves(db.tables, rules, house, i, round, decision, Resolve(rules, round, decision, now).value, now);
    }
  }

  lemma ResolvedFields(rules: Rules, round: Round, decision: Decision, next: Next, now: int)
    requires decision.Continue? && Staged(rules, round) && GoesTo(rules, round, decision, next, now)
    ensures var provider := decision.provider;
            var pot, status := GrownPot(rules, round, provider.stageValue), StatusAfter(rules.stages, round.stage, provider.rollPpm);
            && next.status == status && next.potAfter == pot && next.payout == SettlementFor(status, pot)
            && next.outcome == Some(Outcome(status == Busted, provider.stageValue * rules.stages[round.stage - 1].potContributionBps % BPS_SCALE,
                                            decision.custody, provider))
  {
  }

  /** The tables after a transition that goes where a continue goes. */
  lemma LeftByContinue(rules: Rules, db: Database, i: nat, decision: Decision, next: Next, now: int, intents: seq<Intent>)
    requires i < |db.rounds| && i < |db.tables.crash| && decision.Continue? && Staged(rules, db.rounds[i])
    requires db.rounds[i].binding == rules.binding && GoesTo(rules, db.rounds[i], decision, next, now)
    ensures ContinueLeaves(rules, db, i, decision, now,
                           Database(db.rounds[i := Advance(rules, db.rounds[i], decision, next)],
                                    Changed(db.tables, i, ChangeFor(db.tables.crash[i], MoveFor(decision, next, now))), intents))
  {
    hide GoesTo, Advance, Changed, ChangeFor, OthersKept, ColumnsLeft, RowLeft, TransitionLeft, GrownPot, StatusAfter, SettlementFor;
    var round := db.rounds[i];
    ResolvedFields(rules, round, decision, next, now);
    AdvanceLeavesColumns(rules, round, decision, next, now);
    ChangeLeavesRow(db.tables.crash[i], decision, next, now);
    ReplacedLeavesOthers(db, i, Advance(rules, round, decision, next), ChangeFor(db.tables.crash[i], MoveFor(decision, next, now)), intents);
  }

  lemma ContinueLeft(db: Database, rules: Rules, house: House, i: nat, decision: Decision, now: int, effect: Effect)
    requires ValidRules(rules) && ActiveSlot(db, rules, i) && decision.Continue? && Staged(rules, db.rounds[i])
    requires forall k :: 0 <= k < |rules.stages| ==> rules.stages[k].potContributionBps >= 0
    requires Malformed(decision).None? && DecideOn(db, i, rules, house, decision, now, effect).Committed?
    ensures i < |db.tables.crash|
    ensures ContinueLeaves(rules, db, i, decision, now, DecideOn(db, i, rules, house, decision, now, effect).db)
    ensures RunEffect(db.intents, db.rounds[i], effect) == Ok(DecideOn(db, i, rules, house, decision, now, effect).db.intents)
  {
    hide Malformed, Resolve, RunEffect, GoesTo, FindRound, ValidRules, RowReady, DecideOn, MoveRefused, ContinueFits, Advance, Changed, ChangeFor,
         ContinueLeaves, Staged;
    var round := db.rounds[i];
    DecidedInParts(db, rules, house, i, decision, now, effect);
    ContinueResolves(rules, round, decision, now);
    LeftByContinue(rules, db, i, decision, Resolve(rules, round, decision, now).value, now, RunEffect(db.intents, round, effect).value);
  }

  lemma CashOutDecided(db: Database, rules: Rules, house: House, i: nat, decision: Decision, now: int, effect: Effect)
    requires ValidRules(rules) && ActiveSlot(db, rules, i) && decision.CashOut?
    requires forall k :: 0 <= k < |rules.stages| ==> rules.stages[k].potContributionBps >= 0
    ensures var round, verdict := db.rounds[i], DecideOn(db, i, rules, house, decision, now, effect);
            && i < |db.tables.crash|
            && (verdict.Committed? <==> InTime(round, decision, now) && decision.payout == round.pot && RunEffect(db.intents, round, effect).Ok?)
            && (verdict.Committed? ==> && CashOutLeaves(rules, db, i, decision, now, verdict.db)
                                       && RunEffect(db.intents, round, effect) == Ok(verdict.db.intents))
  {
    DecidedInParts(db, rules, house, i, decision, now, effect);
    var round := db.rounds[i];
    StageOf(rules, round);
    hide DecideOn, RunEffect, FindRound, RowReady, ChangeFor, Changed, Admission, ValidRules;
    CashOutPasses(db, rules, house, i, decision, now, effect);
    if Guard(round, rules, decision, now).None? && decision.payout == round.pot {
      var next := Resolve(rules, round, decision, now).value;
      CashOutLeft(rules, round, decision, now);
      ChangeLeavesRow(db.tables.crash[i], decision, next, now);
      if RunEffect(db.intents, round, effect).Ok? {
        ReplacedLeavesOthers(db, i, Advance(rules, round, decision, next), ChangeFor(db.tables.crash[i], MoveFor(decision, next, now)),
                             RunEffect(db.intents, round, effect).value);
      }
    }
  }

  lemma CashOutPasses(db: Database, rules: Rules, house: House, i: nat, decision: Decision, now: int, effect: Effect)
    requires ValidRules(rules) && ActiveSlot(db, rules, i) && i < |db.tables.crash| && decision.CashOut? && db.rounds[i].pot <= MAX_U64
    requires forall k :: 0 <= k < |rules.stages| ==> rules.stages[k].potContributionBps >= 0
    ensures PartsPass(db, rules, house, i, decision, now, effect)
            <==> InTime(db.rounds[i], decision, now) && decision.payout == db.rounds[i].pot && RunEffect(db.intents, db.rounds[i], effect).Ok?
  {
    hide RunEffect, FindRound, RowReady, ValidRules, Admission;
  }

  lemma CashOutLeft(rules: Rules, round: Round, decision: Decision, now: int)
    requires decision.CashOut? && decision.payout == round.pot && round.binding == rules.binding
    requires forall k :: 0 <= k < |rules.stages| ==> rules.stages[k].potContributionBps >= 0
    ensures Resolve(rules, round, decision, now).Ok?
    ensures var next := Resolve(rules, round, decision, now).value;
            && (next.status, next.potAfter) == (CashedOut, round.pot)
            && ColumnsLeft(rules, round, Advance(rules, round, decision, next), CashedOut, round.pot, now)
            && TransitionLeft(round, Advance(rules, round, decision, next), decision, None, Some(round.pot))
  {
  }

  // ---------------------------------------------------------------- on every run

  lemma KeyUnusedExactly(round: Round, key: TransitionKey)
    ensures KeyUnused(round, key) <==> FindTransition(round.transitions, key).None?
  {
  }

  /** Only a well-formed decision under an unused key reaches the transaction body. */
  lemma AttemptDecided(db: Database, rules: Rules, house: House, i: nat, decision: Decision, now: int, effect: Effect)
    requires ValidRules(rules) && i < |db.rounds| && FindRound(db.rounds, db.rounds[i].id) == Some(i)
    requires forall k :: 0 <= k < |rules.stages| ==> rules.stages[k].potContributionBps >= 0
    ensures var verdict := AttemptDecision(db, rules, house, db.rounds[i].id, decision, now, effect);
            && (verdict.Committed? ==> Malformed(decision).None? && KeyUnused(db.rounds[i], decision.key))
            && (Malformed(decision).None? && KeyUnused(db.rounds[i], decision.key) ==> verdict == DecideOn(db, i, rules, house, decision, now, effect))
  {
    KeyUnusedExactly(db.rounds[i], decision.key);
    hide FindTransition, DecideOn, Malformed, KeyUnused;
  }

  lemma WellFormedWhenAccepted(rules: Rules, round: Round, decision: Decision, now: int)
    requires ValidRules(rules) && Bounded(rules, round) && round.version >= 1 && InTime(round, decision, now)
    requires decision.Continue? ==> Staged(rules, round) && ContinueFits(rules, round, decision)
    requires decision.CashOut? ==> decision.payout == round.pot
    ensures Malformed(decision).None?
  {
    StagesAreValid(rules);
    StageOf(rules, round);
    if decision.Continue? {
      ContinueResolves(rules, round, decision, now);
    }
  }

  /**
   On every reachable active round a continue commits exactly when its key is
   unused, it is in time, it fits the calculators, the gate admits it and its
   custody effect is prepared; what it leaves is then fixed field by field.
   */
  lemma {:induction false} ContinueAcceptedExactly(rules: Rules, steps: seq<Step>, house: House, i: nat, decision: Decision, now: int, effect: Effect)
    requires ValidRules(rules) && i < |Run(rules, steps).rounds| && Run(rules, steps).rounds[i].status == Active && decision.Continue?
    ensures var db := Run(rules, steps);
            var round, verdict := db.rounds[i], AttemptDecision(db, rules, house, db.rounds[i].id, decision, now, effect);
            && i < |db.tables.crash| && Staged(rules, round)
            && (verdict.Committed?
                <==> && KeyUnused(round, decision.key) && InTime(round, decision, now) && ContinueFits(rules, round, decision)
                     && ContinueAdmitted(db.tables, rules, house, i, round, decision, now)
                     && RunEffect(db.intents, round, effect).Ok?)
            && (verdict.Committed? ==> && ContinueLeaves(rules, db, i, decision, now, verdict.db)
                                       && RunEffect(db.intents, round, effect) == Ok(verdict.db.intents))
  {
    RunActiveSlot(rules, steps, i);
    StagesAreValid(rules);
    var db := Run(rules, steps);
    var round := db.rounds[i];
    StageOf(rules, round);
    hide Run, Bounded, AttemptDecision, DecideOn, RowReady, FindRound, KeyUnused, ContinueFits, ContinueAdmitted, RunEffect, ContinueLeaves, PartsPass,
         Malformed, ValidRules;
    AttemptDecided(db, rules, house, i, decision, now, effect);
    if Malformed(decision).None? {
      DecidedInParts(db, rules, house, i, decision, now, effect);
      ContinueDecided(db, rules, house, i, decision, now, effect);
      if DecideOn(db, i, rules, house, decision, now, effect).Committed? {
        ContinueLeft(db, rules, house, i, decision, now, effect);
      }
    } else if InTime(round, decision, now) && ContinueFits(rules, round, decision) {
      WellFormedWhenAccepted(rules, round, decision, now);
    }
  }

  /** A cash-out likewise: an unused key, in time, for the whole pot; the gate's limits play no part. */
  lemma {:induction false} CashOutAcceptedExactly(rules: Rules, steps: seq<Step>, house: House, i: nat, decision: Decision, now: int, effect: Effect)
    requires ValidRules(rules) && i < |Run(rules, steps).rounds| && Run(rules, steps).rounds[i].status == Active && decision.CashOut?
    ensures var db := Run(rules, steps);
            var round, verdict := db.rounds[i], AttemptDecision(db, rules, house, db.rounds[i].id, decision, now, effect);
            && i < |db.tables.crash|
            && (verdict.Committed?
                <==> && KeyUnused(round, decision.key) && InTime(round, decision, now) && decision.payout == round.pot
                     && RunEffect(db.intents, round, effect).Ok?)
            && (verdict.Committed? ==> && CashOutLeaves(rules, db, i, decision, now, verdict.db)
                                       && RunEffect(db.intents, round, effect) == Ok(verdict.db.intents))
  {
    RunActiveSlot(rules, steps, i);
    StagesAreValid(rules);
    var db := Run(rules, steps);
    var round := db.rounds[i];
    StageOf(rules, round);
    hide Run, Bounded, AttemptDecision, DecideOn, RowReady, FindRound, KeyUnused, RunEffect, CashOutLeaves, Malformed, ValidRules;
    AttemptDecided(db, rules, house, i, decision, now, effect);
    CashOutDecided(db, rules, house, i, decision, now, effect);
    if InTime(round, decision, now) && decision.payout == round.pot {
      WellFormedWhenAccepted(rules, round, decision, now);
    }
  }

  /** On every run each recorded outcome is busted exactly when its roll falls below its own stage's threshold. */
  lemma {:induction false} OutcomesDecidedOnEveryRun(rules: Rules, steps: seq<Step>, i: nat, k: nat)
    requires ValidRules(rules) && i < |Run(rules, steps).rounds| && k < |OutcomesOf(Run(rules, steps).rounds[i].transitions)|
    ensures var round := Run(rules, steps).rounds[i];
            var outcomes := OutcomesOf(round.transitions);
            && k < |rules.stages| && outcomes[k].provider.stage == k + 1
            && (outcomes[k].busted <==> outcomes[k].provider.rollPpm < rules.stages[k].bustThresholdPpm)
            && (outcomes[k].busted <==> round.status == Busted && k == |outcomes| - 1)
            && (round.status == Completed ==> |outcomes| == |rules.stages|)
  {
    EveryRunIsSound(rules, steps);
    hide Run, LedgerReplays, WithinCaps, LedgerAccepted, PotAccounted, PhaseMatches, Bounded, OutcomesOf;
    SlotOf(Run(rules, steps), rules, i);
  }

  // ---------------------------------------------------------------- why a continue is refused

  /** The refusal of a well-formed continue under an unused key, in the order of the checks. */
  function RefusalOf(db: Database, rules: Rules, house: House, i: nat, decision: Decision, now: int, effect: Effect): StateError
    requires i < |db.rounds| && i < |db.tables.crash| && decision.Continue? && Staged(rules, db.rounds[i])
  {
    var round, provider := db.rounds[i], decision.provider;
    var pot, status := GrownPot(rules, round, provider.stageValue), StatusAfter(rules.stages, round.stage, provider.rollPpm);
    if decision.expectedStage != round.stage || decision.expectedVersion != round.version then InvalidTransition
    else if !InTime(round, decision, now) then DeadlineExpired
    else if pot > rules.stages[round.stage - 1].maxPot then CalculatorRejected(PotLimitExceeded)
    else if decision.settlement != SettlementFor(status, pot) then InvalidEvidence
    else if !EvidenceInTime(decision.health, rules.risk, now) then RiskRejected(UnhealthyEvidence)
    else if status == Active && round.stage >= rules.risk.maxStage then RiskRejected(StageLimit)
    else
      var after := Raised(db.tables, i, pot);
      if !Affordable(after, rules.risk, house, round.wallet, pot) then RiskRejected(Shortfall(after, rules.risk, house, round.wallet, pot))
      else
        var effected := RunEffect(db.intents, round, effect);
        if effected.Err? then effected.error else Disabled
  }

  lemma ResolveRefusal(rules: Rules, round: Round, decision: Decision, now: int)
    requires ValidRules(rules) && Bounded(rules, round) && decision.Continue? && Staged(rules, round)
    requires forall k :: 0 <= k < |rules.stages| ==> rules.stages[k].potContributionBps >= 0
    requires Malformed(decision).None? && decision.expectedStage == round.stage
    ensures Resolve(rules, round, decision, now).Err? ==>
              Resolve(rules, round, decision, now).error
              == if GrownPot(rules, round, decision.provider.stageValue) > rules.stages[round.stage - 1].maxPot
                 then CalculatorRejected(PotLimitExceeded) else InvalidEvidence
  {
    StageOf(rules, round);
    hide ValidRules;
  }

  lemma MoveRefusal(t: Tables, rules: Rules, house: House, i: nat, round: Round, decision: Decision, next: Next, now: int)
    requires ValidRules(rules) && Bounded(rules, round) && RowReady(t, i, round) && now < round.riskExpiresAt
    requires decision.Continue? && Staged(rules, round) && GoesTo(rules, round, decision, next, now)
    requires next.potAfter <= MAX_U64
    ensures var refused := MoveRefused(t, rules.risk, house, i, round, MoveFor(decision, next, now));
            refused.Some? ==>
              refused.value
              == if !EvidenceInTime(decision.health, rules.risk, now) then UnhealthyEvidence
                 else if next.status == Active && round.stage >= rules.risk.maxStage then StageLimit
                 else Shortfall(Raised(t, i, next.potAfter), rules.risk, house, round.wallet, next.potAfter)
  {
    hide Healthy, EvidenceInTime, TotalExposure, WalletExposureOf, Affordable, Admission, WellFormedLedger, Replay, FindRow, StatusAfter, PotAfter,
         Shortfall;
    EvidenceIsHealthy(decision.health, rules.risk, now);
    RaiseAdmittedExactly(t, rules.risk, house, i, t.crash[i].(amount := next.potAfter));
  }

  /** The body's refusal is that of the first part that does not pass. */
  lemma RefusedInParts(db: Database, rules: Rules, house: House, i: nat, decision: Decision, now: int, effect: Effect)
    requires ValidRules(rules) && ActiveSlot(db, rules, i) && i < |db.tables.crash|
    requires forall k :: 0 <= k < |rules.stages| ==> rules.stages[k].potContributionBps >= 0
    ensures var round := db.rounds[i];
            var guard, resolved := Guard(round, rules, decision, now), Resolve(rules, round, decision, now);
            !DecideOn(db, i, rules, house, decision, now, effect).Committed? ==>
              DecideOn(db, i, rules, house, decision, now, effect) == Rejected(
                if guard.Some? then guard.value
                else if resolved.Err? then resolved.error
                else
                  var refused := MoveRefused(db.tables, rules.risk, house, i, round, MoveFor(decision, resolved.value, now));
                  if refused.Some? then RiskRejected(refused.value)
                  else var effected := RunEffect(db.intents, round, effect); if effected.Err? then effected.error else Disabled)
  {
    hide Resolve, RunEffect, ApplyMove, MoveRefused, Changed, ChangeFor, Advance, FindRound, ValidRules, RowReady, NextFacts;
    var round := db.rounds[i];
    if Guard(round, rules, decision, now).None? && Resolve(rules, round, decision, now).Ok? {
      var next := Resolve(rules, round, decision, now).value;
      ResolveGivesFacts(rules, round, decision, now);
      NextFollows(rules, round, decision, next, now);
      MoveIsRowChange(db.tables, rules.risk, house, i, round, MoveFor(decision, next, now));
    }
  }

  lemma ContinueRefused(db: Database, rules: Rules, house: House, i: nat, decision: Decision, now: int, effect: Effect)
    requires ValidRules(rules) && ActiveSlot(db, rules, i) && i < |db.tables.crash| && decision.Continue? && Staged(rules, db.rounds[i])
    requires forall k :: 0 <= k < |rules.stages| ==> rules.stages[k].potContributionBps >= 0
    requires Malformed(decision).None? && !DecideOn(db, i, rules, house, decision, now, effect).Committed?
    ensures DecideOn(db, i, rules, house, decision, now, effect) == Rejected(RefusalOf(db, rules, house, i, decision, now, effect))
  {
    var round := db.rounds[i];
    ContinueResolves(rules, round, decision, now);
    DecidedInParts(db, rules, house, i, decision, now, effect);
    RefusedInParts(db, rules, house, i, decision, now, effect);
    hide Resolve, RunEffect, MoveRefused, FindRound, ValidRules, RowReady, DecideOn, Shortfall, GoesTo, StatusAfter, EvidenceInTime, Affordable;
    if Guard(round, rules, decision, now).None? {
      ResolveRefusal(rules, round, decision, now);
      if Resolve(rules, round, decision, now).Ok? {
        var next := Resolve(rules, round, decision, now).value;
        ResolvedFields(rules, round, decision, next, now);
        StageOf(rules, round);
        MoveRefusal(db.tables, rules, house, i, round, decision, next, now);
        ContinueMoves(db.tables, rules, house, i, round, decision, next, now);
      }
    }
  }

  /** On every reachable active round a well-formed continue that is not accepted is refused for the first condition it fails. */
  lemma {:induction false} ContinueRefusedFor(rules: Rules, steps: seq<Step>, house: House, i: nat, decision: Decision, now: int, effect: Effect)
    requires ValidRules(rules) && i < |Run(rules, steps).rounds| && Run(rules, steps).rounds[i].status == Active && decision.Continue?
    requires Malformed(decision).None? && KeyUnused(Run(rules, steps).rounds[i], decision.key)
    ensures var db := Run(rules, steps);
            var verdict := AttemptDecision(db, rules, house, db.rounds[i].id, decision, now, effect);
            && i < |db.tables.crash| && Staged(rules, db.rounds[i])
            && (!verdict.Committed? ==> verdict == Rejected(RefusalOf(db, rules, house, i, decision, now, effect)))
  {
    RunActiveSlot(rules, steps, i);
    StagesAreValid(rules);
    var db := Run(rules, steps);
    StageOf(rules, db.rounds[i]);
    hide Run, Bounded, AttemptDecision, DecideOn, RowReady, FindRound, KeyUnused, RunEffect, Malformed, ValidRules, RefusalOf;
    AttemptDecided(db, rules, house, i, decision, now, effect);
    if !DecideOn(db, i, rules, house, decision, now, effect).Committed? {
      ContinueRefused(db, rules, house, i, decision, now, effect);
    }
  }

  // ---------------------------------------------------------------- the deadline default

  /** What a default leaves: the pot kept on the row it forfeits, the reservation released, nothing paid. */
  ghost predicate DefaultLeaves(rules: Rules, db: Database, i: nat, candidate: Candidate, now: int, after: Database)
    requires i < |db.rounds| && i < |db.tables.crash|
  {
    var round := db.rounds[i];
    && OthersKept(db, i, after) && after.intents == db.intents
    && ColumnsLeft(rules, round, after.rounds[i], Defaulted, round.pot, now)
    && RowLeft(db.tables.crash[i], after.tables.crash[i], Defaulted, round.pot)
    && |after.rounds[i].transitions| == |round.transitions| + 1 && round.transitions <= after.rounds[i].transitions
    && var t := after.rounds[i].transitions[|round.transitions|];
    && t.key == DeadlineKey(round.stage, candidate.deadline) && t.kind == DeadlineDefaulted && t.decision == Some(DecidedForfeit)
    && t.request == DefaultRequest(candidate.deadline, round.stage, round.version)
    && (t.fromStage, t.fromStatus, t.toStage, t.toStatus) == (Some(round.stage), Some(Active), round.stage, Defaulted)
    && t.payout == Some(0) && t.outcome.None? && (t.potBefore, t.potAfter) == (round.pot, round.pot)
    && t.scheduledDeadline == round.deadline
  }

  lemma DefaultLeft(db: Database, rules: Rules, i: nat, candidate: Candidate, now: int)
    requires ActiveSlot(db, rules, i) && candidate.id == db.rounds[i].id
    ensures i < |db.tables.crash|
    ensures ApplyDefault(db, candidate, now).Committed?
            <==> && (candidate.stage, candidate.version) == (db.rounds[i].stage, db.rounds[i].version)
                 && db.rounds[i].deadline.value <= now && KeyUnused(db.rounds[i], DeadlineKey(candidate.stage, candidate.deadline))
    ensures ApplyDefault(db, candidate, now).Committed? ==> DefaultLeaves(rules, db, i, candidate, now, ApplyDefault(db, candidate, now).db)
  {
    var round := db.rounds[i];
    KeyUnusedExactly(round, DeadlineKey(candidate.stage, candidate.deadline));
    ReleaseIsRowChange(db.tables, i, round, round.stage);
    hide RowReady, Release, Changed, Bounded, FindTransition, KeyUnused, OthersKept;
    ReplacedLeavesOthers(db, i, Forfeit(round, candidate, now), ReleasedAt(round.stage), db.intents);
  }

  /** On every run a worker's candidate commits exactly when stage and version still match, the deadline has come and its key is unused. */
  lemma {:induction false} CandidateAcceptedExactly(rules: Rules, steps: seq<Step>, i: nat, candidate: Candidate, now: int)
    requires ValidRules(rules) && i < |Run(rules, steps).rounds| && Run(rules, steps).rounds[i].status == Active
    requires candidate.id == Run(rules, steps).rounds[i].id
    ensures var db := Run(rules, steps);
            var round, verdict := db.rounds[i], ApplyDefault(db, candidate, now);
            && i < |db.tables.crash| && round.deadline.Some?
            && (verdict.Committed? <==> && (candidate.stage, candidate.version) == (round.stage, round.version) && round.deadline.value <= now
                                        && KeyUnused(round, DeadlineKey(candidate.stage, candidate.deadline)))
            && (verdict.Committed? ==> DefaultLeaves(rules, db, i, candidate, now, verdict.db))
  {
    RunActiveSlot(rules, steps, i);
    hide Run, RowReady, ApplyDefault, FindRound, KeyUnused, DefaultLeaves, Bounded;
    DefaultLeft(Run(rules, steps), rules, i, candidate, now);
  }

  // ---------------------------------------------------------------- creating a round

  function FirstReservation(rules: Rules, id: string, wallet: Wallet, pot: nat): Reservation {
    Reservation(true, id, wallet, rules.risk.rulesHash, pot, 1, Reserved, 1)
  }

  /** A new round: stage and version one, the whole pot at risk, its clocks started. */
  ghost predicate RoundCreated(rules: Rules, round: Round, id: string, wallet: Wallet, pot: nat, now: int) {
    && (round.id, round.wallet, round.pot) == (id, wallet, pot)
    && (round.stage, round.version, round.status) == (1, 1, Active)
    && round.binding == rules.binding
    && (round.riskRulesHash, round.riskRulesVersion) == (rules.risk.rulesHash, rules.risk.rulesVersion)
    && (round.riskStartedAt, round.riskExpiresAt) == (now, now + rules.risk.maxDurationMs)
    && round.deadline.Some? && EarlierOf(round.deadline.value, now + rules.decisionTimeoutMs, now + rules.risk.maxDurationMs)
    && round.terminalAt.None? && round.terminalReason.None? && round.settlementStatus == NotRequired
    && round.receiptHash.None? && round.settledAt.None?
    && |round.transitions| == 1 && StartRecorded(rules, round) && round.transitions[0].potBefore == pot
  }

  lemma CreateDecided(db: Database, rules: Rules, house: House, id: string, wallet: Wallet, pot: nat, health: Option<Health>, now: int)
    requires ValidRules(rules) && FindRow(db.tables.crash, id).None? && FindRound(db.rounds, id).None?
    requires !HasKey(db.tables.ledger, CreatedKey(id))
    ensures var verdict := CreateRound(db, rules, house, id, wallet, pot, health, now);
            verdict.Committed? <==> && Healthy(health, rules.risk, now)
                                    && Admission(db.tables, rules.risk, house, wallet, 0, pot).None?
  {
    hide Healthy, Admission, FindRound, FindRow, HasKey, ValidStages;
    if Admission(db.tables, rules.risk, house, wallet, 0, pot).None? {
      AdmittedWithinPotLimit(db.tables, rules.risk, house, wallet, 0, pot);
    }
  }

  lemma {:induction false} NoKeyOfNewRound(db: Database, rules: Rules, id: string)
    requires Sound(db, rules) && FindRound(db.rounds, id).None?
    ensures !HasKey(db.tables.ledger, CreatedKey(id))
  {
    hide AllSlots, Aligned, WithinCaps, Replay;
    if HasKey(db.tables.ledger, CreatedKey(id)) {
      KeysAreReplayed(db.tables.ledger, CreatedKey(id));
    }
  }

  /** One more round, one more reservation and one more entry, and nothing else. */
  ghost predicate CreateLeaves(rules: Rules, db: Database, id: string, wallet: Wallet, pot: nat, now: int, after: Database) {
    && |after.rounds| == |db.rounds| + 1 && db.rounds <= after.rounds
    && RoundCreated(rules, after.rounds[|db.rounds|], id, wallet, pot, now)
    && after.tables == Tables(db.tables.crash + [FirstReservation(rules, id, wallet, pot)], db.tables.others,
                              db.tables.ledger + [LedgerEntry(CreatedKey(id), pot, 1)])
    && after.intents == db.intents
  }

  lemma CreateLeft(db: Database, rules: Rules, house: House, id: string, wallet: Wallet, pot: nat, health: Option<Health>, now: int)
    requires FindRow(db.tables.crash, id).None?
    requires CreateRound(db, rules, house, id, wallet, pot, health, now).Committed?
    ensures CreateLeaves(rules, db, id, wallet, pot, now, CreateRound(db, rules, house, id, wallet, pot, health, now).db)
  {
    CreateShape(db, rules, house, id, wallet, pot, health, now);
    hide CreateRound, Admission, FindRow, FindRound;
  }

  predicate IdNew(rounds: seq<Round>, id: string) {
    forall k :: 0 <= k < |rounds| ==> rounds[k].id != id
  }

  /** A new round is accepted exactly on evidence in time with affordable tables. */
  lemma {:induction false} NewRoundAccepted(db: Database, rules: Rules, house: House, id: string, wallet: Wallet, pot: nat, health: Option<Health>, now: int)
    requires ValidRules(rules) && Sound(db, rules) && FindRound(db.rounds, id).None?
    ensures FindRow(db.tables.crash, id).None?
    ensures CreateRound(db, rules, house, id, wallet, pot, health, now).Committed?
            <==> && EvidenceInTime(health, rules.risk, now)
                 && Affordable(db.tables.(crash := db.tables.crash + [FirstReservation(rules, id, wallet, pot)]), rules.risk, house, wallet, pot)
  {
    NoRowForNewRound(db, id);
    NoKeyOfNewRound(db, rules, id);
    hide *;
    CreateDecided(db, rules, house, id, wallet, pot, health, now);
    EvidenceIsHealthy(health, rules.risk, now);
    AppendsReservation(db.tables, rules, house, id, wallet, pot);
  }

  lemma AppendsReservation(t: Tables, rules: Rules, house: House, id: string, wallet: Wallet, pot: nat)
    ensures Admission(t, rules.risk, house, wallet, 0, pot).None?
            <==> Affordable(t.(crash := t.crash + [FirstReservation(rules, id, wallet, pot)]), rules.risk, house, wallet, pot)
  {
    hide Admission, Affordable;
    AppendAdmittedExactly(t, rules.risk, house, FirstReservation(rules, id, wallet, pot));
  }

  /**
   On every run a round is created exactly when its id is new, the evidence is in
   time and the tables with its reservation appended are affordable.
   */
  lemma {:induction false} CreateAcceptedExactly(rules: Rules, steps: seq<Step>, house: House, id: string, wallet: Wallet, pot: nat,
                                                 health: Option<Health>, now: int)
    requires ValidRules(rules)
    ensures var db := Run(rules, steps);
            var row, verdict := FirstReservation(rules, id, wallet, pot), CreateRound(db, rules, house, id, wallet, pot, health, now);
            && (verdict.Committed?
                <==> && IdNew(db.rounds, id) && EvidenceInTime(health, rules.risk, now)
                     && Affordable(db.tables.(crash := db.tables.crash + [row]), rules.risk, house, wallet, pot))
            && (verdict.Committed? ==> CreateLeaves(rules, db, id, wallet, pot, now, verdict.db))
  {
    EveryRunIsSound(rules, steps);
    var db := Run(rules, steps);
    hide Run, Sound, CreateRound, Affordable, EvidenceInTime, ValidRules, FindRow, CreateLeaves, FirstReservation;
    if FindRound(db.rounds, id).None? {
      NewRoundAccepted(db, rules, house, id, wallet, pot, health, now);
      if CreateRound(db, rules, house, id, wallet, pot, health, now).Committed? {
        CreateLeft(db, rules, house, id, wallet, pot, health, now);
      }
    } else {
      CreatedOnlyWhenNew(db, rules, house, id, wallet, pot, health, now);
    }
  }

  lemma CreatedOnlyWhenNew(db: Database, rules: Rules, house: House, id: string, wallet: Wallet, pot: nat, health: Option<Health>, now: int)
    requires FindRound(db.rounds, id).Some?
    ensures !CreateRound(db, rules, house, id, wallet, pot, health, now).Committed?
  {
  }

  /** Creating a round again is recognised by its wallet and first pot at every later moment, and anything else under its id is refused. */
  lemma {:induction false} CreateReplaysForever(rules: Rules, steps: seq<Step>, house: House, i: nat, wallet: Wallet, pot: nat, health: Option<Health>, now: int)
    requires ValidRules(rules) && i < |Run(rules, steps).rounds| && pot <= MAX_U64
    ensures var db := Run(rules, steps);
            var round := db.rounds[i];
            && round.transitions != []
            && CreateRound(db, rules, house, round.id, wallet, pot, health, now)
               == if (wallet, pot) == (round.wallet, round.transitions[0].potBefore) then Repeated else Rejected(KeyReused)
  {
    EveryRunIsSound(rules, steps);
    var db := Run(rules, steps);
    hide Run, LedgerReplays, WithinCaps, LedgerAccepted, OutcomesInOrder, PotAccounted, PhaseMatches, ValidRules;
    SlotOf(db, rules, i);
    FoundIsUnique(db.rounds, db.tables.crash, i);
    hide Sound, Reserve, NewRound;
  }
}
