/**
 The durable Crash round and its transitions (apps/api/src/crash/crash-stage-state.ts),
 with the custody intent that a service-driven continue records in the same
 transaction (apps/api/src/crash/crash-custody-movement.service.ts).

 A verdict is one transaction: either a whole new database, or nothing.  Hashes
 of canonical JSON are the hashed values themselves, so they collide only when
 the values are equal.
 */
module Rounds {
  import opened Support
  import opened Calculators
  import opened Treasury

  const MAX_DECISION_TIMEOUT_MS: int := 24 * 60 * 60 * 1_000

  datatype RoundStatus = Active | CashedOut | Busted | Completed | Defaulted

  datatype TransitionKind = RoundStarted | StageContinued | RoundCashedOut | RoundBusted | RoundCompleted | DeadlineDefaulted

  datatype DecisionKind = DecidedContinue | DecidedCashOut | DecidedForfeit

  datatype TerminalReason = PlayerCashOut | ProviderBustOutcome | FinalStageCompleted | DeadlineDefaultForfeit

  datatype SettlementStatus = NotRequired | Pending | RecoveryNeeded | Settled

  /** The six immutable references every transition copies from its round. */
  datatype Binding = Binding(
    architectureVersion: string, stateMachineVersion: string, stateMachineRulesHash: string,
    calculatorVersion: string, rulesVersion: string, rulesHash: string)

  datatype Rules = Rules(binding: Binding, stages: seq<StageRule>, decisionTimeoutMs: int, risk: RiskRules)

  ghost predicate ValidRules(rules: Rules) {
    && 0 < rules.decisionTimeoutMs <= MAX_DECISION_TIMEOUT_MS
    && ValidStages(rules.stages)
    && ValidRiskRules(rules.risk)
    && rules.risk.maxStage <= |rules.stages|
    && rules.risk.maxPot <= rules.stages[rules.risk.maxStage - 1].maxPot
  }

  datatype Asset = FixtureAsset(assetRound: string, assetStage: int) | NamedAsset(assetName: string)

  /** The idempotency key a player decision derives for its custody movement. */
  datatype CustodyKey = CustodyKey(stage: int, version: int, publicKey: string, roundId: string)

  datatype IntentId = IntentOf(intentRound: string, intentKey: CustodyKey) | NamedIntent(intentName: string)

  datatype TransitionKey = StartKey | DeadlineKey(stage: int, deadline: int) | PlayerKey(publicKey: string) | OtherKey(text: string)

  datatype Provider = Provider(stage: int, rollPpm: int, stageValue: nat)

  datatype Custody = Custody(asset: Asset, reference: IntentId)

  datatype Decision =
    | Continue(expectedStage: int, expectedVersion: int, key: TransitionKey, payment: nat, custody: Custody,
               provider: Provider, settlement: Option<nat>, health: Option<Health>)
    | CashOut(expectedStage: int, expectedVersion: int, key: TransitionKey, payout: nat)

  datatype Request =
    | StartRequest(pot: nat, wallet: Wallet, roundId: string, stateMachineRulesHash: string)
    | DecisionRequest(decision: Decision, binding: Binding)
    | DefaultRequest(deadline: int, stage: int, version: int)

  datatype Outcome = Outcome(busted: bool, remainder: nat, custody: Custody, provider: Provider)

  datatype Transition = Transition(
    sequence: nat, kind: TransitionKind, decision: Option<DecisionKind>,
    fromStage: Option<nat>, fromStatus: Option<RoundStatus>, toStage: nat, toStatus: RoundStatus,
    key: TransitionKey, request: Request, binding: Binding, outcome: Option<Outcome>, payout: Option<nat>,
    potBefore: nat, potAfter: nat, scheduledDeadline: Option<int>, terminalReason: Option<TerminalReason>)

  datatype Round = Round(
    id: string, wallet: Wallet, binding: Binding, riskRulesHash: string, riskRulesVersion: string,
    riskStartedAt: int, riskExpiresAt: int, pot: nat, stage: nat, version: nat, status: RoundStatus,
    deadline: Option<int>, terminalAt: Option<int>, terminalReason: Option<TerminalReason>,
    settlementStatus: SettlementStatus, receiptHash: Option<string>, settledAt: Option<int>,
    transitions: seq<Transition>)

  datatype CustodyPolicy = CustodyPolicy(sessionCustody: Wallet, binding: Binding, policyHash: string, policyVersion: string)

  datatype Movement = Movement(
    roundId: string, expectedStage: int, expectedVersion: int, key: CustodyKey, player: Wallet,
    requestedRecipient: Option<Wallet>, asset: Asset, source: Wallet, binding: Binding)

  datatype RecoveryReason =
    | CanonicalStageMismatch | WalletOwnershipMismatch | RuleBindingMismatch | CustodyPolicyUnresolved
    | PolicyBindingMismatch | RecipientMismatch | SourceCustodyInvalid

  /** A custody intent: prepared, or in recovery for a reason.  `configured` stands for the policy fingerprint of its request. */
  datatype Intent = Intent(
    id: IntentId, movement: Movement, configured: Option<CustodyPolicy>, policy: Option<CustodyPolicy>, recovery: Option<RecoveryReason>)

  /** The stored intents and the one a call answers with. */
  datatype Preparation = Preparation(intents: seq<Intent>, intent: Intent)

  datatype Database = Database(rounds: seq<Round>, tables: Tables, intents: seq<Intent>)

  datatype StateError =
    | DeadlineExpired | Disabled | KeyReused | InvalidEvidence | InvalidTransition | NotFound
    | RiskRejected(risk: RiskError) | CalculatorRejected(calculator: CalculatorError) | ConcurrentTransition | TransactionFailed

  /** How one attempt ends: a committed database, a recognised replay, no work to do, or an error. */
  datatype Verdict = Committed(db: Database) | Repeated | Skipped | Rejected(error: StateError)

  function Min(a: int, b: int): int {
    if a < b then a else b
  }

  function BoundedDeadline(now: int, timeoutMs: int, riskExpiresAt: int): int {
    Min(now + timeoutMs, riskExpiresAt)
  }

  function FindRound(rounds: seq<Round>, id: string): (found: Option<nat>)
    ensures found.Some? ==> found.value < |rounds| && rounds[found.value].id == id
    ensures found.None? ==> forall i :: 0 <= i < |rounds| ==> rounds[i].id != id
  {
    if rounds == [] then None
    else if rounds[|rounds| - 1].id == id then Some(|rounds| - 1)
    else FindRound(rounds[..|rounds| - 1], id)
  }

  function FindTransition(transitions: seq<Transition>, key: TransitionKey): (found: Option<nat>)
    ensures found.Some? ==> found.value < |transitions| && transitions[found.value].key == key
    ensures found.None? ==> forall i :: 0 <= i < |transitions| ==> transitions[i].key != key
  {
    if transitions == [] then None
    else if transitions[|transitions| - 1].key == key then Some(|transitions| - 1)
    else FindTransition(transitions[..|transitions| - 1], key)
  }

  function BoundOf(round: Round): Bound {
    Bound(round.id, round.wallet, round.riskExpiresAt, round.riskRulesHash, round.riskRulesVersion)
  }

  // ---------------------------------------------------------------- creating a round

  function NewRound(rules: Rules, id: string, wallet: Wallet, pot: nat, now: int): Round {
    var expires := now + rules.risk.maxDurationMs;
    var deadline := BoundedDeadline(now, rules.decisionTimeoutMs, expires);
    var started := Transition(
      1, RoundStarted, None, None, None, 1, Active, StartKey,
      StartRequest(pot, wallet, id, rules.binding.stateMachineRulesHash), rules.binding,
      None, None, pot, pot, Some(deadline), None);
    Round(id, wallet, rules.binding, rules.risk.rulesHash, rules.risk.rulesVersion, now, expires, pot, 1, 1, Active,
          Some(deadline), None, None, NotRequired, None, None, [started])
  }

  function CreateRound(db: Database, rules: Rules, house: House, id: string, wallet: Wallet, pot: nat, health: Option<Health>, now: int)
    : Verdict
  {
    if pot > MAX_U64 then Rejected(InvalidEvidence)
    else
      match FindRound(db.rounds, id)
      case Some(i) =>
        var request := StartRequest(pot, wallet, id, rules.binding.stateMachineRulesHash);
        var transitions := db.rounds[i].transitions;
        if transitions != [] && transitions[0].request == request then Repeated else Rejected(KeyReused)
      case None =>
        var round := NewRound(rules, id, wallet, pot, now);
        match Reserve(db.tables, rules.risk, house, health, now, BoundOf(round), pot)
        case Err(e) => Rejected(RiskRejected(e))
        case Ok(tables) => Committed(db.(rounds := db.rounds + [round], tables := tables))
  }

  // ---------------------------------------------------------------- deciding

  /** Evidence that is refused before any row is read. */
  function Malformed(decision: Decision): Option<StateError> {
    if decision.expectedStage <= 0 || decision.expectedVersion <= 0 then Some(InvalidTransition)
    else
      match decision
      case CashOut(_, _, _, payout) => if payout > MAX_U64 then Some(InvalidEvidence) else None
      case Continue(stage, _, _, payment, _, provider, settlement, _) =>
        if provider.stage != stage || provider.rollPpm < 0 || provider.rollPpm >= PPM_SCALE || provider.stageValue > MAX_U64
           || payment > MAX_U64 || (settlement.Some? && settlement.value > MAX_U64)
        then Some(InvalidEvidence) else None
  }

  function Guard(round: Round, rules: Rules, decision: Decision, now: int): Option<StateError> {
    if round.binding != rules.binding || round.riskRulesHash != rules.risk.rulesHash || round.riskRulesVersion != rules.risk.rulesVersion
    then Some(Disabled)
    else if round.status != Active then Some(InvalidTransition)
    else if round.stage != decision.expectedStage || round.version != decision.expectedVersion then Some(InvalidTransition)
    else if round.deadline.None? || round.deadline.value <= now then Some(DeadlineExpired)
    else None
  }

  datatype Next = Next(
    kind: TransitionKind, status: RoundStatus, stage: nat, potAfter: nat, deadline: Option<int>,
    terminalAt: Option<int>, reason: Option<TerminalReason>, outcome: Option<Outcome>, payout: Option<nat>)

  /** The transition a continue makes once pot and bust have been calculated. */
  function ContinueWith(rules: Rules, round: Round, decision: Decision, pot: Pot, busted: bool, now: int): Result<Next, StateError>
    requires decision.Continue?
  {
    var outcome := Some(Outcome(busted, pot.remainder, decision.custody, decision.provider));
    var settlement := decision.settlement;
    if busted then
      if settlement != Some(0) then Err(InvalidEvidence)
      else Ok(Next(RoundBusted, Busted, round.stage, pot.next, None, Some(now), Some(ProviderBustOutcome), outcome, settlement))
    else if round.stage == |rules.stages| then
      if settlement != Some(pot.next) then Err(InvalidEvidence)
      else Ok(Next(RoundCompleted, Completed, round.stage, pot.next, None, Some(now), Some(FinalStageCompleted), outcome, settlement))
    else if settlement.Some? then Err(InvalidEvidence)
    else
      var deadline := BoundedDeadline(now, rules.decisionTimeoutMs, round.riskExpiresAt);
      Ok(Next(StageContinued, Active, round.stage + 1, pot.next, Some(deadline), None, None, outcome, None))
  }

  function Resolve(rules: Rules, round: Round, decision: Decision, now: int): Result<Next, StateError>
    requires forall i :: 0 <= i < |rules.stages| ==> rules.stages[i].potContributionBps >= 0
  {
    match decision
    case CashOut(_, _, _, payout) =>
      if payout != round.pot then Err(InvalidEvidence)
      else Ok(Next(RoundCashedOut, CashedOut, round.stage, round.pot, None, Some(now), Some(PlayerCashOut), None, Some(payout)))
    case Continue(_, _, _, _, _, provider, _, _) =>
      match CalculatePot(rules.stages, round.stage, round.pot, provider.stageValue)
      case Err(e) => Err(CalculatorRejected(e))
      case Ok(pot) =>
        match CalculateBust(rules.stages, round.stage, provider.rollPpm)
        case Err(e) => Err(CalculatorRejected(e))
        case Ok(busted) => ContinueWith(rules, round, decision, pot, busted, now)
  }

  function MoveFor(decision: Decision, next: Next, now: int): Move {
    Move(decision.Continue?, if decision.Continue? then decision.health else None, next.potAfter, next.stage, next.status != Active, now)
  }

  function TransitionFor(rules: Rules, round: Round, decision: Decision, next: Next): Transition {
    Transition(
      round.version + 1, next.kind, Some(if decision.Continue? then DecidedContinue else DecidedCashOut),
      Some(round.stage), Some(round.status), next.stage, next.status, decision.key,
      DecisionRequest(decision, rules.binding), rules.binding, next.outcome, next.payout,
      round.pot, next.potAfter, next.deadline, next.reason)
  }

  function Advance(rules: Rules, round: Round, decision: Decision, next: Next): Round {
    round.(
      pot := next.potAfter, stage := next.stage, status := next.status, version := round.version + 1,
      deadline := next.deadline, terminalAt := next.terminalAt, terminalReason := next.reason,
      settlementStatus := if next.status == Active then round.settlementStatus else Pending,
      transitions := round.transitions + [TransitionFor(rules, round, decision, next)])
  }

  function FindIntent(intents: seq<Intent>, roundId: string, key: CustodyKey): (found: Option<nat>)
    ensures found.Some? ==> found.value < |intents|
                            && intents[found.value].movement.roundId == roundId && intents[found.value].movement.key == key
    ensures found.None? ==> forall i :: 0 <= i < |intents| ==> !(intents[i].movement.roundId == roundId && intents[i].movement.key == key)
  {
    if intents == [] then None
    else
      var last := intents[|intents| - 1];
      if last.movement.roundId == roundId && last.movement.key == key then Some(|intents| - 1)
      else FindIntent(intents[..|intents| - 1], roundId, key)
  }

  /** A stage asset already has a prepared movement. */
  predicate AlreadyPrepared(intents: seq<Intent>, m: Movement) {
    exists i :: 0 <= i < |intents| && intents[i].recovery.None? && intents[i].movement.roundId == m.roundId
                && intents[i].movement.expectedStage == m.expectedStage && intents[i].movement.asset == m.asset
  }

  /** The round, policy, recipient and source checks that a prepared movement passes. */
  predicate MovementApproved(round: Round, policy: Option<CustodyPolicy>, m: Movement) {
    && round.status == Active && round.stage == m.expectedStage && round.version == m.expectedVersion
    && round.wallet == m.player && round.binding == m.binding
    && policy.Some?
    && round.binding == policy.value.binding
    && m.requestedRecipient == Some(policy.value.sessionCustody)
    && m.source != policy.value.sessionCustody
  }

  /** The first check a movement fails. */
  function RecoveryFor(round: Round, policy: Option<CustodyPolicy>, m: Movement): Option<RecoveryReason> {
    if round.status != Active || round.stage != m.expectedStage || round.version != m.expectedVersion then Some(CanonicalStageMismatch)
    else if round.wallet != m.player then Some(WalletOwnershipMismatch)
    else if round.binding != m.binding then Some(RuleBindingMismatch)
    else if policy.None? then Some(CustodyPolicyUnresolved)
    else if round.binding != policy.value.binding then Some(PolicyBindingMismatch)
    else if m.requestedRecipient != Some(policy.value.sessionCustody) then Some(RecipientMismatch)
    else if m.source == policy.value.sessionCustody then Some(SourceCustodyInvalid)
    else None
  }

  /** The row a movement leaves; one stopped before its policy was consulted keeps none. */
  function NewIntent(round: Round, policy: Option<CustodyPolicy>, m: Movement): Intent {
    var reason := RecoveryFor(round, policy, m);
    var consulted := reason.None? || reason.value.PolicyBindingMismatch? || reason.value.RecipientMismatch? || reason.value.SourceCustodyInvalid?;
    Intent(IntentOf(m.roundId, m.key), m, policy, if consulted then policy else None, reason)
  }

  function PrepareMovement(intents: seq<Intent>, round: Round, policy: Option<CustodyPolicy>, m: Movement): Result<Preparation, StateError> {
    if m.expectedStage < 1 || m.expectedStage > MAX_STAGES || m.expectedVersion < 1 then Err(InvalidEvidence)
    else
      match FindIntent(intents, m.roundId, m.key)
      case Some(j) => if intents[j].movement == m && intents[j].configured == policy then Ok(Preparation(intents, intents[j])) else Err(KeyReused)
      case None =>
        var intent := NewIntent(round, policy, m);
        if intent.recovery.None? && AlreadyPrepared(intents, m) then Err(ConcurrentTransition)
        else Ok(Preparation(intents + [intent], intent))
  }

  /** A new movement is prepared exactly when it is approved and its stage asset is not, and otherwise left for recovery. */
  lemma PreparedExactly(intents: seq<Intent>, round: Round, policy: Option<CustodyPolicy>, m: Movement)
    requires 1 <= m.expectedStage <= MAX_STAGES && m.expectedVersion >= 1 && FindIntent(intents, m.roundId, m.key).None?
    ensures var r := PrepareMovement(intents, round, policy, m);
            && (r.Ok? && r.value.intent.recovery.None? <==> MovementApproved(round, policy, m) && !AlreadyPrepared(intents, m))
            && (r.Err? <==> MovementApproved(round, policy, m) && AlreadyPrepared(intents, m))
            && (r.Ok? ==> r.value.intents == intents + [r.value.intent] && r.value.intent.id == IntentOf(m.roundId, m.key))
  {
    hide FindIntent, AlreadyPrepared;
  }

  /** Asking again under the same key is answered with the stored row for the same movement and policy, and refused for any other. */
  lemma PreparationIsIdempotent(intents: seq<Intent>, round: Round, policy: Option<CustodyPolicy>, m: Movement,
                                round': Round, policy': Option<CustodyPolicy>, m': Movement)
    requires FindIntent(intents, m.roundId, m.key).None? && PrepareMovement(intents, round, policy, m).Ok?
    requires m'.roundId == m.roundId && m'.key == m.key && 1 <= m'.expectedStage <= MAX_STAGES && m'.expectedVersion >= 1
    ensures var stored := PrepareMovement(intents, round, policy, m).value;
            PrepareMovement(stored.intents, round', policy', m') == if (m', policy') == (m, policy) then Ok(stored) else Err(KeyReused)
  {
    hide RecoveryFor, AlreadyPrepared;
    var stored := PrepareMovement(intents, round, policy, m).value;
    assert stored.intents == intents + [stored.intent];
  }

  /** The checks in the order in which a failed one is reported. */
  function MovementChecks(round: Round, policy: Option<CustodyPolicy>, m: Movement): seq<(bool, RecoveryReason)> {
    [ (round.status == Active && round.stage == m.expectedStage && round.version == m.expectedVersion, CanonicalStageMismatch),
      (round.wallet == m.player, WalletOwnershipMismatch),
      (round.binding == m.binding, RuleBindingMismatch),
      (policy.Some?, CustodyPolicyUnresolved),
      (policy.Some? && round.binding == policy.value.binding, PolicyBindingMismatch),
      (policy.Some? && m.requestedRecipient == Some(policy.value.sessionCustody), RecipientMismatch),
      (policy.Some? && m.source != policy.value.sessionCustody, SourceCustodyInvalid) ]
  }

  /** A movement left for recovery carries the reason of the first check it fails. */
  lemma ReasonIsFirstFailure(round: Round, policy: Option<CustodyPolicy>, m: Movement, k: nat)
    requires k < |MovementChecks(round, policy, m)| && !MovementChecks(round, policy, m)[k].0
    requires forall j :: 0 <= j < k ==> MovementChecks(round, policy, m)[j].0
    ensures NewIntent(round, policy, m).recovery == Some(MovementChecks(round, policy, m)[k].1)
    ensures NewIntent(round, policy, m).policy == if k < 4 then None else policy
  {
    var checks := MovementChecks(round, policy, m);
    assert k > 0 ==> checks[0].0;
    assert k > 1 ==> checks[1].0;
    assert k > 2 ==> checks[2].0;
    assert k > 3 ==> checks[3].0;
    assert k > 4 ==> checks[4].0;
    assert k > 5 ==> checks[5].0;
  }

  /** The effect that runs after risk admission: none for a bare decision or a cash-out. */
  datatype Effect = NoEffect | Prepare(movement: Movement, policy: Option<CustodyPolicy>)

  function RunEffect(intents: seq<Intent>, round: Round, effect: Effect): Result<seq<Intent>, StateError> {
    match effect
    case NoEffect => Ok(intents)
    case Prepare(movement, policy) =>
      match PrepareMovement(intents, round, policy, movement)
      case Err(e) => Err(e)
      case Ok(p) => if p.intent.recovery.Some? then Err(InvalidEvidence) else Ok(p.intents)
  }

  /** The transaction body once the round row is read. */
  function DecideOn(db: Database, i: nat, rules: Rules, house: House, decision: Decision, now: int, effect: Effect): Verdict
    requires i < |db.rounds|
    requires forall k :: 0 <= k < |rules.stages| ==> rules.stages[k].potContributionBps >= 0
  {
    var round := db.rounds[i];
    match Guard(round, rules, decision, now)
    case Some(e) => Rejected(e)
    case None =>
      match Resolve(rules, round, decision, now)
      case Err(e) => Rejected(e)
      case Ok(next) =>
        match ApplyMove(db.tables, rules.risk, house, BoundOf(round), MoveFor(decision, next, now))
        case Err(e) => Rejected(RiskRejected(e))
        case Ok(tables) =>
          match RunEffect(db.intents, round, effect)
          case Err(e) => Rejected(e)
          case Ok(intents) => Committed(Database(db.rounds[i := Advance(rules, round, decision, next)], tables, intents))
  }

  function Decide(db: Database, rules: Rules, house: House, id: string, decision: Decision, now: int, effect: Effect): Verdict
    requires forall k :: 0 <= k < |rules.stages| ==> rules.stages[k].potContributionBps >= 0
  {
    match Malformed(decision)
    case Some(e) => Rejected(e)
    case None =>
      match FindRound(db.rounds, id)
      case None => Rejected(NotFound)
      case Some(i) =>
        var transitions := db.rounds[i].transitions;
        match FindTransition(transitions, decision.key)
        case Some(j) => if transitions[j].request == DecisionRequest(decision, rules.binding) then Repeated else Rejected(KeyReused)
        case None => DecideOn(db, i, rules, house, decision, now, effect)
  }

  // ---------------------------------------------------------------- the deadline default

  /** What the expiry worker read before its transaction. */
  datatype Candidate = Candidate(id: string, stage: nat, version: nat, deadline: int)

  function DefaultTransition(round: Round, candidate: Candidate): Transition {
    Transition(
      round.version + 1, DeadlineDefaulted, Some(DecidedForfeit), Some(round.stage), Some(round.status), round.stage, Defaulted,
      DeadlineKey(candidate.stage, candidate.deadline), DefaultRequest(candidate.deadline, candidate.stage, candidate.version),
      round.binding, None, Some(0), round.pot, round.pot, round.deadline, Some(DeadlineDefaultForfeit))
  }

  function Forfeit(round: Round, candidate: Candidate, now: int): Round {
    round.(
      status := Defaulted, version := round.version + 1, deadline := None, terminalAt := Some(now),
      terminalReason := Some(DeadlineDefaultForfeit), settlementStatus := Pending,
      transitions := round.transitions + [DefaultTransition(round, candidate)])
  }

  predicate Expired(round: Round, candidate: Candidate, now: int) {
    && round.status == Active && round.stage == candidate.stage && round.version == candidate.version
    && round.deadline.Some? && round.deadline.value <= now
  }

  function ApplyDefault(db: Database, candidate: Candidate, now: int): Verdict {
    match FindRound(db.rounds, candidate.id)
    case None => Skipped
    case Some(i) =>
      var round := db.rounds[i];
      if !Expired(round, candidate, now) then Skipped
      else
        match Release(db.tables, BoundOf(round), round.stage)
        case Err(e) => Rejected(RiskRejected(e))
        case Ok(tables) =>
          match FindTransition(round.transitions, DeadlineKey(candidate.stage, candidate.deadline))
          case Some(j) =>
            if round.transitions[j].request == DefaultRequest(candidate.deadline, candidate.stage, candidate.version)
            then Skipped else Rejected(KeyReused)
          case None => Committed(db.(rounds := db.rounds[i := Forfeit(round, candidate, now)], tables := tables))
  }
}
