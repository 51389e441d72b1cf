/**
 What every committed database satisfies: each round's own ledger, its
 reservation row, the exposure caps and the treasury ledger.
 */
module RoundInvariants {
  import opened Support
  import opened Calculators
  import opened Treasury
  import opened Rounds

  /** The runtime ledger check that every read of a round performs. */
  ghost predicate LedgerAccepted(round: Round) {
    && |round.transitions| == round.version
    && (forall k :: 0 <= k < |round.transitions| ==>
          round.transitions[k].sequence == k + 1 && round.transitions[k].binding == round.binding)
    && round.transitions != []
    && var first, last := round.transitions[0], round.transitions[|round.transitions| - 1];
    && first.kind == RoundStarted && first.fromStatus == None && first.fromStage == None
    && round.riskExpiresAt > round.riskStartedAt
    && last.toStatus == round.status && last.toStage == round.stage
    && SettlementFieldsAccepted(round)
    && (if round.status == Active
        then round.deadline.Some? && round.terminalAt.None? && round.terminalReason.None?
        else round.deadline.None? && round.terminalAt.Some? && round.terminalReason.Some?)
  }

  /** The settlement columns allowed for a status; the database enforces the same contract. */
  predicate SettlementFieldsAccepted(round: Round) {
    if round.status == Active then round.settlementStatus == NotRequired && round.receiptHash.None? && round.settledAt.None?
    else if round.settlementStatus == Settled then round.receiptHash.Some? && round.settledAt.Some?
    else round.settlementStatus != NotRequired && round.receiptHash.None? && round.settledAt.None?
  }

  /** The outcomes recorded by a ledger, in order. */
  function OutcomesOf(transitions: seq<Transition>): seq<Outcome> {
    if transitions == [] then []
    else
      var last := transitions[|transitions| - 1];
      OutcomesOf(transitions[..|transitions| - 1]) + (if last.outcome.Some? then [last.outcome.value] else [])
  }

  /** Total of stage value times contribution over the recorded outcomes, in basis points. */
  function Contributed(outcomes: seq<Outcome>, stages: seq<StageRule>): int {
    if outcomes == [] then 0
    else
      var last := outcomes[|outcomes| - 1];
      var bps := if 1 <= last.provider.stage <= |stages| then stages[last.provider.stage - 1].potContributionBps else 0;
      Contributed(outcomes[..|outcomes| - 1], stages) + last.provider.stageValue * bps
  }

  function Remainders(outcomes: seq<Outcome>): int {
    if outcomes == [] then 0 else Remainders(outcomes[..|outcomes| - 1]) + outcomes[|outcomes| - 1].remainder
  }

  /** What a terminal round owes its player. */
  function Proceeds(round: Round): nat {
    if round.status == CashedOut || round.status == Completed then round.pot else 0
  }

  predicate Bounded(rules: Rules, round: Round) {
    && round.binding == rules.binding
    && round.riskRulesHash == rules.risk.rulesHash && round.riskRulesVersion == rules.risk.rulesVersion
    && 1 <= round.stage <= rules.risk.maxStage
    && round.pot <= rules.risk.maxPot
  }

  predicate RowMatches(round: Round, row: Reservation) {
    && row.crash && row.roundId == round.id && row.wallet == round.wallet && row.riskRulesHash == round.riskRulesHash
    && row.tier <= round.stage
  }

  /** Version, deadline and reservation follow the status. */
  predicate PhaseMatches(round: Round, row: Reservation) {
    if round.status == Active then
      && round.version == round.stage
      && round.deadline.Some? && round.deadline.value <= round.riskExpiresAt
      && row.status == Reserved && row.amount == round.pot
    else round.version == round.stage + 1 && row.status == Released
  }

  ghost predicate DistinctTransitionKeys(transitions: seq<Transition>) {
    forall a, b :: 0 <= a < b < |transitions| ==> transitions[a].key != transitions[b].key
  }

  /** Outcomes are those of stages 1, 2, ... in order, one per continue. */
  ghost predicate OutcomesInOrder(round: Round) {
    var outcomes := OutcomesOf(round.transitions);
    && |outcomes| == (if round.status == Busted || round.status == Completed then round.stage else round.stage - 1)
    && forall k :: 0 <= k < |outcomes| ==>
         outcomes[k].provider.stage == k + 1 && 0 <= outcomes[k].remainder < BPS_SCALE
  }

  /** The roll falls below the bust threshold of its stage. */
  predicate RollBusts(stages: seq<StageRule>, stage: int, rollPpm: int)
    requires 1 <= stage <= |stages|
  {
    rollPpm < stages[stage - 1].bustThresholdPpm
  }

  /**
   Each recorded outcome is busted exactly when its roll falls below its own
   stage's threshold; the last one of a busted round is, and no other.
   */
  ghost predicate BustsDecided(rules: Rules, round: Round) {
    var outcomes := OutcomesOf(round.transitions);
    && |outcomes| <= |rules.stages|
    && (forall k :: 0 <= k < |outcomes| ==>
          && (outcomes[k].busted <==> RollBusts(rules.stages, k + 1, outcomes[k].provider.rollPpm))
          && (outcomes[k].busted <==> round.status == Busted && k == |outcomes| - 1))
    && (round.status == Completed ==> |outcomes| == |rules.stages|)
  }

  /** Nothing but the recorded remainders is lost between the first pot and the current one. */
  ghost predicate PotAccounted(rules: Rules, round: Round) {
    var outcomes := OutcomesOf(round.transitions);
    && round.transitions != []
    && round.transitions[0].potBefore <= round.pot
    && BPS_SCALE * (round.pot - round.transitions[0].potBefore) + Remainders(outcomes) == Contributed(outcomes, rules.stages)
  }

  ghost predicate PayoutRecorded(round: Round) {
    round.status != Active && round.transitions != []
    ==> round.transitions[|round.transitions| - 1].payout == Some(Proceeds(round))
  }

  /** Only the default that ended a round forfeited it. */
  ghost predicate ForfeitedOnlyByDefault(round: Round) {
    round.status != Defaulted ==> forall k :: 0 <= k < |round.transitions| ==> !round.transitions[k].request.DefaultRequest?
  }

  /** The first transition holds the request that created the round. */
  ghost predicate StartRecorded(rules: Rules, round: Round) {
    && round.transitions != []
    && var start := round.transitions[0];
    && start.key == StartKey && start.decision.None? && start.outcome.None? && start.potAfter == start.potBefore
    && (start.toStage, start.toStatus) == (1, Active)
    && start.request == StartRequest(start.potBefore, round.wallet, round.id, rules.binding.stateMachineRulesHash)
  }

  /** A decision's transition repeats the key, action, stage and version that were submitted. */
  predicate RecordedAs(t: Transition) {
    match t.request
    case DecisionRequest(decision, _) =>
      && t.key == decision.key && t.decision == Some(if decision.Continue? then DecidedContinue else DecidedCashOut)
      && t.fromStage.Some? && t.fromStage.value == decision.expectedStage && t.sequence == decision.expectedVersion + 1
    case _ => true
  }

  ghost predicate DecisionsRecorded(transitions: seq<Transition>) {
    forall k :: 0 <= k < |transitions| ==> RecordedAs(transitions[k])
  }

  ghost predicate Slot(rules: Rules, round: Round, row: Reservation) {
    && LedgerAccepted(round) && Bounded(rules, round) && PhaseMatches(round, row)
    && DistinctTransitionKeys(round.transitions) && OutcomesInOrder(round) && PotAccounted(rules, round) && PayoutRecorded(round)
    && ForfeitedOnlyByDefault(round) && DecisionsRecorded(round.transitions) && BustsDecided(rules, round)
    && StartRecorded(rules, round)
  }

  // ---------------------------------------------------------------- treasury ledger

  /**
   Created once per round; adjustments only while active, to a larger amount and
   a later stage; released once, at the last recorded amount.
   */
  ghost predicate WellFormedLedger(ledger: seq<LedgerEntry>) {
    ledger == [] || (
      var rest, last := ledger[..|ledger| - 1], ledger[|ledger| - 1];
      && WellFormedLedger(rest)
      && NextEntryAllowed(Replay(rest), last))
  }

  predicate NextEntryAllowed(state: map<string, Replayed>, entry: LedgerEntry) {
    match entry.key
    case CreatedKey(id) => id !in state
    case AdjustedKey(id, stage) =>
      id in state && !state[id].released && state[id].amount < entry.amount && state[id].stage < stage && stage == entry.stage
    case ReleasedKey(id) => id in state && !state[id].released && state[id].amount == entry.amount
  }

  lemma {:induction false} KeysAreReplayed(ledger: seq<LedgerEntry>, key: EntryKey)
    requires WellFormedLedger(ledger) && HasKey(ledger, key)
    ensures key.roundId in Replay(ledger)
    ensures key.AdjustedKey? ==> key.stage <= Replay(ledger)[key.roundId].stage
    ensures key.ReleasedKey? ==> Replay(ledger)[key.roundId].released
  {
    var rest, last := ledger[..|ledger| - 1], ledger[|ledger| - 1];
    if last.key != key {
      var i :| 0 <= i < |ledger| && ledger[i].key == key;
      assert rest[i].key == key;
      KeysAreReplayed(rest, key);
    }
  }

  /** No idempotency key is ever written twice. */
  lemma {:induction false} LedgerKeysDistinct(ledger: seq<LedgerEntry>, a: nat, b: nat)
    requires WellFormedLedger(ledger) && a < b < |ledger|
    ensures ledger[a].key != ledger[b].key
  {
    var rest, last := ledger[..|ledger| - 1], ledger[|ledger| - 1];
    if b < |ledger| - 1 {
      LedgerKeysDistinct(rest, a, b);
    } else if ledger[a].key == last.key {
      assert rest[a].key == last.key;
      KeysAreReplayed(rest, last.key);
    }
  }

  /** Folding the ledger gives back exactly the reservation table. */
  ghost predicate LedgerReplays(rounds: seq<Round>, crash: seq<Reservation>, ledger: seq<LedgerEntry>) {
    && WellFormedLedger(ledger)
    && |rounds| == |crash|
    && (forall i :: 0 <= i < |rounds| ==>
          && rounds[i].id in Replay(ledger)
          && Replay(ledger)[rounds[i].id] == Replayed(crash[i].amount, crash[i].tier, crash[i].status == Released))
    && (forall id :: id in Replay(ledger) ==> FindRound(rounds, id).Some?)
  }

  ghost predicate DistinctRoundIds(rounds: seq<Round>) {
    forall i, j :: 0 <= i < j < |rounds| ==> rounds[i].id != rounds[j].id
  }

  /** Rounds and Crash reservations correspond one to one, in creation order. */
  ghost predicate Aligned(rounds: seq<Round>, crash: seq<Reservation>) {
    && |rounds| == |crash|
    && DistinctRoundIds(rounds)
    && forall i :: 0 <= i < |rounds| ==> RowMatches(rounds[i], crash[i])
  }

  ghost predicate AllSlots(rules: Rules, rounds: seq<Round>, crash: seq<Reservation>) {
    && |rounds| == |crash|
    && forall i :: 0 <= i < |rounds| ==> Slot(rules, rounds[i], crash[i])
  }

  ghost predicate Sound(db: Database, rules: Rules) {
    && Aligned(db.rounds, db.tables.crash)
    && AllSlots(rules, db.rounds, db.tables.crash)
    && WithinCaps(db.tables.crash, rules.risk)
    && LedgerReplays(db.rounds, db.tables.crash, db.tables.ledger)
  }

  // ---------------------------------------------------------------- lookups

  lemma FoundIsUnique(rounds: seq<Round>, crash: seq<Reservation>, i: nat)
    requires Aligned(rounds, crash) && i < |rounds|
    ensures FindRound(rounds, rounds[i].id) == Some(i)
    ensures FindRow(crash, rounds[i].id) == Some(i)
  {
    var found := FindRow(crash, rounds[i].id);
    assert crash[i].roundId == rounds[i].id;
    assert RowMatches(rounds[found.value], crash[found.value]);
  }

  // ---------------------------------------------------------------- one slot replaced

  /** The three things a transition may do to a round's row and ledger. */
  datatype RowChange = Unchanged | Adjusted(amount: nat, stage: nat) | ReleasedAt(stage: nat)

  function ChangedRow(row: Reservation, change: RowChange): Reservation {
    match change
    case Unchanged => row
    case Adjusted(amount, stage) => row.(amount := amount, tier := stage, version := row.version + 1)
    case ReleasedAt(_) => row.(status := Released, version := row.version + 1)
  }

  function ChangedLedger(ledger: seq<LedgerEntry>, row: Reservation, change: RowChange): seq<LedgerEntry> {
    match change
    case Unchanged => ledger
    case Adjusted(amount, stage) => ledger + [LedgerEntry(AdjustedKey(row.roundId, stage), amount, stage)]
    case ReleasedAt(stage) => ledger + [LedgerEntry(ReleasedKey(row.roundId), row.amount, stage)]
  }

  function Changed(t: Tables, i: nat, change: RowChange): Tables
    requires i < |t.crash|
  {
    t.(crash := t.crash[i := ChangedRow(t.crash[i], change)], ledger := ChangedLedger(t.ledger, t.crash[i], change))
  }

  predicate ChangeAllowed(row: Reservation, change: RowChange) {
    row.status == Reserved && (change.Adjusted? ==> row.amount < change.amount && row.tier < change.stage)
  }

  lemma AppendKeepsReplay(rounds: seq<Round>, crash: seq<Reservation>, ledger: seq<LedgerEntry>, i: nat, entry: LedgerEntry,
                          round': Round, row': Reservation)
    requires LedgerReplays(rounds, crash, ledger) && DistinctRoundIds(rounds) && i < |rounds|
    requires entry.key.roundId == rounds[i].id == round'.id && !entry.key.CreatedKey?
    requires NextEntryAllowed(Replay(ledger), entry)
    requires ReplayEntry(Replay(ledger), entry)[rounds[i].id] == Replayed(row'.amount, row'.tier, row'.status == Released)
    ensures LedgerReplays(rounds[i := round'], crash[i := row'], ledger + [entry])
  {
    ReplayAppend(ledger, entry);
    assert (ledger + [entry])[..|ledger|] == ledger;
    FindAfterUpdate(rounds, i, round');
  }

  lemma FindAfterUpdate(rounds: seq<Round>, i: nat, round': Round)
    requires i < |rounds| && round'.id == rounds[i].id
    ensures forall id :: FindRound(rounds, id).Some? ==> FindRound(rounds[i := round'], id).Some?
  {
    var after := rounds[i := round'];
    forall id | FindRound(rounds, id).Some? ensures FindRound(after, id).Some? {
      var k := FindRound(rounds, id).value;
      assert after[k].id == id;
    }
  }

  lemma ChangeKeepsReplay(rounds: seq<Round>, t: Tables, i: nat, round': Round, change: RowChange)
    requires LedgerReplays(rounds, t.crash, t.ledger) && DistinctRoundIds(rounds) && i < |rounds|
    requires round'.id == rounds[i].id == t.crash[i].roundId
    requires ChangeAllowed(t.crash[i], change)
    ensures LedgerReplays(rounds[i := round'], Changed(t, i, change).crash, Changed(t, i, change).ledger)
  {
    var row := t.crash[i];
    match change
    case Unchanged => FindAfterUpdate(rounds, i, round');
    case Adjusted(amount, stage) =>
      AppendKeepsReplay(rounds, t.crash, t.ledger, i, LedgerEntry(AdjustedKey(row.roundId, stage), amount, stage), round', ChangedRow(row, change));
    case ReleasedAt(stage) =>
      AppendKeepsReplay(rounds, t.crash, t.ledger, i, LedgerEntry(ReleasedKey(row.roundId), row.amount, stage), round', ChangedRow(row, change));
  }

  lemma ReplaceKeepsAlignment(rounds: seq<Round>, crash: seq<Reservation>, i: nat, round': Round, row': Reservation)
    requires Aligned(rounds, crash) && i < |rounds| && round'.id == rounds[i].id && RowMatches(round', row')
    ensures Aligned(rounds[i := round'], crash[i := row'])
  {
  }

  lemma ReplaceKeepsSlots(rules: Rules, rounds: seq<Round>, crash: seq<Reservation>, i: nat, round': Round, row': Reservation)
    requires AllSlots(rules, rounds, crash) && i < |rounds| && Slot(rules, round', row')
    ensures AllSlots(rules, rounds[i := round'], crash[i := row'])
  {
  }

  /** A sound database stays sound when one round takes an allowed step. */
  lemma {:induction false} ReplaceSlot(db: Database, rules: Rules, i: nat, round': Round, change: RowChange, intents': seq<Intent>)
    requires Sound(db, rules) && i < |db.rounds| && round'.id == db.rounds[i].id
    requires ChangeAllowed(db.tables.crash[i], change)
    requires WithinCaps(Changed(db.tables, i, change).crash, rules.risk)
    requires RowMatches(round', ChangedRow(db.tables.crash[i], change))
    requires Slot(rules, round', ChangedRow(db.tables.crash[i], change))
    ensures Sound(Database(db.rounds[i := round'], Changed(db.tables, i, change), intents'), rules)
  {
    assert RowMatches(db.rounds[i], db.tables.crash[i]);
    ChangeKeepsReplay(db.rounds, db.tables, i, round', change);
    ReplaceKeepsAlignment(db.rounds, db.tables.crash, i, round', ChangedRow(db.tables.crash[i], change));
    ReplaceKeepsSlots(rules, db.rounds, db.tables.crash, i, round', ChangedRow(db.tables.crash[i], change));
  }
}
