/** Every run of rounds, decisions, expiries and environment steps, and what holds after it. */
module RoundRuns {
  import opened Support
  import opened Calculators
  import opened Treasury
  import opened Rounds
  import opened RoundInvariants
  import opened RoundSteps

  /**
   One committed or refused transaction.  Other treasury sources may change their
   rows arbitrarily; the settlement worker may move a terminal round's
   settlement columns to any values the column contract allows, but not out of
   SETTLED.
   */
  datatype Step =
    | Create(createHouse: House, createId: string, wallet: Wallet, pot: nat, health: Option<Health>, createNow: int)
    | Take(house: House, id: string, decision: Decision, now: int, effect: Effect)
    | Expire(candidate: Candidate, expireNow: int)
    | OtherSources(rows: seq<Reservation>)
    | SettlementColumns(settleId: string, status: SettlementStatus, receiptHash: Option<string>, settledAt: Option<int>)

  function SettleColumns(db: Database, id: string, status: SettlementStatus, receiptHash: Option<string>, settledAt: Option<int>): Verdict {
    match FindRound(db.rounds, id)
    case None => Skipped
    case Some(i) =>
      var round := db.rounds[i];
      var round' := round.(settlementStatus := status, receiptHash := receiptHash, settledAt := settledAt);
      if round.status == Active || round.settlementStatus == Settled || !SettlementFieldsAccepted(round') then Skipped
      else Committed(db.(rounds := db.rounds[i := round']))
  }

  function VerdictOf(db: Database, rules: Rules, step: Step): Verdict
    requires ValidRules(rules)
  {
    match step
    case Create(house, id, wallet, pot, health, now) => CreateRound(db, rules, house, id, wallet, pot, health, now)
    case Take(house, id, decision, now, effect) => AttemptDecision(db, rules, house, id, decision, now, effect)
    case Expire(candidate, now) => ApplyDefault(db, candidate, now)
    case OtherSources(rows) => Committed(db.(tables := db.tables.(others := rows)))
    case SettlementColumns(id, status, hash, at) => SettleColumns(db, id, status, hash, at)
  }

  function AttemptDecision(db: Database, rules: Rules, house: House, id: string, decision: Decision, now: int, effect: Effect): Verdict
    requires ValidRules(rules)
  {
    assert forall k :: 0 <= k < |rules.stages| ==> ValidStage(rules.stages[k]);
    Decide(db, rules, house, id, decision, now, effect)
  }

  function After(db: Database, rules: Rules, step: Step): Database
    requires ValidRules(rules)
  {
    var verdict := VerdictOf(db, rules, step);
    if verdict.Committed? then verdict.db else db
  }

  const EMPTY: Database := Database([], Tables([], [], []), [])

  function Run(rules: Rules, steps: seq<Step>): Database
    requires ValidRules(rules)
  {
    if steps == [] then EMPTY else After(Run(rules, steps[..|steps| - 1]), rules, steps[|steps| - 1])
  }

  // ---------------------------------------------------------------- each step keeps soundness

  lemma {:induction false} DecisionKeepsSound(db: Database, rules: Rules, house: House, i: nat, decision: Decision, now: int, effect: Effect)
    requires ValidRules(rules) && Sound(db, rules) && i < |db.rounds|
    requires Malformed(decision).None? && FindTransition(db.rounds[i].transitions, decision.key).None?
    requires forall k :: 0 <= k < |rules.stages| ==> rules.stages[k].potContributionBps >= 0
    requires DecideOn(db, i, rules, house, decision, now, effect).Committed?
    ensures Sound(DecideOn(db, i, rules, house, decision, now, effect).db, rules)
  {
    hide Slot, LedgerReplays, AllSlots, WithinCaps, Resolve, RunEffect, ApplyMove, Admission, Replay, WellFormedLedger, FindRow, NextFacts, Advance,
         FindTransition;
    var round, row := db.rounds[i], db.tables.crash[i];
    var next := Resolve(rules, round, decision, now).value;
    var move := MoveFor(decision, next, now);
    ResolveGivesFacts(rules, round, decision, now);
    ActiveRowReady(db, rules, i);
    NextFollows(rules, round, decision, next, now);
    MoveIsRowChange(db.tables, rules.risk, house, i, round, move);
    AdmittedMoveWithinLimits(db.tables, rules.risk, house, i, round, move);
    AdvancedSound(db, rules, house, i, decision, next, now, RunEffect(db.intents, round, effect).value);
  }

  /** What the treasury step needs to know of the transition. */
  lemma NextFollows(rules: Rules, round: Round, decision: Decision, next: Next, now: int)
    requires NextFacts(rules, round, decision, next, now)
    ensures next.status == Active ==> next.stage == round.stage + 1
    ensures next.status != Active ==> next.stage == round.stage
    ensures decision.CashOut? ==> next.status != Active && next.potAfter == round.pot
  {
  }

  lemma {:induction false} AdvancedSound(db: Database, rules: Rules, house: House, i: nat, decision: Decision, next: Next, now: int, intents: seq<Intent>)
    requires ValidRules(rules) && Sound(db, rules) && i < |db.rounds| && RowReady(db.tables, i, db.rounds[i])
    requires db.rounds[i].status == Active && db.tables.crash[i].amount == db.rounds[i].pot
    requires Malformed(decision).None? && Guard(db.rounds[i], rules, decision, now).None?
    requires FindTransition(db.rounds[i].transitions, decision.key).None?
    requires NextFacts(rules, db.rounds[i], decision, next, now)
    requires next.stage <= rules.risk.maxStage && next.potAfter <= rules.risk.maxPot
    requires MoveRefused(db.tables, rules.risk, house, i, db.rounds[i], MoveFor(decision, next, now)).None?
    ensures Sound(Database(db.rounds[i := Advance(rules, db.rounds[i], decision, next)],
                           Changed(db.tables, i, ChangeFor(db.tables.crash[i], MoveFor(decision, next, now))), intents), rules)
  {
    hide LedgerReplays, Replay, WellFormedLedger, FindRow, FindTransition, Malformed, Guard, ValidRules, MoveRefused;
    var round, row := db.rounds[i], db.tables.crash[i];
    var move := MoveFor(decision, next, now);
    var change := ChangeFor(row, move);
    SlotOf(db, rules, i);
    MovedRowMatches(rules, round, row, decision, next, now);
    hide Slot, NextFacts, RowReady;
    AdvanceKeepsSlot(rules, round, row, decision, next, now, ChangedRow(row, change));
    MoveKeepsCaps(db.tables, rules.risk, house, i, round, move);
    ReplaceSlot(db, rules, i, Advance(rules, round, decision, next), change, intents);
  }

  lemma SlotOf(db: Database, rules: Rules, i: nat)
    requires Sound(db, rules) && i < |db.rounds|
    ensures Slot(rules, db.rounds[i], db.tables.crash[i]) && RowMatches(db.rounds[i], db.tables.crash[i])
  {
  }

  lemma MovedRowMatches(rules: Rules, round: Round, row: Reservation, decision: Decision, next: Next, now: int)
    requires RowMatches(round, row) && row.status == Reserved && row.amount == round.pot
    requires NextFacts(rules, round, decision, next, now)
    ensures var change := ChangeFor(row, MoveFor(decision, next, now));
            && RowMatches(Advance(rules, round, decision, next), ChangedRow(row, change))
            && ChangeAllowed(row, change)
            && (if next.status == Active then ChangedRow(row, change).status == Reserved && ChangedRow(row, change).amount == next.potAfter
                else ChangedRow(row, change).status == Released)
  {
  }

  lemma MoveKeepsCaps(t: Tables, rules: RiskRules, house: House, i: nat, round: Round, move: Move)
    requires RowReady(t, i, round) && WithinCaps(t.crash, rules)
    requires MoveRefused(t, rules, house, i, round, move).None?
    requires !move.terminal ==> move.acceptsRisk
    ensures WithinCaps(Changed(t, i, ChangeFor(t.crash[i], move)).crash, rules)
  {
    var row' := ChangedRow(t.crash[i], ChangeFor(t.crash[i], move));
    if move.terminal {
      ReleasedUpdateWithinCaps(t.crash, rules, i, row');
    } else {
      AdmittedUpdateWithinCaps(t, rules, house, i, row');
    }
  }

  lemma {:induction false} DefaultKeepsSound(db: Database, rules: Rules, candidate: Candidate, now: int)
    requires ValidRules(rules) && Sound(db, rules)
    requires ApplyDefault(db, candidate, now).Committed?
    ensures Sound(ApplyDefault(db, candidate, now).db, rules)
  {
    hide Slot, LedgerReplays, Release, FindTransition, ValidRules, AllSlots, WithinCaps, HasKey, Replay, WellFormedLedger, Forfeit;
    var i := FindRound(db.rounds, candidate.id).value;
    var round := db.rounds[i];
    ActiveRowReady(db, rules, i);
    ReleaseIsRowChange(db.tables, i, round, round.stage);
    ForfeitedSound(db, rules, i, candidate, now);
  }

  lemma {:induction false} ForfeitedSound(db: Database, rules: Rules, i: nat, candidate: Candidate, now: int)
    requires ValidRules(rules) && Sound(db, rules) && i < |db.rounds| && RowReady(db.tables, i, db.rounds[i])
    requires Expired(db.rounds[i], candidate, now)
    requires FindTransition(db.rounds[i].transitions, DeadlineKey(candidate.stage, candidate.deadline)).None?
    ensures Sound(Database(db.rounds[i := Forfeit(db.rounds[i], candidate, now)],
                           Changed(db.tables, i, ReleasedAt(db.rounds[i].stage)), db.intents), rules)
  {
    hide Slot, LedgerReplays, FindTransition, ValidRules, Expired, Replay, WellFormedLedger, FindRow;
    var round, row := db.rounds[i], db.tables.crash[i];
    SlotOf(db, rules, i);
    var change := ReleasedAt(round.stage);
    var row' := ChangedRow(row, change);
    ForfeitKeepsSlot(rules, round, row, candidate, now, row');
    ReleasedUpdateWithinCaps(db.tables.crash, rules.risk, i, row');
    ReplaceSlot(db, rules, i, Forfeit(round, candidate, now), change, db.intents);
  }

  lemma FindAfterAppend(rounds: seq<Round>, round: Round, id: string)
    ensures FindRound(rounds + [round], id).Some? <==> FindRound(rounds, id).Some? || round.id == id
  {
    assert (rounds + [round])[..|rounds|] == rounds;
  }

  lemma AppendKeepsReplayOfNew(rounds: seq<Round>, crash: seq<Reservation>, ledger: seq<LedgerEntry>, round: Round, row: Reservation)
    requires LedgerReplays(rounds, crash, ledger) && FindRound(rounds, round.id).None?
    requires row.tier == 1 && row.status == Reserved
    ensures LedgerReplays(rounds + [round], crash + [row], ledger + [LedgerEntry(CreatedKey(round.id), row.amount, 1)])
  {
    var entry := LedgerEntry(CreatedKey(round.id), row.amount, 1);
    ReplayAppend(ledger, entry);
    assert (ledger + [entry])[..|ledger|] == ledger;
    var after := Replay(ledger + [entry]);
    forall id | id in after ensures FindRound(rounds + [round], id).Some? {
      FindAfterAppend(rounds, round, id);
    }
  }

  lemma AppendKeepsAlignment(rules: Rules, rounds: seq<Round>, crash: seq<Reservation>, round: Round, row: Reservation)
    requires Aligned(rounds, crash) && AllSlots(rules, rounds, crash)
    requires FindRound(rounds, round.id).None? && RowMatches(round, row) && Slot(rules, round, row)
    ensures Aligned(rounds + [round], crash + [row]) && AllSlots(rules, rounds + [round], crash + [row])
  {
    hide RowMatches, Slot;
  }

  lemma NoRowForNewRound(db: Database, id: string)
    requires Aligned(db.rounds, db.tables.crash) && FindRound(db.rounds, id).None?
    ensures FindRow(db.tables.crash, id).None?
  {
    var found := FindRow(db.tables.crash, id);
    assert found.Some? ==> RowMatches(db.rounds[found.value], db.tables.crash[found.value]);
  }

  /** A committed creation: one more active round, its reservation and its ledger entry. */
  lemma CreateShape(db: Database, rules: Rules, house: House, id: string, wallet: Wallet, pot: nat, health: Option<Health>, now: int)
    requires FindRow(db.tables.crash, id).None?
    requires CreateRound(db, rules, house, id, wallet, pot, health, now).Committed?
    ensures FindRound(db.rounds, id).None?
    ensures Admission(db.tables, rules.risk, house, wallet, 0, pot).None?
    ensures var row := Reservation(true, id, wallet, rules.risk.rulesHash, pot, 1, Reserved, 1);
            CreateRound(db, rules, house, id, wallet, pot, health, now).db
            == db.(rounds := db.rounds + [NewRound(rules, id, wallet, pot, now)],
                   tables := db.tables.(crash := db.tables.crash + [row],
                                        ledger := db.tables.ledger + [LedgerEntry(CreatedKey(id), pot, 1)]))
  {
  }

  lemma {:induction false} CreateKeepsSound(db: Database, rules: Rules, house: House, id: string, wallet: Wallet, pot: nat, health: Option<Health>, now: int)
    requires ValidRules(rules) && Sound(db, rules)
    requires CreateRound(db, rules, house, id, wallet, pot, health, now).Committed?
    ensures Sound(CreateRound(db, rules, house, id, wallet, pot, health, now).db, rules)
  {
    hide CreateRound, Slot, Admission;
    var round := NewRound(rules, id, wallet, pot, now);
    var row := Reservation(true, id, wallet, rules.risk.rulesHash, pot, 1, Reserved, 1);
    assert FindRow(db.tables.crash, id).None? by {
      CreatedIsNew(db, rules, house, id, wallet, pot, health, now);
      NoRowForNewRound(db, id);
    }
    CreateShape(db, rules, house, id, wallet, pot, health, now);
    AdmittedWithinPotLimit(db.tables, rules.risk, house, wallet, 0, pot);
    NewRoundSlot(rules, id, wallet, pot, now);
    AdmittedAppendWithinCaps(db.tables, rules.risk, house, row);
    AppendKeepsAlignment(rules, db.rounds, db.tables.crash, round, row);
    AppendKeepsReplayOfNew(db.rounds, db.tables.crash, db.tables.ledger, round, row);
  }

  lemma CreatedIsNew(db: Database, rules: Rules, house: House, id: string, wallet: Wallet, pot: nat, health: Option<Health>, now: int)
    requires CreateRound(db, rules, house, id, wallet, pot, health, now).Committed?
    ensures FindRound(db.rounds, id).None?
  {
  }

  lemma AdmittedWithinPotLimit(t: Tables, rules: RiskRules, house: House, wallet: Wallet, current: nat, after: nat)
    requires Admission(t, rules, house, wallet, current, after).None?
    ensures after <= rules.maxPot
  {
  }

  lemma SettlementKeepsSlot(rules: Rules, round: Round, round': Round, row: Reservation)
    requires Slot(rules, round, row) && round.status != Active
    requires round' == round.(settlementStatus := round'.settlementStatus, receiptHash := round'.receiptHash, settledAt := round'.settledAt)
    requires SettlementFieldsAccepted(round')
    ensures Slot(rules, round', row)
  {
  }

  lemma {:induction false} SettlementKeepsSound(db: Database, rules: Rules, id: string, status: SettlementStatus, hash: Option<string>, at: Option<int>)
    requires Sound(db, rules) && SettleColumns(db, id, status, hash, at).Committed?
    ensures Sound(SettleColumns(db, id, status, hash, at).db, rules)
  {
    hide Slot, WithinCaps, LedgerReplays;
    var i := FindRound(db.rounds, id).value;
    var round, row := db.rounds[i], db.tables.crash[i];
    var round' := round.(settlementStatus := status, receiptHash := hash, settledAt := at);
    SlotOf(db, rules, i);
    SettlementKeepsSlot(rules, round, round', row);
    SettlementKeepsReplay(db.rounds, db.tables.crash, db.tables.ledger, i, round');
    ReplaceKeepsAlignment(db.rounds, db.tables.crash, i, round', row);
    ReplaceKeepsSlots(rules, db.rounds, db.tables.crash, i, round', row);
    assert db.tables.crash[i := row] == db.tables.crash;
  }

  lemma SettlementKeepsReplay(rounds: seq<Round>, crash: seq<Reservation>, ledger: seq<LedgerEntry>, i: nat, round': Round)
    requires LedgerReplays(rounds, crash, ledger) && i < |rounds| && round'.id == rounds[i].id
    ensures LedgerReplays(rounds[i := round'], crash, ledger)
  {
    hide WellFormedLedger, Replay, FindRound;
    FindAfterUpdate(rounds, i, round');
    var after := rounds[i := round'];
    forall k | 0 <= k < |after|
      ensures after[k].id in Replay(ledger)
      ensures Replay(ledger)[after[k].id] == Replayed(crash[k].amount, crash[k].tier, crash[k].status == Released)
    {
      assert after[k].id == rounds[k].id;
    }
  }

  lemma OthersKeepSound(db: Database, rules: Rules, rows: seq<Reservation>)
    requires Sound(db, rules)
    ensures Sound(db.(tables := db.tables.(others := rows)), rules)
  {
  }

  lemma {:induction false} StepKeepsSound(db: Database, rules: Rules, step: Step)
    requires ValidRules(rules) && Sound(db, rules)
    ensures Sound(After(db, rules, step), rules)
  {
    hide Sound;
    if VerdictOf(db, rules, step).Committed? {
      match step
      case Create(house, id, wallet, pot, health, now) => CreateKeepsSound(db, rules, house, id, wallet, pot, health, now);
      case Take(house, id, decision, now, effect) =>
        assert forall k :: 0 <= k < |rules.stages| ==> ValidStage(rules.stages[k]);
        DecisionKeepsSound(db, rules, house, FindRound(db.rounds, id).value, decision, now, effect);
      case Expire(candidate, now) => DefaultKeepsSound(db, rules, candidate, now);
      case OtherSources(rows) => OthersKeepSound(db, rules, rows);
      case SettlementColumns(id, status, hash, at) => SettlementKeepsSound(db, rules, id, status, hash, at);
    }
  }

  /** Every database any run can reach is sound. */
  lemma {:induction false} EveryRunIsSound(rules: Rules, steps: seq<Step>)
    requires ValidRules(rules)
    ensures Sound(Run(rules, steps), rules)
  {
    if steps != [] {
      EveryRunIsSound(rules, steps[..|steps| - 1]);
      StepKeepsSound(Run(rules, steps[..|steps| - 1]), rules, steps[|steps| - 1]);
    }
  }
}
