/**
 The Crash services over mutable tables: the risk gate
 (apps/api/src/crash/crash-risk.policy.ts), the stage state machine
 (apps/api/src/crash/crash-stage-state.ts) and the custody movement
 (apps/api/src/crash/crash-custody-movement.service.ts).  Methods write rows one
 after another; a transaction that fails half-way restores what it had written.
 */
module CrashStageState {
  import opened Support
  import opened Calculators
  import opened Treasury
  import opened Rounds
  import opened RoundInvariants
  import opened RoundSteps
  import opened RoundRuns
  import opened RoundGuarantees
  import opened ExpiryBatch

  /** What a caller of a transaction learns. */
  datatype Reply = Done | SameAsBefore | NoWork | Failed(error: StateError)

  function ReplyTo(verdict: Verdict): Reply {
    match verdict
    case Committed(_) => Done
    case Repeated => SameAsBefore
    case Skipped => NoWork
    case Rejected(error) => Failed(error)
  }

  const MAX_EXPIRED_BATCH: int := 100

  class CrashDatabase {
    var rounds: seq<Round>
    var crash: seq<Reservation>
    var others: seq<Reservation>
    var ledger: seq<LedgerEntry>
    var intents: seq<Intent>

    function Rows(): Tables
      reads this
    {
      Tables(crash, others, ledger)
    }

    function Db(): Database
      reads this
    {
      Database(rounds, Rows(), intents)
    }

    constructor ()
      ensures Db() == EMPTY
    {
      rounds, crash, others, ledger, intents := [], [], [], [], [];
    }

    // -------------------------------------------------------------- the risk gate

    /** The active exposure of every row, and of one wallet's rows. */
    method SumExposures(rows: seq<Reservation>, wallet: Wallet) returns (total: nat, walletTotal: nat)
      ensures total == TotalExposure(rows) && walletTotal == WalletExposureOf(rows, wallet)
    {
      total, walletTotal := 0, 0;
      for k := 0 to |rows|
        invariant total == TotalExposure(rows[..k]) && walletTotal == WalletExposureOf(rows[..k], wallet)
      {
        assert rows[..k + 1][..k] == rows[..k];
        if IsActive(rows[k].status) {
          total := total + rows[k].amount;
          if rows[k].wallet == wallet {
            walletTotal := walletTotal + rows[k].amount;
          }
        }
      }
      assert rows[..|rows|] == rows;
    }

    method AssertCanonicalAdmission(rules: RiskRules, house: House, wallet: Wallet, current: nat, after: nat) returns (refused: Option<RiskError>)
      ensures refused == Admission(Rows(), rules, house, wallet, current, after)
    {
      if after > rules.maxPot {
        return Some(PotLimit);
      }
      if !house.configured || rules.maxTreasuryExposure > house.maxTotalExposure {
        return Some(Configuration);
      }
      if house.paused || !house.snapshotUsable {
        return Some(Configuration);
      }
      var crashTotal, crashWallet := SumExposures(crash, wallet);
      var otherTotal, otherWallet := SumExposures(others, wallet);
      var totalBefore, walletBefore := crashTotal + otherTotal, crashWallet + otherWallet;
      if totalBefore < current || walletBefore < current {
        return Some(Configuration);
      }
      if walletBefore - current + after > rules.maxWalletExposure {
        return Some(WalletExposure);
      }
      if totalBefore - current + after > rules.maxTreasuryExposure {
        return Some(TreasuryExposure);
      }
      return if HouseAllows(house, after - current, totalBefore) then None else Some(TreasuryExposure);
    }

    /** Append one ledger entry under its unique idempotency key. */
    method AppendEntry(key: EntryKey, amount: nat, stage: nat) returns (refused: Option<RiskError>)
      modifies this`ledger
      ensures refused == (if HasKey(old(ledger), key) then Some(LedgerKeyTaken) else None)
      ensures ledger == if refused.None? then old(ledger) + [LedgerEntry(key, amount, stage)] else old(ledger)
    {
      for k := 0 to |ledger|
        invariant forall j :: 0 <= j < k ==> ledger[j].key != key
        invariant ledger == old(ledger)
      {
        if ledger[k].key == key {
          return Some(LedgerKeyTaken);
        }
      }
      ledger := ledger + [LedgerEntry(key, amount, stage)];
      refused := None;
    }

    method ReserveRound(rules: RiskRules, house: House, health: Option<Health>, now: int, round: Bound, pot: nat) returns (refused: Option<RiskError>)
      modifies this`crash, this`ledger
      ensures var outcome := Reserve(old(Rows()), rules, house, health, now, round, pot);
              if outcome.Ok? then refused.None? && Rows() == outcome.value else refused == Some(outcome.error) && Rows() == old(Rows())
    {
      if !Healthy(health, rules, now) {
        return Some(UnhealthyEvidence);
      }
      if round.rulesHash != rules.rulesHash || round.rulesVersion != rules.rulesVersion {
        return Some(Configuration);
      }
      if 1 > rules.maxStage {
        return Some(StageLimit);
      }
      if round.expiresAt <= now {
        return Some(Duration);
      }
      if pot > MAX_U64 {
        return Some(Configuration);
      }
      var existing := FindRow(crash, round.id);
      if existing.Some? {
        var row := crash[existing.value];
        return if !row.crash || row.wallet != round.wallet || row.riskRulesHash != rules.rulesHash || row.amount != pot
          then Some(IdempotencyMismatch) else None;
      }
      refused := AssertCanonicalAdmission(rules, house, round.wallet, 0, pot);
      if refused.Some? {
        return;
      }
      crash := crash + [Reservation(true, round.id, round.wallet, rules.rulesHash, pot, 1, Reserved, 1)];
      refused := AppendEntry(CreatedKey(round.id), pot, 1);
      if refused.Some? {
        crash := crash[..|crash| - 1];
      }
    }

    method ReleaseTerminal(round: Bound, stage: nat) returns (refused: Option<RiskError>)
      modifies this`crash, this`ledger
      ensures var outcome := Release(old(Rows()), round, stage);
              if outcome.Ok? then refused.None? && Rows() == outcome.value else refused == Some(outcome.error) && Rows() == old(Rows())
    {
      var found := FindRow(crash, round.id);
      if found.None? {
        return Some(Configuration);
      }
      var i := found.value;
      var row := crash[i];
      if !row.crash || row.wallet != round.wallet || row.riskRulesHash != round.rulesHash {
        return Some(IdempotencyMismatch);
      }
      if !IsActive(row.status) {
        return None;
      }
      var saved := crash;
      crash := crash[i := row.(status := Released, version := row.version + 1)];
      refused := AppendEntry(ReleasedKey(round.id), row.amount, stage);
      if refused.Some? {
        crash := saved;
      }
    }

    method ApplyTransition(rules: RiskRules, house: House, round: Bound, move: Move) returns (refused: Option<RiskError>)
      modifies this`crash, this`ledger
      ensures var outcome := ApplyMove(old(Rows()), rules, house, round, move);
              if outcome.Ok? then refused.None? && Rows() == outcome.value else refused == Some(outcome.error) && Rows() == old(Rows())
    {
      refused := EnvelopeError(rules, round, move);
      if refused.Some? {
        return;
      }
      var found := FindRow(crash, round.id);
      if found.None? {
        return Some(Configuration);
      }
      var i := found.value;
      var row := crash[i];
      if !row.crash || row.wallet != round.wallet || row.riskRulesHash != rules.rulesHash {
        return Some(IdempotencyMismatch);
      }
      if !IsActive(row.status) {
        return if move.terminal then None else Some(Configuration);
      }
      if move.acceptsRisk {
        refused := AssertCanonicalAdmission(rules, house, row.wallet, row.amount, move.nextPot);
        if refused.Some? {
          return;
        }
      }
      if move.terminal {
        refused := ReleaseTerminal(round, move.nextStage);
        return;
      }
      if move.nextPot == row.amount {
        return None;
      }
      var saved := crash;
      crash := crash[i := row.(amount := move.nextPot, tier := move.nextStage, version := row.version + 1)];
      refused := AppendEntry(AdjustedKey(round.id, move.nextStage), move.nextPot, move.nextStage);
      if refused.Some? {
        crash := saved;
      }
    }

    // -------------------------------------------------------------- custody

    /** Inside the caller's transaction: a replayed row, or a new one that is prepared or names the check that failed. */
    method PrepareFixtureMovement(round: Round, policy: Option<CustodyPolicy>, m: Movement) returns (r: Result<Intent, StateError>)
      modifies this`intents
      ensures var outcome := PrepareMovement(old(intents), round, policy, m);
              if outcome.Ok? then r == Ok(outcome.value.intent) && intents == outcome.value.intents
              else r == Err(outcome.error) && intents == old(intents)
    {
      if m.expectedStage < 1 || m.expectedStage > MAX_STAGES || m.expectedVersion < 1 {
        return Err(InvalidEvidence);
      }
      var existing := FindIntent(intents, m.roundId, m.key);
      if existing.Some? {
        var intent := intents[existing.value];
        return if intent.movement == m && intent.configured == policy then Ok(intent) else Err(KeyReused);
      }
      var intent := NewIntent(round, policy, m);
      if intent.recovery.None? && AlreadyPrepared(intents, m) {
        return Err(ConcurrentTransition);
      }
      intents := intents + [intent];
      r := Ok(intent);
    }

    // -------------------------------------------------------------- rounds

    method CreateFixtureRound(rules: Rules, house: House, id: string, wallet: Wallet, pot: nat, health: Option<Health>, now: int)
      returns (reply: Reply)
      modifies this`rounds, this`crash, this`ledger
      ensures var verdict := CreateRound(old(Db()), rules, house, id, wallet, pot, health, now);
              Db() == Applied(verdict, old(Db())) && reply == ReplyTo(verdict)
    {
      hide Reserve, NewRound, FindRound, BoundOf;
      if pot > MAX_U64 {
        return Failed(InvalidEvidence);
      }
      var existing := FindRound(rounds, id);
      if existing.Some? {
        var transitions := rounds[existing.value].transitions;
        return if transitions != [] && transitions[0].request == StartRequest(pot, wallet, id, rules.binding.stateMachineRulesHash)
          then SameAsBefore else Failed(KeyReused);
      }
      var round := NewRound(rules, id, wallet, pot, now);
      rounds := rounds + [round];
      var refused := ReserveRound(rules.risk, house, health, now, BoundOf(round), pot);
      if refused.Some? {
        rounds := rounds[..|rounds| - 1];
        return Failed(RiskRejected(refused.value));
      }
      reply := Done;
    }

    method Decide(rules: Rules, house: House, id: string, decision: Decision, now: int, effect: Effect) returns (reply: Reply)
      requires forall k :: 0 <= k < |rules.stages| ==> rules.stages[k].potContributionBps >= 0
      modifies this`rounds, this`crash, this`ledger, this`intents
      ensures var verdict := Rounds.Decide(old(Db()), rules, house, id, decision, now, effect);
              Db() == Applied(verdict, old(Db())) && reply == ReplyTo(verdict)
    {
      var malformed := Malformed(decision);
      if malformed.Some? {
        return Failed(malformed.value);
      }
      var found := FindRound(rounds, id);
      if found.None? {
        return Failed(NotFound);
      }
      var i := found.value;
      var replay := FindTransition(rounds[i].transitions, decision.key);
      if replay.Some? {
        return if rounds[i].transitions[replay.value].request == DecisionRequest(decision, rules.binding) then SameAsBefore else Failed(KeyReused);
      }
      reply := DecideInTransaction(rules, house, i, decision, now, effect);
    }

    /** Guard, calculate, move the reservation, run the effect, then compare-and-set the round. */
    method DecideInTransaction(rules: Rules, house: House, i: nat, decision: Decision, now: int, effect: Effect) returns (reply: Reply)
      requires i < |rounds| && forall k :: 0 <= k < |rules.stages| ==> rules.stages[k].potContributionBps >= 0
      modifies this`rounds, this`crash, this`ledger, this`intents
      ensures var verdict := DecideOn(old(Db()), i, rules, house, decision, now, effect);
              Db() == Applied(verdict, old(Db())) && reply == ReplyTo(verdict)
    {
      hide ApplyMove, PrepareMovement, Guard, Resolve, Advance, MoveFor;
      var round := rounds[i];
      var blocked := Guard(round, rules, decision, now);
      if blocked.Some? {
        return Failed(blocked.value);
      }
      var resolved := Resolve(rules, round, decision, now);
      if resolved.Err? {
        return Failed(resolved.error);
      }
      var savedCrash, savedLedger, savedIntents := crash, ledger, intents;
      var refused := ApplyTransition(rules.risk, house, BoundOf(round), MoveFor(decision, resolved.value, now));
      if refused.Some? {
        return Failed(RiskRejected(refused.value));
      }
      if effect.Prepare? {
        var prepared := PrepareFixtureMovement(round, effect.policy, effect.movement);
        if prepared.Err? || prepared.value.recovery.Some? {
          crash, ledger, intents := savedCrash, savedLedger, savedIntents;
          return Failed(if prepared.Err? then prepared.error else InvalidEvidence);
        }
      }
      rounds := rounds[i := Advance(rules, round, decision, resolved.value)];
      reply := Done;
    }

    method ApplyDefault(candidate: Candidate, now: int) returns (reply: Reply)
      modifies this`rounds, this`crash, this`ledger
      ensures var verdict := Rounds.ApplyDefault(old(Db()), candidate, now);
              Db() == Applied(verdict, old(Db())) && reply == ReplyTo(verdict)
    {
      var found := FindRound(rounds, candidate.id);
      if found.None? {
        return NoWork;
      }
      var i := found.value;
      var round := rounds[i];
      if !Expired(round, candidate, now) {
        return NoWork;
      }
      var savedCrash, savedLedger := crash, ledger;
      var refused := ReleaseTerminal(BoundOf(round), round.stage);
      if refused.Some? {
        return Failed(RiskRejected(refused.value));
      }
      var taken := FindTransition(round.transitions, DeadlineKey(candidate.stage, candidate.deadline));
      if taken.Some? {
        crash, ledger := savedCrash, savedLedger;
        return if round.transitions[taken.value].request == DefaultRequest(candidate.deadline, candidate.stage, candidate.version)
          then NoWork else Failed(KeyReused);
      }
      rounds := rounds[i := Forfeit(round, candidate, now)];
      reply := Done;
    }

    /**
     The expiry worker: the query, then each candidate in its own transaction; a
     round that has moved on meanwhile is no work, any other failure ends the loop.
     */
    method ApplyExpiredDefaults(now: int, limit: int) returns (r: Result<nat, StateError>)
      modifies this`rounds, this`crash, this`ledger
      ensures limit <= 0 || limit > 100 ==> r == Err(InvalidTransition) && Db() == old(Db())
      ensures 0 < limit <= 100 ==>
                var batch := ExpireBatch(old(Db()), ExpiredQuery(old(rounds), now, limit), now);
                Db() == batch.db && r == if batch.error.Some? then Err(batch.error.value) else Ok(batch.changed)
    {
      hide Rounds.ApplyDefault, ExpiredQuery;
      if limit <= 0 || limit > MAX_EXPIRED_BATCH {
        return Err(InvalidTransition);
      }
      var expired := ExpiredQuery(rounds, now, limit);
      var changed := 0;
      for k := 0 to |expired|
        invariant ExpireBatch(old(Db()), expired[..k], now) == BatchResult(Db(), changed, None)
      {
        assert expired[..k + 1][..k] == expired[..k];
        var reply := ApplyDefault(expired[k], now);
        match reply
        case Done => changed := changed + 1;
        case Failed(error) =>
          ErrorEndsBatch(old(Db()), expired, k + 1, now);
          return Err(error);
        case _ =>
      }
      assert expired[..|expired|] == expired;
      r := Ok(changed);
    }
  }
}
