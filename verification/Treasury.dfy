/**
 The Crash risk gate over the house treasury (apps/api/src/crash/crash-risk.policy.ts,
 apps/api/src/treasury/house-treasury.policy.ts).  Each function is one
 transaction step: it returns the new tables, or the reason nothing is written.
 */
module Treasury {
  import opened Support

  const MAX_DURATION_MS: int := 24 * 60 * 60 * 1_000
  const MAX_EVIDENCE_AGE_MS: int := 5 * 60 * 1_000
  const MAX_STAGES: int := 64
  const CLOCK_SKEW_MS: int := 60_000

  /** A wallet identity: a player or custody name, or the fixture provider's wallet for one stage. */
  datatype Wallet = Named(name: string) | ProviderWallet(providerRound: string, providerStage: nat)

  datatype ReservationStatus = Reserved | Funded | SettlementPending | RecoveryRequired | Released | SettledOut

  datatype Reservation = Reservation(
    crash: bool, roundId: string, wallet: Wallet, riskRulesHash: string,
    amount: nat, tier: nat, status: ReservationStatus, version: nat)

  datatype EntryKey =
    | CreatedKey(roundId: string)
    | AdjustedKey(roundId: string, stage: nat)
    | ReleasedKey(roundId: string)

  datatype LedgerEntry = LedgerEntry(key: EntryKey, amount: nat, stage: nat)

  /** Crash rows, every other active source's rows, and the append-only ledger. */
  datatype Tables = Tables(crash: seq<Reservation>, others: seq<Reservation>, ledger: seq<LedgerEntry>)

  datatype RiskRules = RiskRules(
    rulesHash: string, rulesVersion: string, maxStage: nat, maxPot: nat, maxWalletExposure: nat,
    maxTreasuryExposure: nat, maxDurationMs: int, evidenceMaxAgeMs: int,
    providerReference: string, poolReference: string)

  datatype Health = Health(
    observedAt: int, providerHealthy: bool, poolHealthy: bool,
    providerReference: string, poolReference: string, rulesHash: string)

  /** The house's own configuration, pause switch and treasury snapshot at one admission. */
  datatype House = House(
    configured: bool, paused: bool, snapshotUsable: bool, maxTotalExposure: nat, dailyLossLimit: nat,
    minimumLiquidity: nat, maxActivePerWallet: nat, maxConcurrentPerTier: nat,
    dailyLoss: nat, delegated: nat, balance: nat)

  /** The round facts the gate is given. */
  datatype Bound = Bound(id: string, wallet: Wallet, expiresAt: int, rulesHash: string, rulesVersion: string)

  datatype RiskError =
    | Configuration | Duration | UnhealthyEvidence | IdempotencyMismatch | PotLimit | StageLimit
    | TreasuryExposure | WalletExposure | LedgerKeyTaken

  ghost predicate ValidRiskRules(rules: RiskRules) {
    && 0 < rules.maxStage <= MAX_STAGES
    && 0 < rules.maxDurationMs <= MAX_DURATION_MS
    && 0 < rules.evidenceMaxAgeMs <= MAX_EVIDENCE_AGE_MS
    && 0 < rules.maxPot <= rules.maxWalletExposure <= rules.maxTreasuryExposure <= MAX_U64
  }

  predicate IsActive(status: ReservationStatus) {
    status != Released && status != SettledOut
  }

  function Exposure(row: Reservation): nat {
    if IsActive(row.status) then row.amount else 0
  }

  function WalletShare(row: Reservation, wallet: Wallet): nat {
    if row.wallet == wallet then Exposure(row) else 0
  }

  function TotalExposure(rows: seq<Reservation>): nat {
    if rows == [] then 0 else TotalExposure(rows[..|rows| - 1]) + Exposure(rows[|rows| - 1])
  }

  function WalletExposureOf(rows: seq<Reservation>, wallet: Wallet): nat {
    if rows == [] then 0 else WalletExposureOf(rows[..|rows| - 1], wallet) + WalletShare(rows[|rows| - 1], wallet)
  }

  function FindRow(rows: seq<Reservation>, id: string): (found: Option<nat>)
    ensures found.Some? ==> found.value < |rows| && rows[found.value].roundId == id
    ensures found.None? ==> forall i :: 0 <= i < |rows| ==> rows[i].roundId != id
  {
    if rows == [] then None
    else if rows[|rows| - 1].roundId == id then Some(|rows| - 1)
    else FindRow(rows[..|rows| - 1], id)
  }

  predicate HasKey(ledger: seq<LedgerEntry>, key: EntryKey) {
    exists i :: 0 <= i < |ledger| && ledger[i].key == key
  }

  predicate Healthy(health: Option<Health>, rules: RiskRules, now: int) {
    && health.Some?
    && health.value.providerHealthy && health.value.poolHealthy
    && health.value.providerReference == rules.providerReference
    && health.value.poolReference == rules.poolReference
    && health.value.rulesHash == rules.rulesHash
    && health.value.observedAt <= now + CLOCK_SKEW_MS
    && now - health.value.observedAt <= rules.evidenceMaxAgeMs
  }

  /** The house limits for an extra exposure; per-wallet and per-tier counts are passed as zero. */
  predicate HouseAllows(house: House, requested: int, totalExposure: int) {
    var exposure := totalExposure + requested;
    && 0 < house.maxActivePerWallet
    && 0 < house.maxConcurrentPerTier
    && house.dailyLoss + exposure <= house.dailyLossLimit
    && exposure <= house.maxTotalExposure
    && house.balance >= exposure + house.minimumLiquidity
    && house.delegated >= exposure
  }

  /** Why a changed exposure is refused, or None when it is admitted. */
  function Admission(t: Tables, rules: RiskRules, house: House, wallet: Wallet, current: nat, after: nat): Option<RiskError> {
    if after > rules.maxPot then Some(PotLimit)
    else if !house.configured || rules.maxTreasuryExposure > house.maxTotalExposure then Some(Configuration)
    else if house.paused || !house.snapshotUsable then Some(Configuration)
    else
      var total := TotalExposure(t.crash) + TotalExposure(t.others);
      var walletTotal := WalletExposureOf(t.crash, wallet) + WalletExposureOf(t.others, wallet);
      if total < current || walletTotal < current then Some(Configuration)
      else if walletTotal - current + after > rules.maxWalletExposure then Some(WalletExposure)
      else if total - current + after > rules.maxTreasuryExposure then Some(TreasuryExposure)
      else if !HouseAllows(house, after - current, total) then Some(TreasuryExposure)
      else None
  }

  function Append(ledger: seq<LedgerEntry>, key: EntryKey, amount: nat, stage: nat): Result<seq<LedgerEntry>, RiskError> {
    if HasKey(ledger, key) then Err(LedgerKeyTaken) else Ok(ledger + [LedgerEntry(key, amount, stage)])
  }

  /** Create the reservation of a new round. */
  function Reserve(t: Tables, rules: RiskRules, house: House, health: Option<Health>, now: int, round: Bound, pot: nat)
    : Result<Tables, RiskError>
  {
    if !Healthy(health, rules, now) then Err(UnhealthyEvidence)
    else if round.rulesHash != rules.rulesHash || round.rulesVersion != rules.rulesVersion then Err(Configuration)
    else if 1 > rules.maxStage then Err(StageLimit)
    else if round.expiresAt <= now then Err(Duration)
    else if pot > MAX_U64 then Err(Configuration)
    else
      match FindRow(t.crash, round.id)
      case Some(i) =>
        if !t.crash[i].crash || t.crash[i].wallet != round.wallet || t.crash[i].riskRulesHash != rules.rulesHash || t.crash[i].amount != pot
        then Err(IdempotencyMismatch) else Ok(t)
      case None =>
        match Admission(t, rules, house, round.wallet, 0, pot)
        case Some(e) => Err(e)
        case None =>
          match Append(t.ledger, CreatedKey(round.id), pot, 1)
          case Err(e) => Err(e)
          case Ok(ledger) =>
            var row := Reservation(true, round.id, round.wallet, rules.rulesHash, pot, 1, Reserved, 1);
            Ok(t.(crash := t.crash + [row], ledger := ledger))
  }

  /** Release the reservation of a round that ends; already released is accepted. */
  function Release(t: Tables, round: Bound, stage: nat): Result<Tables, RiskError> {
    match FindRow(t.crash, round.id)
    case None => Err(Configuration)
    case Some(i) =>
      var row := t.crash[i];
      if !row.crash || row.wallet != round.wallet || row.riskRulesHash != round.rulesHash then Err(IdempotencyMismatch)
      else if !IsActive(row.status) then Ok(t)
      else
        match Append(t.ledger, ReleasedKey(round.id), row.amount, stage)
        case Err(e) => Err(e)
        case Ok(ledger) =>
          Ok(t.(crash := t.crash[i := row.(status := Released, version := row.version + 1)], ledger := ledger))
  }

  /** A transition as the gate sees it. */
  datatype Move = Move(acceptsRisk: bool, health: Option<Health>, nextPot: nat, nextStage: nat, terminal: bool, now: int)

  /** The limits checked before any row is read. */
  function EnvelopeError(rules: RiskRules, round: Bound, move: Move): Option<RiskError> {
    if round.rulesHash != rules.rulesHash || round.rulesVersion != rules.rulesVersion then Some(Configuration)
    else if move.nextPot > MAX_U64 then Some(Configuration)
    else if move.acceptsRisk then
      if !Healthy(move.health, rules, move.now) then Some(UnhealthyEvidence)
      else if move.nextStage == 0 || move.nextStage > rules.maxStage then Some(StageLimit)
      else if round.expiresAt <= move.now then Some(Duration)
      else None
    else if move.nextStage > rules.maxStage || move.nextPot > rules.maxPot then Some(PotLimit)
    else None
  }

  /** Raise an active reservation to the next pot and record the adjustment. */
  function Adjust(t: Tables, i: nat, round: Bound, move: Move): Result<Tables, RiskError>
    requires i < |t.crash|
  {
    var row := t.crash[i];
    if move.nextPot == row.amount then Ok(t)
    else
      match Append(t.ledger, AdjustedKey(round.id, move.nextStage), move.nextPot, move.nextStage)
      case Err(e) => Err(e)
      case Ok(ledger) =>
        var row' := row.(amount := move.nextPot, tier := move.nextStage, version := row.version + 1);
        Ok(t.(crash := t.crash[i := row'], ledger := ledger))
  }

  function ApplyMove(t: Tables, rules: RiskRules, house: House, round: Bound, move: Move): Result<Tables, RiskError> {
    match EnvelopeError(rules, round, move)
    case Some(e) => Err(e)
    case None =>
      match FindRow(t.crash, round.id)
      case None => Err(Configuration)
      case Some(i) =>
        var row := t.crash[i];
        if !row.crash || row.wallet != round.wallet || row.riskRulesHash != rules.rulesHash then Err(IdempotencyMismatch)
        else if !IsActive(row.status) then (if move.terminal then Ok(t) else Err(Configuration))
        else
          var refused := if move.acceptsRisk then Admission(t, rules, house, row.wallet, row.amount, move.nextPot) else None;
          if refused.Some? then Err(refused.value)
          else if move.terminal then Release(t, round, move.nextStage)
          else Adjust(t, i, round, move)
  }

  // ---------------------------------------------------------------- sums under one-row changes

  lemma {:induction false} ExposureAfterUpdate(rows: seq<Reservation>, i: nat, row: Reservation)
    requires i < |rows|
    ensures TotalExposure(rows[i := row]) == TotalExposure(rows) - Exposure(rows[i]) + Exposure(row)
  {
    var n := |rows| - 1;
    if i == n {
      assert rows[i := row][..n] == rows[..n];
    } else {
      assert rows[i := row][..n] == rows[..n][i := row];
      ExposureAfterUpdate(rows[..n], i, row);
    }
  }

  lemma {:induction false} WalletExposureAfterUpdate(rows: seq<Reservation>, i: nat, row: Reservation, wallet: Wallet)
    requires i < |rows|
    ensures WalletExposureOf(rows[i := row], wallet)
            == WalletExposureOf(rows, wallet) - WalletShare(rows[i], wallet) + WalletShare(row, wallet)
  {
    var n := |rows| - 1;
    if i == n {
      assert rows[i := row][..n] == rows[..n];
    } else {
      assert rows[i := row][..n] == rows[..n][i := row];
      WalletExposureAfterUpdate(rows[..n], i, row, wallet);
    }
  }

  lemma ExposureAfterAppend(rows: seq<Reservation>, row: Reservation, wallet: Wallet)
    ensures TotalExposure(rows + [row]) == TotalExposure(rows) + Exposure(row)
    ensures WalletExposureOf(rows + [row], wallet) == WalletExposureOf(rows, wallet) + WalletShare(row, wallet)
  {
    assert (rows + [row])[..|rows|] == rows;
  }

  // ---------------------------------------------------------------- repeating a step

  lemma ReserveShape(t: Tables, rules: RiskRules, house: House, health: Option<Health>, now: int, round: Bound, pot: nat)
    requires FindRow(t.crash, round.id).None? && Reserve(t, rules, house, health, now, round, pot).Ok?
    ensures var after := Reserve(t, rules, house, health, now, round, pot).value;
            && after.crash == t.crash + [Reservation(true, round.id, round.wallet, rules.rulesHash, pot, 1, Reserved, 1)]
            && round.rulesHash == rules.rulesHash && round.rulesVersion == rules.rulesVersion && rules.maxStage >= 1
  {
    hide Healthy, Admission, HasKey, FindRow;
  }

  lemma ReserveFinds(t: Tables, rules: RiskRules, house: House, health: Option<Health>, now: int, round: Bound, pot: nat, i: nat)
    requires FindRow(t.crash, round.id) == Some(i) && Healthy(health, rules, now) && now < round.expiresAt && pot <= MAX_U64
    requires round.rulesHash == rules.rulesHash && round.rulesVersion == rules.rulesVersion && rules.maxStage >= 1
    requires t.crash[i].crash && t.crash[i].wallet == round.wallet && t.crash[i].riskRulesHash == rules.rulesHash
    ensures Reserve(t, rules, house, health, now, round, pot) == if t.crash[i].amount == pot then Ok(t) else Err(IdempotencyMismatch)
  {
    hide Healthy, Admission, HasKey, FindRow;
  }

  lemma FindAppended(rows: seq<Reservation>, row: Reservation)
    ensures FindRow(rows + [row], row.roundId) == Some(|rows|)
  {
  }

  /** Reserving a reserved round again changes nothing for the same pot, whatever the house has become, and is refused for any other. */
  lemma ReserveIsIdempotent(t: Tables, rules: RiskRules, house: House, health: Option<Health>, now: int, round: Bound, pot: nat,
                            house': House, health': Option<Health>, now': int, pot': nat)
    requires FindRow(t.crash, round.id).None? && Reserve(t, rules, house, health, now, round, pot).Ok?
    requires Healthy(health', rules, now') && now' < round.expiresAt && pot' <= MAX_U64
    ensures var after := Reserve(t, rules, house, health, now, round, pot).value;
            Reserve(after, rules, house', health', now', round, pot') == if pot' == pot then Ok(after) else Err(IdempotencyMismatch)
  {
    hide *;
    ReserveShape(t, rules, house, health, now, round, pot);
    FindAppended(t.crash, Reservation(true, round.id, round.wallet, rules.rulesHash, pot, 1, Reserved, 1));
    ReserveFinds(Reserve(t, rules, house, health, now, round, pot).value, rules, house', health', now', round, pot', |t.crash|);
  }

  /** Releasing again, at whatever stage, changes nothing. */
  lemma ReleaseIsIdempotent(t: Tables, round: Bound, stage: nat, again: nat)
    requires Release(t, round, stage).Ok?
    ensures var after := Release(t, round, stage).value; Release(after, round, again) == Ok(after)
  {
    hide HasKey;
    var i := FindRow(t.crash, round.id).value;
    if IsActive(t.crash[i].status) {
      FindUpdated(t.crash, i, t.crash[i].(status := Released, version := t.crash[i].version + 1));
    }
  }

  lemma {:induction false} FindUpdated(rows: seq<Reservation>, i: nat, row: Reservation)
    requires FindRow(rows, row.roundId) == Some(i) && rows[i].roundId == row.roundId
    ensures FindRow(rows[i := row], row.roundId) == Some(i)
  {
    var n := |rows| - 1;
    if i < n {
      assert rows[i := row][..n] == rows[..n][i := row];
      FindUpdated(rows[..n], i, row);
    }
  }

  // ---------------------------------------------------------------- what admission means

  predicate HouseOpen(house: House) {
    house.configured && !house.paused && house.snapshotUsable
  }

  /** The house is open, takes the rules' treasury cap, and allows at least one reservation a wallet and a tier. */
  predicate HouseReady(rules: RiskRules, house: House) {
    && HouseOpen(house) && rules.maxTreasuryExposure <= house.maxTotalExposure
    && 0 < house.maxActivePerWallet && 0 < house.maxConcurrentPerTier
  }

  /** The exposure of every source together is within the house's limits. */
  predicate WithinHouse(t: Tables, house: House) {
    var exposure := TotalExposure(t.crash) + TotalExposure(t.others);
    && house.dailyLoss + exposure <= house.dailyLossLimit && exposure <= house.maxTotalExposure
    && exposure + house.minimumLiquidity <= house.balance && exposure <= house.delegated
  }

  /** The exposure of every source together, for the wallet and in all, is within the rules' caps. */
  predicate WithinRules(t: Tables, rules: RiskRules, wallet: Wallet) {
    && WalletExposureOf(t.crash, wallet) + WalletExposureOf(t.others, wallet) <= rules.maxWalletExposure
    && TotalExposure(t.crash) + TotalExposure(t.others) <= rules.maxTreasuryExposure
  }

  /** `after` holds the changed row: the pot is within its limit, the house ready, and every limit met by what the tables then hold. */
  predicate Affordable(after: Tables, rules: RiskRules, house: House, wallet: Wallet, pot: nat) {
    pot <= rules.maxPot && HouseReady(rules, house) && WithinRules(after, rules, wallet) && WithinHouse(after, house)
  }

  /** The refusal the changed tables call for, in the order in which the limits are checked. */
  function Shortfall(after: Tables, rules: RiskRules, house: House, wallet: Wallet, pot: nat): RiskError {
    if pot > rules.maxPot then PotLimit
    else if !HouseOpen(house) || rules.maxTreasuryExposure > house.maxTotalExposure then Configuration
    else if WalletExposureOf(after.crash, wallet) + WalletExposureOf(after.others, wallet) > rules.maxWalletExposure then WalletExposure
    else TreasuryExposure
  }

  lemma {:induction false} ExposureAtLeast(rows: seq<Reservation>, i: nat)
    requires i < |rows|
    ensures TotalExposure(rows) >= Exposure(rows[i]) && WalletExposureOf(rows, rows[i].wallet) >= Exposure(rows[i])
  {
    if i < |rows| - 1 {
      ExposureAtLeast(rows[..|rows| - 1], i);
    }
  }

  /**
   Changing an active reservation is admitted exactly when the tables with the
   changed row are affordable, and otherwise refused for the first limit they
   break; the branch for an inconsistent ledger is never taken.
   */
  lemma {:induction false} RaiseAdmittedExactly(t: Tables, rules: RiskRules, house: House, i: nat, row: Reservation)
    requires i < |t.crash| && IsActive(t.crash[i].status) && IsActive(row.status) && row.wallet == t.crash[i].wallet
    ensures var after, refused := t.(crash := t.crash[i := row]), Admission(t, rules, house, row.wallet, t.crash[i].amount, row.amount);
            && (refused.None? <==> Affordable(after, rules, house, row.wallet, row.amount))
            && (refused.Some? ==> refused.value == Shortfall(after, rules, house, row.wallet, row.amount))
    ensures TotalExposure(t.crash) >= t.crash[i].amount && WalletExposureOf(t.crash, row.wallet) >= t.crash[i].amount
  {
    ExposureAtLeast(t.crash, i);
    ExposureAfterUpdate(t.crash, i, row);
    WalletExposureAfterUpdate(t.crash, i, row, row.wallet);
  }

  /** A new reservation likewise, on the tables with its row appended. */
  lemma {:induction false} AppendAdmittedExactly(t: Tables, rules: RiskRules, house: House, row: Reservation)
    requires IsActive(row.status)
    ensures var after, refused := t.(crash := t.crash + [row]), Admission(t, rules, house, row.wallet, 0, row.amount);
            && (refused.None? <==> Affordable(after, rules, house, row.wallet, row.amount))
            && (refused.Some? ==> refused.value == Shortfall(after, rules, house, row.wallet, row.amount))
  {
    ExposureAfterAppend(t.crash, row, row.wallet);
  }

  /** Both committed caps hold for the Crash rows, whatever the other sources do. */
  ghost predicate WithinCaps(crash: seq<Reservation>, rules: RiskRules) {
    && TotalExposure(crash) <= rules.maxTreasuryExposure
    && forall wallet :: WalletExposureOf(crash, wallet) <= rules.maxWalletExposure
  }

  /** Any admitted change of row `i` to `row` keeps both caps. */
  lemma AdmittedUpdateWithinCaps(t: Tables, rules: RiskRules, house: House, i: nat, row: Reservation)
    requires i < |t.crash| && WithinCaps(t.crash, rules)
    requires IsActive(t.crash[i].status) && IsActive(row.status) && row.wallet == t.crash[i].wallet
    requires Admission(t, rules, house, row.wallet, t.crash[i].amount, row.amount).None?
    ensures WithinCaps(t.crash[i := row], rules)
  {
    ExposureAfterUpdate(t.crash, i, row);
    var after := t.crash[i := row];
    forall wallet ensures WalletExposureOf(after, wallet) <= rules.maxWalletExposure {
      WalletExposureAfterUpdate(t.crash, i, row, wallet);
    }
  }

  lemma ReleasedUpdateWithinCaps(crash: seq<Reservation>, rules: RiskRules, i: nat, row: Reservation)
    requires i < |crash| && WithinCaps(crash, rules)
    requires !IsActive(row.status)
    ensures WithinCaps(crash[i := row], rules)
  {
    ExposureAfterUpdate(crash, i, row);
    var after := crash[i := row];
    forall wallet ensures WalletExposureOf(after, wallet) <= rules.maxWalletExposure {
      WalletExposureAfterUpdate(crash, i, row, wallet);
    }
  }

  lemma AdmittedAppendWithinCaps(t: Tables, rules: RiskRules, house: House, row: Reservation)
    requires WithinCaps(t.crash, rules) && IsActive(row.status)
    requires Admission(t, rules, house, row.wallet, 0, row.amount).None?
    ensures WithinCaps(t.crash + [row], rules)
  {
    ExposureAfterAppend(t.crash, row, row.wallet);
    var after := t.crash + [row];
    forall wallet ensures WalletExposureOf(after, wallet) <= rules.maxWalletExposure {
      ExposureAfterAppend(t.crash, row, wallet);
    }
  }

  // ---------------------------------------------------------------- ledger replay

  /** What one round's ledger entries say about its reservation. */
  datatype Replayed = Replayed(amount: nat, stage: nat, released: bool)

  function ReplayEntry(before: map<string, Replayed>, entry: LedgerEntry): map<string, Replayed> {
    var id := entry.key.roundId;
    var stage := if entry.key.ReleasedKey? && id in before then before[id].stage else entry.stage;
    before[id := Replayed(entry.amount, stage, entry.key.ReleasedKey?)]
  }

  /** Fold the append-only ledger back into the reservation table. */
  function Replay(ledger: seq<LedgerEntry>): map<string, Replayed> {
    if ledger == [] then map[] else ReplayEntry(Replay(ledger[..|ledger| - 1]), ledger[|ledger| - 1])
  }

  lemma ReplayAppend(ledger: seq<LedgerEntry>, entry: LedgerEntry)
    ensures Replay(ledger + [entry]) == ReplayEntry(Replay(ledger), entry)
  {
    assert (ledger + [entry])[..|ledger|] == ledger;
  }
}
