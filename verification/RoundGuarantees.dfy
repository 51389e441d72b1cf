/** Exposure, caps, exits and rounding on every run. */
module RoundGuarantees {
  import opened Support
  import opened Calculators
  import opened Treasury
  import opened Rounds
  import opened RoundInvariants
  import opened RoundSteps
  import opened RoundRuns

  // ---------------------------------------------------------------- exposure

  /** The pots at stake: those of the active rounds. */
  function ActivePots(rounds: seq<Round>): nat {
    if rounds == [] then 0
    else
      var last := rounds[|rounds| - 1];
      ActivePots(rounds[..|rounds| - 1]) + (if last.status == Active then last.pot else 0)
  }

  lemma {:induction false} ExposureEqualsPots(rules: Rules, rounds: seq<Round>, crash: seq<Reservation>)
    requires AllSlots(rules, rounds, crash)
    ensures TotalExposure(crash) == ActivePots(rounds)
  {
    if rounds != [] {
      var n := |rounds| - 1;
      assert Slot(rules, rounds[n], crash[n]);
      PhaseGivesExposure(rules, rounds[n], crash[n]);
      hide Slot;
      ExposureEqualsPots(rules, rounds[..n], crash[..n]);
    }
  }

  lemma PhaseGivesExposure(rules: Rules, round: Round, row: Reservation)
    requires Slot(rules, round, row)
    ensures Exposure(row) == if round.status == Active then round.pot else 0
  {
  }

  /**
   On every run, whatever the other treasury sources do: the reserved Crash
   exposure is exactly the sum of the active pots, and both committed caps hold.
   */
  lemma ExposureConserved(rules: Rules, steps: seq<Step>)
    requires ValidRules(rules)
    ensures var db := Run(rules, steps);
            && TotalExposure(db.tables.crash) == ActivePots(db.rounds) <= rules.risk.maxTreasuryExposure
            && forall wallet :: WalletExposureOf(db.tables.crash, wallet) <= rules.risk.maxWalletExposure
  {
    EveryRunIsSound(rules, steps);
    var db := Run(rules, steps);
    ExposureEqualsPots(rules, db.rounds, db.tables.crash);
  }

  /** Folding the treasury ledger gives back every reservation, and no ledger key is written twice. */
  lemma {:induction false} LedgerReconstructsReservations(rules: Rules, steps: seq<Step>, i: nat)
    requires ValidRules(rules) && i < |Run(rules, steps).rounds|
    ensures var db := Run(rules, steps);
            && |db.tables.crash| == |db.rounds|
            && db.rounds[i].id in Replay(db.tables.ledger)
            && Replay(db.tables.ledger)[db.rounds[i].id]
               == Replayed(db.tables.crash[i].amount, db.tables.crash[i].tier, db.tables.crash[i].status == Released)
            && forall a, b :: 0 <= a < b < |db.tables.ledger| ==> db.tables.ledger[a].key != db.tables.ledger[b].key
  {
    EveryRunIsSound(rules, steps);
    var db := Run(rules, steps);
    hide Replay, AllSlots, Aligned, WithinCaps;
    forall a, b | 0 <= a < b < |db.tables.ledger| ensures db.tables.ledger[a].key != db.tables.ledger[b].key {
      LedgerKeysDistinct(db.tables.ledger, a, b);
    }
  }

  // ---------------------------------------------------------------- always an exit

  /** Everything a step of an active round rests on. */
  ghost predicate ActiveSlot(db: Database, rules: Rules, i: nat) {
    && i < |db.rounds|
    && var round := db.rounds[i];
    && round.status == Active && round.deadline.Some? && round.deadline.value <= round.riskExpiresAt
    && round.version == round.stage && Bounded(rules, round)
    && FindRound(db.rounds, round.id) == Some(i)
    && RowReady(db.tables, i, round)
  }

  lemma {:induction false} ActiveSlotOf(db: Database, rules: Rules, i: nat)
    requires Sound(db, rules) && i < |db.rounds| && db.rounds[i].status == Active
    ensures ActiveSlot(db, rules, i)
  {
    SlotOf(db, rules, i);
    ActiveRowReady(db, rules, i);
    FoundIsUnique(db.rounds, db.tables.crash, i);
    hide Sound, RowReady, LedgerAccepted, OutcomesInOrder, PotAccounted;
  }

  lemma {:induction false} RunActiveSlot(rules: Rules, steps: seq<Step>, i: nat)
    requires ValidRules(rules) && i < |Run(rules, steps).rounds| && Run(rules, steps).rounds[i].status == Active
    ensures ActiveSlot(Run(rules, steps), rules, i)
  {
    EveryRunIsSound(rules, steps);
    hide Run, Sound, ActiveSlot;
    ActiveSlotOf(Run(rules, steps), rules, i);
  }

  /** Past the row lookup and the replay check, an attempt is the transaction body. */
  lemma AttemptIsDecideOn(db: Database, rules: Rules, house: House, i: nat, decision: Decision, now: int, effect: Effect)
    requires ValidRules(rules) && i < |db.rounds| && FindRound(db.rounds, db.rounds[i].id) == Some(i)
    requires Malformed(decision).None? && FindTransition(db.rounds[i].transitions, decision.key).None?
    requires forall k :: 0 <= k < |rules.stages| ==> rules.stages[k].potContributionBps >= 0
    ensures AttemptDecision(db, rules, house, db.rounds[i].id, decision, now, effect) == DecideOn(db, i, rules, house, decision, now, effect)
  {
  }

  lemma StagesAreValid(rules: Rules)
    requires ValidRules(rules)
    ensures forall k :: 0 <= k < |rules.stages| ==> rules.stages[k].potContributionBps >= 0
  {
    assert forall k :: 0 <= k < |rules.stages| ==> ValidStage(rules.stages[k]);
  }

  /** A cash-out of the whole pot at the current stage and version. */
  function ExitOf(round: Round, key: TransitionKey): Decision {
    CashOut(round.stage, round.version, key, round.pot)
  }

  function ExitedRound(rules: Rules, round: Round, key: TransitionKey, now: int): Round {
    Advance(rules, round, ExitOf(round, key),
            Next(RoundCashedOut, CashedOut, round.stage, round.pot, None, Some(now), Some(PlayerCashOut), None, Some(round.pot)))
  }

  lemma ExitMoves(db: Database, rules: Rules, house: House, i: nat, now: int)
    requires ValidRules(rules) && ActiveSlot(db, rules, i)
    ensures var round := db.rounds[i];
            ApplyMove(db.tables, rules.risk, house, BoundOf(round), Move(false, None, round.pot, round.stage, true, now))
            == Ok(Changed(db.tables, i, ReleasedAt(round.stage)))
  {
    var round := db.rounds[i];
    MoveIsRowChange(db.tables, rules.risk, house, i, round, Move(false, None, round.pot, round.stage, true, now));
    hide ApplyMove, RowReady;
  }

  lemma ExitDecided(db: Database, rules: Rules, house: House, i: nat, key: TransitionKey, now: int)
    requires ValidRules(rules) && ActiveSlot(db, rules, i)
    requires forall k :: 0 <= k < |rules.stages| ==> rules.stages[k].potContributionBps >= 0
    ensures DecideOn(db, i, rules, house, ExitOf(db.rounds[i], key), now, NoEffect)
            == if now < db.rounds[i].deadline.value
               then Committed(Database(db.rounds[i := ExitedRound(rules, db.rounds[i], key, now)],
                                       Changed(db.tables, i, ReleasedAt(db.rounds[i].stage)), db.intents))
               else Rejected(DeadlineExpired)
  {
    ExitMoves(db, rules, house, i, now);
    hide ApplyMove, RowReady, Changed;
  }

  /**
   In every reachable active round a cash-out of the whole pot is accepted before
   the deadline and only then, whatever the house's pause switch, health and caps.
   */
  lemma {:induction false} AlwaysAnExit(rules: Rules, steps: seq<Step>, house: House, i: nat, key: TransitionKey, now: int)
    requires ValidRules(rules) && i < |Run(rules, steps).rounds| && Run(rules, steps).rounds[i].status == Active
    requires FindTransition(Run(rules, steps).rounds[i].transitions, key).None?
    ensures var db := Run(rules, steps);
            var verdict := AttemptDecision(db, rules, house, db.rounds[i].id, ExitOf(db.rounds[i], key), now, NoEffect);
            && db.rounds[i].deadline.Some?
            && (verdict.Committed? <==> now < db.rounds[i].deadline.value)
            && (verdict.Committed? ==>
                  && |verdict.db.rounds| == |db.rounds| && verdict.db.rounds[i].status == CashedOut
                  && Proceeds(verdict.db.rounds[i]) == db.rounds[i].pot)
  {
    RunActiveSlot(rules, steps, i);
    StagesAreValid(rules);
    var db := Run(rules, steps);
    ExitDecided(db, rules, house, i, key, now);
    hide Run, AttemptDecision, DecideOn, RowReady, FindRound, FindTransition;
    AttemptIsDecideOn(db, rules, house, i, ExitOf(db.rounds[i], key), now, NoEffect);
  }

  function CandidateOf(round: Round): Candidate
    requires round.deadline.Some?
  {
    Candidate(round.id, round.stage, round.version, round.deadline.value)
  }

  lemma DefaultDecided(db: Database, rules: Rules, i: nat, now: int)
    requires ActiveSlot(db, rules, i)
    ensures ApplyDefault(db, CandidateOf(db.rounds[i]), now).Committed?
            <==> now >= db.rounds[i].deadline.value
                 && FindTransition(db.rounds[i].transitions, DeadlineKey(db.rounds[i].stage, db.rounds[i].deadline.value)).None?
  {
    ReleaseIsRowChange(db.tables, i, db.rounds[i], db.rounds[i].stage);
    hide RowReady, Release, Changed, Bounded;
  }

  /**
   From the deadline on the default is accepted exactly when its own transition
   key is unused; nothing about the treasury can stop it.
   */
  lemma {:induction false} DefaultAcceptedExactly(rules: Rules, steps: seq<Step>, i: nat, now: int)
    requires ValidRules(rules) && i < |Run(rules, steps).rounds| && Run(rules, steps).rounds[i].status == Active
    ensures var db := Run(rules, steps);
            && db.rounds[i].deadline.Some?
            && (ApplyDefault(db, CandidateOf(db.rounds[i]), now).Committed?
                <==> now >= db.rounds[i].deadline.value
                     && FindTransition(db.rounds[i].transitions, DeadlineKey(db.rounds[i].stage, db.rounds[i].deadline.value)).None?)
  {
    RunActiveSlot(rules, steps, i);
    hide Run, ApplyDefault, RowReady, FindRound;
    DefaultDecided(Run(rules, steps), rules, i, now);
  }

  lemma KeyIsFound(transitions: seq<Transition>, k: nat)
    requires k < |transitions|
    ensures FindTransition(transitions, transitions[k].key).Some?
  {
  }

  /**
   A direct caller of the stage state may name a decision after the deadline key
   of the stage it opens; that stage is then never defaulted.
   */
  lemma TakenKeyBlocksDefault(db: Database, rules: Rules, i: nat, decision: Decision, next: Next, later: int)
    requires i < |db.rounds| && next.status == Active && next.deadline.Some?
    requires FindRound(db.rounds, db.rounds[i].id) == Some(i)
    requires decision.key == DeadlineKey(next.stage, next.deadline.value)
    ensures var round' := Advance(rules, db.rounds[i], decision, next);
            forall after: Database | after.rounds == db.rounds[i := round'] :: !ApplyDefault(after, CandidateOf(round'), later).Committed?
  {
    var round' := Advance(rules, db.rounds[i], decision, next);
    KeyIsFound(round'.transitions, |db.rounds[i].transitions|);
    hide FindTransition, Release;
    forall after: Database | after.rounds == db.rounds[i := round'] ensures !ApplyDefault(after, CandidateOf(round'), later).Committed? {
      FindReplaced(db.rounds, i, round');
    }
  }

  lemma {:induction false} FindReplaced(rounds: seq<Round>, i: nat, round': Round)
    requires i < |rounds| && round'.id == rounds[i].id && FindRound(rounds, rounds[i].id) == Some(i)
    ensures FindRound(rounds[i := round'], rounds[i].id) == Some(i)
  {
    var n := |rounds| - 1;
    if i < n {
      assert rounds[i := round'][..n] == rounds[..n][i := round'];
      FindReplaced(rounds[..n], i, round');
    }
  }

  /** Active, with the deadline key of its current stage already in the ledger. */
  predicate Blocked(round: Round) {
    round.status == Active && round.deadline.Some?
    && FindTransition(round.transitions, DeadlineKey(round.stage, round.deadline.value)).Some?
  }

  /** The step comes after the round's deadline, and a worker's candidate carries the deadline it read with the version. */
  predicate AfterDeadline(step: Step, round: Round)
    requires round.deadline.Some?
  {
    && (step.Take? && step.id == round.id ==> step.now >= round.deadline.value)
    && (step.Expire? && step.candidate.id == round.id && step.candidate.version == round.version ==>
          step.candidate.deadline == round.deadline.value)
  }

  lemma BlockedDefaultFails(db: Database, i: nat, candidate: Candidate, now: int)
    requires i < |db.rounds| && Blocked(db.rounds[i]) && FindRound(db.rounds, db.rounds[i].id) == Some(i)
    requires candidate.id == db.rounds[i].id
    requires candidate.version == db.rounds[i].version ==> candidate.deadline == db.rounds[i].deadline.value
    ensures !ApplyDefault(db, candidate, now).Committed?
  {
    hide FindTransition, Release;
  }

  lemma LateDecisionFails(db: Database, rules: Rules, house: House, i: nat, decision: Decision, now: int, effect: Effect)
    requires ValidRules(rules) && i < |db.rounds| && FindRound(db.rounds, db.rounds[i].id) == Some(i)
    requires db.rounds[i].deadline.Some? && now >= db.rounds[i].deadline.value
    ensures !AttemptDecision(db, rules, house, db.rounds[i].id, decision, now, effect).Committed?
  {
    hide FindTransition, Resolve, ApplyMove, RunEffect;
  }

  lemma StepKeepsBlocked(db: Database, rules: Rules, step: Step, i: nat)
    requires ValidRules(rules) && i < |db.rounds| && FindRound(db.rounds, db.rounds[i].id) == Some(i)
    requires Blocked(db.rounds[i]) && AfterDeadline(step, db.rounds[i])
    ensures i < |After(db, rules, step).rounds| && After(db, rules, step).rounds[i] == db.rounds[i]
  {
    hide Blocked, ApplyMove, Resolve, Reserve, Release, RunEffect, FindTransition, Advance, Forfeit;
    BlockedIsActive(db.rounds[i]);
    match step
    case Take(house, id, decision, now, effect) =>
      if id == db.rounds[i].id {
        LateDecisionFails(db, rules, house, i, decision, now, effect);
      }
    case Expire(candidate, now) =>
      if candidate.id == db.rounds[i].id {
        BlockedDefaultFails(db, i, candidate, now);
      }
    case _ =>
  }

  lemma BlockedIsActive(round: Round)
    requires Blocked(round)
    ensures round.status == Active && round.deadline.Some?
  {
  }

  /**
   Past its deadline a blocked round is held for ever: no later step of any run
   changes it, and its reservation stays active at the pot.
   */
  lemma {:induction false} BlockedIsHeldForever(rules: Rules, steps: seq<Step>, k: nat, i: nat)
    requires ValidRules(rules) && k <= |steps| && i < |Run(rules, steps[..k]).rounds| && Blocked(Run(rules, steps[..k]).rounds[i])
    requires forall j :: k <= j < |steps| ==> AfterDeadline(steps[j], Run(rules, steps[..k]).rounds[i])
    ensures var db := Run(rules, steps);
            && i < |db.rounds| && i < |db.tables.crash| && db.rounds[i] == Run(rules, steps[..k]).rounds[i]
            && db.tables.crash[i].status == Reserved && db.tables.crash[i].amount == db.rounds[i].pot
  {
    hide Blocked, AfterDeadline;
    if k < |steps| {
      var init := steps[..|steps| - 1];
      assert init[..k] == steps[..k];
      BlockedIsHeldForever(rules, init, k, i);
      EveryRunIsSound(rules, init);
      FoundIsUnique(Run(rules, init).rounds, Run(rules, init).tables.crash, i);
      hide Sound;
      StepKeepsBlocked(Run(rules, init), rules, steps[|steps| - 1], i);
    } else {
      assert steps[..k] == steps;
    }
    BlockedIsActive(Run(rules, steps[..k]).rounds[i]);
    hide Run;
    HeldRow(rules, steps, i);
  }

  lemma HeldRow(rules: Rules, steps: seq<Step>, i: nat)
    requires ValidRules(rules) && i < |Run(rules, steps).rounds| && Run(rules, steps).rounds[i].status == Active
    ensures var db := Run(rules, steps);
            i < |db.tables.crash| && db.tables.crash[i].status == Reserved && db.tables.crash[i].amount == db.rounds[i].pot
  {
    EveryRunIsSound(rules, steps);
    hide Run;
    ActiveRowReady(Run(rules, steps), rules, i);
    hide Sound;
  }

  // ---------------------------------------------------------------- refusals that cannot happen

  predicate Unreachable(verdict: Verdict) {
    || verdict == Rejected(RiskRejected(Duration)) || verdict == Rejected(RiskRejected(LedgerKeyTaken))
    || verdict == Rejected(RiskRejected(IdempotencyMismatch))
  }

  lemma MoveNeverRefusesDuration(db: Database, rules: Rules, house: House, i: nat, move: Move)
    requires ActiveSlot(db, rules, i) && move.now < db.rounds[i].riskExpiresAt
    requires !move.terminal ==> move.nextStage == db.rounds[i].stage + 1
    ensures var moved := ApplyMove(db.tables, rules.risk, house, BoundOf(db.rounds[i]), move);
            moved != Err(Duration) && moved != Err(LedgerKeyTaken) && moved != Err(IdempotencyMismatch)
  {
    MoveIsRowChange(db.tables, rules.risk, house, i, db.rounds[i], move);
    hide ApplyMove, RowReady, Changed;
  }

  lemma DecideOnNeverRefusesDuration(db: Database, rules: Rules, house: House, i: nat, decision: Decision, now: int, effect: Effect)
    requires ValidRules(rules) && ActiveSlot(db, rules, i)
    requires forall k :: 0 <= k < |rules.stages| ==> rules.stages[k].potContributionBps >= 0
    ensures !Unreachable(DecideOn(db, i, rules, house, decision, now, effect))
  {
    var round := db.rounds[i];
    if Guard(round, rules, decision, now).None? && Resolve(rules, round, decision, now).Ok? {
      var next := Resolve(rules, round, decision, now).value;
      ResolveGivesFacts(rules, round, decision, now);
      MoveNeverRefusesDuration(db, rules, house, i, MoveFor(decision, next, now));
    }
    hide ApplyMove, RowReady, Resolve, NextFacts, RunEffect, Advance, Bounded;
    RefusalsOfDecideOn(db, rules, house, i, decision, now, effect);
  }

  /** A refused transaction body was refused by its guard, its calculation, the gate or the effect. */
  lemma RefusalsOfDecideOn(db: Database, rules: Rules, house: House, i: nat, decision: Decision, now: int, effect: Effect)
    requires i < |db.rounds| && db.rounds[i].status == Active
    requires forall k :: 0 <= k < |rules.stages| ==> rules.stages[k].potContributionBps >= 0
    ensures var verdict := DecideOn(db, i, rules, house, decision, now, effect);
            Unreachable(verdict) ==>
              && Guard(db.rounds[i], rules, decision, now).None? && Resolve(rules, db.rounds[i], decision, now).Ok?
              && var next := Resolve(rules, db.rounds[i], decision, now).value;
                 ApplyMove(db.tables, rules.risk, house, BoundOf(db.rounds[i]), MoveFor(decision, next, now)) == Err(verdict.error.risk)
  {
    hide ApplyMove;
  }

  /** The gate's duration, ledger-key and binding refusals are unreachable from a decision: the deadline check comes first. */
  lemma {:induction false} DurationRefusalUnreachable(rules: Rules, steps: seq<Step>, house: House, id: string, decision: Decision, now: int, effect: Effect)
    requires ValidRules(rules)
    ensures !Unreachable(AttemptDecision(Run(rules, steps), rules, house, id, decision, now, effect))
  {
    hide Run, ActiveSlot, ApplyMove, Resolve, RunEffect, FindRound, FindTransition, Advance, ValidRules;
    var db := Run(rules, steps);
    StagesAreValid(rules);
    var found := FindRound(db.rounds, id);
    if found.Some? && db.rounds[found.value].status == Active {
      RunActiveSlot(rules, steps, found.value);
      DecideOnNeverRefusesDuration(db, rules, house, found.value, decision, now, effect);
    }
  }

  /** When the risk envelope is shorter than the stage list, a continue from its last stage commits only as a bust. */
  lemma {:induction false} LastRiskStageOnlyBusts(rules: Rules, steps: seq<Step>, house: House, i: nat, decision: Decision, now: int, effect: Effect)
    requires ValidRules(rules) && i < |Run(rules, steps).rounds| && decision.Continue?
    requires Run(rules, steps).rounds[i].stage == rules.risk.maxStage < |rules.stages|
    ensures var db := Run(rules, steps);
            var verdict := AttemptDecision(db, rules, house, db.rounds[i].id, decision, now, effect);
            verdict.Committed? ==> |verdict.db.rounds| == |db.rounds| && verdict.db.rounds[i].status == Busted
  {
    var db := Run(rules, steps);
    StagesAreValid(rules);
    LastStageBusts(db, rules, house, i, decision, now, effect);
    EveryRunIsSound(rules, steps);
    FoundIsUnique(db.rounds, db.tables.crash, i);
    hide *;
    if AttemptDecision(db, rules, house, db.rounds[i].id, decision, now, effect).Committed? {
      CommittedAttempt(db, rules, house, i, decision, now, effect);
    }
  }

  lemma CommittedAttempt(db: Database, rules: Rules, house: House, i: nat, decision: Decision, now: int, effect: Effect)
    requires ValidRules(rules) && i < |db.rounds| && FindRound(db.rounds, db.rounds[i].id) == Some(i)
    requires forall k :: 0 <= k < |rules.stages| ==> rules.stages[k].potContributionBps >= 0
    requires AttemptDecision(db, rules, house, db.rounds[i].id, decision, now, effect).Committed?
    ensures AttemptDecision(db, rules, house, db.rounds[i].id, decision, now, effect) == DecideOn(db, i, rules, house, decision, now, effect)
  {
  }

  lemma LastStageBusts(db: Database, rules: Rules, house: House, i: nat, decision: Decision, now: int, effect: Effect)
    requires ValidRules(rules) && i < |db.rounds| && decision.Continue? && db.rounds[i].stage == rules.risk.maxStage < |rules.stages|
    requires forall k :: 0 <= k < |rules.stages| ==> rules.stages[k].potContributionBps >= 0
    ensures var verdict := DecideOn(db, i, rules, house, decision, now, effect);
            verdict.Committed? ==> |verdict.db.rounds| == |db.rounds| && verdict.db.rounds[i].status == Busted
  {
    var round := db.rounds[i];
    if Resolve(rules, round, decision, now).Ok? {
      var next := Resolve(rules, round, decision, now).value;
      ResolveGivesFacts(rules, round, decision, now);
      if ApplyMove(db.tables, rules.risk, house, BoundOf(round), MoveFor(decision, next, now)).Ok? {
        AcceptedStage(db.tables, rules.risk, house, BoundOf(round), MoveFor(decision, next, now));
      }
    }
    hide Resolve, ApplyMove, RunEffect;
  }

  lemma AcceptedStage(t: Tables, rules: RiskRules, house: House, round: Bound, move: Move)
    requires ApplyMove(t, rules, house, round, move).Ok?
    ensures move.nextStage <= rules.maxStage
  {
    hide FindRow, Admission, Release, Adjust;
  }

  // ---------------------------------------------------------------- risk is only taken when the house admits it

  /** An admitted change of one row, or its release, leaves all sources together within the house and wallet limits. */
  lemma AdmittedWithinHouse(t: Tables, rules: RiskRules, house: House, i: nat, after: nat, row: Reservation)
    requires i < |t.crash| && IsActive(t.crash[i].status) && row.wallet == t.crash[i].wallet && Exposure(row) <= after
    requires Admission(t, rules, house, row.wallet, t.crash[i].amount, after).None?
    ensures HouseOpen(house) && WithinHouse(t.(crash := t.crash[i := row]), house)
    ensures WalletExposureOf(t.crash[i := row], row.wallet) + WalletExposureOf(t.others, row.wallet) <= rules.maxWalletExposure
  {
    ExposureAfterUpdate(t.crash, i, row);
    WalletExposureAfterUpdate(t.crash, i, row, row.wallet);
  }

  lemma ContinueDecidedWithinHouse(db: Database, rules: Rules, house: House, i: nat, decision: Decision, now: int, effect: Effect)
    requires ValidRules(rules) && ActiveSlot(db, rules, i) && decision.Continue? && db.tables.crash[i].amount == db.rounds[i].pot
    requires forall k :: 0 <= k < |rules.stages| ==> rules.stages[k].potContributionBps >= 0
    requires DecideOn(db, i, rules, house, decision, now, effect).Committed?
    ensures Healthy(decision.health, rules.risk, now) && HouseOpen(house)
    ensures WithinHouse(DecideOn(db, i, rules, house, decision, now, effect).db.tables, house)
  {
    hide Resolve, RunEffect, Advance, Admission, ApplyMove, Replay, WellFormedLedger, FindRow, FindRound, WithinHouse, ValidRules;
    var round, row := db.rounds[i], db.tables.crash[i];
    var next := Resolve(rules, round, decision, now).value;
    var move := MoveFor(decision, next, now);
    ResolveGivesFacts(rules, round, decision, now);
    MoveIsRowChange(db.tables, rules.risk, house, i, round, move);
    var row' := ChangedRow(row, ChangeFor(row, move));
    AdmittedWithinHouse(db.tables, rules.risk, house, i, move.nextPot, row');
    OthersUnchanged(db.tables, i, ChangeFor(row, move));
  }

  lemma OthersUnchanged(t: Tables, i: nat, change: RowChange)
    requires i < |t.crash|
    ensures forall house :: WithinHouse(Changed(t, i, change), house) <==>
                            WithinHouse(t.(crash := t.crash[i := ChangedRow(t.crash[i], change)]), house)
  {
  }

  /**
   A continue only commits on fresh healthy evidence, with the house configured
   and not paused, and leaves the exposure of all sources together within the
   house's loss, exposure, liquidity and delegation limits.
   */
  lemma {:induction false} ContinueOnlyWhenAdmitted(rules: Rules, steps: seq<Step>, house: House, i: nat, decision: Decision, now: int, effect: Effect)
    requires ValidRules(rules) && i < |Run(rules, steps).rounds| && decision.Continue?
    requires AttemptDecision(Run(rules, steps), rules, house, Run(rules, steps).rounds[i].id, decision, now, effect).Committed?
    ensures var verdict := AttemptDecision(Run(rules, steps), rules, house, Run(rules, steps).rounds[i].id, decision, now, effect);
            Healthy(decision.health, rules.risk, now) && HouseOpen(house) && WithinHouse(verdict.db.tables, house)
  {
    var db := Run(rules, steps);
    StagesAreValid(rules);
    EveryRunIsSound(rules, steps);
    FoundIsUnique(db.rounds, db.tables.crash, i);
    hide Run, Sound, ActiveSlot, WithinHouse, HouseOpen, Healthy, AttemptDecision;
    CommittedAttempt(db, rules, house, i, decision, now, effect);
    CommittedIsActive(db, i, rules, house, decision, now, effect);
    RunActiveSlot(rules, steps, i);
    ActiveRowReady(db, rules, i);
    hide DecideOn, RowReady;
    ContinueDecidedWithinHouse(db, rules, house, i, decision, now, effect);
  }

  lemma CommittedIsActive(db: Database, i: nat, rules: Rules, house: House, decision: Decision, now: int, effect: Effect)
    requires i < |db.rounds| && forall k :: 0 <= k < |rules.stages| ==> rules.stages[k].potContributionBps >= 0
    requires DecideOn(db, i, rules, house, decision, now, effect).Committed?
    ensures db.rounds[i].status == Active
  {
    hide Resolve, ApplyMove, RunEffect;
  }

  // ---------------------------------------------------------------- rounding

  lemma {:induction false} RemaindersBounded(outcomes: seq<Outcome>)
    requires forall k :: 0 <= k < |outcomes| ==> 0 <= outcomes[k].remainder < BPS_SCALE
    ensures 0 <= Remainders(outcomes) <= (BPS_SCALE - 1) * |outcomes|
  {
    if outcomes != [] {
      RemaindersBounded(outcomes[..|outcomes| - 1]);
    }
  }

  /**
   Over a whole run the pot grows by the summed contributions less the summed
   floors: never below its start, exact to the recorded remainders, and short by
   less than one minor unit per continue, so by less than 64 in all.
   */
  lemma {:induction false} RoundingLossIsBounded(rules: Rules, steps: seq<Step>, i: nat)
    requires ValidRules(rules) && i < |Run(rules, steps).rounds|
    ensures var round := Run(rules, steps).rounds[i];
            var outcomes := OutcomesOf(round.transitions);
            && round.transitions != []
            && var gained := round.pot - round.transitions[0].potBefore;
            && gained >= 0
            && BPS_SCALE * gained + Remainders(outcomes) == Contributed(outcomes, rules.stages)
            && Contributed(outcomes, rules.stages) - BPS_SCALE * gained <= (BPS_SCALE - 1) * |outcomes|
            && |outcomes| <= MAX_STAGES
  {
    EveryRunIsSound(rules, steps);
    var db := Run(rules, steps);
    SlotOf(db, rules, i);
    hide Run, Sound, LedgerReplays, WithinCaps, AllSlots, Aligned, OutcomesOf, Contributed;
    RemaindersBounded(OutcomesOf(db.rounds[i].transitions));
  }

  /** The payout written in the terminal transition is the pot of a cashed-out or completed round and zero otherwise. */
  lemma {:induction false} PromisedPayoutRecorded(rules: Rules, steps: seq<Step>, i: nat)
    requires ValidRules(rules) && i < |Run(rules, steps).rounds| && Run(rules, steps).rounds[i].status != Active
    ensures var round := Run(rules, steps).rounds[i];
            round.transitions != [] && round.transitions[|round.transitions| - 1].payout == Some(Proceeds(round))
  {
    hide Run, LedgerReplays, WithinCaps, LedgerAccepted, OutcomesInOrder, PotAccounted, PhaseMatches, Bounded;
    EveryRunIsSound(rules, steps);
    SlotOf(Run(rules, steps), rules, i);
    NonEmptyLedger(rules, Run(rules, steps).rounds[i], Run(rules, steps).tables.crash[i]);
  }

  lemma NonEmptyLedger(rules: Rules, round: Round, row: Reservation)
    requires Slot(rules, round, row)
    ensures round.transitions != [] && PayoutRecorded(round)
  {
  }
}
