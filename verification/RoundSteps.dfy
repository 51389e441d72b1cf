/** Each committed transition keeps a round's slot; each treasury step is one allowed row change. */
module RoundSteps {
  import opened Support
  import opened Calculators
  import opened Treasury
  import opened Rounds
  import opened RoundInvariants

  // ---------------------------------------------------------------- what a resolved decision says

  /** Where a continue leaves its round: the roll against the stage's threshold, then the length of the rule list. */
  function StatusAfter(stages: seq<StageRule>, stage: int, rollPpm: int): RoundStatus
    requires 1 <= stage <= |stages|
  {
    if RollBusts(stages, stage, rollPpm) then Busted else if stage == |stages| then Completed else Active
  }

  /** A resolved transition, read off the decision: where it goes, what it records and what it pays. */
  ghost predicate NextFacts(rules: Rules, round: Round, decision: Decision, next: Next, now: int) {
    && (next.status == Active <==> next.kind == StageContinued)
    && next.stage == (if next.status == Active then round.stage + 1 else round.stage)
    && (next.status == Active ==>
          next.deadline == Some(BoundedDeadline(now, rules.decisionTimeoutMs, round.riskExpiresAt)) && next.terminalAt.None? && next.reason.None?)
    && (next.status != Active ==> next.deadline.None? && next.terminalAt.Some? && next.reason.Some?)
    && next.status != Defaulted
    && (decision.CashOut? ==> next.status == CashedOut && next.potAfter == round.pot && next.outcome.None? && next.payout == Some(round.pot))
    && (decision.Continue? ==>
          && next.status != CashedOut
          && next.outcome.Some? && next.outcome.value.provider == decision.provider && next.outcome.value.custody == decision.custody
          && 0 <= next.outcome.value.remainder < BPS_SCALE
          && 1 <= round.stage <= |rules.stages|
          && round.pot <= next.potAfter
          && BPS_SCALE * (next.potAfter - round.pot) + next.outcome.value.remainder
             == decision.provider.stageValue * rules.stages[round.stage - 1].potContributionBps
          && (next.status == Busted ==> next.payout == Some(0))
          && (next.status == Completed ==> next.payout == Some(next.potAfter))
          && next.status == StatusAfter(rules.stages, round.stage, decision.provider.rollPpm)
          && (next.outcome.value.busted <==> RollBusts(rules.stages, round.stage, decision.provider.rollPpm)))
  }

  lemma ResolveGivesFacts(rules: Rules, round: Round, decision: Decision, now: int)
    requires ValidRules(rules) && Resolve(rules, round, decision, now).Ok?
    ensures NextFacts(rules, round, decision, Resolve(rules, round, decision, now).value, now)
  {
    if decision.Continue? {
      PotIsExact(rules.stages, round.stage, round.pot, decision.provider.stageValue);
    }
  }

  // ---------------------------------------------------------------- ledgers grow by one

  lemma OutcomesAppend(ts: seq<Transition>, t: Transition)
    ensures OutcomesOf(ts + [t]) == OutcomesOf(ts) + (if t.outcome.Some? then [t.outcome.value] else [])
  {
    assert (ts + [t])[..|ts|] == ts;
  }

  lemma SumsAppend(outcomes: seq<Outcome>, o: Outcome, stages: seq<StageRule>)
    requires 1 <= o.provider.stage <= |stages|
    ensures Contributed(outcomes + [o], stages)
            == Contributed(outcomes, stages) + o.provider.stageValue * stages[o.provider.stage - 1].potContributionBps
    ensures Remainders(outcomes + [o]) == Remainders(outcomes) + o.remainder
  {
    assert (outcomes + [o])[..|outcomes|] == outcomes;
  }

  lemma KeysAppend(ts: seq<Transition>, t: Transition)
    requires DistinctTransitionKeys(ts) && FindTransition(ts, t.key).None?
    ensures DistinctTransitionKeys(ts + [t])
  {
  }

  /** A round and the transition appended to it agree well enough for the ledger check. */
  lemma LedgerAppend(round: Round, t: Transition, round': Round)
    requires LedgerAccepted(round)
    requires round'.transitions == round.transitions + [t] && round'.version == round.version + 1
    requires t.sequence == round.version + 1 && t.binding == round.binding == round'.binding
    requires t.toStatus == round'.status && t.toStage == round'.stage
    requires round'.riskStartedAt == round.riskStartedAt && round'.riskExpiresAt == round.riskExpiresAt
    requires SettlementFieldsAccepted(round')
    requires if round'.status == Active then round'.deadline.Some? && round'.terminalAt.None? && round'.terminalReason.None?
             else round'.deadline.None? && round'.terminalAt.Some? && round'.terminalReason.Some?
    ensures LedgerAccepted(round')
  {
    assert round'.transitions[0] == round.transitions[0];
  }

  lemma AdvanceKeepsLedger(rules: Rules, round: Round, decision: Decision, next: Next, now: int)
    requires LedgerAccepted(round) && Bounded(rules, round) && round.status == Active
    requires NextFacts(rules, round, decision, next, now)
    ensures LedgerAccepted(Advance(rules, round, decision, next))
  {
    LedgerAppend(round, TransitionFor(rules, round, decision, next), Advance(rules, round, decision, next));
  }

  lemma AdvanceKeepsOutcomes(rules: Rules, round: Round, decision: Decision, next: Next, now: int)
    requires OutcomesInOrder(round) && round.status == Active && round.stage >= 1
    requires NextFacts(rules, round, decision, next, now)
    requires decision.Continue? ==> decision.provider.stage == round.stage
    ensures OutcomesInOrder(Advance(rules, round, decision, next))
  {
    OutcomesAppend(round.transitions, TransitionFor(rules, round, decision, next));
  }

  lemma AdvanceKeepsBusts(rules: Rules, round: Round, decision: Decision, next: Next, now: int)
    requires BustsDecided(rules, round) && OutcomesInOrder(round) && round.status == Active && round.stage >= 1
    requires NextFacts(rules, round, decision, next, now)
    ensures BustsDecided(rules, Advance(rules, round, decision, next))
  {
    OutcomesAppend(round.transitions, TransitionFor(rules, round, decision, next));
  }

  lemma AdvanceKeepsPot(rules: Rules, round: Round, decision: Decision, next: Next, now: int)
    requires PotAccounted(rules, round) && NextFacts(rules, round, decision, next, now)
    requires decision.Continue? ==> decision.provider.stage == round.stage
    ensures PotAccounted(rules, Advance(rules, round, decision, next))
  {
    var t, outcomes := TransitionFor(rules, round, decision, next), OutcomesOf(round.transitions);
    OutcomesAppend(round.transitions, t);
    assert (round.transitions + [t])[0] == round.transitions[0];
    if decision.Continue? {
      SumsAppend(outcomes, next.outcome.value, rules.stages);
    } else {
      assert outcomes + [] == outcomes;
    }
  }

  /** What the appended transition says of the round as it then stands. */
  lemma AdvanceKeepsRecords(rules: Rules, round: Round, decision: Decision, next: Next, now: int)
    requires Malformed(decision).None? && Guard(round, rules, decision, now).None? && NextFacts(rules, round, decision, next, now)
    requires ForfeitedOnlyByDefault(round) && DecisionsRecorded(round.transitions) && StartRecorded(rules, round)
    ensures var round' := Advance(rules, round, decision, next);
            && PayoutRecorded(round') && ForfeitedOnlyByDefault(round') && DecisionsRecorded(round'.transitions) && StartRecorded(rules, round')
  {
    var t, round' := TransitionFor(rules, round, decision, next), Advance(rules, round, decision, next);
    assert round'.transitions == round.transitions + [t] && RecordedAs(t);
    hide Guard, Malformed, RecordedAs;
  }

  lemma AdvanceKeepsBounds(rules: Rules, round: Round, row: Reservation, decision: Decision, next: Next, now: int, row': Reservation)
    requires Bounded(rules, round) && PhaseMatches(round, row) && Guard(round, rules, decision, now).None?
    requires NextFacts(rules, round, decision, next, now)
    requires next.stage <= rules.risk.maxStage && next.potAfter <= rules.risk.maxPot
    requires if next.status == Active then row'.status == Reserved && row'.amount == next.potAfter else row'.status == Released
    ensures var round' := Advance(rules, round, decision, next); Bounded(rules, round') && PhaseMatches(round', row')
  {
  }

  lemma GuardParts(rules: Rules, round: Round, decision: Decision, now: int)
    requires Malformed(decision).None? && Guard(round, rules, decision, now).None?
    ensures round.status == Active && decision.expectedStage == round.stage && (decision.Continue? ==> decision.provider.stage == round.stage)
  {
  }

  /** Every accepted decision keeps its round's slot, given the row that the treasury step leaves. */
  lemma AdvanceKeepsSlot(rules: Rules, round: Round, row: Reservation, decision: Decision, next: Next, now: int, row': Reservation)
    requires ValidRules(rules) && Slot(rules, round, row) && RowMatches(round, row)
    requires Malformed(decision).None? && Guard(round, rules, decision, now).None?
    requires FindTransition(round.transitions, decision.key).None?
    requires NextFacts(rules, round, decision, next, now)
    requires next.stage <= rules.risk.maxStage && next.potAfter <= rules.risk.maxPot
    requires RowMatches(Advance(rules, round, decision, next), row')
    requires if next.status == Active then row'.status == Reserved && row'.amount == next.potAfter else row'.status == Released
    ensures Slot(rules, Advance(rules, round, decision, next), row')
  {
    GuardParts(rules, round, decision, now);
    assert 1 <= round.stage;
    var t := TransitionFor(rules, round, decision, next);
    assert Advance(rules, round, decision, next).transitions == round.transitions + [t] && t.key == decision.key;
    hide LedgerAccepted, Bounded, PhaseMatches, DistinctTransitionKeys, OutcomesInOrder, PotAccounted, PayoutRecorded, ForfeitedOnlyByDefault,
         DecisionsRecorded, BustsDecided, StartRecorded, NextFacts, Guard, Malformed, FindTransition, ValidRules, RowMatches, Advance, TransitionFor;
    AdvanceKeepsLedger(rules, round, decision, next, now);
    AdvanceKeepsBounds(rules, round, row, decision, next, now, row');
    AdvanceKeepsOutcomes(rules, round, decision, next, now);
    AdvanceKeepsBusts(rules, round, decision, next, now);
    AdvanceKeepsPot(rules, round, decision, next, now);
    AdvanceKeepsRecords(rules, round, decision, next, now);
    KeysAppend(round.transitions, t);
  }

  /** The deadline default keeps its round's slot. */
  lemma ForfeitKeepsSlot(rules: Rules, round: Round, row: Reservation, candidate: Candidate, now: int, row': Reservation)
    requires Slot(rules, round, row) && RowMatches(round, row) && Expired(round, candidate, now)
    requires FindTransition(round.transitions, DeadlineKey(candidate.stage, candidate.deadline)).None?
    requires RowMatches(round, row') && row'.status == Released
    ensures Slot(rules, Forfeit(round, candidate, now), row')
  {
    var t, round' := DefaultTransition(round, candidate), Forfeit(round, candidate, now);
    LedgerAppend(round, t, round');
    OutcomesAppend(round.transitions, t);
    assert OutcomesOf(round'.transitions) == OutcomesOf(round.transitions);
    assert round'.transitions[0] == round.transitions[0];
    KeysAppend(round.transitions, t);
  }

  lemma NewRoundSlot(rules: Rules, id: string, wallet: Wallet, pot: nat, now: int)
    requires ValidRules(rules) && pot <= rules.risk.maxPot
    ensures Slot(rules, NewRound(rules, id, wallet, pot, now),
                 Reservation(true, id, wallet, rules.risk.rulesHash, pot, 1, Reserved, 1))
  {
    var round := NewRound(rules, id, wallet, pot, now);
    OutcomesAppend([], round.transitions[0]);
    assert [] + round.transitions == round.transitions;
  }

  // ---------------------------------------------------------------- treasury steps are row changes

  /** The row a treasury step of an active round will find. */
  ghost predicate RowReady(t: Tables, i: nat, round: Round) {
    && i < |t.crash| && FindRow(t.crash, round.id) == Some(i)
    && RowMatches(round, t.crash[i]) && t.crash[i].status == Reserved
    && WellFormedLedger(t.ledger) && round.id in Replay(t.ledger)
    && Replay(t.ledger)[round.id] == Replayed(t.crash[i].amount, t.crash[i].tier, false)
  }

  lemma {:induction false} ActiveRowReady(db: Database, rules: Rules, i: nat)
    requires Sound(db, rules) && i < |db.rounds| && db.rounds[i].status == Active
    ensures RowReady(db.tables, i, db.rounds[i])
    ensures db.tables.crash[i].amount == db.rounds[i].pot
  {
    FoundIsUnique(db.rounds, db.tables.crash, i);
    assert RowMatches(db.rounds[i], db.tables.crash[i]);
    assert PhaseMatches(db.rounds[i], db.tables.crash[i]) by {
      assert Slot(rules, db.rounds[i], db.tables.crash[i]);
    }
  }

  lemma ReleaseIsRowChange(t: Tables, i: nat, round: Round, stage: nat)
    requires RowReady(t, i, round)
    ensures Release(t, BoundOf(round), stage) == Ok(Changed(t, i, ReleasedAt(stage)))
  {
    if HasKey(t.ledger, ReleasedKey(round.id)) {
      KeysAreReplayed(t.ledger, ReleasedKey(round.id));
    }
  }

  lemma AdjustIsRowChange(t: Tables, i: nat, round: Round, move: Move)
    requires RowReady(t, i, round) && move.nextStage == round.stage + 1
    ensures Adjust(t, i, BoundOf(round), move)
            == Ok(Changed(t, i, if move.nextPot == t.crash[i].amount then Unchanged else Adjusted(move.nextPot, move.nextStage)))
  {
    var key := AdjustedKey(round.id, move.nextStage);
    if HasKey(t.ledger, key) {
      KeysAreReplayed(t.ledger, key);
    }
    assert t.crash[i := t.crash[i]] == t.crash;
  }

  /** Which row change an accepted move makes. */
  function ChangeFor(row: Reservation, move: Move): RowChange {
    if move.terminal then ReleasedAt(move.nextStage)
    else if move.nextPot == row.amount then Unchanged
    else Adjusted(move.nextPot, move.nextStage)
  }

  /** Everything that can refuse a move of an active round: the envelope, or a risk admission. */
  function MoveRefused(t: Tables, rules: RiskRules, house: House, i: nat, round: Round, move: Move): Option<RiskError>
    requires i < |t.crash|
  {
    match EnvelopeError(rules, BoundOf(round), move)
    case Some(e) => Some(e)
    case None => if move.acceptsRisk then Admission(t, rules, house, round.wallet, t.crash[i].amount, move.nextPot) else None
  }

  /**
   A move of an active round is refused by those limits and by nothing else: the
   ledger key is always free and the row is always there.
   */
  lemma MoveIsRowChange(t: Tables, rules: RiskRules, house: House, i: nat, round: Round, move: Move)
    requires RowReady(t, i, round) && round.riskRulesHash == rules.rulesHash
    requires !move.terminal ==> move.nextStage == round.stage + 1
    ensures ApplyMove(t, rules, house, BoundOf(round), move)
            == (var refused := MoveRefused(t, rules, house, i, round, move);
                if refused.Some? then Err(refused.value) else Ok(Changed(t, i, ChangeFor(t.crash[i], move))))
  {
    if move.terminal {
      ReleaseIsRowChange(t, i, round, move.nextStage);
    } else {
      AdjustIsRowChange(t, i, round, move);
    }
  }

  /** An admitted move is within the stage and pot limits whether or not it takes new risk. */
  lemma AdmittedMoveWithinLimits(t: Tables, rules: RiskRules, house: House, i: nat, round: Round, move: Move)
    requires i < |t.crash| && MoveRefused(t, rules, house, i, round, move).None?
    ensures move.nextStage <= rules.maxStage && move.nextPot <= rules.maxPot
  {
  }
}
