/** Every round's ledger is one unbroken chain: each transition starts where the one before it ended. */
module RoundChain {
  import opened Support
  import opened Calculators
  import opened Treasury
  import opened Rounds
  import opened RoundInvariants
  import opened RoundRuns

  /** `t` continues an active round from the stage, status and pot that `before` left. */
  predicate Linked(before: Transition, t: Transition) {
    && before.toStatus == Active && t.fromStatus == Some(Active) && t.fromStage == Some(before.toStage)
    && t.potBefore == before.potAfter && before.potAfter <= t.potAfter && t.sequence == before.sequence + 1
    && (if t.toStatus == Active then t.toStage == before.toStage + 1 else t.toStage == before.toStage)
  }

  /** The chain ends at the round's own stage, status, pot and version. */
  ghost predicate Chained(round: Round) {
    && round.transitions != []
    && (forall k :: 0 < k < |round.transitions| ==> Linked(round.transitions[k - 1], round.transitions[k]))
    && var last := round.transitions[|round.transitions| - 1];
       last.toStage == round.stage && last.toStatus == round.status && last.potAfter == round.pot && last.sequence == round.version
  }

  ghost predicate AllChained(rounds: seq<Round>) {
    forall i :: 0 <= i < |rounds| ==> Chained(rounds[i])
  }

  lemma AppendChained(round: Round, t: Transition, round': Round)
    requires Chained(round) && Linked(round.transitions[|round.transitions| - 1], t)
    requires round'.transitions == round.transitions + [t]
    requires t.toStage == round'.stage && t.toStatus == round'.status && t.potAfter == round'.pot && t.sequence == round'.version
    ensures Chained(round')
  {
  }

  lemma AdvanceChained(rules: Rules, round: Round, decision: Decision, now: int)
    requires forall k :: 0 <= k < |rules.stages| ==> rules.stages[k].potContributionBps >= 0
    requires Chained(round) && round.status == Active && Resolve(rules, round, decision, now).Ok?
    ensures Chained(Advance(rules, round, decision, Resolve(rules, round, decision, now).value))
  {
    var next := Resolve(rules, round, decision, now).value;
    AppendChained(round, TransitionFor(rules, round, decision, next), Advance(rules, round, decision, next));
  }

  lemma StepKeepsChained(db: Database, rules: Rules, step: Step)
    requires ValidRules(rules) && AllChained(db.rounds)
    ensures AllChained(After(db, rules, step).rounds)
  {
    hide ApplyMove, Resolve, Reserve, Release, RunEffect, FindTransition, Advance, Forfeit;
    if VerdictOf(db, rules, step).Committed? {
      match step
      case Create(_, id, wallet, pot, _, now) => assert Chained(NewRound(rules, id, wallet, pot, now));
      case Take(house, id, decision, now, effect) =>
        assert forall k :: 0 <= k < |rules.stages| ==> ValidStage(rules.stages[k]);
        var i := FindRound(db.rounds, id).value;
        AdvanceChained(rules, db.rounds[i], decision, now);
      case Expire(candidate, now) =>
        var i := FindRound(db.rounds, candidate.id).value;
        ForfeitChained(db.rounds[i], candidate, now);
      case OtherSources(_) =>
      case SettlementColumns(_, _, _, _) =>
    }
  }

  lemma ForfeitChained(round: Round, candidate: Candidate, now: int)
    requires Chained(round) && round.status == Active
    ensures Chained(Forfeit(round, candidate, now))
  {
    AppendChained(round, DefaultTransition(round, candidate), Forfeit(round, candidate, now));
  }

  /**
   On every run every ledger is a chain: stage, status and pot pass unbroken from
   one transition to the next, stages rise by one per continue, and nothing
   follows a terminal transition.
   */
  lemma {:induction false} EveryLedgerIsChained(rules: Rules, steps: seq<Step>)
    requires ValidRules(rules)
    ensures AllChained(Run(rules, steps).rounds)
  {
    if steps != [] {
      EveryLedgerIsChained(rules, steps[..|steps| - 1]);
      StepKeepsChained(Run(rules, steps[..|steps| - 1]), rules, steps[|steps| - 1]);
    }
  }
}
