/** What every reachable Crash database promises: the ledger check, the caps, an exit, one winner per version. */
module RoundTheorems {
  import opened Support
  import opened Calculators
  import opened Treasury
  import opened Rounds
  import opened RoundInvariants
  import opened RoundSteps
  import opened RoundRuns

  // ---------------------------------------------------------------- ledger and versions

  /** The runtime ledger check never fails, and the version is fixed by stage and status. */
  lemma {:induction false} LedgerCheckNeverFails(rules: Rules, steps: seq<Step>, i: nat)
    requires ValidRules(rules) && i < |Run(rules, steps).rounds|
    ensures var round := Run(rules, steps).rounds[i];
            && LedgerAccepted(round)
            && round.version == (if round.status == Active then round.stage else round.stage + 1)
            && round.version <= rules.risk.maxStage + 1 <= MAX_STAGES + 1
  {
    EveryRunIsSound(rules, steps);
    hide LedgerReplays, WithinCaps, Aligned;
    SlotOf(Run(rules, steps), rules, i);
  }

  /** `round'` may follow `round`: the ledger only grows, and only by whole versions. */
  ghost predicate Follows(round: Round, round': Round) {
    && round'.id == round.id && round'.wallet == round.wallet
    && round.version <= round'.version
    && round.transitions <= round'.transitions
    && (round'.version == round.version || round.status != Active ==>
          round' == round.(settlementStatus := round'.settlementStatus, receiptHash := round'.receiptHash, settledAt := round'.settledAt))
    && (round.settlementStatus == Settled ==>
          round'.settlementStatus == Settled && round'.receiptHash == round.receiptHash && round'.settledAt == round.settledAt)
  }

  lemma AppendFollows(round: Round, round': Round, t: Transition)
    requires round.status == Active && round.settlementStatus == NotRequired
    requires round'.id == round.id && round'.wallet == round.wallet
    requires round'.version == round.version + 1 && round'.transitions == round.transitions + [t]
    ensures Follows(round, round')
  {
  }

  lemma DecisionFollows(db: Database, rules: Rules, house: House, id: string, decision: Decision, now: int, effect: Effect, i: nat)
    requires ValidRules(rules) && i < |db.rounds|
    requires db.rounds[i].status == Active ==> db.rounds[i].settlementStatus == NotRequired
    requires AttemptDecision(db, rules, house, id, decision, now, effect).Committed?
    ensures var after := AttemptDecision(db, rules, house, id, decision, now, effect).db;
            && |after.rounds| == |db.rounds| && Follows(db.rounds[i], after.rounds[i])
            && after.rounds[i].version <= db.rounds[i].version + 1
            && FindRound(db.rounds, id).Some?
            && var k := FindRound(db.rounds, id).value;
               db.rounds[k].version == decision.expectedVersion && after.rounds[k].version == decision.expectedVersion + 1
  {
    assert forall k :: 0 <= k < |rules.stages| ==> ValidStage(rules.stages[k]);
    var k := FindRound(db.rounds, id).value;
    var round := db.rounds[k];
    assert DecideOn(db, k, rules, house, decision, now, effect).Committed?;
    var next := Resolve(rules, round, decision, now).value;
    if i == k {
      AppendFollows(round, Advance(rules, round, decision, next), TransitionFor(rules, round, decision, next));
    }
  }

  lemma DefaultFollows(db: Database, candidate: Candidate, now: int, i: nat)
    requires i < |db.rounds|
    requires db.rounds[i].status == Active ==> db.rounds[i].settlementStatus == NotRequired
    requires ApplyDefault(db, candidate, now).Committed?
    ensures var after := ApplyDefault(db, candidate, now).db;
            && |after.rounds| == |db.rounds| && Follows(db.rounds[i], after.rounds[i])
            && after.rounds[i].version <= db.rounds[i].version + 1
            && FindRound(db.rounds, candidate.id).Some?
            && var k := FindRound(db.rounds, candidate.id).value;
               db.rounds[k].version == candidate.version && after.rounds[k].version == candidate.version + 1
  {
    var k := FindRound(db.rounds, candidate.id).value;
    if i == k {
      AppendFollows(db.rounds[k], Forfeit(db.rounds[k], candidate, now), DefaultTransition(db.rounds[k], candidate));
    }
  }

  lemma CreateFollows(db: Database, rules: Rules, house: House, id: string, wallet: Wallet, pot: nat, health: Option<Health>, now: int, i: nat)
    requires i < |db.rounds| && CreateRound(db, rules, house, id, wallet, pot, health, now).Committed?
    ensures var after := CreateRound(db, rules, house, id, wallet, pot, health, now).db;
            i < |after.rounds| && after.rounds[i] == db.rounds[i]
  {
  }

  /** One step appends at most one transition to any round, and a terminal round is frozen but for its settlement columns. */
  lemma StepFollows(db: Database, rules: Rules, step: Step, i: nat)
    requires ValidRules(rules) && i < |db.rounds|
    requires db.rounds[i].status == Active ==> db.rounds[i].settlementStatus == NotRequired
    ensures i < |After(db, rules, step).rounds| && Follows(db.rounds[i], After(db, rules, step).rounds[i])
    ensures After(db, rules, step).rounds[i].version <= db.rounds[i].version + 1
  {
    hide CreateRound, AttemptDecision, ApplyDefault;
    if VerdictOf(db, rules, step).Committed? {
      match step
      case Create(house, id, wallet, pot, health, now) => CreateFollows(db, rules, house, id, wallet, pot, health, now, i);
      case Take(house, id, decision, now, effect) => DecisionFollows(db, rules, house, id, decision, now, effect, i);
      case Expire(candidate, now) => DefaultFollows(db, candidate, now, i);
      case OtherSources(rows) =>
      case SettlementColumns(_, _, _, _) =>
    }
  }

  lemma FollowsTransitive(a: Round, b: Round, c: Round)
    requires Follows(a, b) && Follows(b, c)
    requires a.status != Active ==> b.status != Active
    ensures Follows(a, c)
  {
  }

  /** Along any run a round's ledger is append-only, its version monotone, and its end final. */
  lemma {:induction false} RunFollows(rules: Rules, steps: seq<Step>, k: nat, i: nat)
    requires ValidRules(rules) && k <= |steps| && i < |Run(rules, steps[..k]).rounds|
    ensures i < |Run(rules, steps).rounds| && Follows(Run(rules, steps[..k]).rounds[i], Run(rules, steps).rounds[i])
  {
    if k == |steps| {
      assert steps[..k] == steps;
    } else {
      var init := steps[..|steps| - 1];
      assert init[..k] == steps[..k];
      RunFollows(rules, init, k, i);
      ActiveNeedsNoSettlement(rules, init, i);
      StepFollows(Run(rules, init), rules, steps[|steps| - 1], i);
      FollowsTransitive(Run(rules, steps[..k]).rounds[i], Run(rules, init).rounds[i], Run(rules, steps).rounds[i]);
    }
  }

  lemma ActiveNeedsNoSettlement(rules: Rules, steps: seq<Step>, i: nat)
    requires ValidRules(rules) && i < |Run(rules, steps).rounds|
    ensures Run(rules, steps).rounds[i].status == Active ==> Run(rules, steps).rounds[i].settlementStatus == NotRequired
  {
    LedgerCheckNeverFails(rules, steps, i);
  }

  lemma LaterVersion(rules: Rules, steps: seq<Step>, a: nat, b: nat, i: nat)
    requires ValidRules(rules) && a <= b <= |steps| && i < |Run(rules, steps[..a]).rounds|
    ensures var then_, now_ := Run(rules, steps[..a]).rounds[i], Run(rules, steps[..b]).rounds;
            i < |now_| && now_[i].id == then_.id && then_.version <= now_[i].version
  {
    assert steps[..b][..a] == steps[..a];
    RunFollows(rules, steps[..b], a, i);
  }

  /** The step tries to move round `id` on from `version`. */
  predicate Attempts(step: Step, id: string, version: int) {
    || (step.Take? && step.id == id && step.decision.expectedVersion == version)
    || (step.Expire? && step.candidate.id == id && step.candidate.version == version)
  }

  lemma CommittedAttemptFindsRound(db: Database, rules: Rules, step: Step, id: string, version: int)
    requires ValidRules(rules) && Attempts(step, id, version) && VerdictOf(db, rules, step).Committed?
    ensures FindRound(db.rounds, id).Some?
  {
  }

  lemma WinnerMovesVersion(db: Database, rules: Rules, step: Step, id: string, version: int, i: nat)
    requires ValidRules(rules) && Attempts(step, id, version) && VerdictOf(db, rules, step).Committed?
    requires FindRound(db.rounds, id) == Some(i)
    requires db.rounds[i].status == Active ==> db.rounds[i].settlementStatus == NotRequired
    ensures db.rounds[i].version == version
    ensures i < |After(db, rules, step).rounds| && After(db, rules, step).rounds[i].version == version + 1
  {
    hide AttemptDecision, ApplyDefault;
    if step.Take? {
      DecisionFollows(db, rules, step.house, step.id, step.decision, step.now, step.effect, i);
    } else {
      DefaultFollows(db, step.candidate, step.expireNow, i);
    }
  }

  lemma {:induction false} IdFindsIndex(rules: Rules, steps: seq<Step>, i: nat)
    requires ValidRules(rules) && i < |Run(rules, steps).rounds|
    ensures FindRound(Run(rules, steps).rounds, Run(rules, steps).rounds[i].id) == Some(i)
  {
    EveryRunIsSound(rules, steps);
    hide LedgerReplays, WithinCaps, AllSlots;
    FoundIsUnique(Run(rules, steps).rounds, Run(rules, steps).tables.crash, i);
  }

  /**
   Of all decisions and defaults that name the same round and version, in
   whatever order and however far apart they run, at most one commits.
   */
  lemma OneWinnerPerVersion(rules: Rules, steps: seq<Step>, a: nat, b: nat, id: string, version: int)
    requires ValidRules(rules) && a < b < |steps|
    requires Attempts(steps[a], id, version) && Attempts(steps[b], id, version)
    requires VerdictOf(Run(rules, steps[..a]), rules, steps[a]).Committed?
    ensures !VerdictOf(Run(rules, steps[..b]), rules, steps[b]).Committed?
  {
    hide VerdictOf, Follows, Sound;
    var before, later := Run(rules, steps[..a]), Run(rules, steps[..b]);
    CommittedAttemptFindsRound(before, rules, steps[a], id, version);
    var i := FindRound(before.rounds, id).value;
    ActiveNeedsNoSettlement(rules, steps[..a], i);
    WinnerMovesVersion(before, rules, steps[a], id, version, i);
    assert steps[..a + 1][..a] == steps[..a];
    assert Run(rules, steps[..a + 1]) == After(before, rules, steps[a]);
    LaterVersion(rules, steps, a, a + 1, i);
    LaterVersion(rules, steps, a + 1, b, i);
    IdFindsIndex(rules, steps[..b], i);
    ActiveNeedsNoSettlement(rules, steps[..b], i);
    if VerdictOf(later, rules, steps[b]).Committed? {
      WinnerMovesVersion(later, rules, steps[b], id, version, i);
    }
  }

  // ---------------------------------------------------------------- replays

  lemma DistinctKeyFound(transitions: seq<Transition>, k: nat)
    requires DistinctTransitionKeys(transitions) && k < |transitions|
    ensures FindTransition(transitions, transitions[k].key) == Some(k)
  {
    var found := FindTransition(transitions, transitions[k].key);
    assert found.Some? && transitions[found.value].key == transitions[k].key;
  }

  /** What a committed decision leaves at the end of its round's ledger. */
  lemma CommittedDecisionIsLast(db: Database, rules: Rules, house: House, id: string, decision: Decision, now: int, effect: Effect)
    requires ValidRules(rules) && AttemptDecision(db, rules, house, id, decision, now, effect).Committed?
    ensures FindRound(db.rounds, id).Some?
    ensures var i, after := FindRound(db.rounds, id).value, AttemptDecision(db, rules, house, id, decision, now, effect).db;
            && i < |after.rounds| && after.rounds[i].id == id && after.rounds[i].transitions != []
            && var last := after.rounds[i].transitions[|after.rounds[i].transitions| - 1];
               last.key == decision.key && last.request == DecisionRequest(decision, rules.binding)
  {
    hide Resolve, ApplyMove, RunEffect, Guard;
  }

  lemma ReplayAt(db: Database, rules: Rules, house: House, i: nat, k: nat, decision: Decision, now: int, effect: Effect)
    requires ValidRules(rules) && i < |db.rounds| && FindRound(db.rounds, db.rounds[i].id) == Some(i)
    requires k < |db.rounds[i].transitions| && db.rounds[i].transitions[k].key == decision.key
    requires DistinctTransitionKeys(db.rounds[i].transitions) && Malformed(decision).None?
    ensures AttemptDecision(db, rules, house, db.rounds[i].id, decision, now, effect)
            == if db.rounds[i].transitions[k].request == DecisionRequest(decision, rules.binding) then Repeated else Rejected(KeyReused)
  {
    DistinctKeyFound(db.rounds[i].transitions, k);
    hide FindTransition, DecideOn;
  }

  /**
   Once a decision has committed, submitting it again is recognised at every
   later moment of every run, whatever the clock, house and effect; another
   decision under the same key is refused for ever.
   */
  lemma {:induction false} DecisionReplaysForever(rules: Rules, steps: seq<Step>, a: nat, house: House, again: Decision, now: int, effect: Effect)
    requires ValidRules(rules) && a < |steps| && steps[a].Take?
    requires VerdictOf(Run(rules, steps[..a]), rules, steps[a]).Committed?
    requires again.key == steps[a].decision.key && Malformed(again).None?
    ensures AttemptDecision(Run(rules, steps), rules, house, steps[a].id, again, now, effect)
            == if again == steps[a].decision then Repeated else Rejected(KeyReused)
  {
    var before, at, later := Run(rules, steps[..a]), Run(rules, steps[..a + 1]), Run(rules, steps);
    assert steps[..a + 1][..a] == steps[..a] && at == After(before, rules, steps[a]);
    CommittedDecisionIsLast(before, rules, steps[a].house, steps[a].id, steps[a].decision, steps[a].now, steps[a].effect);
    var i := FindRound(before.rounds, steps[a].id).value;
    var k := |at.rounds[i].transitions| - 1;
    RunFollows(rules, steps, a + 1, i);
    KeysDistinctAt(rules, steps, i);
    IdFindsIndex(rules, steps, i);
    hide Run, AttemptDecision, VerdictOf, After, DistinctTransitionKeys, FindRound;
    assert later.rounds[i].transitions[k] == at.rounds[i].transitions[k];
    ReplayAt(later, rules, house, i, k, again, now, effect);
  }

  lemma KeysDistinctAt(rules: Rules, steps: seq<Step>, i: nat)
    requires ValidRules(rules) && i < |Run(rules, steps).rounds|
    ensures DistinctTransitionKeys(Run(rules, steps).rounds[i].transitions)
  {
    hide Run, LedgerReplays, WithinCaps, LedgerAccepted, OutcomesInOrder, PotAccounted, PhaseMatches, Bounded;
    EveryRunIsSound(rules, steps);
    SlotOf(Run(rules, steps), rules, i);
    SlotKeys(rules, Run(rules, steps).rounds[i], Run(rules, steps).tables.crash[i]);
  }

  lemma SlotKeys(rules: Rules, round: Round, row: Reservation)
    requires Slot(rules, round, row)
    ensures DistinctTransitionKeys(round.transitions)
  {
  }

  // ---------------------------------------------------------------- prepared intents

  /** One prepared intent per round, stage and asset, and one per round and custody key. */
  ghost predicate IntentsUnique(intents: seq<Intent>) {
    forall a, b :: 0 <= a < b < |intents| && intents[a].movement.roundId == intents[b].movement.roundId ==>
      && intents[a].movement.key != intents[b].movement.key
      && (intents[a].movement.expectedStage != intents[b].movement.expectedStage || intents[a].movement.asset != intents[b].movement.asset)
  }

  /** A stored intent is prepared: a recovery row is rolled back with the decision it stops. */
  ghost predicate AllPrepared(intents: seq<Intent>) {
    forall k :: 0 <= k < |intents| ==> intents[k].recovery.None?
  }

  lemma EffectKeepsUnique(intents: seq<Intent>, round: Round, effect: Effect)
    requires IntentsUnique(intents) && AllPrepared(intents) && RunEffect(intents, round, effect).Ok?
    ensures IntentsUnique(RunEffect(intents, round, effect).value) && AllPrepared(RunEffect(intents, round, effect).value)
  {
  }

  lemma StepKeepsIntentsUnique(db: Database, rules: Rules, step: Step)
    requires ValidRules(rules) && IntentsUnique(db.intents) && AllPrepared(db.intents)
    ensures IntentsUnique(After(db, rules, step).intents) && AllPrepared(After(db, rules, step).intents)
  {
    hide IntentsUnique, AllPrepared, ApplyMove, Resolve, Reserve, Release, FindTransition;
    if step.Take? && VerdictOf(db, rules, step).Committed? {
      var i := FindRound(db.rounds, step.id).value;
      EffectKeepsUnique(db.intents, db.rounds[i], step.effect);
      hide RunEffect;
    }
  }

  /** No run prepares the same asset of a stage, or uses the same custody key, twice, or stores a recovery row. */
  lemma {:induction false} PreparedOnce(rules: Rules, steps: seq<Step>)
    requires ValidRules(rules)
    ensures IntentsUnique(Run(rules, steps).intents) && AllPrepared(Run(rules, steps).intents)
  {
    if steps != [] {
      PreparedOnce(rules, steps[..|steps| - 1]);
      StepKeepsIntentsUnique(Run(rules, steps[..|steps| - 1]), rules, steps[|steps| - 1]);
    }
  }
}
