/** A concrete run in which an active round can never be defaulted. */
module RoundWitness {
  import opened Support
  import opened Calculators
  import opened Treasury
  import opened Rounds
  import opened RoundInvariants
  import opened RoundRuns
  import opened RoundGuarantees
  import opened ExpiryBatch

  const BINDING: Binding := Binding("a", "m", "h", "c", "r", "s")
  const STAGES: seq<StageRule> := [StageRule(1, 0, 0, 10), StageRule(2, 0, 0, 10)]
  const RISK: RiskRules := RiskRules("k", "v", 2, 10, 10, 10, 5_000, 1_000, "provider", "pool")
  const RULES: Rules := Rules(BINDING, STAGES, 1_000, RISK)
  const HOUSE: House := House(true, false, true, 100, 100, 0, 1, 1, 0, 100, 100)
  const HEALTH: Option<Health> := Some(Health(0, true, true, "provider", "pool", "k"))

  /** A continue at stage 1 that calls itself by the deadline key of stage 2. */
  const SQUATTING: Decision := Continue(
    1, 1, DeadlineKey(2, 1_500), 0, Custody(NamedAsset("asset"), NamedIntent("intent")), Provider(1, 500_000, 0), None, HEALTH)

  const CREATE: Step := Create(HOUSE, "round", Named("player"), 5, HEALTH, 0)
  const CONTINUE: Step := Take(HOUSE, "round", SQUATTING, 500, NoEffect)

  lemma RulesAreValid()
    ensures ValidRules(RULES)
  {
  }

  lemma Created()
    requires ValidRules(RULES)
    ensures var db := After(EMPTY, RULES, CREATE);
            && db.rounds == [NewRound(RULES, "round", Named("player"), 5, 0)]
            && db.tables.crash == [Reservation(true, "round", Named("player"), "k", 5, 1, Reserved, 1)]
            && db.tables.others == []
  {
    assert TotalExposure([]) == 0 && WalletExposureOf([], Named("player")) == 0;
    assert FindRound([], "round").None? && FindRow([], "round").None?;
  }

  /** After this run the round is active at stage 2 and no later instant can default it. */
  lemma DefaultCanBeBlocked(later: int)
    ensures ValidRules(RULES)
    ensures var db := Run(RULES, [CREATE, CONTINUE]);
            && |db.rounds| == 1 && db.rounds[0].status == Active && db.rounds[0].deadline.Some?
            && !ApplyDefault(db, CandidateOf(db.rounds[0]), later).Committed?
  {
    RulesAreValid();
    Created();
    var before := After(EMPTY, RULES, CREATE);
    Continued(before);
    assert [CREATE, CONTINUE][..1] == [CREATE] && [CREATE][..0] == [];
    assert Run(RULES, [CREATE]) == before;
    var next := Next(StageContinued, Active, 2, 5, Some(1_500), None, None,
                     Some(Outcome(false, 0, SQUATTING.custody, SQUATTING.provider)), None);
    TakenKeyBlocksDefault(before, RULES, 0, SQUATTING, next, later);
    assert Run(RULES, [CREATE, CONTINUE]) == After(before, RULES, CONTINUE);
  }

  lemma Continued(before: Database)
    requires ValidRules(RULES)
    requires before.rounds == [NewRound(RULES, "round", Named("player"), 5, 0)]
    requires before.tables.crash == [Reservation(true, "round", Named("player"), "k", 5, 1, Reserved, 1)] && before.tables.others == []
    ensures FindRound(before.rounds, "round") == Some(0)
    ensures After(before, RULES, CONTINUE).rounds
            == before.rounds[0 := Advance(RULES, before.rounds[0], SQUATTING,
                 Next(StageContinued, Active, 2, 5, Some(1_500), None, None,
                      Some(Outcome(false, 0, SQUATTING.custody, SQUATTING.provider)), None))]
  {
    assert FindTransition(before.rounds[0].transitions, DeadlineKey(2, 1_500)).None? by {
      assert before.rounds[0].transitions[0].key == StartKey;
    }
    assert before.tables.crash[..0] == [];
    assert TotalExposure(before.tables.crash) == 5 && WalletExposureOf(before.tables.crash, Named("player")) == 5;
    assert TotalExposure([]) == 0;
    assert FindRow(before.tables.crash, "round") == Some(0);
  }

  /** On that run the expiry worker fails at every later instant, whatever its limit, and changes nothing. */
  lemma WorkerCanBeStopped(later: int, limit: nat)
    requires later >= 1_500 && limit > 0
    ensures ValidRules(RULES)
    ensures var db := Run(RULES, [CREATE, CONTINUE]);
            ExpireBatch(db, ExpiredQuery(db.rounds, later, limit), later) == BatchResult(db, 0, Some(KeyReused))
  {
    hide Run, Sound, ValidRules, RULES, CREATE, CONTINUE, ExpiredQuery, ExpireBatch, FindTransition, FindRound;
    RulesAreValid();
    EveryRunIsSound(RULES, [CREATE, CONTINUE]);
    BlockedAfterRun();
    var db := Run(RULES, [CREATE, CONTINUE]);
    SoundIds(db, RULES);
    IdsDistinct(db, RULES, 0);
    var candidate := CandidateOf(db.rounds[0]);
    assert ReadAt(db, candidate, later);
    QueryReadsEarliest(db, later, limit);
    var query := ExpiredQuery(db.rounds, later, limit);
    assert ReadAt(db, query[0], later);
    TakenFirstChangesNothing(db, RULES, query, later);
  }

  lemma SoundIds(db: Database, rules: Rules)
    requires Sound(db, rules)
    ensures DistinctRoundIds(db.rounds)
  {
  }

  lemma BlockedAfterRun()
    requires ValidRules(RULES)
    ensures var db := Run(RULES, [CREATE, CONTINUE]);
            && |db.rounds| == 1 && db.rounds[0].status == Active && db.rounds[0].deadline == Some(1_500)
            && FindTransition(db.rounds[0].transitions, DeadlineKey(db.rounds[0].stage, 1_500)).Some?
  {
    Created();
    var before := After(EMPTY, RULES, CREATE);
    Continued(before);
    assert [CREATE, CONTINUE][..1] == [CREATE] && [CREATE][..0] == [];
    assert Run(RULES, [CREATE]) == before && Run(RULES, [CREATE, CONTINUE]) == After(before, RULES, CONTINUE);
    hide Run, After, FindTransition;
    var next := Next(StageContinued, Active, 2, 5, Some(1_500), None, None,
                     Some(Outcome(false, 0, SQUATTING.custody, SQUATTING.provider)), None);
    var round' := Advance(RULES, before.rounds[0], SQUATTING, next);
    KeyIsFound(round'.transitions, |before.rounds[0].transitions|);
  }
}
