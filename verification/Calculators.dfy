/**
 Crash pot growth and bust rolls (apps/api/src/crash/crash-calculators.ts).
 Amounts are minor units; hashes over the results are not modelled.
 */
module Calculators {
  import opened Support

  const BPS_SCALE: int := 10_000
  const MAX_POT_CONTRIBUTION_BPS: int := 1_000_000
  const PPM_SCALE: int := 1_000_000
  const MAX_RULE_STAGES: int := 64

  datatype StageRule = StageRule(stage: int, potContributionBps: int, bustThresholdPpm: int, maxPot: int)

  datatype CalculatorError = InvalidInput | InvalidRules | PotLimitExceeded | StageNotConfigured

  datatype Pot = Pot(current: nat, next: nat, change: nat, remainder: nat)

  ghost predicate ValidStage(rule: StageRule) {
    && 0 <= rule.potContributionBps <= MAX_POT_CONTRIBUTION_BPS
    && 0 <= rule.bustThresholdPpm <= PPM_SCALE
    && 0 < rule.maxPot <= MAX_U64
  }

  predicate NoLower(a: StageRule, b: StageRule) {
    && a.potContributionBps <= b.potContributionBps
    && a.bustThresholdPpm <= b.bustThresholdPpm
    && a.maxPot <= b.maxPot
  }

  /** Contiguous one-indexed stages whose three limits never fall from any stage to any later one. */
  ghost predicate ValidStages(stages: seq<StageRule>) {
    && 0 < |stages| <= MAX_RULE_STAGES
    && (forall i :: 0 <= i < |stages| ==> stages[i].stage == i + 1 && ValidStage(stages[i]))
    && (forall i, j :: 0 <= i < j < |stages| ==> NoLower(stages[i], stages[j]))
  }

  /** The loop compares neighbours only; that is enough for every pair. */
  method ValidateStages(stages: seq<StageRule>) returns (ok: bool)
    ensures ok <==> ValidStages(stages)
  {
    if |stages| == 0 || |stages| > MAX_RULE_STAGES {
      return false;
    }
    var previousBust, previousBps, previousMaxPot := -1, -1, -1;
    for index := 0 to |stages|
      invariant forall i :: 0 <= i < index ==> stages[i].stage == i + 1 && ValidStage(stages[i])
      invariant forall i, j :: 0 <= i < j < index ==> NoLower(stages[i], stages[j])
      invariant index > 0 ==> previousBust == stages[index - 1].bustThresholdPpm
                              && previousBps == stages[index - 1].potContributionBps
                              && previousMaxPot == stages[index - 1].maxPot
      invariant index == 0 ==> previousBust == previousBps == previousMaxPot == -1
    {
      var rule := stages[index];
      if rule.stage != index + 1 {
        return false;
      }
      if rule.potContributionBps < 0 || rule.potContributionBps > MAX_POT_CONTRIBUTION_BPS
         || rule.bustThresholdPpm < 0 || rule.bustThresholdPpm > PPM_SCALE
         || rule.maxPot <= 0 || rule.maxPot > MAX_U64
      {
        assert !ValidStage(stages[index]);
        return false;
      }
      if rule.potContributionBps < previousBps || rule.bustThresholdPpm < previousBust || rule.maxPot < previousMaxPot {
        assert !NoLower(stages[index - 1], stages[index]);
        return false;
      }
      previousBust, previousBps, previousMaxPot := rule.bustThresholdPpm, rule.potContributionBps, rule.maxPot;
    }
    return true;
  }

  function RequireStage(stages: seq<StageRule>, stage: int): (r: Result<StageRule, CalculatorError>)
    ensures r.Ok? ==> 1 <= stage <= |stages| && r.value == stages[stage - 1]
  {
    if stage <= 0 then Err(InvalidInput)
    else if stage > |stages| || stages[stage - 1].stage != stage then Err(StageNotConfigured)
    else Ok(stages[stage - 1])
  }

  function CalculatePot(stages: seq<StageRule>, stage: int, currentPot: nat, stageValue: nat): Result<Pot, CalculatorError>
    requires forall i :: 0 <= i < |stages| ==> stages[i].potContributionBps >= 0
  {
    match RequireStage(stages, stage)
    case Err(e) => Err(e)
    case Ok(rule) =>
      if currentPot > MAX_U64 || stageValue > MAX_U64 then Err(InvalidInput)
      else
        var unrounded: nat := stageValue * rule.potContributionBps;
        var next := currentPot + unrounded / BPS_SCALE;
        if next > MAX_U64 || next > rule.maxPot then Err(PotLimitExceeded)
        else Ok(Pot(currentPot, next, unrounded / BPS_SCALE, unrounded % BPS_SCALE))
  }

  function CalculateBust(stages: seq<StageRule>, stage: int, rollPpm: int): Result<bool, CalculatorError> {
    match RequireStage(stages, stage)
    case Err(e) => Err(e)
    case Ok(rule) =>
      if rollPpm < 0 || rollPpm >= PPM_SCALE then Err(InvalidInput)
      else Ok(rollPpm < rule.bustThresholdPpm)
  }

  /** What the floor takes is exactly the reported remainder, less than one unit; the pot never falls. */
  lemma PotIsExact(stages: seq<StageRule>, stage: int, currentPot: nat, stageValue: nat)
    requires ValidStages(stages)
    requires CalculatePot(stages, stage, currentPot, stageValue).Ok?
    ensures var pot := CalculatePot(stages, stage, currentPot, stageValue).value;
            && BPS_SCALE * (pot.next - currentPot) + pot.remainder == stageValue * stages[stage - 1].potContributionBps
            && pot.remainder < BPS_SCALE
            && currentPot <= pot.next <= stages[stage - 1].maxPot <= MAX_U64
  {
    assert ValidStage(stages[stage - 1]);
  }

  /** A roll that busts at one stage busts at every later one. */
  lemma BustIsMonotone(stages: seq<StageRule>, early: int, late: int, rollPpm: int)
    requires ValidStages(stages) && 1 <= early <= late <= |stages| && 0 <= rollPpm < PPM_SCALE
    requires CalculateBust(stages, early, rollPpm) == Ok(true)
    ensures CalculateBust(stages, late, rollPpm) == Ok(true)
  {
    assert early < late ==> NoLower(stages[early - 1], stages[late - 1]);
  }

  /** A pot is accepted exactly while the whole contribution keeps it below the stage's cap plus one unit. */
  lemma PotAcceptedExactly(stages: seq<StageRule>, stage: int, currentPot: nat, stageValue: nat)
    requires ValidStages(stages)
    ensures CalculatePot(stages, stage, currentPot, stageValue).Ok?
            <==> && 1 <= stage <= |stages| && currentPot <= MAX_U64 && stageValue <= MAX_U64
                 && stageValue * stages[stage - 1].potContributionBps < BPS_SCALE * (stages[stage - 1].maxPot - currentPot + 1)
  {
    if 1 <= stage <= |stages| {
      assert ValidStage(stages[stage - 1]);
    }
  }

  function BustingRolls(stages: seq<StageRule>, stage: int, n: int): set<int> {
    set roll: int | 0 <= roll < n && CalculateBust(stages, stage, roll) == Ok(true)
  }

  lemma {:induction false} BustingRollCount(stages: seq<StageRule>, stage: int, n: nat)
    requires ValidStages(stages) && 1 <= stage <= |stages| && n <= PPM_SCALE
    ensures |BustingRolls(stages, stage, n)|
            == if n < stages[stage - 1].bustThresholdPpm then n else stages[stage - 1].bustThresholdPpm
  {
    assert ValidStage(stages[stage - 1]);
    if n == 0 {
      assert BustingRolls(stages, stage, 0) == {};
    } else {
      BustingRollCount(stages, stage, n - 1);
      var busts := CalculateBust(stages, stage, n - 1) == Ok(true);
      assert BustingRolls(stages, stage, n) == BustingRolls(stages, stage, n - 1) + (if busts then {n - 1} else {});
    }
  }

  /** A stage busts on exactly its threshold's number of the million rolls. */
  lemma BustRollsAreExact(stages: seq<StageRule>, stage: int)
    requires ValidStages(stages) && 1 <= stage <= |stages|
    ensures |BustingRolls(stages, stage, PPM_SCALE)| == stages[stage - 1].bustThresholdPpm
  {
    BustingRollCount(stages, stage, PPM_SCALE);
    assert ValidStage(stages[stage - 1]);
  }
}
