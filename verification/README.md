# Verified model of DailyDraft's Crash protocol, RGS statistics and choreography

This project models three parts of the DailyDraft monorepo and proves what they
promise. Every theorem is a statement over all inputs, all runs or all
interleavings of the model.

**Crash rounds.** A round is an append-only ledger of transitions. Each decision
is one transaction that compares and sets `(stage, status, version)`, moves a
treasury reservation under wallet and treasury caps, and, for a continue made
through the player service, prepares a custody intent.

- `Calculators`, `Treasury`, `Rounds` hold the transactions as functions of the
  stored rows, with every rejection.
- `RoundInvariants`, `RoundSteps`, `RoundRuns` state what a database must satisfy
  and prove that every run satisfies it. A run is any list of creations,
  decisions, defaults, changes by other treasury sources and settlement updates.
- `RoundTheorems`, `RoundChain`, `RoundGuarantees` draw the consequences: the runtime ledger
  check never fails, one decision wins each version, exposure equals the active
  pots, a cash-out is always possible, rounding is bounded. `ExpiryBatch` is the
  expiry worker: its query, its loop and the candidate that stops it.
  `RoundWitness` holds concrete runs.
- `RoundOutcomes` says exactly when a creation, continue, cash-out or default is
  accepted on a reachable database, why a continue is refused, and what each
  leaves in every stored field, on amounts, thresholds, limits and clocks alone.
- `PlayerDecisions`, `PlayerService` add the player service: stale snapshots,
  replays, lost decisions and retries; outcomes and custody intents stay in
  bijection. `PlayerRaces` lets other transactions run between a call's own.
  `PlayerOutcomes` is the exact answer of a call: in time, late, overtaken by the
  deadline, failed, or addressed to the wrong round.
- `CrashStageState` is the same state machine over mutable tables, with a loop
  over expired rounds and explicit rollback. `Ordering` is text order and sorting.

**Crash settlement.** A terminal round is compiled into an ordered plan of
provider operations. Workers carry it out under leases, with retries, ambiguous
failures and crashes.

- `SettlementPlan`, `SettlementPromises`, `SettlementCustody`: the plan, what each
  of its operations is, and where each asset is while it is carried out.
- `SettlementStore`: the transactions on operation, settlement, round and
  inventory rows, database triggers, check constraints and the unique index on
  provider signatures included.
- `SettlementProtocol`: all interleavings. A worker's program counter and the row
  it last read are part of the state; every transaction or provider call is one
  step.
- `SettlementSafety`: what holds with stale workers, overrun leases and arbitrary
  provider answers. `SettlementEffects`: exactly-once effects with a
  deduplicating provider. `SettlementLease`: runs without lease overrun.
  `SettlementTheorems`: exactly-once effects without deduplication, and the
  runtime verifier. `SettlementWitnesses`: runs that show each hypothesis is
  needed. `SettlementInventory`, `SettlementOutcome`: the inventory a bust leaves.
  `SettlementRecovery`: which calls put an operation into reconcile-only recovery,
  and how long a lease can hold others off. `SettlementReceipt`: what the receipt
  shows. `SettlementSubmissions`, `SettlementTimes`: what the submission counts
  count and how the recorded times are ordered.
- `SettlementService`, `SettlementWorker`: the transactions, the runtime verifier
  and the worker loop over mutable tables and the keyed fixture provider;
  `SettlementPasses` says which faults leave a settlement open to the next call.
- `ServiceSettlement`: every terminal round of a service-driven run meets the
  hypotheses above.

**RGS simulator, choreography, history.** `RgsConfig`, `RgsStatistics` and
`RgsSimulator` cover integer statistics over parts per million with nested
floors, and `RgsBounds` ties every published figure to the payouts and the exact
expectations; `Doubles` binary floating point sums, `Choreography` the clock against its
precomputed timeline and `ChoreographyDrift` how far rounding carries the two
apart; `CrashHistory` keyset pagination over a changing table.

## Conventions

- One transaction is one atomic step. Hashes of canonical JSON are the hashed
  values themselves, so two hashes are equal exactly when the hashed values are.
- Minor units, parts per million and versions are unbounded integers; the
  source's own bounds (64 stages, unsigned 64-bit amounts, 24 hours) are explicit.
- A transition that throws is a rejection that leaves every row as it was.

## Findings

- The deadline default of an active round can be blocked by a direct caller of
  `decide` who names a continue after the deadline key of the stage it opens
  (apps/api/src/crash/crash-stage-state.ts:650-759, `RoundWitness.DefaultCanBeBlocked`).
  The default is accepted from the deadline on exactly when that key is unused
  (`RoundGuarantees.DefaultAcceptedExactly`); through the player service it always
  is (`ServiceSettlement.ServiceDefaultAlwaysAccepted`). Past its deadline a blocked
  round stays active and its exposure reserved for ever
  (`RoundGuarantees.BlockedIsHeldForever`).
- One blocked round stops the expiry worker
  (apps/api/src/crash/crash-stage-state.ts:632-647, 742-758): the loop ends at the
  first candidate whose key is taken, so a call succeeds exactly when every
  candidate's key is unused (`ExpiryBatch.BatchSucceedsExactly`); since the query
  reads the earliest deadline first, every later call fails in the same way and
  defaults nothing (`ExpiryBatch.TakenKeyStarvesTheQueue`,
  `RoundWitness.WorkerCanBeStopped`).
- A provider that reports one signature for two operations, or one that another
  settlement stores, runs into the unique index on signatures
  (packages/db/prisma/migrations/20260728220000_crash_settlement_recovery/migration.sql:171-172,
  apps/api/src/crash/crash-settlement.service.ts:410-424, 456-465): the record is
  rolled back with nothing crashed or overrun, and without deduplication the
  operation is applied again (`SettlementWitnesses.SharedSignatureAppliesTwice`);
  with deduplication the settlement is never settled
  (`SettlementEffects.SharedSignatureNeverSettles`). The record is accepted exactly
  when no other row holds the signature (`SettlementLease.RecordingIsAccepted`,
  `SettlementLease.FinalizingIsAccepted`).
- A resume call whose claim is refused can return normally while the runtime
  verifier rejects the stored rows, because finalizing an operation resets the
  settlement's status but not the round's
  (apps/api/src/crash/crash-settlement.service.ts:131-133, 426-438,
  `SettlementWitnesses.RefusedClaimReturnsRejectedRows`). The verifier accepts
  exactly the moments at which the two columns agree
  (`SettlementTheorems.VerifierAcceptsExactly`).
- A snapshot whose two reads, of the settlement and of its operations, fall on
  either side of a recorded recovery fails its recovery check
  (apps/api/src/crash/crash-settlement.service.ts:607-616, 983-1001,
  `SettlementWitnesses.TornSnapshotFails`); read at one moment it never does
  (`SettlementTheorems.SnapshotNeverFails`).
- When the risk envelope has fewer stages than the calculator rules, a continue
  from its last stage can only bust (apps/api/src/crash/crash-risk.policy.ts:551-563,
  `RoundGuarantees.LastRiskStageOnlyBusts`).
- An execute call that is dropped without an effect but reported as ambiguous
  leaves its operation waiting for an effect that does not exist: no truthful
  continuation executes or finalizes it, and its settlement is never settled
  (apps/api/src/crash/crash-settlement.service.ts:147-158, 176-188,
  `SettlementRecovery.DroppedCallIsNeverRetried`). Definite refusals, unreachable
  reconciliation, failed transactions and lost replies close no way
  (`SettlementWorker.CrashSettlementService.RetryFixtureSettlement`).
- Recording a recovery after another worker has settled the round never reaches
  the tables: the round's receipt columns make the whole transaction fail
  (apps/api/src/crash/crash-settlement.service.ts:442-479).
- The choreography clock sums its ticks in floating point
  (packages/engine/src/choreography.ts:223): after 1000 ms and all of the common
  celebration but its last representable step, ticks of a quarter step never settle
  it however many there are (`ChoreographyDrift.TicksCanVanish`), and one of five
  eighths settles it too early (`ChoreographyDrift.ClockCanSettleEarly`). A tick is
  summed exactly if and only if the time within its beat stays representable
  (`ChoreographyDrift.MoveIsExactly`); ticks that are multiples of 2 to the -41 ms,
  among them whole milliseconds and differences of clock readings from 2048 ms on,
  lose nothing (`ChoreographyDrift.GridTicksAreExact`).

## Model

| member | source | states |
|---|---|---|
| Calculators.ValidateStages | apps/api/src/crash/crash-calculators.ts:149-209 | Comparing neighbours only, the loop accepts exactly the rule lists whose stages are contiguous and bounded and whose bust threshold, contribution and cap never fall between any two stages. |
| Calculators.PotIsExact | apps/api/src/crash/crash-calculators.ts:237-278 | What the floor takes from a contribution is exactly the reported remainder, under one minor unit; the pot never falls and stays under the stage cap. |
| Calculators.PotAcceptedExactly | apps/api/src/crash/crash-calculators.ts:237-278 | A pot is accepted if and only if the stage exists, the amounts fit and the unrounded contribution keeps it below the cap plus one unit. |
| Calculators.BustRollsAreExact | apps/api/src/crash/crash-calculators.ts:280-311 | Out of the million rolls exactly the threshold's number bust. |
| Calculators.BustIsMonotone | apps/api/src/crash/crash-calculators.ts:280-303 | A roll that busts at one stage busts at every later stage. |
| Treasury.RaiseAdmittedExactly | apps/api/src/crash/crash-risk.policy.ts:388-432 | Raising an active reservation is admitted if and only if, on the tables with the raised row, the pot is within its limit, the house open and ready, and wallet, treasury and house limits hold over all sources; otherwise it is refused for the first limit broken, and the branch for an inconsistent ledger is never taken. |
| Treasury.AppendAdmittedExactly | apps/api/src/crash/crash-risk.policy.ts:348-432 | So is a new reservation, on the tables with its row appended. |
| Treasury.ReserveIsIdempotent | apps/api/src/crash/crash-risk.policy.ts:141-205 | Reserving a reserved round again changes nothing for the same pot, whatever the house has become, and is refused for any other. |
| Treasury.ReleaseIsIdempotent | apps/api/src/crash/crash-risk.policy.ts:287-346 | Releasing again, at whatever stage, changes nothing. |
| RoundSteps.MoveIsRowChange | apps/api/src/crash/crash-risk.policy.ts:207-285 | For an active round with its reservation, a transition is refused by the envelope or the admission limits and by nothing else; otherwise it makes one named change to one row and appends the matching ledger entry. |
| RoundRuns.EveryRunIsSound | apps/api/src/crash/crash-stage-state.ts:335-759 | After any run: ledger, versions, reservations, outcomes, pot accounting, payouts, caps and treasury ledger all satisfy the invariant. |
| RoundTheorems.LedgerCheckNeverFails | apps/api/src/crash/crash-stage-state.ts:1104-1157 | The runtime ledger check accepts every round of every run; an active round's version is its stage, a terminal one's is its stage plus one, so a run ends within maxStage transitions after the start. |
| RoundChain.EveryLedgerIsChained | apps/api/src/crash/crash-stage-state.ts:939-999 | On every run each ledger is one chain: stage, status and pot pass unbroken from one transition to the next, stages rise by one per continue, and nothing follows a terminal transition. |
| RoundTheorems.RunFollows | apps/api/src/crash/crash-stage-state.ts:482-608 | Along any run a ledger only grows, versions never fall, and a terminal round is frozen but for its settlement columns, which are final once SETTLED. |
| RoundTheorems.OneWinnerPerVersion | apps/api/src/crash/crash-stage-state.ts:554-576 | Of all decisions and defaults naming the same round and version, in any order and however far apart, at most one commits. |
| RoundTheorems.DecisionReplaysForever | apps/api/src/crash/crash-stage-state.ts:761-777 | Once a decision has committed, submitting it again is recognised at every later moment of every run, and another decision under its key is refused for ever. |
| RoundTheorems.PreparedOnce | apps/api/src/crash/crash-custody-movement.service.ts:145-188 | No run prepares the same asset of a stage twice, uses a custody key twice, or stores a row in recovery. |
| RoundGuarantees.ContinueOnlyWhenAdmitted | apps/api/src/treasury/house-treasury.policy.ts:123-154 | A continue commits only on healthy evidence with the house configured and not paused, and leaves all sources together within the house's loss, exposure, liquidity and delegation limits. |
| RoundOutcomes.ContinueAcceptedExactly | apps/api/src/crash/crash-stage-state.ts:482-608 | On every reachable active round a continue commits if and only if its key is unused, it names stage and version before the deadline, its pot is under the cap and its settlement the one the roll calls for, the evidence is in time, the stage within the envelope, the raised tables affordable and the custody effect prepared. It leaves the round busted exactly when the roll is below its stage's threshold, else completed exactly at the last stage, else active one stage on with the earlier of the two deadlines; every field of round, reservation and transition is fixed. |
| RoundOutcomes.ContinueRefusedFor | apps/api/src/crash/crash-stage-state.ts:862-937 | A well-formed continue that is not accepted is refused for the first of these conditions it fails. |
| RoundOutcomes.CashOutAcceptedExactly | apps/api/src/crash/crash-stage-state.ts:862-884 | A cash-out commits if and only if its key is unused, it is in time and claims the whole pot, and leaves the round cashed out, its pot promised and its reservation released. |
| RoundOutcomes.OutcomesDecidedOnEveryRun | apps/api/src/crash/crash-stage-state.ts:890-896 | In every ledger of every run an outcome is busted exactly when its roll is below its own stage's threshold; only the last outcome of a busted round is, and a completed round has one per stage. |
| RoundOutcomes.CandidateAcceptedExactly | apps/api/src/crash/crash-stage-state.ts:650-759 | A worker's candidate commits if and only if stage and version still match, the deadline has come and its key is unused; it forfeits the pot, pays nothing and releases the reservation. |
| RoundOutcomes.CreateAcceptedExactly | apps/api/src/crash/crash-stage-state.ts:335-438 | On every run a round is created if and only if its id is new, the evidence is in time and the tables with its reservation appended are affordable; it starts at stage and version one with both clocks running. |
| RoundOutcomes.CreateReplaysForever | apps/api/src/crash/crash-stage-state.ts:346-363 | Creating it again, at any later moment, is recognised by wallet and first pot, and anything else under its id is refused. |
| RoundGuarantees.AdmittedWithinHouse | apps/api/src/crash/crash-risk.policy.ts:400-432 | Any admitted change of one reservation keeps the house limits and the wallet cap over all sources. |
| RoundGuarantees.ExposureConserved | apps/api/src/crash/crash-risk.policy.ts:348-432 | On every run the reserved Crash exposure is the sum of the active pots, and the wallet and treasury caps hold whatever other sources do. |
| RoundGuarantees.LedgerReconstructsReservations | apps/api/src/crash/crash-risk.policy.ts:173-345 | Folding the created, adjusted and released entries gives back every reservation's amount, stage and status, and no idempotency key is written twice. |
| RoundInvariants.LedgerKeysDistinct | apps/api/src/crash/crash-risk.policy.ts:272-284 | In a ledger whose adjustments strictly raise amount and stage, no key repeats. |
| RoundGuarantees.AlwaysAnExit | apps/api/src/crash/crash-stage-state.ts:482-608 | In every reachable active round a cash-out of the whole pot is accepted before the deadline and only then, for any pause, health and caps, and pays the pot. |
| RoundGuarantees.DefaultAcceptedExactly | apps/api/src/crash/crash-stage-state.ts:650-759 | In every reachable active round the default is accepted if and only if the deadline has come and its own transition key is unused. |
| RoundGuarantees.BlockedIsHeldForever | apps/api/src/crash/crash-stage-state.ts:650-759 | From its deadline on, a round whose deadline key is taken is changed by no step of any later run, and its reservation stays active at the same amount. |
| RoundWitness.DefaultCanBeBlocked | apps/api/src/crash/crash-stage-state.ts:650-759 | A concrete run of two steps reaches an active round that no later instant can default. |
| RoundWitness.WorkerCanBeStopped | apps/api/src/crash/crash-stage-state.ts:610-648 | On that run the expiry worker fails at every later instant, whatever its limit, and changes nothing. |
| RoundGuarantees.DurationRefusalUnreachable | apps/api/src/crash/crash-risk.policy.ts:551-563 | The gate's duration, ledger-key and binding refusals cannot be reached from a decision on any reachable database. |
| RoundGuarantees.LastRiskStageOnlyBusts | apps/api/src/crash/crash-risk.policy.ts:551-563 | From the last stage of an envelope shorter than the rule list, a continue commits only as a bust. |
| RoundGuarantees.RoundingLossIsBounded | apps/api/src/crash/crash-calculators.ts:237-278 | Over a whole run, pot growth plus the recorded remainders is the summed contributions, so less than one minor unit is lost per continue and fewer than 64 in all. |
| RoundGuarantees.PromisedPayoutRecorded | apps/api/src/crash/crash-stage-state.ts:862-937 | Every terminal transition records the pot of a cashed-out or completed round and zero otherwise. |
| CrashStageState.CrashDatabase.SumExposures | apps/api/src/crash/crash-risk.policy.ts:656-658 | The loop sums exactly the active amounts, in total and for one wallet. |
| CrashStageState.CrashDatabase.AssertCanonicalAdmission | apps/api/src/crash/crash-risk.policy.ts:348-432 | The row-summing checks in their order give the admission of Treasury, which is exactly that the changed tables are affordable (Treasury.RaiseAdmittedExactly, Treasury.AppendAdmittedExactly). |
| CrashStageState.CrashDatabase.ReserveRound | apps/api/src/crash/crash-risk.policy.ts:141-205 | Creates the row and its ledger entry together or leaves both tables as they were, with the specified error. |
| CrashStageState.CrashDatabase.ApplyTransition | apps/api/src/crash/crash-risk.policy.ts:207-285 | Writes the reservation and ledger change of the specified move, or nothing and its error. |
| CrashStageState.CrashDatabase.ReleaseTerminal | apps/api/src/crash/crash-risk.policy.ts:287-346 | Releases the row and records it at its last amount, or nothing and its error. |
| CrashStageState.CrashDatabase.PrepareFixtureMovement | apps/api/src/crash/crash-custody-movement.service.ts:121-216 | Recognises a replay, or stores one row that is prepared or in recovery for the first check it fails, in the source's order; a second prepared row for a stage asset is refused. |
| Rounds.PreparedExactly | apps/api/src/crash/crash-custody-movement.service.ts:339-395 | A new movement is prepared exactly when round, player, rules, policy, recipient and source all fit and its stage asset is not prepared yet; otherwise it is left for recovery. |
| Rounds.ReasonIsFirstFailure | apps/api/src/crash/crash-custody-movement.service.ts:339-395 | A movement left for recovery carries the reason of the first check it fails, and keeps the policy only when that was consulted. |
| Rounds.PreparationIsIdempotent | apps/api/src/crash/crash-custody-movement.service.ts:145-188 | Asking again under the same key is answered with the stored row for the same movement and policy, and refused for any other. |
| CrashStageState.CrashDatabase.CreateFixtureRound | apps/api/src/crash/crash-stage-state.ts:335-438 | Round, start transition, reservation and ledger entry commit together or not at all. |
| CrashStageState.CrashDatabase.Decide | apps/api/src/crash/crash-stage-state.ts:482-608 | The row-by-row transaction with rollback ends in the database and reply of the decision, whose acceptance, refusals and stored fields RoundOutcomes fixes. |
| CrashStageState.CrashDatabase.ApplyExpiredDefaults | apps/api/src/crash/crash-stage-state.ts:610-648 | Query and loop leave the tables as trying the earliest due rounds one by one does, up to the first failure, and report that failure or the number of rounds changed. |
| ExpiryBatch.BatchStopsAtFirstTaken | apps/api/src/crash/crash-stage-state.ts:632-647 | On every sound database: exactly the candidates before the first one with a taken deadline key are defaulted and counted, every other round is untouched, and the loop stops there with an idempotency mismatch. |
| ExpiryBatch.BatchSucceedsExactly | apps/api/src/crash/crash-stage-state.ts:742-758 | A call succeeds if and only if the deadline key of every round it names is unused, and then defaults and counts them all. |
| ExpiryBatch.RestStaysDue | apps/api/src/crash/crash-stage-state.ts:632-647 | From the candidate that stopped the loop on, every round is still active, due and as it was read. |
| ExpiryBatch.QueryReadsEarliest | apps/api/src/crash/crash-stage-state.ts:618-631 | The query reads distinct due rounds in order of deadline and identifier and leaves a due round out only for as many earlier ones as its limit. |
| ExpiryBatch.TakenKeyStarvesTheQueue | apps/api/src/crash/crash-stage-state.ts:618-647 | After a call has failed, the next one, at any later time and with any limit, reads the blocked round first, fails in the same way and changes nothing. |
| ExpiryBatch.NoneDueAfterExactly | apps/api/src/crash/crash-stage-state.ts:610-648 | A call leaves no active round past its deadline if and only if its batch covers every due round and all their keys are unused. |
| PlayerDecisions.ServiceCallsAreFromService | apps/api/src/crash/crash-decision.service.ts:181-310 | Whatever snapshot was read, the decision and custody effect the service derives carry the round's own keys, asset, source and reference. |
| PlayerDecisions.ServiceRunsAreBacked | apps/api/src/crash/crash-decision.service.ts:94-218 | On every service-driven run each round's outcomes are those of stages 1, 2, ... and correspond one to one, in order, with its prepared intents, which bind its wallet, policy, asset and source. |
| PlayerService.CrashDecisionService.DecideForPlayer | apps/api/src/crash/crash-decision.service.ts:94-151 | Resume, replay check, decision and the second look after a lost decision, each at its own clock reading, end in the database and reply of the call, which PlayerOutcomes fixes. |
| PlayerOutcomes.TurnAnsweredExactly | apps/api/src/crash/crash-decision.service.ts:94-151 | An undisturbed call in time for an active round of a service-driven run: a cash-out is always played; a continue is played if and only if its pot fits, the gate admits it and its movement can be prepared, and is otherwise refused for the first of these that fails, changing nothing. When played, the status is the one that roll, threshold and stage give, with its pot, promised payout, reservation and prepared intent. |
| PlayerOutcomes.LateTurnIsDefaulted | apps/api/src/crash/crash-decision.service.ts:94-118 | A call that finds the round past its deadline defaults it and answers so, whatever was asked and whatever others do. |
| PlayerOutcomes.OvertakenTurnIsDefaulted | apps/api/src/crash/crash-decision.service.ts:119-151 | So does one whose decision the deadline overtakes, on its second look. |
| PlayerOutcomes.FailedCallIsExplained | apps/api/src/crash/crash-decision.service.ts:119-151 | A call whose transaction fails is reported as failed exactly when the round still stands where the decision expects it; otherwise it answers with the default or with an invalid transition. |
| PlayerOutcomes.UnaddressedIsRefused | apps/api/src/crash/crash-decision.service.ts:94-118 | Somebody else's round is not found, and a stage or version left behind is refused; nothing changes. |
| PlayerService.TurnIsServiceRun | apps/api/src/crash/crash-decision.service.ts:94-151 | Whatever others commit during it, every call continues the run by their steps and at most two of its own, all of them service steps when theirs are. |
| PlayerRaces.RepliesAreTrue | apps/api/src/crash/crash-decision.service.ts:94-151 | With any transactions between the call's own and any conflict: an answer of played or already played leaves the key recorded with its action, stage and version, one of defaulted leaves the round defaulted. |
| PlayerRaces.RetryIsRecognised | apps/api/src/crash/crash-decision.service.ts:312-329 | After such an answer every later call under the key, at any clock, after and during any further transactions, is already played for the same action, stage and version and refused for any other, and writes nothing but a due default; only a blocked default can hide the answer. |
| PlayerRaces.ServiceRetryIsRecognised | apps/api/src/crash/crash-decision.service.ts:312-329 | When only the service drives the rounds, nothing hides it. |
| PlayerRaces.RetryChangesNothing | apps/api/src/crash/crash-decision.service.ts:94-151 | Repeating a call at once changes no row: a taken decision is recognised as played, any other answer is given again. |
| SettlementPlan.VerifyPromisedAssets | apps/api/src/crash/crash-settlement.service.ts:730-773 | The loop with its set of matched intents accepts a round if and only if every outcome is backed by its own binding intent and none is left over. |
| SettlementPlan.VerifiedIsBijection | apps/api/src/crash/crash-settlement.service.ts:730-773 | In an accepted round the intents are exactly the ones the outcomes reference. |
| SettlementPlan.PlanOperations | apps/api/src/crash/crash-settlement.service.ts:644-728 | The push loop gives exactly the plan that SettlementPromises.PlanByIndex spells out, and planning fails exactly when the promises are not verified. |
| SettlementPromises.PlanByIndex | apps/api/src/crash/crash-settlement.service.ts:644-728 | The plan operation by operation: for each promised asset its purchase into session custody, its opening, its transfer to the player or into inventory and, for a bust that is sold, its sale, each at the asset's value and stage; then the whole pot to the player when one is owed; numbered, keyed and hashed in that order. |
| SettlementPromises.RequestKeysNameRound | apps/api/src/crash/crash-settlement.service.ts:707-727 | Two rounds, or one under two policies, never send the provider the same request key. |
| SettlementPromises.VerifiedPinsIntents | apps/api/src/crash/crash-settlement.service.ts:730-773 | Verification leaves no room for other evidence: two sets of intents with the same identifiers that both verify a round agree on round, asset, stage, player, recipient, rules and custody policy of every one. |
| SettlementCustody.PlanExecutable | apps/api/src/crash/crash-settlement.service.ts:644-693 | Replaying the plan from each asset's source, every operation finds its item with its own source. |
| SettlementCustody.AllDelivered | apps/api/src/crash/crash-settlement.service.ts:675-682 | At the end every promised asset is with the player (payout) or in inventory (bust). |
| SettlementCustody.OneAssetInSession | apps/api/src/crash/crash-settlement.service.ts:655-693 | With player, inventory and sources distinct from session custody, no plan prefix leaves two promised assets there. |
| SettlementCustody.PlannedProceedsArePromised | apps/api/src/crash/crash-settlement.service.ts:695-705 | The proceeds the plan pays the player are the pot of a cashed-out or completed round and zero otherwise. |
| SettlementCustody.PlanKeysDistinct | apps/api/src/crash/crash-settlement.service.ts:707-727 | With distinct stages, all operation keys and all provider request keys of a plan differ. |
| SettlementSafety.EveryInterleavingIsSafe | apps/api/src/crash/crash-settlement.service.ts:135-193 | In every interleaving the finalized operations are the first `finalizedOperationCount` of the plan, workers only pass finalized ones, no two rows of any settlements hold one signature, and settlement and round are settled together with one recomputable receipt. |
| SettlementSafety.FinalityIsForever | apps/api/src/crash/crash-settlement.service.ts:357-589 | FINALIZED rows, plan columns and a SETTLED settlement never change again. |
| SettlementEffects.DeduplicatedExactlyOnce | apps/api/src/crash/crash-settlement.service.ts:357-440 | With a truthful provider that deduplicates by request key, every interleaving applies at most one effect per operation, in plan order, never raises the different-evidence error, and a settled plan has been applied in full. |
| SettlementEffects.SharedSignatureNeverSettles | packages/db/prisma/migrations/20260728220000_crash_settlement_recovery/migration.sql:171-172 | With such a provider, once two effects carry one signature, or one carries a signature that another settlement stores, no later moment is settled. |
| SettlementRecovery.ReconcileOnlyNeedsAmbiguity | apps/api/src/crash/crash-settlement.service.ts:159-189 | In every interleaving an operation is reconcile-only only if an execute call for it has ended ambiguously; after definite refusals, failed transactions and crashes it may be executed again. |
| SettlementRecovery.DroppedCallIsNeverRetried | apps/api/src/crash/crash-settlement.service.ts:147-158 | A reconcile-only operation whose effect was never applied is executed and finalized by no truthful continuation, and its settlement is never settled. |
| SettlementRecovery.ReportedSignatureBinds | apps/api/src/crash/crash-settlement.service.ts:176-188 | The signature an ambiguous call reported stays with its operation in every continuation, which is finalized with that signature or not at all. |
| SettlementRecovery.ClaimableAfterAMinute | apps/api/src/crash/crash-settlement.service.ts:116-130 | Whatever crashed, from a minute on an unsettled settlement can be claimed. |
| SettlementRecovery.ClaimLastsAMinute | apps/api/src/crash/crash-settlement.service.ts:116-130 | A claim keeps every other call off for exactly a minute. |
| SettlementReceipt.ReceiptIsEvidence | apps/api/src/crash/crash-settlement.service.ts:481-589 | In every interleaving with a truthful, deduplicating provider the receipt of a settled round shows, line by line, the planned operation and the digest and signature of the effect applied for it, together with the round's last transition and the policy; settlement and round hold the same receipt. |
| SettlementReceipt.RecordedReceiptIsEvidence | apps/api/src/crash/crash-settlement.service.ts:481-589 | So it does without deduplication under the hypotheses of RecordedExactlyOnce. |
| SettlementReceipt.AcceptedSettlementIsComplete | apps/api/src/crash/crash-settlement.service.ts:877-981 | Rows of any origin that the runtime verifier accepts as settled carry out the whole recomputed plan, with the recomputed hash of every request and signature, and hold the receipt of those rows in both columns. |
| SettlementReceipt.AcceptedRecoveryIsNamed | apps/api/src/crash/crash-settlement.service.ts:983-1001 | Accepted as open they carry no receipt, and the one operation in recovery is the one the reason names, with its code. |
| SettlementTimes.TimesFollowPlan | apps/api/src/crash/crash-settlement.service.ts:410-424 | In every interleaving the recorded finalization times lie within the run and never fall along the plan, and the settlement's own is no earlier than any of them. |
| SettlementLease.LeasedRunIsDisciplined | apps/api/src/crash/crash-settlement.service.ts:110-200 | Without lease overrun at most one worker is in flight, its last-read row is the stored one, and recovery is on the first unfinalized operation, which the reason names. |
| SettlementLease.SoleWorker | apps/api/src/crash/crash-settlement.service.ts:118-130 | Two workers that both hold the unexpired lease are one worker. |
| SettlementLease.RecordingIsAccepted | apps/api/src/crash/crash-settlement.service.ts:442-479 | On such runs recording a recovery is rolled back exactly when it reports a signature that another row holds, and by no other trigger, check or index. |
| SettlementLease.FinalizingIsAccepted | apps/api/src/crash/crash-settlement.service.ts:357-440 | So is finalizing an executed result. |
| SettlementLease.OwnSignatureIsFree | apps/api/src/crash/crash-settlement.service.ts:410-424 | A signature that no earlier effect carries and no other settlement stores is admitted for the operation in work. |
| SettlementTheorems.RecordedExactlyOnce | apps/api/src/crash/crash-settlement.service.ts:135-193 | Without deduplication and with lagging reconciliation, each operation is still applied at most once when no lease is overrun, nothing executed is lost before it is recorded, and no signature to be recorded is held by another row. |
| SettlementSubmissions.SubmissionsAreExecutions | apps/api/src/crash/crash-settlement.service.ts:410-466 | While leases are kept and outcomes stored, an operation's submission count is the number of execute calls made for it; reconciled results are not counted. |
| SettlementTheorems.VerifierAcceptsExactly | apps/api/src/crash/crash-settlement.service.ts:877-981 | At every moment of every run without overrun, crashes included, the verifier accepts the rows if and only if round and settlement status agree. |
| SettlementTheorems.NormalReturnIsVerified | apps/api/src/crash/crash-settlement.service.ts:110-200 | A claimed resume call that returns normally leaves rows the verifier accepts, settled or in recovery. |
| SettlementTheorems.SnapshotNeverFails | apps/api/src/crash/crash-settlement.service.ts:983-1001 | Settlement and operations read at any one moment of such a run pass the recovery check. |
| SettlementTheorems.AppliedEffectsRespectCustody | apps/api/src/crash/crash-settlement.service.ts:644-728 | Each effect applied so far took its item from the holder it had. |
| SettlementTheorems.OneAssetAtATime | apps/api/src/crash/crash-settlement.service.ts:655-693 | At no moment do the applied effects leave two promised assets in session custody, when player, inventory and sources are distinct from it. |
| SettlementWitnesses.OverrunAppliesTwice | apps/api/src/crash/crash-settlement.service.ts:118-130 | From any fresh plan, an overrun lease alone lets a non-deduplicating provider apply an operation twice. |
| SettlementWitnesses.CrashAppliesTwice | apps/api/src/crash/crash-settlement.service.ts:159-190 | So does a crash between execute and its recording, with no lease overrun. |
| SettlementWitnesses.LostCommitAppliesTwice | apps/api/src/crash/crash-settlement.service.ts:190-199 | So does a failed finalizing transaction, with neither crash nor overrun. |
| SettlementWitnesses.SharedSignatureAppliesTwice | packages/db/prisma/migrations/20260728220000_crash_settlement_recovery/migration.sql:171-172 | So does a signature shared by two operations, with neither crash, overrun nor failed transaction. |
| SettlementWitnesses.TornSnapshotFails | apps/api/src/crash/crash-settlement.service.ts:607-616 | On a run with every hypothesis, a settlement row read before a recovery and operations read after it fail the recovery check. |
| SettlementWitnesses.RefusedClaimReturnsRejectedRows | apps/api/src/crash/crash-settlement.service.ts:131-133 | A refused claim can return normally, with nobody in flight, while the verifier rejects the rows. |
| SettlementInventory.BustInventoryIsExact | apps/api/src/crash/crash-settlement.service.ts:1150-1236 | Closing a bust records one inventory row and one forfeiture entry per promised asset, in order, at its value, disposed exactly when the policy liquidates. |
| SettlementOutcome.SettlementInventoryIsExact | apps/api/src/crash/crash-settlement.service.ts:481-589 | In every interleaving a settled bust holds exactly that inventory; before settling, and for every cash-out, there is none. |
| SettlementService.EnsurePlan | apps/api/src/crash/crash-settlement.service.ts:242-355 | A settlement is opened exactly when the round is settleable, with the planned rows; a stored one is accepted exactly when its plan recomputes. |
| SettlementReceipt.RequestPinsRound | apps/api/src/crash/crash-settlement.service.ts:840-875 | A stored plan is replayed for nothing else: two equal plan requests have the same plan, player, pot, rules, policy and terminal transition. |
| SettlementService.SettlementTables.AssertVerifiedSettlement | apps/api/src/crash/crash-settlement.service.ts:877-981 | The runtime verifier with its loops returns true exactly on verified rows. |
| SettlementService.SettlementTables.VerifyRecovery | apps/api/src/crash/crash-settlement.service.ts:983-1001 | Exactly one recovering row, the one the reason names, or none. |
| SettlementService.SettlementTables.FinalizeOperation | apps/api/src/crash/crash-settlement.service.ts:357-440 | Writes the operation and the recounted settlement of the specified transaction, or nothing, a signature held by another row included. |
| SettlementService.SettlementTables.RecordRecovery | apps/api/src/crash/crash-settlement.service.ts:442-479 | Writes operation, settlement and round of the specified transaction, or nothing, a signature held by another row included. |
| SettlementService.SettlementTables.RecordBustInventory | apps/api/src/crash/crash-settlement.service.ts:1150-1236 | The loop produces the specified inventory, or the conflict it stops at. |
| SettlementService.SettlementTables.FinalizeSettlement | apps/api/src/crash/crash-settlement.service.ts:481-589 | Settles settlement, round and inventory together as specified, or writes nothing. |
| SettlementService.FixtureProvider.Execute | apps/api/src/crash/crash-settlement.provider.ts:70-85 | Returns the recorded result of a known key unchanged, and records a fresh one otherwise. |
| SettlementWorker.CrashSettlementService.ResumeFixtureSettlement | apps/api/src/crash/crash-settlement.service.ts:110-200 | With time passing and provider, transactions or lease release failing at any turn, the whole call is a deduplicated run of the protocol that leaves no worker behind; with no fault and signatures of its own it ends settled, and when only harmless faults happen it ends settled or with the lease free and the next call as able to settle it. |
| SettlementWorker.CrashSettlementService.RetryFixtureSettlement | apps/api/src/crash/crash-settlement.service.ts:202-232 | After a first call in which only definite refusals, unreachable reconciliation, failed transactions or lost replies happened, a second one without faults ends settled. |
| SettlementPasses.OpenedIsResumable | apps/api/src/crash/crash-settlement.service.ts:242-355 | A settlement opened for a terminal round is open to its first call. |
| SettlementPasses.FreshPlanPasses | apps/api/src/crash/crash-settlement.provider.ts:70-97 | A fresh plan has those signatures when the fixture's hash separates its request keys and no other settlement stores one of them. |
| ServiceSettlement.TerminalRoundsAreSettleable | apps/api/src/crash/crash-settlement.service.ts:242-264 | Every terminal round of every service-driven run can be settled under a fitting policy: its promises verify, with distinct stages and assets and no source in session custody. |
| ServiceSettlement.PromisesReadLedger | apps/api/src/crash/crash-settlement.service.ts:730-773 | On service-driven runs the promise of each outcome is the asset of its own stage, at the value that stage was paid for, from the provider's wallet of that stage. |
| ServiceSettlement.ServiceDefaultAlwaysAccepted | apps/api/src/crash/crash-stage-state.ts:650-759 | On service-driven runs the default is accepted exactly from the deadline on. |
| ServiceSettlement.PlanIsStable | apps/api/src/crash/crash-settlement.service.ts:840-875 | A terminal round's settlement request recomputes to the same value at every later moment, so a plan replay always matches. |
| ServiceSettlement.PromisesAreKept | apps/api/src/crash/crash-settlement.service.ts:110-200 | End to end: effects at most once and in custody order, the whole plan applied once settled, and the planned proceeds equal the payout of the terminal transition. |
| RgsConfig.ValidateConfig | packages/rgs-simulator/src/config.ts:44-149 | The normalising loops accept exactly the configurations with bounded tiers and payouts, probabilities summing to a million, and distinct keys and ids. |
| RgsStatistics.SelectTier | packages/rgs-simulator/src/simulator.ts:397-405 | The cumulative loop never falls through and returns the tier that owns the residue. |
| RgsStatistics.TierShareIsExact | packages/rgs-simulator/src/simulator.ts:397-405 | A tier owns exactly its parts per million of the residues and between 4294 and 4295 times that many of the 32-bit words. |
| RgsSimulator.HitsSumToRounds | packages/rgs-simulator/src/simulator.ts:48-64 | Tier hits sum to the number of rounds. |
| RgsSimulator.HitRatesNearlyExhaustive | packages/rgs-simulator/src/simulator.ts:91-98 | Hit rates in parts per million sum to more than a million less the number of tiers. |
| RgsSimulator.RealizedVarianceUnclamped | packages/rgs-simulator/src/simulator.ts:77-80 | The realized variance is never negative before its clamp. |
| RgsSimulator.DeclaredVarianceUnclamped | packages/rgs-simulator/src/simulator.ts:311-320 | Neither is the declared variance, despite the floors inside every tier. |
| RgsSimulator.DeclaredMetrics | packages/rgs-simulator/src/simulator.ts:273-327 | The loops with their reset on a new maximum give the greatest payout of the configuration, its exposure beyond the stake, exactly its outcome ids in text order, their summed probability, and the unclamped moments. |
| RgsSimulator.Simulate | packages/rgs-simulator/src/simulator.ts:33-99 | The greatest payout drawn, its exposure, the number of rounds that drew it, exactly its outcome ids in text order, exact tier hits and unclamped moments. |
| RgsBounds.RealizedWithinBounds | packages/rgs-simulator/src/simulator.ts:63-99 | The realized RTP is within two parts per million of the drawn amounts over the stakes, the second moment correspondingly; the maximum was drawn exactly as often as stated and every rate is the exact one rounded down. |
| RgsBounds.DeclaredWithinBounds | packages/rgs-simulator/src/simulator.ts:273-327 | Against the exact expectations over tiers and payouts the declared RTP loses less than two parts per million and a millionth per tier, the second moment correspondingly, and the odds of the maximum at most one part per tier. |
| RgsBounds.PayoutShareIsEven | packages/rgs-simulator/src/simulator.ts:57-59 | Whatever tier was selected, each of its payouts is drawn by its even share of the 32-bit words, to within one word. |
| RgsSimulator.ExposurePassesExactly | packages/rgs-simulator/src/simulator.ts:361-372 | The report's exposure check passes if and only if the run drew every outcome that pays the greatest declared payout. |
| Choreography.CreateTimeline | packages/engine/src/choreography.ts:166-183 | The loop lists every beat with the start that the summed durations give it. |
| Choreography.ChoreographyClock.Tick | packages/engine/src/choreography.ts:213-244 | A tick moves the clock by one rounded floating point sum; taking off the beats that are over is exact near the timeline and ends settled beyond it, and the clock stands where the timeline puts the new position. |
| Choreography.PlayAll | packages/engine/src/choreography.ts:206-244 | Any list of ticks ends in the timeline entry that contains its accumulated time, settled exactly when that reaches the last end. |
| ChoreographyDrift.GridTicksAreExact | packages/engine/src/choreography.ts:213-244 | For ticks that are multiples of 2 to the -41 ms the accumulated time is the exact sum until the end, so the state depends on the sum alone, however it is split. |
| ChoreographyDrift.FrameTicksAreOnGrid | packages/engine/src/choreography.ts:213-223 | Differences of two representable clock readings of at least 2048 ms are such ticks. |
| ChoreographyDrift.ClearSumDecides | packages/engine/src/choreography.ts:213-244 | For any ticks, the exact sum decides the state when it keeps more than 2 to the -42 ms a tick away from every beat's start and the end. |
| ChoreographyDrift.MoveIsExactly | packages/engine/src/choreography.ts:223 | One tick before the end is summed exactly if and only if the time within the beat stays representable. |
| ChoreographyDrift.TicksCanVanish | packages/engine/src/choreography.ts:223-230 | After a concrete pair of ticks, no number of small ticks settles the clock, although their exact sum passes the end. |
| ChoreographyDrift.ClockCanSettleEarly | packages/engine/src/choreography.ts:223-230 | After the same pair one tick settles it with the exact sum below the end. |
| Doubles.DifferenceIsRepresentable | packages/engine/src/choreography.ts:231 | Taking whole milliseconds off a floating point time below 2 to the 53 ms is exact. |
| Choreography.StateAtReadsTimeline | packages/engine/src/choreography.ts:166-183 | The state for an elapsed time is the timeline entry whose interval contains it. |
| CrashHistory.EveryRowExactlyOnce | apps/api/src/crash/crash-history.service.ts:74-112 | Followed to its end, the history shows every row present throughout exactly once, whatever is added or removed between requests. |
| CrashHistory.WalkDescends | apps/api/src/crash/crash-history.service.ts:74-112 | The pages never break the order, so no row is shown twice. |
| CrashHistory.UnchangedWalkIsTable | apps/api/src/crash/crash-history.service.ts:74-112 | On an unchanging table the concatenated pages are the sorted table. |

## Left out

- SettlementStore.FinalizeOperation: atomic and serializable in the model, although the source runs it and the recovery record at the database's default isolation level, where a second writer of the same row fails instead of seeing it final; that failure is the protocol's failed commit.
- SettlementWorker.CrashSettlementService.ResumeFixtureSettlement: other workers stand still during one call; their steps in between are the protocol's.
- SettlementLease.LeasedRunIsDisciplined: all workers read one clock; differing process clocks are covered only by the interleavings with overrun leases.
- SettlementTheorems.SnapshotNeverFails: settlement and operations are taken as one atomic read; whether the database client reads them in one statement is outside the model.
- PlayerOutcomes.TurnAnsweredExactly: nobody else writes during the call; what holds when others do is PlayerRaces.RepliesAreTrue.
- PlayerService.CrashDecisionService.DecideForPlayer: the settling of a terminal round after the decision is not part of it, it is the settlement worker's call.
- CrashStageState.CrashDatabase.PrepareFixtureMovement: modelled inside the decision's transaction, its only caller; wallets are taken as matching the fixture pattern, and the three ways a policy can be unusable are one.
- ExpiryBatch.QueryReadsEarliest: text is compared character by character; a database collation may order identifiers with equal deadlines otherwise.
- Choreography.PlayAll: ticks are multiples of the smallest spacing and have no upper bound; a finite binary64 sum here never overflows, because the time within a beat is at most 620 ms.
- Rounds.Decide: shapes, patterns and schema versions of evidence records are not modelled, only amounts, stages, rolls and references.
- SettlementPlan.PlanOperations: hashes shortened to a prefix are still treated as the whole hash.
- RgsSimulator.Simulate: entropy derivation is an input (two words per round).
- Serialization retries, advisory locks and row timestamps other than deadlines and settlement times.
- Field-by-field validation of rules and policies beyond the arithmetic and ordering facts used here.
- Receipt rendering, public history events and cursor encoding.
- The settlement batch loop over several rounds: each iteration is one resume call.
- Duels, transaction monitoring, the React and Pixi front ends, controllers, guards and administration.
