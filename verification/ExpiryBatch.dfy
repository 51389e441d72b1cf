/**
 The expiry worker's batch (applyExpiredDefaults in
 apps/api/src/crash/crash-stage-state.ts): the query, the candidates tried one
 after another, and the candidate that stops them.
 */
module ExpiryBatch {
  import opened Support
  import opened Ordering
  import opened Calculators
  import opened Treasury
  import opened Rounds
  import opened RoundInvariants
  import opened RoundSteps
  import opened RoundRuns
  import opened RoundGuarantees

  function Applied(verdict: Verdict, before: Database): Database {
    if verdict.Committed? then verdict.db else before
  }

  predicate Due(round: Round, now: int) {
    round.status == Active && round.deadline.Some? && round.deadline.value <= now
  }

  // ---------------------------------------------------------------- the query

  /** By deadline, then by identifier; identifiers are unique, so the last two columns never decide. */
  predicate QueryOrder(a: Candidate, b: Candidate) {
    || a.deadline < b.deadline
    || (a.deadline == b.deadline &&
        (|| TextLess(a.id, b.id)
         || (a.id == b.id && (a.stage < b.stage || (a.stage == b.stage && a.version < b.version)))))
  }

  function DueCandidates(rounds: seq<Round>, now: int): seq<Candidate> {
    if rounds == [] then []
    else
      var last := rounds[|rounds| - 1];
      DueCandidates(rounds[..|rounds| - 1], now) + (if Due(last, now) then [CandidateOf(last)] else [])
  }

  /** The first `limit` due rounds, earliest deadline first. */
  function ExpiredQuery(rounds: seq<Round>, now: int, limit: nat): seq<Candidate> {
    var sorted := Sort((a, b) => QueryOrder(a, b), DueCandidates(rounds, now));
    if |sorted| <= limit then sorted else sorted[..limit]
  }

  // ---------------------------------------------------------------- trying the candidates

  /** Where the loop stands: the tables, the rounds it changed, and the error that ended it. */
  datatype BatchResult = BatchResult(db: Database, changed: nat, error: Option<StateError>)

  /** Each candidate in its own transaction; a round that has moved on is no work, any other failure ends the loop. */
  function ExpireBatch(db: Database, batch: seq<Candidate>, now: int): BatchResult {
    if batch == [] then BatchResult(db, 0, None)
    else
      var before := ExpireBatch(db, batch[..|batch| - 1], now);
      if before.error.Some? then before
      else
        match ApplyDefault(before.db, batch[|batch| - 1], now)
        case Committed(after) => BatchResult(after, before.changed + 1, None)
        case Rejected(error) => before.(error := Some(error))
        case _ => before
  }

  // ---------------------------------------------------------------- candidates as they were read

  ghost predicate ReadAt(db: Database, candidate: Candidate, now: int) {
    exists i :: 0 <= i < |db.rounds| && Due(db.rounds[i], now) && candidate == CandidateOf(db.rounds[i])
  }

  /** Candidates read from distinct rounds that are due. */
  ghost predicate ReadFrom(db: Database, batch: seq<Candidate>, now: int) {
    && (forall k :: 0 <= k < |batch| ==> ReadAt(db, batch[k], now))
    && (forall a, b :: 0 <= a < b < |batch| ==> batch[a].id != batch[b].id)
  }

  ghost predicate Named(batch: seq<Candidate>, id: string) {
    exists k :: 0 <= k < |batch| && batch[k].id == id
  }

  /** The candidate's deadline key is unused in its round's ledger. */
  predicate KeyFree(db: Database, candidate: Candidate) {
    var found := FindRound(db.rounds, candidate.id);
    found.Some? && FindTransition(db.rounds[found.value].transitions, DeadlineKey(candidate.stage, candidate.deadline)).None?
  }

  /** How many leading candidates have their key free. */
  function FreePrefix(db: Database, batch: seq<Candidate>): (k: nat)
    ensures k <= |batch|
    ensures forall j :: 0 <= j < k ==> KeyFree(db, batch[j])
    ensures k < |batch| ==> !KeyFree(db, batch[k])
  {
    if batch == [] then 0
    else
      var k := FreePrefix(db, batch[..|batch| - 1]);
      if k == |batch| - 1 && KeyFree(db, batch[k]) then k + 1 else k
  }

  /** The rounds named by the batch are defaulted, the others untouched. */
  ghost predicate DefaultedExactly(before: Database, after: Database, batch: seq<Candidate>) {
    && |after.rounds| == |before.rounds|
    && forall i :: 0 <= i < |before.rounds| ==>
         if Named(batch, before.rounds[i].id) then after.rounds[i].status == Defaulted && after.rounds[i].id == before.rounds[i].id
         else after.rounds[i] == before.rounds[i]
  }

  lemma NamedAppend(batch: seq<Candidate>, n: nat)
    requires |batch| == n + 1
    ensures forall id :: Named(batch, id) <==> Named(batch[..n], id) || batch[n].id == id
  {
    forall id ensures Named(batch, id) <==> Named(batch[..n], id) || batch[n].id == id {
      if Named(batch, id) {
        var k :| 0 <= k < |batch| && batch[k].id == id;
        assert k < n ==> batch[..n][k].id == id;
      }
      if Named(batch[..n], id) {
        var k :| 0 <= k < n && batch[..n][k].id == id;
        assert batch[k].id == id;
      }
      assert batch[n].id == id ==> Named(batch, id);
    }
  }

  lemma ReadFromInit(db: Database, batch: seq<Candidate>, now: int)
    requires ReadFrom(db, batch, now) && batch != []
    ensures ReadFrom(db, batch[..|batch| - 1], now) && !Named(batch[..|batch| - 1], batch[|batch| - 1].id)
    ensures ReadAt(db, batch[|batch| - 1], now)
  {
    var init := batch[..|batch| - 1];
    forall k | 0 <= k < |init| ensures ReadAt(db, init[k], now) {
      assert init[k] == batch[k];
    }
  }

  // ---------------------------------------------------------------- one candidate

  /** A due round with its key free is defaulted. */
  lemma {:induction false} FreeIsDefaulted(db: Database, rules: Rules, i: nat, now: int)
    requires ValidRules(rules) && Sound(db, rules) && i < |db.rounds| && Due(db.rounds[i], now)
    requires FindTransition(db.rounds[i].transitions, DeadlineKey(db.rounds[i].stage, db.rounds[i].deadline.value)).None?
    ensures var verdict := ApplyDefault(db, CandidateOf(db.rounds[i]), now);
            && verdict.Committed? && Sound(verdict.db, rules)
            && verdict.db.rounds == db.rounds[i := Forfeit(db.rounds[i], CandidateOf(db.rounds[i]), now)]
  {
    hide Sound, Release, FindTransition, FindRound, RowReady, Bounded, ValidRules, Forfeit;
    ActiveSlotOf(db, rules, i);
    DefaultDecided(db, rules, i, now);
    DefaultKeepsSound(db, rules, CandidateOf(db.rounds[i]), now);
  }

  lemma TakenByDecision(db: Database, rules: Rules, i: nat, k: nat)
    requires Sound(db, rules) && i < |db.rounds| && db.rounds[i].status == Active && k < |db.rounds[i].transitions|
    ensures !db.rounds[i].transitions[k].request.DefaultRequest?
  {
    SlotOf(db, rules, i);
    hide Sound, LedgerAccepted, OutcomesInOrder, PotAccounted;
  }

  /** A due round whose key is taken refuses its default with an idempotency mismatch. */
  lemma {:induction false} TakenIsRefused(db: Database, rules: Rules, i: nat, now: int)
    requires Sound(db, rules) && i < |db.rounds| && Due(db.rounds[i], now)
    requires FindTransition(db.rounds[i].transitions, DeadlineKey(db.rounds[i].stage, db.rounds[i].deadline.value)).Some?
    ensures ApplyDefault(db, CandidateOf(db.rounds[i]), now) == Rejected(KeyReused)
  {
    hide Sound, Release, RowReady;
    ActiveSlotOf(db, rules, i);
    var key := DeadlineKey(db.rounds[i].stage, db.rounds[i].deadline.value);
    TakenByDecision(db, rules, i, FindTransition(db.rounds[i].transitions, key).value);
    ReleaseIsRowChange(db.tables, i, db.rounds[i], db.rounds[i].stage);
  }

  /** The last candidate's round is still as it was read: it is defaulted or refused by its key alone. */
  lemma {:induction false} LastCandidate(db: Database, before: Database, rules: Rules, batch: seq<Candidate>, now: int)
    requires ValidRules(rules) && Sound(db, rules) && Sound(before, rules) && batch != []
    requires ReadAt(db, batch[|batch| - 1], now) && !Named(batch[..|batch| - 1], batch[|batch| - 1].id)
    requires DefaultedExactly(db, before, batch[..|batch| - 1])
    ensures var verdict := ApplyDefault(before, batch[|batch| - 1], now);
            if KeyFree(db, batch[|batch| - 1])
            then verdict.Committed? && Sound(verdict.db, rules) && DefaultedExactly(db, verdict.db, batch)
            else verdict == Rejected(KeyReused)
  {
    hide Sound, ApplyDefault, Named, FindTransition, FindRound, Forfeit;
    var n := |batch| - 1;
    var i :| 0 <= i < |db.rounds| && Due(db.rounds[i], now) && batch[n] == CandidateOf(db.rounds[i]);
    IdsDistinct(db, rules, i);
    if KeyFree(db, batch[n]) {
      FreeIsDefaulted(before, rules, i, now);
      ForfeitKeepsId(db.rounds[i], batch[n], now);
      NamedAppend(batch, n);
    } else {
      TakenIsRefused(before, rules, i, now);
    }
  }

  lemma ForfeitKeepsId(round: Round, candidate: Candidate, now: int)
    ensures Forfeit(round, candidate, now).id == round.id && Forfeit(round, candidate, now).status == Defaulted
  {
  }

  lemma IdsDistinct(db: Database, rules: Rules, i: nat)
    requires Sound(db, rules) && i < |db.rounds|
    ensures FindRound(db.rounds, db.rounds[i].id) == Some(i)
    ensures forall j :: 0 <= j < |db.rounds| && j != i ==> db.rounds[j].id != db.rounds[i].id
  {
    FoundIsUnique(db.rounds, db.tables.crash, i);
  }

  // ---------------------------------------------------------------- the whole batch

  /**
   What a batch comes to: the first `k` candidates are defaulted and counted, every
   other round stays as it was read, and the loop stops at candidate `k`, if there
   is one, with an idempotency mismatch.
   */
  ghost predicate StopsAt(db: Database, rules: Rules, batch: seq<Candidate>, r: BatchResult, k: nat)
    requires k <= |batch|
  {
    && Sound(r.db, rules) && DefaultedExactly(db, r.db, batch[..k]) && r.changed == k
    && r.error == if k == |batch| then None else Some(KeyReused)
  }

  /** One more candidate, given where the loop stood before it. */
  lemma NextCandidate(db: Database, rules: Rules, batch: seq<Candidate>, now: int)
    requires ValidRules(rules) && Sound(db, rules) && ReadFrom(db, batch, now) && batch != []
    requires StopsAt(db, rules, batch[..|batch| - 1], ExpireBatch(db, batch[..|batch| - 1], now), FreePrefix(db, batch[..|batch| - 1]))
    ensures StopsAt(db, rules, batch, ExpireBatch(db, batch, now), FreePrefix(db, batch))
  {
    hide Sound, ApplyDefault, KeyFree, ReadFrom, ReadAt, DefaultedExactly, Named;
    var n := |batch| - 1;
    var k := FreePrefix(db, batch[..n]);
    ReadFromInit(db, batch, now);
    assert batch[..n][..k] == batch[..k];
    if k == n {
      assert batch[..n + 1] == batch && batch[..n][..n] == batch[..n];
      LastCandidate(db, ExpireBatch(db, batch[..n], now).db, rules, batch, now);
    }
  }

  /** The loop stops exactly at the first candidate whose deadline key is taken. */
  lemma {:induction false} BatchStopsAtFirstTaken(db: Database, rules: Rules, batch: seq<Candidate>, now: int)
    requires ValidRules(rules) && Sound(db, rules) && ReadFrom(db, batch, now)
    ensures StopsAt(db, rules, batch, ExpireBatch(db, batch, now), FreePrefix(db, batch))
  {
    hide Sound, ApplyDefault, KeyFree, ReadFrom, ReadAt, Named;
    if batch != [] {
      hide StopsAt, DefaultedExactly, ExpireBatch, FreePrefix;
      ReadFromInit(db, batch, now);
      BatchStopsAtFirstTaken(db, rules, batch[..|batch| - 1], now);
      NextCandidate(db, rules, batch, now);
    } else {
      NothingNamed(db, db);
    }
  }

  lemma NothingNamed(db: Database, after: Database)
    ensures DefaultedExactly(db, after, []) <==> after.rounds == db.rounds
  {
    assert forall id :: !Named([], id);
  }

  /** The worker's call succeeds if and only if every candidate's key is free, and then defaults the whole batch. */
  lemma BatchSucceedsExactly(db: Database, rules: Rules, batch: seq<Candidate>, now: int)
    requires ValidRules(rules) && Sound(db, rules) && ReadFrom(db, batch, now)
    ensures ExpireBatch(db, batch, now).error.None? <==> forall k :: 0 <= k < |batch| ==> KeyFree(db, batch[k])
    ensures ExpireBatch(db, batch, now).error.None? ==>
              ExpireBatch(db, batch, now).changed == |batch| && DefaultedExactly(db, ExpireBatch(db, batch, now).db, batch)
  {
    hide Sound, ExpireBatch, ReadFrom, DefaultedExactly, KeyFree;
    BatchStopsAtFirstTaken(db, rules, batch, now);
    assert batch[..|batch|] == batch;
  }

  /** From the candidate that stopped the loop on, every round is still active, due and as it was read. */
  lemma RestStaysDue(db: Database, rules: Rules, batch: seq<Candidate>, now: int, j: nat)
    requires ValidRules(rules) && Sound(db, rules) && ReadFrom(db, batch, now) && FreePrefix(db, batch) <= j < |batch|
    ensures ReadAt(ExpireBatch(db, batch, now).db, batch[j], now)
  {
    hide Sound, ExpireBatch, FreePrefix, KeyFree;
    BatchStopsAtFirstTaken(db, rules, batch, now);
    var k := FreePrefix(db, batch);
    assert ReadAt(db, batch[j], now);
    var i :| 0 <= i < |db.rounds| && Due(db.rounds[i], now) && batch[j] == CandidateOf(db.rounds[i]);
    assert !Named(batch[..k], db.rounds[i].id);
  }

  // ---------------------------------------------------------------- the query's batch

  lemma QueryIsStrictOrder()
    ensures StrictOrder((a: Candidate, b: Candidate) => QueryOrder(a, b))
  {
    forall a: Candidate, b: Candidate
      ensures (a == b || QueryOrder(a, b) || QueryOrder(b, a)) && !(QueryOrder(a, b) && QueryOrder(b, a))
    {
      TextTotal(a.id, b.id);
    }
    forall a: Candidate, b: Candidate, c: Candidate | QueryOrder(a, b) && QueryOrder(b, c) ensures QueryOrder(a, c) {
      if TextLess(a.id, b.id) && TextLess(b.id, c.id) {
        TextTransitive(a.id, b.id, c.id);
      }
    }
  }

  lemma {:induction false} DueAreRead(rounds: seq<Round>, now: int, candidate: Candidate)
    ensures candidate in DueCandidates(rounds, now) <==>
              exists i :: 0 <= i < |rounds| && Due(rounds[i], now) && candidate == CandidateOf(rounds[i])
  {
    if rounds != [] {
      var n := |rounds| - 1;
      DueAreRead(rounds[..n], now, candidate);
      if i :| 0 <= i < |rounds| && Due(rounds[i], now) && candidate == CandidateOf(rounds[i]) {
        assert i < n ==> rounds[..n][i] == rounds[i];
      }
      if i :| 0 <= i < n && Due(rounds[..n][i], now) && candidate == CandidateOf(rounds[..n][i]) {
        assert rounds[i] == rounds[..n][i];
      }
    }
  }

  lemma {:induction false} DueIdsDistinct(rounds: seq<Round>, now: int, a: nat, b: nat)
    requires DistinctRoundIds(rounds) && a < b < |DueCandidates(rounds, now)|
    ensures DueCandidates(rounds, now)[a].id != DueCandidates(rounds, now)[b].id
  {
    var n := |rounds| - 1;
    var due := DueCandidates(rounds[..n], now);
    if b < |due| {
      DueIdsDistinct(rounds[..n], now, a, b);
    } else {
      assert due[a] in due;
      DueAreRead(rounds[..n], now, due[a]);
    }
  }

  lemma DistinctAfterPermutation(s: seq<Candidate>, t: seq<Candidate>)
    requires multiset(s) == multiset(t)
    requires forall a, b :: 0 <= a < b < |s| ==> s[a].id != s[b].id
    ensures forall a, b :: 0 <= a < b < |t| ==> t[a].id != t[b].id
  {
    forall a, b | 0 <= a < b < |t| ensures t[a].id != t[b].id {
      assert t[a] in multiset(s) && t[b] in multiset(s);
      if t[a].id == t[b].id {
        var i :| 0 <= i < |s| && s[i] == t[a];
        var j :| 0 <= j < |s| && s[j] == t[b];
        assert i == j;
        TwiceInMultiset(t, a, b);
        OnceInMultiset(s, i);
      }
    }
  }

  lemma TwiceInMultiset(t: seq<Candidate>, a: nat, b: nat)
    requires a < b < |t| && t[a] == t[b]
    ensures multiset(t)[t[a]] >= 2
  {
    assert t == t[..b] + [t[b]] + t[b + 1..];
    assert t[..b][a] == t[a];
  }

  lemma OnceInMultiset(s: seq<Candidate>, i: nat)
    requires i < |s| && forall a, b :: 0 <= a < b < |s| ==> s[a].id != s[b].id
    ensures multiset(s)[s[i]] == 1
  {
    assert s == s[..i] + [s[i]] + s[i + 1..];
    assert s[i] !in s[..i] && s[i] !in s[i + 1..];
  }

  /** The query reads due rounds, in order, and leaves a due round out only for earlier ones. */
  lemma QueryReadsEarliest(db: Database, now: int, limit: nat)
    requires DistinctRoundIds(db.rounds)
    ensures ReadFrom(db, ExpiredQuery(db.rounds, now, limit), now)
    ensures forall a, b :: 0 <= a < b < |ExpiredQuery(db.rounds, now, limit)| ==>
              QueryOrder(ExpiredQuery(db.rounds, now, limit)[a], ExpiredQuery(db.rounds, now, limit)[b])
    ensures forall c :: ReadAt(db, c, now) ==>
              || c in ExpiredQuery(db.rounds, now, limit)
              || (|ExpiredQuery(db.rounds, now, limit)| == limit
                  && forall k :: 0 <= k < limit ==> QueryOrder(ExpiredQuery(db.rounds, now, limit)[k], c))
  {
    var less := (a: Candidate, b: Candidate) => QueryOrder(a, b);
    var due := DueCandidates(db.rounds, now);
    var sorted, query := Sort(less, due), ExpiredQuery(db.rounds, now, limit);
    QueryIsStrictOrder();
    SortMembers(less, due);
    SortSorts(less, due);
    forall a, b | 0 <= a < b < |due| ensures due[a].id != due[b].id {
      DueIdsDistinct(db.rounds, now, a, b);
    }
    DistinctAfterPermutation(due, sorted);
    forall a, b | 0 <= a < b < |sorted| ensures QueryOrder(sorted[a], sorted[b]) {
      assert !less(sorted[b], sorted[a]) && sorted[a] != sorted[b];
    }
    forall k | 0 <= k < |query| ensures ReadAt(db, query[k], now) {
      assert sorted[k] in multiset(due);
      DueAreRead(db.rounds, now, query[k]);
    }
    forall c | ReadAt(db, c, now)
      ensures c in query || (|query| == limit && forall k :: 0 <= k < limit ==> QueryOrder(query[k], c))
    {
      DueAreRead(db.rounds, now, c);
      assert c in multiset(sorted);
      var j :| 0 <= j < |sorted| && sorted[j] == c;
      assert j < |query| ==> query[j] == c;
    }
  }

  ghost predicate NoneDue(db: Database, now: int) {
    forall i :: 0 <= i < |db.rounds| ==> !Due(db.rounds[i], now)
  }

  /** Every due round is in the batch and has its key free. */
  ghost predicate CoversFree(db: Database, batch: seq<Candidate>, now: int) {
    forall i :: 0 <= i < |db.rounds| && Due(db.rounds[i], now) ==>
      CandidateOf(db.rounds[i]) in batch && KeyFree(db, CandidateOf(db.rounds[i]))
  }

  /** A due round is still due afterwards exactly when it is not among the defaulted candidates. */
  lemma StillDue(db: Database, after: Database, batch: seq<Candidate>, k: nat, now: int)
    requires DistinctRoundIds(db.rounds) && ReadFrom(db, batch, now) && k <= |batch| && DefaultedExactly(db, after, batch[..k])
    ensures NoneDue(after, now) <==> forall i :: 0 <= i < |db.rounds| && Due(db.rounds[i], now) ==> CandidateOf(db.rounds[i]) in batch[..k]
  {
    hide ReadFrom, Named;
    forall i | 0 <= i < |db.rounds| && Due(db.rounds[i], now)
      ensures Due(after.rounds[i], now) <==> CandidateOf(db.rounds[i]) !in batch[..k]
    {
      NamedIffRead(db, batch, k, i, now);
    }
  }

  lemma CoveredByFreePrefix(db: Database, batch: seq<Candidate>, now: int)
    requires ReadFrom(db, batch, now)
    ensures CoversFree(db, batch, now)
            <==> forall i :: 0 <= i < |db.rounds| && Due(db.rounds[i], now) ==> CandidateOf(db.rounds[i]) in batch[..FreePrefix(db, batch)]
  {
    hide KeyFree;
    var k := FreePrefix(db, batch);
    forall c | c in batch[..k] ensures c in batch && KeyFree(db, c) {
      var j :| 0 <= j < k && batch[..k][j] == c;
      assert batch[j] == c;
    }
    if CoversFree(db, batch, now) {
      CoveredMeansFree(db, batch, now);
      assert batch[..k] == batch;
    }
  }

  lemma CoveredMeansFree(db: Database, batch: seq<Candidate>, now: int)
    requires ReadFrom(db, batch, now) && CoversFree(db, batch, now)
    ensures forall k :: 0 <= k < |batch| ==> KeyFree(db, batch[k])
  {
    hide KeyFree;
    forall k | 0 <= k < |batch| ensures KeyFree(db, batch[k]) {
      assert ReadAt(db, batch[k], now);
    }
  }

  /**
   A call leaves nothing due if and only if its batch held every due round and all
   their deadline keys were free.
   */
  lemma NoneDueAfterExactly(db: Database, rules: Rules, batch: seq<Candidate>, now: int)
    requires ValidRules(rules) && Sound(db, rules) && ReadFrom(db, batch, now)
    ensures NoneDue(ExpireBatch(db, batch, now).db, now) <==> CoversFree(db, batch, now)
  {
    hide ExpireBatch, CoversFree, NoneDue, DefaultedExactly, ReadFrom;
    assert DistinctRoundIds(db.rounds);
    hide Sound;
    BatchStopsAtFirstTaken(db, rules, batch, now);
    StillDue(db, ExpireBatch(db, batch, now).db, batch, FreePrefix(db, batch), now);
    CoveredByFreePrefix(db, batch, now);
  }

  lemma NamedIffRead(db: Database, batch: seq<Candidate>, k: nat, i: nat, now: int)
    requires DistinctRoundIds(db.rounds) && ReadFrom(db, batch, now) && k <= |batch|
    requires i < |db.rounds| && Due(db.rounds[i], now)
    ensures Named(batch[..k], db.rounds[i].id) <==> CandidateOf(db.rounds[i]) in batch[..k]
  {
    if Named(batch[..k], db.rounds[i].id) {
      var j :| 0 <= j < k && batch[..k][j].id == db.rounds[i].id;
      assert ReadAt(db, batch[j], now);
    }
    if CandidateOf(db.rounds[i]) in batch[..k] {
      var j :| 0 <= j < k && batch[..k][j] == CandidateOf(db.rounds[i]);
    }
  }

  // ---------------------------------------------------------------- starvation

  lemma {:induction false} ErrorEndsBatch(db: Database, batch: seq<Candidate>, n: nat, now: int)
    requires n <= |batch| && ExpireBatch(db, batch[..n], now).error.Some?
    ensures ExpireBatch(db, batch, now) == ExpireBatch(db, batch[..n], now)
  {
    if n < |batch| {
      assert batch[..|batch| - 1][..n] == batch[..n];
      ErrorEndsBatch(db, batch[..|batch| - 1], n, now);
    } else {
      assert batch[..n] == batch;
    }
  }

  /** A batch that starts with a taken key changes nothing at all. */
  lemma TakenFirstChangesNothing(db: Database, rules: Rules, batch: seq<Candidate>, now: int)
    requires ValidRules(rules) && Sound(db, rules) && ReadFrom(db, batch, now) && batch != [] && !KeyFree(db, batch[0])
    ensures ExpireBatch(db, batch, now) == BatchResult(db, 0, Some(KeyReused))
  {
    hide Sound, ApplyDefault, FindRound, FindTransition;
    assert ReadAt(db, batch[0], now);
    var i :| 0 <= i < |db.rounds| && Due(db.rounds[i], now) && batch[0] == CandidateOf(db.rounds[i]);
    IdsDistinct(db, rules, i);
    TakenIsRefused(db, rules, i, now);
    assert batch[..1] == [batch[0]] && [batch[0]][..0] == [];
    assert ExpireBatch(db, [], now) == BatchResult(db, 0, None);
    assert ExpireBatch(db, batch[..1], now) == BatchResult(db, 0, Some(KeyReused));
    ErrorEndsBatch(db, batch, 1, now);
  }

  /**
   Once a call stops at a taken key, that candidate is first in every later call's
   batch and every later call fails at once, defaulting nothing, however many
   other rounds are due by then.
   */
  lemma TakenKeyStarvesTheQueue(db: Database, rules: Rules, now: int, limit: nat, later: int, laterLimit: nat)
    requires ValidRules(rules) && Sound(db, rules) && now <= later && laterLimit > 0
    requires ExpireBatch(db, ExpiredQuery(db.rounds, now, limit), now).error.Some?
    ensures var after := ExpireBatch(db, ExpiredQuery(db.rounds, now, limit), now).db;
            var again := ExpireBatch(after, ExpiredQuery(after.rounds, later, laterLimit), later);
            again == BatchResult(after, 0, Some(KeyReused))
  {
    var batch := ExpiredQuery(db.rounds, now, limit);
    var k, after := FreePrefix(db, batch), ExpireBatch(db, batch, now).db;
    assert DistinctRoundIds(db.rounds);
    QueryReadsEarliest(db, now, limit);
    BatchStopsAtFirstTaken(db, rules, batch, now);
    assert DistinctRoundIds(after.rounds);
    QueryReadsEarliest(after, later, laterLimit);
    hide Sound, ExpireBatch, ExpiredQuery, QueryOrder, KeyFree;
    TakenStaysFirst(db, after, batch, k, now, later, ExpiredQuery(after.rounds, later, laterLimit), laterLimit);
    TakenFirstChangesNothing(after, rules, ExpiredQuery(after.rounds, later, laterLimit), later);
  }

  lemma TakenStaysFirst(db: Database, after: Database, batch: seq<Candidate>, k: nat, now: int, later: int,
                        query: seq<Candidate>, limit: nat)
    requires now <= later && k == FreePrefix(db, batch) && k < |batch| && limit > 0
    requires DistinctRoundIds(db.rounds) && DistinctRoundIds(after.rounds) && ReadFrom(db, batch, now)
    requires forall a, b :: 0 <= a < b < |batch| ==> QueryOrder(batch[a], batch[b])
    requires forall c :: ReadAt(db, c, now) ==>
               c in batch || (forall j :: 0 <= j < |batch| ==> QueryOrder(batch[j], c))
    requires DefaultedExactly(db, after, batch[..k])
    requires ReadFrom(after, query, later)
    requires forall a, b :: 0 <= a < b < |query| ==> QueryOrder(query[a], query[b])
    requires forall c :: ReadAt(after, c, later) ==>
               c in query || (|query| == limit && forall j :: 0 <= j < limit ==> QueryOrder(query[j], c))
    ensures query != [] && query[0] == batch[k] && !KeyFree(after, query[0])
  {
    var i :| 0 <= i < |db.rounds| && Due(db.rounds[i], now) && batch[k] == CandidateOf(db.rounds[i]);
    assert !Named(batch[..k], db.rounds[i].id);
    assert after.rounds[i] == db.rounds[i] && ReadAt(after, batch[k], later);
    SameKey(db, after, i);
    var first := query[0];
    assert first == batch[k] || QueryOrder(first, batch[k]);
    if first != batch[k] {
      NothingEarlierIsDue(db, after, batch, k, now, later, first);
    }
  }

  /** No due round precedes the candidate that stopped the batch. */
  lemma NothingEarlierIsDue(db: Database, after: Database, batch: seq<Candidate>, k: nat, now: int, later: int, first: Candidate)
    requires now <= later && k < |batch| && DistinctRoundIds(db.rounds) && ReadFrom(db, batch, now)
    requires forall a, b :: 0 <= a < b < |batch| ==> QueryOrder(batch[a], batch[b])
    requires forall c :: ReadAt(db, c, now) ==> c in batch || (forall j :: 0 <= j < |batch| ==> QueryOrder(batch[j], c))
    requires DefaultedExactly(db, after, batch[..k]) && ReadAt(after, first, later)
    ensures !QueryOrder(first, batch[k])
  {
    hide QueryOrder;
    if QueryOrder(first, batch[k]) {
      EarlierDeadline(first, batch[k]);
      assert ReadAt(db, batch[k], now);
      var j :| 0 <= j < |after.rounds| && Due(after.rounds[j], later) && first == CandidateOf(after.rounds[j]);
      assert !Named(batch[..k], db.rounds[j].id) && after.rounds[j] == db.rounds[j] && Due(db.rounds[j], now);
      assert ReadAt(db, first, now);
      OrderIsAsymmetric(first, batch[k]);
      var n :| 0 <= n < |batch| && batch[n] == first;
      EarlierIsNamed(batch, k, n);
    }
  }

  lemma EarlierDeadline(a: Candidate, b: Candidate)
    requires QueryOrder(a, b)
    ensures a.deadline <= b.deadline
  {
  }

  lemma EarlierIsNamed(batch: seq<Candidate>, k: nat, n: nat)
    requires k < |batch| && n < |batch| && QueryOrder(batch[n], batch[k])
    requires forall a, b :: 0 <= a < b < |batch| ==> QueryOrder(batch[a], batch[b])
    ensures Named(batch[..k], batch[n].id)
  {
    OrderIsAsymmetric(batch[n], batch[k]);
    assert batch[..k][n] == batch[n];
  }

  lemma OrderIsAsymmetric(a: Candidate, b: Candidate)
    ensures !(QueryOrder(a, b) && QueryOrder(b, a))
  {
    TextTotal(a.id, b.id);
  }

  lemma SameKey(db: Database, after: Database, i: nat)
    requires DistinctRoundIds(db.rounds) && DistinctRoundIds(after.rounds)
    requires i < |db.rounds| && i < |after.rounds| && after.rounds[i] == db.rounds[i] && db.rounds[i].deadline.Some?
    ensures KeyFree(after, CandidateOf(db.rounds[i])) <==> KeyFree(db, CandidateOf(db.rounds[i]))
  {
  }
}
