/** What every stored board satisfies, and what a reader is shown of it. */
module Readable {
  import opened Tables
  import opened Scoring
  import opened Ranking
  import opened Display
  import opened Writes
  import opened Leaderboard
  import opened Outbox
  import opened Rebuild
  import opened Expiration
  import opened System
  import opened Audit

  /** Ranks 1..n up to 100, no driver twice, eligible counts, averages between 1 and 5 that never increase. */
  ghost predicate ReadableBoard(es: seq<Entry>) {
    && |es| <= LEADERBOARD_LIMIT
    && IsBoard(es)
    && (forall i :: 0 <= i < |es| ==> es[i].count >= ELIGIBILITY_REVIEW_COUNT && InRange(es[i].sum, es[i].count))
    && (forall i, j :: 0 <= i < j < |es| ==> es[i].sum * es[j].count >= es[j].sum * es[i].count)
  }

  ghost predicate ReadableRow(w: World, r: Row) {
    && r.driver < |w.drivers| && r.stableId == w.drivers[r.driver].stableId
    && r.count >= ELIGIBILITY_REVIEW_COUNT && InRange(r.sum, r.count)
  }

  /** Comparing exact averages is comparing cross products. */
  lemma AboveIsCrossProduct(a: Row, b: Row)
    requires a.count > 0 && b.count > 0 && Above(a, b)
    ensures a.sum * b.count >= b.sum * a.count
  {
    CrossProduct(a.sum as real, a.count as real, b.sum as real, b.count as real);
    assert (a.sum * b.count) as real == a.sum as real * b.count as real;
    assert (b.sum * a.count) as real == b.sum as real * a.count as real;
  }

  lemma CrossProduct(p: real, q: real, r: real, s: real)
    requires q > 0.0 && s > 0.0 && p / q >= r / s
    ensures p * s >= r * q
  {
    var x, y := p / q, r / s;
    assert p == x * q && r == y * s;
    assert (x - y) * (q * s) >= 0.0;
  }

  lemma RowsMakeReadableBoard(w: World, rows: seq<Row>)
    requires DistinctDrivers(rows)
    requires forall i :: 0 <= i < |rows| ==> ReadableRow(w, rows[i])
    ensures ReadableBoard(Board(rows))
  {
    hide Above, Ranked;
    BoardIsTopOfRows(rows);
    var top, board := Limited(Ranked(rows)), Board(rows);
    forall i | 0 <= i < |top| ensures ReadableRow(w, top[i]) {
      assert top[i] in rows;
      assert exists m :: 0 <= m < |rows| && rows[m] == top[i];
    }
    forall i, j | 0 <= i < j < |top|
      ensures top[i].driver != top[j].driver && top[i].sum * top[j].count >= top[j].sum * top[i].count
    {
      AboveIsCrossProduct(top[i], top[j]);
      AboveIsStrictTotalOrder(top[i], top[j], top[i]);
      SameDriverSameStableId(w, rows, top[i], top[j]);
    }
  }

  lemma SameDriverSameStableId(w: World, rows: seq<Row>, a: Row, b: Row)
    requires DistinctDrivers(rows) && a in rows && b in rows
    requires ReadableRow(w, a) && ReadableRow(w, b) && Above(a, b)
    ensures a.driver != b.driver
  {
    AboveIsStrictTotalOrder(a, b, a);
    var i :| 0 <= i < |rows| && rows[i] == a;
    var j :| 0 <= j < |rows| && rows[j] == b;
    hide Above;
  }

  lemma LiveBoardIsReadable(w: World, scores: map<DriverKey, Score>, c: CityId)
    requires ValidScores(w, scores)
    ensures ReadableBoard(LiveBoard(w, scores, c))
  {
    hide ReadableBoard, Board;
    var rows := LiveRows(w, scores, c, |w.drivers|);
    LiveRowsAreEligible(w, scores, c, |w.drivers|);
    forall i | 0 <= i < |rows| ensures ReadableRow(w, rows[i]) {
      assert rows[i] in rows;
      assert ValidScore(w, DriverKey(c, rows[i].driver), scores[DriverKey(c, rows[i].driver)]);
    }
    RowsMakeReadableBoard(w, rows);
  }

  lemma {:induction false} CandidateRowsAreEligible(w: World, scores: map<DriverId, CandidateScore>, n: nat)
    requires n <= |w.drivers|
    ensures forall r :: r in CandidateRows(w, scores, n) ==>
              r.driver in scores && scores[r.driver].eligible && r.sum == scores[r.driver].sum && r.count == scores[r.driver].count
  {
    if n > 0 {
      CandidateRowsAreEligible(w, scores, n - 1);
    }
  }

  lemma CandidateBoardIsReadable(w: World, scores: map<DriverId, CandidateScore>)
    requires forall d :: d in scores ==> InRange(scores[d].sum, scores[d].count) && scores[d].eligible == Eligible(scores[d].count)
    ensures ReadableBoard(CandidateBoard(w, scores))
  {
    hide ReadableBoard, Board;
    var rows := CandidateRows(w, scores, |w.drivers|);
    CandidateRowsAreEligible(w, scores, |w.drivers|);
    forall i | 0 <= i < |rows| ensures ReadableRow(w, rows[i]) {
      assert rows[i] in rows;
    }
    RowsMakeReadableBoard(w, rows);
  }

  // ---------- every generation ever built ----------

  ghost predicate AllReadable(gens: seq<Generation>) {
    forall g :: 0 <= g < |gens| ==> ReadableBoard(gens[g].entries)
  }

  /** New generations carry readable boards; old ones keep their entries. */
  ghost predicate AddsReadable(gens: seq<Generation>, gens': seq<Generation>) {
    && |gens| <= |gens'|
    && (forall g :: |gens| <= g < |gens'| ==> ReadableBoard(gens'[g].entries))
  }

  lemma ReadableGrows(gens: seq<Generation>, gens': seq<Generation>)
    requires AllReadable(gens) && AddsReadable(gens, gens') && AllEvolve(gens, gens')
    ensures AllReadable(gens')
  {
    hide ReadableBoard;
    forall g | 0 <= g < |gens'| ensures ReadableBoard(gens'[g].entries) {
      if g < |gens| {
        assert Evolves(gens[g], gens'[g]);
      }
    }
  }

  lemma StepAddsReadable(w: World, s: Store, a: Action)
    requires Structured(w, s) && Audited(w, s)
    ensures AddsReadable(s.generations, Step(w, s, a).generations)
  {
    hide ReadableBoard, LiveBoard, CandidateBoard, ValidScores;
    match a
    case Write(request, key, now) =>
      WriteKeepsGenerations(w, s, request, key, now);
      hide Submit, Structured;
    case Work(claimed, availableAt, at) =>
      if Claimable(s.events, claimed, availableAt) {
        WorkAddsReadable(w, s, claimed, availableAt, at);
      }
      hide ProcessBatch, Structured;
    case ReportFailure(failed, error, failedAt) => hide Structured;
    case Expire(city, effectiveAt) =>
      ExpireAddsReadable(w, s, city, effectiveAt);
      hide RunExpiration, Structured;
    case Stage(city, calculatedAt, now) =>
      StageAddsReadable(w, s, city, calculatedAt, now);
      hide StartRebuild, Structured;
    case Install(job, now) => hide Structured, Rebuild.Installed;
    case Discard(job, now) => hide Structured;
    case Rescore(city, at) => hide Structured, Rescored;
    case Republish(city, at) =>
      LiveBoardIsReadable(w, s.scores, city);
      hide Structured;
  }

  lemma WriteKeepsGenerations(w: World, s: Store, request: Request, key: Key, now: Time)
    ensures Submit(w, s, request, key, now).store.generations == s.generations
  {
    hide WithRating, WithDecision, WithRow, WithNewRow, NewEvent, CurrentBody, UpsertChangesContribution, RatingChanges;
  }

  lemma WorkAddsReadable(w: World, s: Store, ids: seq<EventId>, availableAt: Time, at: Time)
    requires Structured(w, s) && Audited(w, s) && Claimable(s.events, ids, availableAt)
    ensures AddsReadable(s.generations, ProcessBatch(w, s, ids, at).generations)
  {
    var s' := ProcessBatch(w, s, ids, at);
    WorkKeepsStructure(w, s, ids, availableAt, at);
    WorkKeepsAudit(w, s, ids, at);
    hide ReadableBoard, LiveBoard, ValidScores, Structured, ProcessBatch, FreshBoard;
    forall g | |s.generations| <= g < |s'.generations| ensures ReadableBoard(s'.generations[g].entries) {
      LiveBoardIsReadable(w, s'.scores, s'.generations[g].city);
    }
  }

  lemma ExpireAddsReadable(w: World, s: Store, c: CityId, at: Time)
    requires Structured(w, s) && Audited(w, s)
    ensures AddsReadable(s.generations, RunExpiration(w, s, c, at).store.generations)
  {
    StepKeepsAudit(w, s, Expire(c, at));
    hide ValidScores, Structured, RunExpiration, AddsReadable;
    var o := RunExpiration(w, s, c, at);
    ExpirationPublishesLiveBoard(w, s, c, at);
    LiveBoardIsReadable(w, o.store.scores, c);
    OneReadableMore(s.generations, o.store.generations);
  }

  lemma ExpirationPublishesLiveBoard(w: World, s: Store, c: CityId, at: Time)
    ensures var s' := RunExpiration(w, s, c, at).store;
            && |s.generations| <= |s'.generations| <= |s.generations| + 1
            && (|s'.generations| > |s.generations| ==> s'.generations[|s.generations|].entries == LiveBoard(w, s'.scores, c))
  {
    hide LiveBoard, Rescored, ChangedKeys;
  }

  lemma OneReadableMore(gens: seq<Generation>, gens': seq<Generation>)
    requires |gens| <= |gens'| <= |gens| + 1
    requires |gens'| > |gens| ==> ReadableBoard(gens'[|gens|].entries)
    ensures AddsReadable(gens, gens')
  {}

  lemma StageAddsReadable(w: World, s: Store, c: CityId, at: Time, now: Time)
    requires Structured(w, s)
    ensures AddsReadable(s.generations, StartRebuild(w, s, c, at, now).store.generations)
  {
    hide ReadableBoard, Compare, CandidateScores, CandidateBoard, MaxVersion, HasActive, PublishedUpTo, ValidJobs,
         ValidOutbox, ValidGenerations, ValidExpirations, Succeeds, SamePublished;
    var o := StartRebuild(w, s, c, at, now);
    if o.reply.JobDone? {
      StageKeepsStructure(w, s, c, at, now);
      JobsAreReadable(w, o.store.generations, o.store.jobs, |s.jobs|);
    }
  }

  lemma JobsAreReadable(w: World, gens: seq<Generation>, jobs: seq<Job>, j: JobId)
    requires ValidJobs(w, gens, jobs) && j < |jobs|
    ensures ReadableBoard(CandidateBoard(w, jobs[j].scores))
  {
    hide ReadableBoard, CandidateBoard;
    assert ValidJob(w, gens, jobs[j]);
    CandidateBoardIsReadable(w, jobs[j].scores);
  }

  /** In every reachable state, every generation of every city holds a readable board. */
  lemma {:induction false} EveryReachableBoardIsReadable(w: World, actions: seq<Action>, n: nat)
    requires n <= |actions|
    ensures AllReadable(Run(w, EMPTY, actions, n).generations)
  {
    hide Structured, Step, Audited, ReadableBoard, AllEvolve, AddsReadable;
    EmptyIsStructured(w);
    if n > 0 {
      EveryReachableBoardIsReadable(w, actions, n - 1);
      RunKeepsStructure(w, EMPTY, actions, n - 1, n - 1);
      EveryReachableScoreIsValid(w, actions, n - 1);
      var before := Run(w, EMPTY, actions, n - 1);
      StepKeepsStructure(w, before, actions[n - 1]);
      StepAddsReadable(w, before, actions[n - 1]);
      ReadableGrows(before.generations, Step(w, before, actions[n - 1]).generations);
    }
  }

  // ---------- what a reader is shown ----------

  /** `average` is in multiples of 0.0001. */
  datatype ShownEntry = ShownEntry(rank: nat, driver: DriverId, stableId: nat, average: nat, count: nat)

  datatype Payload = Payload(city: CityId, generation: GenerationId, version: nat, publishedAt: Option<Time>,
                             sourceAt: Option<Time>, entries: seq<ShownEntry>)

  /** The two zeros are for rows that no reachable board holds; see `EveryReachableBoardIsReadable`. */
  function Shown(w: World, e: Entry): ShownEntry {
    ShownEntry(e.rank, e.driver, if e.driver < |w.drivers| then w.drivers[e.driver].stableId else 0,
               if 0 < e.count <= e.sum <= 5 * e.count then Displayed(e.sum, e.count) else 0, e.count)
  }

  function ShownEntries(w: World, es: seq<Entry>): seq<ShownEntry> {
    seq(|es|, i requires 0 <= i < |es| => Shown(w, es[i]))
  }

  function Rendering(w: World, gens: seq<Generation>, g: GenerationId): Payload
    requires g < |gens|
  {
    Payload(gens[g].city, g, gens[g].version, gens[g].publishedAt, gens[g].sourceAt, ShownEntries(w, gens[g].entries))
  }

  /** One shown line: the entry's rank, driver and count, the driver's stable ID, and the exact average rounded half up. */
  lemma ShownFields(w: World, e: Entry)
    requires e.driver < |w.drivers| && 0 < e.count <= e.sum <= 5 * e.count && e.count < TEN_23
    ensures var shown := Shown(w, e);
            && shown.rank == e.rank && shown.driver == e.driver && shown.count == e.count
            && shown.stableId == w.drivers[e.driver].stableId
            && shown.average == ExactlyRounded(e.sum, e.count)
  {
    hide Displayed, ExactlyRounded;
    TwoStageRoundingIsExact(e.sum, e.count);
  }

  /**
   The shown averages lie between 1.0000 and 5.0000, are off by at most 0.00005, and never
   increase going down the board.
   */
  lemma ShownBoardIsFaithful(w: World, es: seq<Entry>)
    requires ReadableBoard(es)
    requires forall i :: 0 <= i < |es| ==> es[i].count < TEN_23
    ensures var shown := ShownEntries(w, es);
            && |shown| == |es|
            && (forall i :: 0 <= i < |es| ==>
                  && shown[i].rank == i + 1 && shown[i].driver == es[i].driver && shown[i].count == es[i].count
                  && (es[i].driver < |w.drivers| ==> shown[i].stableId == w.drivers[es[i].driver].stableId)
                  && TEN_4 <= shown[i].average <= 5 * TEN_4
                  && -(es[i].count as int) < 2 * (shown[i].average * es[i].count - es[i].sum * TEN_4) <= es[i].count)
            && (forall i, j :: 0 <= i < j < |es| ==> shown[i].average >= shown[j].average)
  {
    hide Displayed;
    var shown := ShownEntries(w, es);
    forall i | 0 <= i < |es| ensures shown[i].average == Displayed(es[i].sum, es[i].count) {}
    forall i | 0 <= i < |es|
      ensures TEN_4 <= shown[i].average <= 5 * TEN_4
      ensures -(es[i].count as int) < 2 * (shown[i].average * es[i].count - es[i].sum * TEN_4) <= es[i].count
    {
      DisplayedIsAccurate(es[i].sum, es[i].count);
    }
    forall i, j | 0 <= i < j < |es| ensures shown[i].average >= shown[j].average {
      DisplayedIsMonotone(es[i].sum, es[i].count, es[j].sum, es[j].count);
    }
  }
}
