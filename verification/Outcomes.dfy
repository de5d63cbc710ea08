/**
 What the operations leave behind, written out field by field in terms of their inputs:
 whole numbers and rows, without the functions that compute them.
 */
module Outcomes {
  import opened Tables
  import opened Scoring
  import opened Ranking
  import opened Histories
  import opened Leaderboard
  import opened Outbox
  import opened Rebuild
  import opened Expiration
  import opened System
  import opened Agreement
  import opened Audit

  // ---------- a score row ----------

  /** The latest rating of the trip's review, unless it is deleted or excluded. */
  ghost function RatingOf(rt: Reviews, t: TripId): Option<int> {
    if t in rt.ofTrip then LatestRating(rt.rows[rt.ofTrip[t]]) else None
  }

  /** The driver's trips in the city, completed in the 90 days up to `at`, both ends included, that have such a rating. */
  ghost function WindowTrips(w: World, rt: Reviews, c: CityId, d: DriverId, at: Time): set<TripId> {
    set t: TripId | t < |w.trips| && w.trips[t].city == c && w.trips[t].driver == d
                    && at - 90 * 24 * 60 * 60 * 1_000_000 <= w.trips[t].completedAt <= at && RatingOf(rt, t).Some?
  }

  /** The ratings of those of the first `n` trips that are in the set, added up. */
  ghost function RatingsAdded(rt: Reviews, ts: set<TripId>, n: nat): int {
    if n == 0 then 0
    else RatingsAdded(rt, ts, n - 1) + if n - 1 in ts && RatingOf(rt, n - 1).Some? then RatingOf(rt, n - 1).value else 0
  }

  lemma {:induction false} SameRatingsAdded(w: World, rt: Reviews, ts: set<TripId>, n: nat)
    requires ValidReviews(w, rt)
    ensures RatingsAdded(rt, ts, n) == RatingSum(rt, ts, n)
  {
    hide Contribution, RatingOf, ValidReviews;
    if n > 0 {
      SameRatingsAdded(w, rt, ts, n - 1);
      ContributionIsRating(w, rt, n - 1);
    }
  }

  lemma ContributionIsRating(w: World, rt: Reviews, t: TripId)
    requires ValidReviews(w, rt)
    ensures Contribution(rt, t) == RatingOf(rt, t)
  {
    ContributionIsLatestRating(w, rt, t);
  }

  lemma WindowTotals(w: World, rt: Reviews, c: CityId, d: DriverId, at: Time)
    requires ValidReviews(w, rt)
    ensures var ts, totals := WindowTrips(w, rt, c, d, at), Aggregate(w, rt, DriverKey(c, d), at - WINDOW, at);
            totals.count == |ts| && totals.sum == RatingsAdded(rt, ts, |w.trips|)
  {
    hide Contribution, RatingOf, ValidReviews, AggregateUpTo;
    var k, ts := DriverKey(c, d), WindowTrips(w, rt, c, d, at);
    AggregateCountsTrips(w, rt, k, at - WINDOW, at, |w.trips|);
    forall t: TripId ensures Contribution(rt, t) == RatingOf(rt, t) {
      ContributionIsRating(w, rt, t);
    }
    assert CountedTrips(w, rt, k, at - WINDOW, at, |w.trips|) == ts;
    SameRatingsAdded(w, rt, ts, |w.trips|);
  }

  /** A recalculated row: count and sum of the window's ratings, eligible from 20 on, with its window and time. */
  lemma RowFromReviews(w: World, rt: Reviews, c: CityId, d: DriverId, at: Time)
    requires ValidReviews(w, rt)
    ensures var ts, row := WindowTrips(w, rt, c, d, at), Recalculated(w, rt, DriverKey(c, d), at);
            && row.count == |ts| && row.sum == RatingsAdded(rt, ts, |w.trips|)
            && (row.eligible <==> |ts| >= 20)
            && row.windowStart == at - 90 * 24 * 60 * 60 * 1_000_000 && row.calculatedAt == at
  {
    WindowTotals(w, rt, c, d, at);
    hide Aggregate;
  }

  /** A candidate row is counted the same way. */
  lemma CandidateFromReviews(w: World, rt: Reviews, c: CityId, d: DriverId, at: Time)
    requires ValidReviews(w, rt)
    ensures var ts, row := WindowTrips(w, rt, c, d, at), CandidateOf(w, rt, DriverKey(c, d), at);
            row.count == |ts| && row.sum == RatingsAdded(rt, ts, |w.trips|) && (row.eligible <==> |ts| >= 20)
  {
    WindowTotals(w, rt, c, d, at);
    hide Aggregate;
  }

  // ---------- a board ----------

  /** The drivers with a row of at least 20 reviews in the city. */
  ghost function EligibleDrivers(w: World, scores: map<DriverKey, Score>, c: CityId, n: nat): set<DriverId>
    requires n <= |w.drivers|
  {
    set d: DriverId | d < n && DriverKey(c, d) in scores && scores[DriverKey(c, d)].count >= 20
  }

  /** The driver's row is ranked before the other driver's. */
  ghost predicate RowBeats(w: World, scores: map<DriverKey, Score>, c: CityId, d: DriverId, e: DriverId)
    requires d < |w.drivers| && e < |w.drivers| && DriverKey(c, d) in scores && DriverKey(c, e) in scores
  {
    var a, b := scores[DriverKey(c, d)], scores[DriverKey(c, e)];
    || a.sum * b.count > b.sum * a.count
    || (a.sum * b.count == b.sum * a.count && a.count > b.count)
    || (a.sum * b.count == b.sum * a.count && a.count == b.count && w.drivers[d].stableId < w.drivers[e].stableId)
  }

  /**
   The board that a score table calls for: the best 100 eligible drivers, or all of them,
   numbered from 1, each with its own sum and count, each ranked before the next and before
   every eligible driver left out.
   */
  ghost predicate IsBestOf(w: World, scores: map<DriverKey, Score>, c: CityId, es: seq<Entry>) {
    var eligible := EligibleDrivers(w, scores, c, |w.drivers|);
    && |es| == (if |eligible| <= 100 then |eligible| else 100)
    && (forall i :: 0 <= i < |es| ==>
          && es[i].rank == i + 1 && es[i].driver in eligible
          && es[i].sum == scores[DriverKey(c, es[i].driver)].sum && es[i].count == scores[DriverKey(c, es[i].driver)].count)
    && (forall i, j :: 0 <= i < j < |es| ==> RowBeats(w, scores, c, es[i].driver, es[j].driver))
    && (forall i, d :: 0 <= i < |es| && d in eligible && Omitted(es, d) ==> RowBeats(w, scores, c, es[i].driver, d))
  }

  ghost predicate Omitted(es: seq<Entry>, d: DriverId) {
    forall i :: 0 <= i < |es| ==> es[i].driver != d
  }

  lemma {:induction false} LiveRowsCount(w: World, scores: map<DriverKey, Score>, c: CityId, n: nat)
    requires n <= |w.drivers| && ValidScores(w, scores)
    ensures |LiveRows(w, scores, c, n)| == |EligibleDrivers(w, scores, c, n)|
  {
    hide EligibleDrivers, ValidScores;
    if n == 0 {
      NobodyIsEligible(w, scores, c);
    } else {
      LiveRowsCount(w, scores, c, n - 1);
      EligibleNext(w, scores, c, n - 1);
    }
  }

  lemma NobodyIsEligible(w: World, scores: map<DriverKey, Score>, c: CityId)
    ensures EligibleDrivers(w, scores, c, 0) == {}
  {}

  lemma EligibleNext(w: World, scores: map<DriverKey, Score>, c: CityId, n: nat)
    requires n < |w.drivers| && ValidScores(w, scores)
    ensures |EligibleDrivers(w, scores, c, n + 1)|
         == |EligibleDrivers(w, scores, c, n)| + (if DriverKey(c, n) in scores && scores[DriverKey(c, n)].eligible then 1 else 0)
  {
    hide InRange;
    var before, k := EligibleDrivers(w, scores, c, n), DriverKey(c, n);
    if k in scores {
      assert ValidScore(w, k, scores[k]);
    }
    hide ValidScores;
    if k in scores && scores[k].eligible {
      assert EligibleDrivers(w, scores, c, n + 1) == before + {n};
    } else {
      assert EligibleDrivers(w, scores, c, n + 1) == before;
    }
  }

  /** Every row of the ranking query is an eligible driver's row, and every eligible driver has one. */
  lemma LiveRowsAreRows(w: World, scores: map<DriverKey, Score>, c: CityId)
    requires ValidScores(w, scores)
    ensures var rows := LiveRows(w, scores, c, |w.drivers|);
            && (forall r :: r in rows ==>
                  && r.driver in EligibleDrivers(w, scores, c, |w.drivers|)
                  && r.sum == scores[DriverKey(c, r.driver)].sum && r.count == scores[DriverKey(c, r.driver)].count && r.count >= 20
                  && r.stableId == w.drivers[r.driver].stableId)
            && (forall d :: d in EligibleDrivers(w, scores, c, |w.drivers|) ==> exists r :: r in rows && r.driver == d)
  {
    hide InRange, LiveRows;
    LiveRowsAreEligible(w, scores, c, |w.drivers|);
    var rows := LiveRows(w, scores, c, |w.drivers|);
    forall r | r in rows
      ensures r.driver in EligibleDrivers(w, scores, c, |w.drivers|) && r.count >= 20
    {
      assert ValidScore(w, DriverKey(c, r.driver), scores[DriverKey(c, r.driver)]);
    }
    forall d | d in EligibleDrivers(w, scores, c, |w.drivers|) ensures exists r :: r in rows && r.driver == d {
      var k := DriverKey(c, d);
      assert ValidScore(w, k, scores[k]);
      assert Row(d, w.drivers[d].stableId, scores[k].sum, scores[k].count) in rows;
    }
  }

  /** The ranking of live rows is the board that the score table calls for. */
  lemma LiveBoardIsBest(w: World, scores: map<DriverKey, Score>, c: CityId)
    requires ValidScores(w, scores)
    ensures IsBestOf(w, scores, c, LiveBoard(w, scores, c))
  {
    hide Above, Ranked, LiveRows, ValidScores, RowBeats, Board, Numbered;
    var rows, es := LiveRows(w, scores, c, |w.drivers|), LiveBoard(w, scores, c);
    var top := Limited(Ranked(rows));
    BoardIsTopOfRows(rows);
    LiveRowsCount(w, scores, c, |w.drivers|);
    LiveRowsAreRows(w, scores, c);
    forall i, j | 0 <= i < j < |es| ensures RowBeats(w, scores, c, es[i].driver, es[j].driver) {
      assert top[i] in rows && top[j] in rows;
      RowsBeat(w, scores, c, top[i], top[j]);
    }
    forall i, d | 0 <= i < |es| && d in EligibleDrivers(w, scores, c, |w.drivers|) && Omitted(es, d)
      ensures RowBeats(w, scores, c, es[i].driver, d)
    {
      var r :| r in rows && r.driver == d;
      assert forall m :: 0 <= m < |top| ==> es[m].driver != d && es[m].driver == top[m].driver;
      assert r !in top;
      assert top[i] in rows;
      RowsBeat(w, scores, c, top[i], r);
    }
  }

  lemma RowsBeat(w: World, scores: map<DriverKey, Score>, c: CityId, a: Row, b: Row)
    requires Above(a, b) && a.count > 0 && b.count > 0
    requires forall r :: r in {a, b} ==>
               && r.driver < |w.drivers| && DriverKey(c, r.driver) in scores && r.stableId == w.drivers[r.driver].stableId
               && r.sum == scores[DriverKey(c, r.driver)].sum && r.count == scores[DriverKey(c, r.driver)].count
    ensures RowBeats(w, scores, c, a.driver, b.driver)
  {
    AboveIsBeats(a, b);
    hide Above;
    assert a in {a, b} && b in {a, b};
  }

  /**
   In every reachable state the published board of a city (published since its last bare
   rescore) is the board that its live score table calls for.
   */
  lemma EveryReachableBoardIsBest(w: World, actions: seq<Action>, n: nat, c: CityId)
    requires n <= |actions| && PublishedSinceRescore(w, EMPTY, actions, n, c)
    ensures var s := Run(w, EMPTY, actions, n);
            forall g: nat :: IsPublished(s.generations, g, c) ==> IsBestOf(w, s.scores, c, s.generations[g].entries)
  {
    hide Step, PublishedSinceRescore, LiveBoard, IsBestOf, Structured, Audited, PublishedOf;
    EmptyIsStructured(w);
    RunKeepsStructure(w, EMPTY, actions, n, n);
    EveryReachableScoreIsValid(w, actions, n);
    var s := Run(w, EMPTY, actions, n);
    BoardAgrees(w, actions, n, c);
    AuditedScoresAreValid(w, s);
    LiveBoardIsBest(w, s.scores, c);
    forall g: nat | IsPublished(s.generations, g, c) ensures PublishedOf(s.generations, c) == Some(g) {
      StructuredIsUnique(w, s, g, c);
    }
  }

  lemma BoardAgrees(w: World, actions: seq<Action>, n: nat, c: CityId)
    requires n <= |actions| && PublishedSinceRescore(w, EMPTY, actions, n, c)
    ensures var s := Run(w, EMPTY, actions, n);
            PublishedOf(s.generations, c).Some? ==>
              s.generations[PublishedOf(s.generations, c).value].entries == LiveBoard(w, s.scores, c)
  {
    hide Step, PublishedSinceRescore, Board;
    EveryReachableBoardAgrees(w, actions, n, c);
  }

  lemma AuditedScoresAreValid(w: World, s: Store)
    requires Audited(w, s)
    ensures ValidScores(w, s.scores)
  {}

  lemma StructuredIsUnique(w: World, s: Store, g: nat, c: CityId)
    requires Structured(w, s) && IsPublished(s.generations, g, c)
    ensures PublishedOf(s.generations, c) == Some(g)
  {
    PublishedIsUnique(s.generations, c, g);
  }

  // ---------- a publication ----------

  /** The latest calculation time among the city's rows, if there are any. */
  ghost predicate IsLatestTime(w: World, scores: map<DriverKey, Score>, c: CityId, latest: Option<Time>) {
    && (latest.None? ==> forall d: DriverId :: d < |w.drivers| ==> DriverKey(c, d) !in scores)
    && (latest.Some? ==>
          && (forall d: DriverId :: d < |w.drivers| && DriverKey(c, d) in scores ==> scores[DriverKey(c, d)].calculatedAt <= latest.value)
          && exists d: DriverId :: d < |w.drivers| && DriverKey(c, d) in scores && scores[DriverKey(c, d)].calculatedAt == latest.value)
  }

  /** The version follows on the largest one of the city so far; the first is 1. */
  ghost predicate IsNextVersion(gens: seq<Generation>, c: CityId, version: nat) {
    && version >= 1
    && (forall i :: 0 <= i < |gens| && gens[i].city == c ==> gens[i].version < version)
    && (version == 1 || exists i :: 0 <= i < |gens| && gens[i].city == c && gens[i].version + 1 == version)
  }

  lemma {:induction false} NextVersionFollows(gens: seq<Generation>, c: CityId, n: nat)
    requires n <= |gens|
    ensures var m := MaxVersion(gens, c, n);
            && (forall i :: 0 <= i < n && gens[i].city == c ==> gens[i].version <= m)
            && (m == 0 || exists i :: 0 <= i < n && gens[i].city == c && gens[i].version == m)
  {
    if n > 0 {
      NextVersionFollows(gens, c, n - 1);
    }
  }

  /** A publication field by field; every other generation is as before, except that the city's published one is superseded. */
  lemma PublicationFields(w: World, scores: map<DriverKey, Score>, gens: seq<Generation>, c: CityId, at: Time)
    requires ValidScores(w, scores)
    ensures var gens' := Publish(w, scores, gens, c, at);
            && |gens'| == |gens| + 1
            && (forall i :: 0 <= i < |gens| ==>
                  gens'[i] == if gens[i].city == c && gens[i].status == Published then gens[i].(status := Superseded) else gens[i])
            && var g := gens'[|gens|];
               && g.city == c && g.status == Published && g.publishedAt == Some(at)
               && IsNextVersion(gens, c, g.version) && IsLatestTime(w, scores, c, g.sourceAt) && IsBestOf(w, scores, c, g.entries)
  {
    hide ValidScores, IsBestOf, LiveBoard, MaxVersion, LatestSource;
    NextVersionFollows(gens, c, |gens|);
    LatestSourceIsMax(w, scores, c, |w.drivers|);
    LiveBoardIsBest(w, scores, c);
  }

  // ---------- a batch ----------

  /**
   A committed batch: exactly the drivers of its unledgered events are recalculated at the
   batch time; its events are completed; the missing ledger rows are added with that time.
   */
  lemma BatchFields(w: World, s: Store, ids: seq<EventId>, at: Time)
    ensures var s' := ProcessBatch(w, s, ids, at);
            && (forall k :: k in s'.scores <==> k in s.scores || Claimed(s, ids, k))
            && (forall k :: k in s'.scores ==> s'.scores[k] == if Claimed(s, ids, k) then Recalculated(w, s.reviews, k, at) else s.scores[k])
            && |s'.events| == |s.events|
            && (forall e :: 0 <= e < |s.events| ==>
                  s'.events[e] == if e in ids then s.events[e].(status := Completed, attempts := s.events[e].attempts + 1,
                                                                processedAt := Some(at), lastError := None)
                                  else s.events[e])
            && (forall e :: e in s'.ledger <==> e in s.ledger || e in ids)
            && (forall e :: e in s'.ledger ==> s'.ledger[e] == if e in s.ledger then s.ledger[e] else at)
            && s'.reviews == s.reviews && s'.requests == s.requests && s'.jobs == s.jobs && s'.expirations == s.expirations
  {
    hide PublishAll, CityOrder, Recalculated;
    forall k ensures k in Affected(s.events, s.ledger, ids) <==> Claimed(s, ids, k) {}
  }

  /** The batch claims an event of the driver that has no ledger row. */
  ghost predicate Claimed(s: Store, ids: seq<EventId>, k: DriverKey) {
    exists e: EventId :: e in ids && e !in s.ledger && e < |s.events| && s.events[e].target == k
  }

  // ---------- rebuilds ----------

  /** Which error refuses a rebuild: no such city, no published generation, or another rebuild running or ready. */
  lemma StagingRefusals(w: World, s: Store, c: CityId, at: Time, now: Time)
    requires StartRebuild(w, s, c, at, now).reply.JobRefused?
    ensures var o := StartRebuild(w, s, c, at, now);
            && o.store == s
            && o.reply.error == (if c !in w.cities then CityNotFound
                                 else if forall i: nat :: !IsPublished(s.generations, i, c) then RebuildRefused
                                 else ConstraintViolation)
            && (o.reply.error == ConstraintViolation ==>
                  exists i :: 0 <= i < |s.jobs| && s.jobs[i].city == c && (s.jobs[i].status == Running || s.jobs[i].status == Ready))
  {
    hide NewJob, CandidateGeneration, PublishedOf;
    NoneIsPublished(s.generations, c);
  }

  lemma NoneIsPublished(gens: seq<Generation>, c: CityId)
    ensures PublishedOf(gens, c).None? <==> forall i: nat :: !IsPublished(gens, i, c)
  {
    if PublishedOf(gens, c).Some? {
      assert IsPublished(gens, PublishedOf(gens, c).value, c);
    }
  }

  /** A staged rebuild field by field: a ready job and a candidate generation, appended. */
  lemma StagingFields(w: World, s: Store, c: CityId, at: Time, now: Time)
    requires StartRebuild(w, s, c, at, now).reply.JobDone? && OnePublished(s.generations)
    ensures var o := StartRebuild(w, s, c, at, now);
            && o.reply == JobDone(|s.jobs|)
            && |o.store.generations| == |s.generations| + 1 && |o.store.jobs| == |s.jobs| + 1
            && o.store == s.(generations := s.generations + [o.store.generations[|s.generations|]], jobs := s.jobs + [o.store.jobs[|s.jobs|]])
            && (var g := o.store.generations[|s.generations|];
                && g.city == c && g.status == Candidate && g.sourceAt == Some(at) && g.publishedAt == None
                && IsNextVersion(s.generations, c, g.version))
            && var job := o.store.jobs[|s.jobs|];
               && job.city == c && job.status == Ready && job.calculatedAt == at && job.completedAt == Some(now)
               && IsPublished(s.generations, job.base, c) && job.candidate == Some(|s.generations|)
               && (forall d: DriverId :: d in job.scores <==> d < |w.drivers| && w.drivers[d].city == c)
               && (forall d :: d in job.scores ==> job.scores[d] == CandidateOf(w, s.reviews, DriverKey(c, d), at))
               && job.summary == Some(Compare(s.scores, s.generations[job.base].entries, o.store.generations[|s.generations|].entries, job.scores, c))
  {
    hide CandidateOf, CandidateBoard, Compare, MaxVersion, HasActive;
    NextVersionFollows(s.generations, c, |s.generations|);
  }

  /** The candidate generation holds the board that the staged scores call for. */
  lemma StagedBoardIsBest(w: World, s: Store, c: CityId, at: Time, now: Time)
    requires StartRebuild(w, s, c, at, now).reply.JobDone? && Structured(w, s) && Audited(w, s)
    ensures var s' := StartRebuild(w, s, c, at, now).store;
            |s'.generations| == |s.generations| + 1 && |s'.jobs| == |s.jobs| + 1
            && IsBestOf(w, Rebuild.Installed(s.scores, s'.jobs[|s.jobs|]), c, s'.generations[|s.generations|].entries)
  {
    hide StartRebuild, Structured, Audited, IsBestOf;
    StageKeepsStructure(w, s, c, at, now);
    var s' := StartRebuild(w, s, c, at, now).store;
    NewestJob(w, s, c, at, now);
    AuditedScoresAreValid(w, s);
    StructuredJob(w, s', |s.jobs|);
    JobBoardIsBest(w, s'.generations, s.scores, s'.jobs[|s.jobs|]);
  }

  lemma NewestJob(w: World, s: Store, c: CityId, at: Time, now: Time)
    requires StartRebuild(w, s, c, at, now).reply.JobDone?
    ensures var s' := StartRebuild(w, s, c, at, now).store;
            && |s'.generations| == |s.generations| + 1 && |s'.jobs| == |s.jobs| + 1
            && s'.jobs[|s.jobs|].city == c && s'.jobs[|s.jobs|].candidate == Some(|s.generations|)
  {
    hide Compare, CandidateScores, CandidateGeneration, HasActive, PublishedOf;
  }

  lemma StructuredJob(w: World, s: Store, j: JobId)
    requires Structured(w, s) && j < |s.jobs|
    ensures ValidJob(w, s.generations, s.jobs[j])
  {
    hide ValidJob;
  }

  /** A job's candidate generation holds the board that its scores call for once they are installed. */
  lemma JobBoardIsBest(w: World, gens: seq<Generation>, scores: map<DriverKey, Score>, job: Job)
    requires ValidJob(w, gens, job) && ValidScores(w, scores)
    ensures IsBestOf(w, Rebuild.Installed(scores, job), job.city, gens[job.candidate.value].entries)
  {
    hide ValidScores, IsBestOf, CandidateBoard, LiveBoard, Rebuild.Installed, InRange;
    InstalledIsValid(w, gens, scores, job);
    LiveBoardIsBest(w, Rebuild.Installed(scores, job), job.city);
    InstalledBoardIsCandidateBoard(w, scores, job);
  }

  /** Which error refuses the publication of a rebuild, in the order of the checks. */
  lemma InstallRefusals(w: World, s: Store, j: JobId, now: Time)
    requires PublishRebuild(w, s, j, now).reply.JobRefused?
    ensures var o := PublishRebuild(w, s, j, now);
            && o.store == s
            && o.reply.error == (if j >= |s.jobs| then RebuildNotFound
                                 else if s.jobs[j].status != Ready then RebuildRefused
                                 else if s.jobs[j].city !in w.cities then CityNotFound
                                 else if forall i: nat :: !IsPublished(s.generations, i, s.jobs[j].city) then LeaderboardNotFound
                                 else RebuildRefused)
  {
    hide PublishedOf, Promote, Rebuild.Installed;
    if j < |s.jobs| {
      NoneIsPublished(s.generations, s.jobs[j].city);
    }
  }

  /** An installed rebuild field by field: its rows replace the city's, the base gives way to the candidate, the job is closed. */
  lemma InstallFields(w: World, s: Store, j: JobId, now: Time)
    requires PublishRebuild(w, s, j, now).reply.JobDone? && ValidJobs(w, s.generations, s.jobs)
    ensures j < |s.jobs| && s.jobs[j].candidate.Some?
    ensures var s', job := PublishRebuild(w, s, j, now).store, s.jobs[j];
            && s' == s.(scores := s'.scores, generations := s'.generations, jobs := s'.jobs)
            && (forall k: DriverKey :: k.city == job.city ==> (k in s'.scores <==> k.driver in job.scores))
            && (forall k: DriverKey :: k.city == job.city && k in s'.scores ==>
                  s'.scores[k] == Score(job.scores[k.driver].sum, job.scores[k.driver].count, job.scores[k.driver].eligible,
                                        job.calculatedAt - 90 * 24 * 60 * 60 * 1_000_000, job.calculatedAt))
            && (forall k: DriverKey :: k.city != job.city ==> (k in s'.scores <==> k in s.scores) && (k in s.scores ==> s'.scores[k] == s.scores[k]))
            && |s'.generations| == |s.generations|
            && (forall g :: 0 <= g < |s.generations| ==>
                  s'.generations[g] == if g == job.candidate.value then s.generations[g].(status := Published, publishedAt := Some(now))
                                       else if g == job.base then s.generations[g].(status := Superseded)
                                       else s.generations[g])
            && s'.jobs == s.jobs[j := job.(status := JobStatus.Installed, completedAt := Some(now))]
  {
    hide PublishRebuild, CandidateBoard;
    PublicationShape(w, s, j, now);
    assert ValidJob(w, s.generations, s.jobs[j]);
  }

  /** A discarded rebuild field by field, and its refusals. */
  lemma DiscardFields(w: World, s: Store, j: JobId, now: Time)
    requires ValidJobs(w, s.generations, s.jobs)
    ensures var o := DiscardRebuild(s, j, now);
            if j < |s.jobs| && s.jobs[j].status == Ready
            then && o.reply == JobDone(j) && s.jobs[j].candidate.Some? && s.jobs[j].candidate.value < |s.generations|
                 && var g := s.jobs[j].candidate.value;
                    o.store == s.(generations := s.generations[g := s.generations[g].(status := Discarded)],
                                  jobs := s.jobs[j := s.jobs[j].(status := Dropped, completedAt := Some(now))])
            else && o.store == s
                 && o.reply == JobRefused(if j < |s.jobs| then RebuildRefused else RebuildNotFound)
  {
    hide CandidateBoard;
    if j < |s.jobs| {
      assert ValidJob(w, s.generations, s.jobs[j]);
    }
  }

  // ---------- an expiration ----------

  /** What an expiration answers: an earlier run of this city and time, the missing city, or its own number. */
  lemma ExpirationReplies(w: World, s: Store, c: CityId, at: Time)
    ensures var o := RunExpiration(w, s, c, at);
            && (o.reply.AlreadyRan? <==> exists r :: 0 <= r < |s.expirations| && s.expirations[r].city == c && s.expirations[r].effectiveAt == at)
            && (o.reply.AlreadyRan? ==> o.store == s && o.reply.run < |s.expirations|
                                        && s.expirations[o.reply.run].city == c && s.expirations[o.reply.run].effectiveAt == at)
            && (o.reply.NotRun? ==> o.store == s && o.reply.error == CityNotFound && c !in w.cities)
            && (o.reply.Ran? ==> o.reply.run == |s.expirations| && c in w.cities)
  {
    hide Rescored, ChangedKeys, Publish;
  }

  /** The drivers that an expiration counts as affected are those without a row, or with another sum, count or eligibility. */
  lemma AffectedByExpiration(before: map<DriverKey, Score>, after: map<DriverKey, Score>, k: DriverKey)
    requires k in after
    ensures Ranking3(before, k) != Ranking3(after, k)
       <==> k !in before || before[k].sum != after[k].sum || before[k].count != after[k].count || before[k].eligible != after[k].eligible
  {}
}
