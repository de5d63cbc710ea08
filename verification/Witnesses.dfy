/** Runs in which rules of the repository's audit, or the agreement of board and scores, fail. */
module Witnesses {
  import opened Tables
  import opened Scoring
  import opened Writes
  import opened Histories
  import opened Leaderboard
  import opened Outbox
  import opened Rebuild
  import opened Expiration
  import opened System
  import opened Ranking
  import opened Agreement
  import opened Coverage
  import opened Candidates
  import opened Freshness
  import opened Progress
  import opened Audit

  const TOWN: World := WorldData({0}, [Driver(0, 0)], [Trip(7, 0, 0, 10)])

  /** Two expirations, the second with an earlier time, leave the city's score older than the first. */
  lemma EarlierExpirationUncovers()
    ensures !Covered(Run(TOWN, EMPTY, [Expire(0, 100), Expire(0, 50)], 2), 0)
  {
    hide Publish, ChangedKeys, Aggregate;
    var actions := [Expire(0, 100), Expire(0, 50)];
    var s1, s2 := Run(TOWN, EMPTY, actions, 1), Run(TOWN, EMPTY, actions, 2);
    assert Run(TOWN, EMPTY, actions, 0) == EMPTY;
    assert s1 == Step(TOWN, EMPTY, Expire(0, 100));
    assert s2 == Step(TOWN, s1, Expire(0, 50));
    assert 0 in CityDrivers(TOWN, 0);
    assert DriverKey(0, 0) in CityKeys(TOWN, 0);
    assert s2.expirations[0].effectiveAt == 100 && s2.scores[DriverKey(0, 0)].calculatedAt == 50;
  }

  /** So does a rescore at the present time after an expiration in the future. */
  lemma RescoreAfterFutureExpirationUncovers()
    ensures Covered(Run(TOWN, EMPTY, [Expire(0, 100), Rescore(0, 50)], 1), 0)
    ensures !Covered(Run(TOWN, EMPTY, [Expire(0, 100), Rescore(0, 50)], 2), 0)
  {
    hide Publish, ChangedKeys, Aggregate;
    var actions := [Expire(0, 100), Rescore(0, 50)];
    var s1 := Run(TOWN, EMPTY, actions, 1);
    assert Run(TOWN, EMPTY, actions, 0) == EMPTY;
    assert s1 == Step(TOWN, EMPTY, Expire(0, 100));
    assert Run(TOWN, EMPTY, actions, 2) == RescoreCity(TOWN, s1, 0, 50);
    assert 0 in CityDrivers(TOWN, 0);
    assert DriverKey(0, 0) in CityKeys(TOWN, 0);
    assert s1.expirations[0].effectiveAt == 100 && s1.expirations[0].city == 0;
    RescoreCoversIff(TOWN, s1, 0, 50);
  }

  const LATE: seq<Action> := [Write(Upsert(0, 7, 5), "k", 20), Work([0], 20, 20), ReportFailure({0}, "late", 21)]

  lemma FirstReviewEnqueues()
    ensures var s := Run(TOWN, EMPTY, LATE, 1);
            s.ledger == map[] && |s.events| == 1 && s.events[0].status == Pending && s.events[0].nextAttemptAt == 20
            && s.events[0].attempts == 0
  {
    assert Run(TOWN, EMPTY, LATE, 0) == EMPTY;
  }

  lemma FirstBatchCompletes()
    ensures var s := Run(TOWN, EMPTY, LATE, 2);
            s.ledger.Keys == {0} && |s.events| == 1 && s.events[0].status == Completed && s.events[0].attempts == 1
  {
    hide ScoresAfter, PublishAll, Submit;
    FirstReviewEnqueues();
    var s1 := Run(TOWN, EMPTY, LATE, 1);
    assert Claimable(s1.events, [0], 20);
    assert Run(TOWN, EMPTY, LATE, 2) == ProcessBatch(TOWN, s1, [0], 20);
  }

  /** A worker's late failure report reopens an event that another worker has completed. */
  lemma LateReportBreaksLedgerAudit()
    ensures LedgeredAreCompleted(Run(TOWN, EMPTY, LATE, 2)) && !LedgeredAreCompleted(Run(TOWN, EMPTY, LATE, 3))
  {
    hide ProcessBatch, Submit;
    FirstBatchCompletes();
    var s2, s3 := Run(TOWN, EMPTY, LATE, 2), Run(TOWN, EMPTY, LATE, 3);
    assert s3 == RecordFailure(s2, {0}, "late", 21);
    assert 0 in s3.ledger && s3.events[0].status == Pending;
  }

  // ---------- a published generation without a source time ----------

  /** Publishing a city that has never been scored leaves its generation without the time of its scores. */
  lemma UnscoredPublicationIsNotDated()
    ensures !BoardsAreDated(Run(TOWN, EMPTY, [Republish(0, 5)], 1))
  {
    hide BoardsAreDated, Step, Structured;
    var actions := [Republish(0, 5)];
    EmptyIsStructured(TOWN);
    EmptyIsAudited(TOWN);
    NothingIsDated();
    assert Run(TOWN, EMPTY, actions, 0) == EMPTY;
    assert PublishesUnscored(TOWN, EMPTY, actions[0]);
    StepIsDatedIff(TOWN, EMPTY, actions[0]);
  }

  // ---------- a corrected candidate ----------

  const CORRECTED: seq<Action> :=
    [Write(Upsert(0, 7, 5), "k", 20), Work([0], 20, 20), Stage(0, 20, 21), Write(Upsert(0, 7, 1), "c", 22)]

  const ONE_REVIEW: Reviews := ReviewData([Review(0, None, false, [Version(1, 5, true, 20)], [])], map[0 := 0])

  lemma FirstReviewIsStored()
    ensures var s := Run(TOWN, EMPTY, CORRECTED, 1);
            && s == EMPTY.(reviews := ONE_REVIEW, requests := s.requests, events := [NewEvent(TOWN, ReviewUpserted, 0, 0, 20)])
            && s.requests.Keys == {"k"}
  {
    assert Run(TOWN, EMPTY, CORRECTED, 0) == EMPTY;
    var s, first := Run(TOWN, EMPTY, CORRECTED, 1), WithRating(BLANK.(trip := 0), 5, 20);
    assert s == Submit(TOWN, EMPTY, Upsert(0, 7, 5), "k", 20).store;
    assert first.versions == ONE_REVIEW.rows[0].versions;
    assert s.reviews.rows == [first];
    assert s.reviews.rows == ONE_REVIEW.rows && s.reviews.ofTrip == ONE_REVIEW.ofTrip;
    assert s.events == [NewEvent(TOWN, ReviewUpserted, 0, 0, 20)];
  }

  lemma FirstBatchPublishes()
    ensures var s := Run(TOWN, EMPTY, CORRECTED, 2);
            && s.reviews == ONE_REVIEW && s.requests.Keys == {"k"} && s.jobs == [] && PublishedOf(s.generations, 0).Some?
  {
    hide ScoresAfter, PublishAll, Submit, EventsAfter, LedgerAfter, Structured, PublishedOf;
    FirstReviewIsStored();
    EmptyIsStructured(TOWN);
    RunKeepsStructure(TOWN, EMPTY, CORRECTED, 1, 1);
    var s1 := Run(TOWN, EMPTY, CORRECTED, 1);
    assert Claimable(s1.events, [0], 20);
    assert Run(TOWN, EMPTY, CORRECTED, 2) == ProcessBatch(TOWN, s1, [0], 20);
    assert 0 in [0] && s1.events[0].target == DriverKey(0, 0);
    assert DriverKey(0, 0) in Affected(s1.events, s1.ledger, [0]);
    assert 0 in AffectedCities(s1.events, s1.ledger, [0]);
    PublishingPublishes(TOWN, s1, CORRECTED[1], 0);
  }

  lemma RebuildIsStaged()
    ensures var s := Run(TOWN, EMPTY, CORRECTED, 3);
            && s.reviews == ONE_REVIEW && s.requests.Keys == {"k"} && |s.jobs| == 1
            && s.jobs[0].status == Ready && s.jobs[0].city == 0 && s.jobs[0].calculatedAt == 20 && 0 in s.jobs[0].scores
  {
    hide ProcessBatch, Submit, CandidateGeneration, Aggregate, Compare, PublishedOf;
    FirstBatchPublishes();
    var s2 := Run(TOWN, EMPTY, CORRECTED, 2);
    assert Run(TOWN, EMPTY, CORRECTED, 3) == StartRebuild(TOWN, s2, 0, 20, 21).store;
    assert 0 in CityDrivers(TOWN, 0);
  }

  /** A rating corrected while a rebuild is ready leaves its candidate behind the reviews. */
  lemma CorrectionBreaksCandidateAudit()
    ensures ReadyAreExact(TOWN, Run(TOWN, EMPTY, CORRECTED, 3)) && !ReadyAreExact(TOWN, Run(TOWN, EMPTY, CORRECTED, 4))
  {
    hide Step, Structured, ReadyAreExact;
    EmptyIsStructured(TOWN);
    RunKeepsStructure(TOWN, EMPTY, CORRECTED, 2, 2);
    RunKeepsStructure(TOWN, EMPTY, CORRECTED, 3, 3);
    var s2, s3 := Run(TOWN, EMPTY, CORRECTED, 2), Run(TOWN, EMPTY, CORRECTED, 3);
    FirstBatchPublishes();
    assert ReadyAreExact(TOWN, s2) by { NoJobs(TOWN, s2); }
    StepKeepsCandidateAuditIff(TOWN, s2, CORRECTED[2]);
    RebuildIsStaged();
    CorrectionIsSeen(s3);
    StepKeepsCandidateAuditIff(TOWN, s3, CORRECTED[3]);
  }

  lemma NoJobs(w: World, s: Store)
    requires s.jobs == []
    ensures ReadyAreExact(w, s)
  {}

  lemma CorrectionIsSeen(s: Store)
    requires s.reviews == ONE_REVIEW && s.requests.Keys == {"k"} && |s.jobs| == 1
    requires s.jobs[0].status == Ready && s.jobs[0].city == 0 && s.jobs[0].calculatedAt == 20 && 0 in s.jobs[0].scores
    ensures CorrectsReadyJob(TOWN, s, CORRECTED[3])
  {
    assert CurrentIndex(ONE_REVIEW.rows[0].versions) == Some(0);
    assert Contribution(s.reviews, 0) == Some(5);
    assert "c" != "k";
    assert Corrects(TOWN, s, Upsert(0, 7, 1), s.jobs[0]);
  }

  // ---------- a board that a bare rescore leaves behind ----------

  /** One driver with twenty trips. */
  const BUSY: World := WorldData({0}, [Driver(0, 0)], seq(20, _ => Trip(7, 0, 0, 0)))

  function KeyOf(i: nat): Key {
    seq(i, _ => 'k')
  }

  /** Twenty ratings, an expiration that publishes, and a rescore one instant after the window has passed. */
  const BUSY_RUN: seq<Action> := seq(22, i requires 0 <= i < 22 =>
    if i < 20 then Write(Upsert(i, 7, 5), KeyOf(i), 0) else if i == 20 then Expire(0, 0) else Rescore(0, WINDOW + 1))

  const BUSY_DRIVER: DriverKey := DriverKey(0, 0)

  /** The first `n` trips are rated 5, the others not at all; nothing is derived yet. */
  ghost predicate Rated(s: Store, n: nat) {
    && (forall t: TripId :: t in s.reviews.ofTrip <==> t < n)
    && (forall t: TripId :: t < n ==> Contribution(s.reviews, t) == Some(5))
    && (forall i: nat :: i >= n ==> KeyOf(i) !in s.requests)
    && s.scores == map[] && s.expirations == []
  }

  lemma OneMoreRating(s: Store, n: nat)
    requires n < 20 && ValidReviews(BUSY, s.reviews) && Rated(s, n)
    ensures Rated(Submit(BUSY, s, Upsert(n, 7, 5), KeyOf(n), 0).store, n + 1)
  {
    var request, s' := Upsert(n, 7, 5), Submit(BUSY, s, Upsert(n, 7, 5), KeyOf(n), 0).store;
    AcceptedExactlyWhen(BUSY, s, request, KeyOf(n), 0);
    AcceptedWriteIsSound(BUSY, s, request, KeyOf(n), 0);
    NewTripIsStored(s, n);
    hide Submit, Contribution, ValidReviews, AllExtend;
    forall i: nat | i >= n + 1 ensures KeyOf(i) !in s'.requests {
      assert |KeyOf(i)| != |KeyOf(n)|;
    }
  }

  lemma NewTripIsStored(s: Store, n: nat)
    requires n < 20 && n !in s.reviews.ofTrip && KeyOf(n) !in s.requests
    ensures var s' := Submit(BUSY, s, Upsert(n, 7, 5), KeyOf(n), 0).store;
            s'.reviews.ofTrip.Keys == s.reviews.ofTrip.Keys + {n} && s'.requests.Keys == s.requests.Keys + {KeyOf(n)}
  {
    hide UpsertChangesContribution, CurrentBody, KeyOf, CurrentIndex;
    NewReviewsChange(n, 5);
    assert Rejection(BUSY, n, 7) == None;
    assert WithRating(BLANK.(trip := n), 5, 0).trip == n;
  }

  lemma {:induction false} TripsAreRated(n: nat)
    requires n <= 20
    ensures Rated(Run(BUSY, EMPTY, BUSY_RUN, n), n)
  {
    hide Rated, Structured, Submit;
    if n == 0 {
      NothingIsRated();
    } else {
      TripsAreRated(n - 1);
      EmptyIsStructured(BUSY);
      RunKeepsStructure(BUSY, EMPTY, BUSY_RUN, n - 1, n - 1);
      var before := Run(BUSY, EMPTY, BUSY_RUN, n - 1);
      assert ValidReviews(BUSY, before.reviews) by { StructuredReviews(BUSY, before); }
      OneMoreRating(before, n - 1);
      assert BUSY_RUN[n - 1] == Write(Upsert(n - 1, 7, 5), KeyOf(n - 1), 0);
    }
  }

  lemma StructuredReviews(w: World, s: Store)
    requires Structured(w, s)
    ensures ValidReviews(w, s.reviews)
  {}

  lemma NothingIsRated()
    ensures Rated(EMPTY, 0)
  {}

  lemma {:induction false} FiveEach(rt: Reviews, n: nat)
    requires n <= 20 && forall t: TripId :: t < n ==> Contribution(rt, t) == Some(5)
    ensures AggregateUpTo(BUSY, rt, BUSY_DRIVER, -WINDOW, 0, n) == Totals(5 * n, n)
    ensures AggregateUpTo(BUSY, rt, BUSY_DRIVER, 1, WINDOW + 1, n) == Totals(0, 0)
  {
    hide Contribution;
    if n > 0 {
      FiveEach(rt, n - 1);
    }
  }

  lemma EligibleDriverIsListed(scores: map<DriverKey, Score>)
    requires BUSY_DRIVER in scores && scores[BUSY_DRIVER].eligible
    ensures |LiveBoard(BUSY, scores, 0)| == 1
  {
    assert LiveRows(BUSY, scores, 0, 0) == [];
    assert |BUSY.drivers| == 1 && DriverKey(0, 0) == BUSY_DRIVER;
    var rows := LiveRows(BUSY, scores, 0, 1);
    assert |rows| == 1 && Ranked(rows[1..]) == [] && Ranked(rows) == [rows[0]];
  }

  lemma IneligibleDriverIsNot(candidates: map<DriverId, CandidateScore>)
    requires 0 in candidates ==> !candidates[0].eligible
    ensures CandidateBoard(BUSY, candidates) == []
  {
    assert CandidateRows(BUSY, candidates, 0) == [];
    assert CandidateRows(BUSY, candidates, 1) == [];
  }

  lemma BusyDriverIsPublished()
    ensures var s := Run(BUSY, EMPTY, BUSY_RUN, 21);
            && (forall t: TripId :: t < 20 ==> Contribution(s.reviews, t) == Some(5))
            && PublishedOf(s.generations, 0).Some?
            && s.generations[PublishedOf(s.generations, 0).value].entries == LiveBoard(BUSY, s.scores, 0)
            && BUSY_DRIVER in s.scores && s.scores[BUSY_DRIVER].eligible
  {
    hide Structured, Step, RunExpiration, LiveBoard, Contribution, PublishedUpTo;
    TripsAreRated(20);
    EmptyIsStructured(BUSY);
    RunKeepsStructure(BUSY, EMPTY, BUSY_RUN, 20, 20);
    var s := Run(BUSY, EMPTY, BUSY_RUN, 20);
    assert Run(BUSY, EMPTY, BUSY_RUN, 21) == Step(BUSY, s, Expire(0, 0));
    FirstExpirationRuns(s);
    FiveEach(s.reviews, 20);
    ExpirationIsExact(BUSY, s, 0, 0);
    assert 0 in CityDrivers(BUSY, 0);
    assert BUSY_DRIVER in CityKeys(BUSY, 0);
    FirstScoresCountAsChanged(BUSY, s, 0, 0);
  }

  lemma FirstExpirationRuns(s: Store)
    requires s.expirations == [] && s.scores == map[]
    ensures RunExpiration(BUSY, s, 0, 0).reply.Ran?
    ensures var s' := RunExpiration(BUSY, s, 0, 0).store;
            && Step(BUSY, s, Expire(0, 0)) == s' && s'.reviews == s.reviews && |s'.expirations| == 1
            && s'.expirations[0].affected == |ChangedKeys(s.scores, Rescored(BUSY, s.reviews, s.scores, CityKeys(BUSY, 0), 0), CityKeys(BUSY, 0))|
  {
    hide Publish, ChangedKeys, Rescored, CityKeys;
  }

  /** A bare rescore after the reviews have left the window leaves a board with a driver who no longer qualifies. */
  lemma BareRescorePartsBoardFromScores()
    ensures Agrees(BUSY, Run(BUSY, EMPTY, BUSY_RUN, 21), 0) && !Agrees(BUSY, Run(BUSY, EMPTY, BUSY_RUN, 22), 0)
  {
    hide Run, RescoreCity, LiveBoard, CandidateBoard, CandidateScores, Contribution, PublishedOf;
    BusyDriverIsPublished();
    LastRescore();
    var s := Run(BUSY, EMPTY, BUSY_RUN, 21);
    EligibleDriverIsListed(s.scores);
    BareRescoreAgreesIff(BUSY, s, 0, WINDOW + 1);
    LateCandidates(s.reviews);
    IneligibleDriverIsNot(CandidateScores(BUSY, s.reviews, 0, CityDrivers(BUSY, 0), WINDOW + 1));
  }

  lemma LastRescore()
    ensures Run(BUSY, EMPTY, BUSY_RUN, 22) == RescoreCity(BUSY, Run(BUSY, EMPTY, BUSY_RUN, 21), 0, WINDOW + 1)
  {
    hide RescoreCity;
  }

  lemma LateCandidates(rt: Reviews)
    requires forall t: TripId :: t < 20 ==> Contribution(rt, t) == Some(5)
    ensures var candidates := CandidateScores(BUSY, rt, 0, CityDrivers(BUSY, 0), WINDOW + 1);
            0 in candidates ==> !candidates[0].eligible
  {
    hide Contribution, CityDrivers;
    FiveEach(rt, 20);
  }
}
