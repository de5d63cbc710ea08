/**
 The services as they run: a database object whose tables they update step by step, with
 the loops of the original, each proved to do exactly what the functions of the other
 modules say.
 */
module Services {
  import opened Tables
  import opened Scoring
  import opened Ranking
  import opened Writes
  import opened Leaderboard
  import opened Outbox
  import opened Rebuild
  import opened Expiration
  import opened System
  import opened Readable
  import opened Steps
  import opened Draining
  import opened Caching

  /** Where an exception ends a batch: after the claim, after the cities are refreshed, or at the commit. */
  datatype Stage = AfterClaim | AfterRefresh | AtCommit

  datatype BatchOutcome = Committed(result: BatchResult) | Aborted(claimed: seq<EventId>)

  datatype CityStats = CityStats(drivers: nat, eligible: nat, ineligible: nat, contributing: nat, outside: nat)

  class Database {
    const world: World
    var reviews: Reviews
    var requests: map<Key, RequestRecord>
    var events: seq<Event>
    var ledger: map<EventId, Time>
    var scores: map<DriverKey, Score>
    var generations: seq<Generation>
    var jobs: seq<Job>
    var expirations: seq<ExpirationRun>

    function Tables(): Store
      reads this
    {
      Store(reviews, requests, events, ledger, scores, generations, jobs, expirations)
    }

    constructor (w: World)
      ensures world == w && Tables() == EMPTY
    {
      world := w;
      reviews := ReviewData([], map[]);
      requests, events, ledger, scores := map[], [], map[], map[];
      generations, jobs, expirations := [], [], [];
    }

    /** Undo everything a failed transaction did. */
    method Rollback(saved: Store)
      modifies this
      ensures Tables() == saved
    {
      reviews, requests, events, ledger := saved.reviews, saved.requests, saved.events, saved.ledger;
      scores, generations, jobs, expirations := saved.scores, saved.generations, saved.jobs, saved.expirations;
    }

    // ---------- authoritative writes ----------

    method EnqueueContributionChange(kind: EventKind, trip: TripId, review: ReviewId, now: Time)
      requires trip < |world.trips|
      modifies this`events
      ensures events == old(events) + [NewEvent(world, kind, trip, review, now)]
    {
      var t := world.trips[trip];
      var event := Event(kind, DriverKey(t.city, t.driver), review, Pending, 0, now, None, None);
      events := events + [event];
    }

    /** Revive a review, and retire its current version in favour of a new one unless the rating is the same. */
    method Rerate(review: Review, rating: int, now: Time) returns (after: Review, version: Version)
      ensures after == WithRating(review, rating, now) && after.trip == review.trip
      ensures CurrentIndex(after.versions).Some? && version == after.versions[CurrentIndex(after.versions).value]
    {
      after := review.(deletedAt := None);
      var current := CurrentIndex(after.versions);
      if current.Some? && after.versions[current.value].rating == rating {
        version := after.versions[current.value];
      } else {
        var nextVersion := 1;
        if current.Some? {
          nextVersion := after.versions[current.value].version + 1;
          after := after.(versions := after.versions[current.value := after.versions[current.value].(isCurrent := false)]);
        }
        version := Version(nextVersion, rating, true, now);
        after := after.(versions := after.versions + [version]);
      }
    }

    method UpsertReview(trip: TripId, rider: RiderId, rating: int, key: Key, now: Time) returns (reply: Reply)
      modifies this
      ensures Outcome(Tables(), reply) == Submit(world, old(Tables()), Upsert(trip, rider, rating), key, now)
    {
      hide WithRating, CurrentIndex, ApplyDelete, ApplyModerate;
      var request := Upsert(trip, rider, rating);
      if key in requests {
        var existing := requests[key];
        if existing.request != request {
          return Rejected(IdempotencyConflict);
        }
        return Accepted(existing.body.(replay := true), existing.created, true);
      }
      if trip >= |world.trips| {
        return Rejected(TripNotFound);
      }
      if world.trips[trip].rider != rider {
        return Rejected(RiderDoesNotOwnTrip);
      }
      var saved := Tables();
      var created := trip !in reviews.ofTrip;
      if created {
        reviews := WithNewRow(reviews, BLANK.(trip := trip));
      }
      var id := reviews.ofTrip[trip];
      var review := reviews.rows[id];
      var current := CurrentIndex(review.versions);
      var wasDeleted := review.deletedAt.Some?;
      var contributedBefore := !wasDeleted && !review.excluded;
      var ratingChanged := current.None? || review.versions[current.value].rating != rating;
      var contributesAfter := !review.excluded;
      var contributionChanged := contributedBefore != contributesAfter || (ratingChanged && contributesAfter);
      if ratingChanged && !(1 <= rating <= 5) {
        Rollback(saved);
        return Rejected(ConstraintViolation);
      }
      var after, version := Rerate(review, rating, now);
      reviews := WithRow(reviews, id, after);
      assert created ==> reviews == WithNewRow(saved.reviews, after);
      if contributionChanged {
        EnqueueContributionChange(ReviewUpserted, trip, id, now);
      }
      var body := ReviewBody(id, trip, version.version, version.rating, version.createdAt, false);
      requests := requests[key := RequestRecord(request, created, body)];
      return Accepted(body, created, false);
    }

    method DeleteReview(trip: TripId, rider: RiderId, key: Key, now: Time) returns (reply: Reply)
      modifies this
      ensures Outcome(Tables(), reply) == Submit(world, old(Tables()), Delete(trip, rider), key, now)
    {
      var request := Delete(trip, rider);
      if key in requests {
        var existing := requests[key];
        if existing.request != request {
          return Rejected(IdempotencyConflict);
        }
        return Accepted(existing.body.(replay := true), false, true);
      }
      if trip >= |world.trips| {
        return Rejected(TripNotFound);
      }
      if world.trips[trip].rider != rider {
        return Rejected(RiderDoesNotOwnTrip);
      }
      if trip !in reviews.ofTrip {
        return Rejected(ReviewNotFound);
      }
      var id := reviews.ofTrip[trip];
      var review := reviews.rows[id];
      var changedState := review.deletedAt.None?;
      if changedState {
        reviews := WithRow(reviews, id, review.(deletedAt := Some(now)));
      }
      if changedState && !review.excluded {
        EnqueueContributionChange(ReviewDeleted, trip, id, now);
      }
      var body := DeletionBody(id, trip, changedState, false);
      requests := requests[key := RequestRecord(request, false, body)];
      return Accepted(body, false, false);
    }

    method ModerateReview(id: ReviewId, moderator: string, action: ModerationAction, reason: Option<string>, key: Key, now: Time)
      returns (reply: Reply)
      modifies this
      ensures Outcome(Tables(), reply) == Submit(world, old(Tables()), Moderate(id, moderator, action, reason), key, now)
    {
      var request := Moderate(id, moderator, action, reason);
      if key in requests {
        var existing := requests[key];
        if existing.request != request {
          return Rejected(IdempotencyConflict);
        }
        return Accepted(existing.body.(replay := true), false, true);
      }
      if id >= |reviews.rows| || reviews.rows[id].trip >= |world.trips| {
        return Rejected(ReviewNotFound);
      }
      var review := reviews.rows[id];
      var desiredExcluded := action == Exclude;
      var changedState := DecisionChangesState(review.excluded, action);
      var decision := Decision(NextDecisionNumber(review.decisions), action, moderator, reason, changedState);
      reviews := WithRow(reviews, id, review.(decisions := review.decisions + [decision], excluded := desiredExcluded));
      if changedState && review.deletedAt.None? {
        EnqueueContributionChange(ReviewModerated(action), review.trip, id, now);
      }
      var body := DecisionBody(id, decision.number, action, desiredExcluded, changedState, false);
      requests := requests[key := RequestRecord(request, false, body)];
      return Accepted(body, false, false);
    }

    // ---------- derived state ----------

    method RecalculateDriverScore(k: DriverKey, at: Time) returns (score: Score)
      modifies this`scores
      ensures score == Recalculated(world, reviews, k, at)
      ensures scores == old(scores)[k := score]
    {
      var windowStart := at - WINDOW;
      var totals := Aggregate(world, reviews, k, windowStart, at);
      score := Score(totals.sum, totals.count, Eligible(totals.count), windowStart, at);
      scores := scores[k := score];
    }

    /** Number the ranked rows from 1. */
    method EntriesOf(ranked: seq<Row>) returns (entries: seq<Entry>)
      ensures entries == Numbered(ranked)
    {
      entries := [];
      for i := 0 to |ranked|
        invariant entries == Numbered(ranked)[..i]
      {
        entries := entries + [EntryAt(ranked, i)];
      }
    }

    method BuildAndPublishGeneration(c: CityId, at: Time) returns (id: GenerationId)
      modifies this`generations
      ensures id == |old(generations)|
      ensures generations == Publish(world, scores, old(generations), c, at)
      ensures c in world.cities ==> Tables() == Step(world, old(Tables()), Republish(c, at))
    {
      hide Step;
      StepIsService(world, Tables(), Republish(c, at));
      ghost var before := generations;
      var currentMax := MaxVersion(generations, c, |generations|);
      var source := LatestSource(world, scores, c, |world.drivers|);
      id := |generations|;
      generations := generations + [Generation(c, currentMax + 1, Building, [], source, None)];
      var ranked := Limited(Ranked(LiveRows(world, scores, c, |world.drivers|)));
      var entries := EntriesOf(ranked);
      generations := generations[id := generations[id].(entries := entries)];
      generations := Retired(generations, c);
      generations := generations[id := generations[id].(status := Published, publishedAt := Some(at))];
      assert generations[..id] == Retired(before, c);
      assert generations == Publish(world, scores, before, c, at);
    }

    // ---------- expiration ----------

    method RunCityExpiration(c: CityId, at: Time) returns (reply: ExpirationReply)
      modifies this
      ensures ExpirationOutcome(Tables(), reply) == RunExpiration(world, old(Tables()), c, at)
      ensures Tables() == Step(world, old(Tables()), Expire(c, at))
    {
      hide Step;
      StepIsService(world, Tables(), Expire(c, at));
      hide Rescored, Recalculated, ChangedKeys, KeysOf, Publish, CityDrivers;
      var existing := FindRun(expirations, c, at, |expirations|);
      if existing.Some? {
        return AlreadyRan(existing.value);
      }
      if c !in world.cities {
        return NotRun(CityNotFound);
      }
      var run := |expirations|;
      expirations := expirations + [ExpirationRun(c, at, 0, None)];
      var drivers := CityDrivers(world, c);
      var affected := 0;
      ghost var all := Rescored(world, reviews, old(scores), CityKeys(world, c), at);
      AllKeysListed(drivers, c);
      NothingRescored(world, reviews, scores, all, at);
      for i := 0 to |drivers|
        invariant unchanged(this`reviews, this`requests, this`events, this`ledger, this`generations, this`jobs)
        invariant expirations == old(expirations) + [ExpirationRun(c, at, 0, None)]
        invariant scores == Rescored(world, reviews, old(scores), KeysOf(c, drivers[..i]), at)
        invariant affected == |ChangedKeys(old(scores), all, KeysOf(c, drivers[..i]))|
      {
        var k := DriverKey(c, drivers[i]);
        var previous := Ranking3(scores, k);
        var updated := RecalculateDriverScore(k, at);
        if previous != Some(CandidateScore(updated.sum, updated.count, updated.eligible)) {
          affected := affected + 1;
        }
        OneMoreDriver(world, reviews, old(scores), c, drivers, i, at);
      }
      if affected > 0 {
        var generation := BuildAndPublishGeneration(c, at);
        expirations := expirations[run := expirations[run].(generation := Some(generation))];
      }
      expirations := expirations[run := expirations[run].(affected := affected)];
      return Ran(run);
    }

    // ---------- outbox worker ----------

    method StartEvents(ids: seq<EventId>)
      requires Distinct(ids) && forall i :: 0 <= i < |ids| ==> ids[i] < |events|
      modifies this`events
      ensures events == Started(old(events), ids)
    {
      hide Started;
      NothingStarted(events, ids);
      for i := 0 to |ids|
        invariant |events| == |old(events)| && events == Started(old(events), ids[..i])
      {
        StartedNext(old(events), ids, i);
        var e := ids[i];
        events := events[e := events[e].(status := Processing, attempts := events[e].attempts + 1)];
      }
      assert ids[..|ids|] == ids;
    }

    /** The drivers to recalculate per city, and the cities in the order they were first met. */
    method GroupByCity(ids: seq<EventId>) returns (order: seq<CityId>, cityDrivers: map<CityId, set<DriverId>>)
      requires forall i :: 0 <= i < |ids| ==> ids[i] < |events|
      ensures order == CityOrder(events, ledger, ids, |ids|)
      ensures Groups(order, cityDrivers, Affected(events, ledger, ids))
    {
      hide Affected, Groups, WithDriver, CityOrder;
      order, cityDrivers := [], map[];
      GroupsStart();
      GroupingStarts(events, ledger, ids);
      for i := 0 to |ids|
        invariant order == CityOrder(events, ledger, ids, i)
        invariant Groups(order, cityDrivers, Affected(events, ledger, ids[..i]))
      {
        GroupingNext(events, ledger, ids, i);
        if ids[i] !in ledger {
          var target := events[ids[i]].target;
          GroupsNext(order, cityDrivers, Affected(events, ledger, ids[..i]), target);
          if target.city !in cityDrivers {
            order := order + [target.city];
          }
          cityDrivers := WithDriver(cityDrivers, target);
        }
      }
      assert ids[..|ids|] == ids;
    }

    /** Recalculate the drivers of one city, in any order. */
    method RecalculateDrivers(c: CityId, drivers: set<DriverId>, at: Time, ghost base: map<DriverKey, Score>, ghost done: set<DriverKey>)
      returns (count: nat)
      requires scores == Rescored(world, reviews, base, done, at)
      modifies this`scores
      ensures count == |drivers|
      ensures scores == Rescored(world, reviews, base, done + KeyedBy(c, drivers), at)
    {
      hide Recalculated, Rescored;
      var todo := drivers;
      count := 0;
      assert done + KeyedBy(c, drivers - todo) == done;
      while todo != {}
        invariant todo <= drivers && count == |drivers - todo|
        invariant scores == Rescored(world, reviews, base, done + KeyedBy(c, drivers - todo), at)
        decreases todo
      {
        var d :| d in todo;
        var score := RecalculateDriverScore(DriverKey(c, d), at);
        RescoredNext(world, reviews, base, done + KeyedBy(c, drivers - todo), DriverKey(c, d), at);
        assert drivers - (todo - {d}) == drivers - todo + {d};
        assert done + KeyedBy(c, drivers - (todo - {d})) == done + KeyedBy(c, drivers - todo) + {DriverKey(c, d)};
        todo := todo - {d};
        count := count + 1;
      }
      assert drivers - todo == drivers;
    }

    method CompleteEvents(ids: seq<EventId>, at: Time)
      requires Distinct(ids) && forall i :: 0 <= i < |ids| ==> ids[i] < |events|
      modifies this`events, this`ledger
      ensures events == Finished(old(events), ids, at)
      ensures ledger == LedgerAfter(old(ledger), ids, at)
    {
      hide Finished, LedgerAfter;
      NothingFinished(events, ledger, ids, at);
      for i := 0 to |ids|
        invariant |events| == |old(events)| && events == Finished(old(events), ids[..i], at)
        invariant ledger == LedgerAfter(old(ledger), ids[..i], at)
      {
        FinishedNext(old(events), old(ledger), ids, i, at);
        var e := ids[i];
        if e !in ledger {
          ledger := ledger[e := at];
        }
        events := events[e := events[e].(status := Completed, processedAt := Some(at), lastError := None)];
      }
      assert ids[..|ids|] == ids;
    }

    /** Rescore and publish city by city. */
    method RefreshCities(order: seq<CityId>, cityDrivers: map<CityId, set<DriverId>>, ghost keys: set<DriverKey>, at: Time)
      returns (recalculated: nat)
      requires Groups(order, cityDrivers, keys)
      modifies this`scores, this`generations
      ensures recalculated == |keys|
      ensures scores == Rescored(world, reviews, old(scores), keys, at)
      ensures generations == PublishAll(world, scores, old(generations), order, |order|, at)
    {
      hide Recalculated, Rescored, Publish, KeyedBy, KeysOfCities, Groups;
      ghost var final := Rescored(world, reviews, old(scores), keys, at);
      recalculated := 0;
      RefreshStarts(world, reviews, scores, keys, order, at);
      for i := 0 to |order|
        invariant recalculated == |KeysOfCities(keys, order[..i])|
        invariant scores == Rescored(world, reviews, old(scores), KeysOfCities(keys, order[..i]), at)
        invariant generations == PublishAll(world, final, old(generations), order, i, at)
      {
        var c := order[i];
        GroupsMember(order, cityDrivers, keys, i);
        var count := RecalculateDrivers(c, cityDrivers[c], at, old(scores), KeysOfCities(keys, order[..i]));
        recalculated := recalculated + count;
        SameCityKeys(keys, order, i);
        PublishLooksAtOneCity(world, reviews, old(scores), KeysOfCities(keys, order[..i + 1]), keys, generations, c, at, at);
        var generation := BuildAndPublishGeneration(c, at);
      }
      AllCitiesDone(order, cityDrivers, keys);
    }

    /**
     One worker transaction: claim what is due and not locked elsewhere, recalculate each
     affected driver once, publish once per affected city, complete the events and write
     the ledger; or undo everything.
     */
    method ProcessBatchOnce(limit: nat, processedAt: Option<Time>, now: Time, locked: set<EventId>, failure: Option<Stage>)
      returns (outcome: BatchOutcome)
      modifies this
      ensures var s := old(Tables());
              var ids := ClaimedBy(s, limit, processedAt, now, locked);
              var at := BatchTime(s, ids, processedAt, now);
              if |ids| == 0 then Tables() == s && outcome == Committed(NO_BATCH)
              else if failure.Some? then Tables() == s && outcome == Aborted(ids)
              else && Tables() == ProcessBatch(world, s, ids, at) == Step(world, s, Work(ids, AvailableAt(processedAt, now), at))
                   && outcome == Committed(ResultOf(s, ids))
    {
      hide Step, Rescored, PublishAll, Affected, AffectedCities, CityOrder, Claim, Groups;
      var ids := Claim(events, AvailableAt(processedAt, now), limit, locked, |events|);
      if |ids| == 0 {
        return Committed(NO_BATCH);
      }
      var saved := Tables();
      var at := BatchTime(saved, ids, processedAt, now);
      WorkIsBatch(world, saved, ids, AvailableAt(processedAt, now), at);
      StartEvents(ids);
      if failure == Some(AfterClaim) {
        Rollback(saved);
        return Aborted(ids);
      }
      var order, cityDrivers := GroupByCity(ids);
      StartedKeepsTargets(saved.events, ledger, ids);
      ghost var keys := Affected(saved.events, ledger, ids);
      var recalculated := RefreshCities(order, cityDrivers, keys, at);
      if failure == Some(AfterRefresh) {
        Rollback(saved);
        return Aborted(ids);
      }
      CompleteEvents(ids, at);
      if failure.Some? {
        Rollback(saved);
        return Aborted(ids);
      }
      StartedThenFinished(saved.events, ids, at);
      return Committed(BatchResult(|ids|, recalculated, |order|, Elements(order)));
    }

    method RecordBatchFailure(ids: set<EventId>, error: string, failedAt: Time)
      modifies this`events
      ensures Tables() == RecordFailure(old(Tables()), ids, error, failedAt)
      ensures Tables() == Step(world, old(Tables()), ReportFailure(ids, error, failedAt))
    {
      hide Step;
      StepIsService(world, Tables(), ReportFailure(ids, error, failedAt));
      for i := 0 to |events|
        invariant |events| == |old(events)|
        invariant forall j :: 0 <= j < i ==> events[j] == if j in ids then FailedOnce(old(events)[j], error, failedAt) else old(events)[j]
        invariant forall j :: i <= j < |events| ==> events[j] == old(events)[j]
      {
        if i in ids {
          var event := events[i];
          event := event.(attempts := event.attempts + 1, lastError := Some(Truncated(error)));
          var (status, delay) := FailureOutcome(event.attempts);
          event := event.(status := status);
          if delay.Some? {
            event := event.(nextAttemptAt := failedAt + delay.value * SECOND);
          }
          events := events[i := event];
        }
      }
    }

    /** Run batches until one finds nothing; nobody else enqueues, claims or fails meanwhile. */
    method DrainOutbox(limit: nat, clock: nat -> Time) returns (total: BatchResult, ghost rounds: nat)
      modifies this
      ensures EndsAfter(world, old(Tables()), limit, clock, rounds)
      ensures Tables() == AfterRounds(world, old(Tables()), limit, clock, rounds)
      ensures total == BatchTotals(world, old(Tables()), limit, clock, rounds)
    {
      hide ProcessBatch, BatchTime, PendingCount, ClaimedBy, ResultOf;
      total := NO_BATCH;
      ghost var start := Tables();
      var n: nat := 0;
      while true
        invariant Tables() == AfterRounds(world, start, limit, clock, n)
        invariant total == BatchTotals(world, start, limit, clock, n)
        invariant forall i: nat :: i < n ==> Claiming(world, start, limit, clock, i)
        decreases PendingCount(events, |events|)
      {
        OneRound(world, Tables(), limit, clock(n));
        var outcome := ProcessBatchOnce(limit, None, clock(n), {}, None);
        if outcome.result.events == 0 {
          return total, n;
        }
        total := Plus(total, outcome.result);
        n := n + 1;
      }
    }

    // ---------- rebuilds ----------

    method StartRebuild(c: CityId, calculatedAt: Option<Time>, now: Time) returns (reply: JobReply)
      modifies this
      ensures JobOutcome(Tables(), reply)
           == Rebuild.StartRebuild(world, old(Tables()), c, StagingTime(old(expirations), c, calculatedAt, now), now)
      ensures Tables() == Step(world, old(Tables()), Action.Stage(c, StagingTime(old(expirations), c, calculatedAt, now), now))
    {
      hide Step;
      StepIsService(world, Tables(), Action.Stage(c, StagingTime(expirations, c, calculatedAt, now), now));
      hide CandidateOf, Compare, CityDrivers, MaxVersion, CandidateRows, Ranked, NotBeforeExpiration, PublishedUpTo, HasActive;
      var at := StagingTime(expirations, c, calculatedAt, now);
      if c !in world.cities {
        return JobRefused(CityNotFound);
      }
      var base := PublishedOf(generations, c);
      if base.None? {
        return JobRefused(RebuildRefused);
      }
      if HasActive(jobs, c) {
        return JobRefused(ConstraintViolation);
      }
      ghost var start := Tables();
      var job := |jobs|;
      jobs := jobs + [Job(c, Running, at, base.value, None, map[], None, None)];
      var candidateScores := StageScores(c, at);
      jobs := jobs[job := jobs[job].(scores := candidateScores)];
      var candidate := |generations|;
      var version := MaxVersion(generations, c, |generations|) + 1;
      generations := generations + [Generation(c, version, Candidate, [], Some(at), None)];
      var entries := EntriesOf(Limited(Ranked(CandidateRows(world, candidateScores, |world.drivers|))));
      generations := generations[candidate := generations[candidate].(entries := entries)];
      var summary := Compare(scores, generations[base.value].entries, entries, candidateScores, c);
      jobs := jobs[job := jobs[job].(candidate := Some(candidate), summary := Some(summary), status := Ready, completedAt := Some(now))];
      assert generations == start.generations + [CandidateGeneration(world, start.generations, c, candidateScores, at)];
      return JobDone(job);
    }

    /** Recompute the score of every driver of the city from the reviews, without touching the live rows. */
    method StageScores(c: CityId, at: Time) returns (staged: map<DriverId, CandidateScore>)
      ensures staged == CandidateScores(world, reviews, c, CityDrivers(world, c), at)
    {
      hide CandidateScores;
      var drivers := CityDrivers(world, c);
      staged := map[];
      if |drivers| > 0 {
        CandidatesNext(world, reviews, c, drivers, 0, at);
      } else {
        assert CandidateScores(world, reviews, c, [], at) == map[] by { NoCandidates(world, reviews, c, at); }
        assert drivers[..0] == [];
      }
      for i := 0 to |drivers|
        invariant staged == CandidateScores(world, reviews, c, drivers[..i], at)
      {
        var totals := Aggregate(world, reviews, DriverKey(c, drivers[i]), at - WINDOW, at);
        CandidatesNext(world, reviews, c, drivers, i, at);
        staged := staged[drivers[i] := CandidateScore(totals.sum, totals.count, totals.count >= ELIGIBILITY_REVIEW_COUNT)];
      }
      assert drivers[..|drivers|] == drivers;
    }

    method PublishRebuild(j: JobId, now: Time) returns (reply: JobReply)
      modifies this
      ensures JobOutcome(Tables(), reply) == Rebuild.PublishRebuild(world, old(Tables()), j, now)
      ensures Tables() == Step(world, old(Tables()), Install(j, now))
    {
      hide Step;
      StepIsService(world, Tables(), Install(j, now));
      hide Rebuild.Installed, PublishedUpTo, InstalledSome, WithoutCity;
      if j >= |jobs| {
        return JobRefused(RebuildNotFound);
      }
      var job := jobs[j];
      if job.status != Ready {
        return JobRefused(RebuildRefused);
      }
      if job.city !in world.cities {
        return JobRefused(CityNotFound);
      }
      var current := PublishedOf(generations, job.city);
      if current.None? {
        return JobRefused(LeaderboardNotFound);
      }
      if current.value != job.base {
        return JobRefused(RebuildRefused);
      }
      if job.candidate.None? || job.candidate.value >= |generations| || generations[job.candidate.value].status != Candidate {
        return JobRefused(RebuildRefused);
      }
      InstallRows(job);
      generations := generations[current.value := generations[current.value].(status := Superseded)];
      generations := generations[job.candidate.value := generations[job.candidate.value].(status := Published, publishedAt := Some(now))];
      jobs := jobs[j := job.(status := JobStatus.Installed, completedAt := Some(now))];
      return JobDone(j);
    }

    /** Replace the city's score rows by the job's. */
    method InstallRows(job: Job)
      modifies this`scores
      ensures scores == Rebuild.Installed(old(scores), job)
    {
      hide Rebuild.Installed, WithoutCity, InstalledSome;
      var todo := job.scores.Keys;
      InstallStarts(scores, job);
      scores := WithoutCity(scores, job.city);
      assert job.scores.Keys - todo == {};
      while todo != {}
        invariant todo <= job.scores.Keys
        invariant scores == InstalledSome(old(scores), job, job.scores.Keys - todo)
        decreases todo
      {
        var d :| d in todo;
        InstallNext(old(scores), job, job.scores.Keys - todo, d);
        assert job.scores.Keys - (todo - {d}) == job.scores.Keys - todo + {d};
        scores := scores[DriverKey(job.city, d) := InstalledScore(job.scores[d], job.calculatedAt)];
        todo := todo - {d};
      }
      assert job.scores.Keys - todo == job.scores.Keys;
    }

    method DiscardRebuild(j: JobId, now: Time) returns (reply: JobReply)
      modifies this`generations, this`jobs
      ensures JobOutcome(Tables(), reply) == Rebuild.DiscardRebuild(old(Tables()), j, now)
      ensures Tables() == Step(world, old(Tables()), Discard(j, now))
    {
      hide Step;
      StepIsService(world, Tables(), Discard(j, now));
      if j >= |jobs| {
        return JobRefused(RebuildNotFound);
      }
      var job := jobs[j];
      if job.status != Ready {
        return JobRefused(RebuildRefused);
      }
      if job.candidate.Some? && job.candidate.value < |generations| {
        generations := generations[job.candidate.value := generations[job.candidate.value].(status := Discarded)];
      }
      jobs := jobs[j := job.(status := Dropped, completedAt := Some(now))];
      return JobDone(j);
    }

    // ---------- whole-city recalculation ----------

    method RebuildCityScores(c: CityId, at: Time) returns (stats: CityStats)
      modifies this`scores
      ensures Tables() == RescoreCity(world, old(Tables()), c, at)
      ensures stats.drivers == |CityDrivers(world, c)| == stats.eligible + stats.ineligible
      ensures stats.eligible == |EligibleAmong(world, reviews, c, CityDrivers(world, c), at)|
      ensures stats.ineligible == |IneligibleAmong(world, reviews, c, CityDrivers(world, c), at)|
      ensures CityOutsideUpTo(world, reviews, c, at - WINDOW, at, |world.trips|) <= stats.outside
      ensures stats.contributing + stats.outside == CityTotalUpTo(world, reviews, c, |world.trips|)
      ensures world.TripsMatchDrivers() ==>
                && stats.contributing == CityCountUpTo(world, reviews, c, at - WINDOW, at, |world.trips|)
                && stats.outside == CityOutsideUpTo(world, reviews, c, at - WINDOW, at, |world.trips|)
      ensures Tables() == Step(world, old(Tables()), Rescore(c, at))
    {
      hide Step;
      StepIsService(world, Tables(), Rescore(c, at));
      hide Recalculated, Rescored, KeysOf, EligibleAmong, IneligibleAmong, DriverCounts, WithoutCity;
      var drivers := CityDrivers(world, c);
      scores := WithoutCity(scores, c);
      var eligible, contributing := 0, 0;
      ghost var kept := scores;
      AllKeysListed(drivers, c);
      NothingRescored(world, reviews, kept, kept, at);
      NothingCounted(world, reviews, c, at);
      for i := 0 to |drivers|
        invariant scores == Rescored(world, reviews, kept, KeysOf(c, drivers[..i]), at)
        invariant eligible == |EligibleAmong(world, reviews, c, drivers[..i], at)|
        invariant contributing == DriverCounts(world, reviews, c, drivers[..i], at - WINDOW, at, |world.trips|)
      {
        var score := RecalculateDriverScore(DriverKey(c, drivers[i]), at);
        if score.eligible {
          eligible := eligible + 1;
        }
        contributing := contributing + score.count;
        KeysOfNext(c, drivers, i);
        RescoredNext(world, reviews, kept, KeysOf(c, drivers[..i]), DriverKey(c, drivers[i]), at);
        CountersNext(world, reviews, c, drivers, i, at);
      }
      var total := CityTotalUpTo(world, reviews, c, |world.trips|);
      OutsideIsExactIff(world, reviews, c, at - WINDOW, at);
      EligibleOrNot(world, reviews, c, drivers, |drivers|, at);
      stats := CityStats(|drivers|, eligible, |drivers| - eligible, contributing, total - contributing);
    }

    // ---------- reading ----------

    method GetPublishedLeaderboard(c: CityId) returns (payload: Option<Payload>)
      ensures payload == AuthoritativeBoard(world, Tables(), c)
    {
      hide Shown, PublishedUpTo;
      var generation := PublishedOf(generations, c);
      if generation.None? {
        return None;
      }
      var g := generations[generation.value];
      var entries := [];
      for i := 0 to |g.entries|
        invariant entries == ShownEntries(world, g.entries)[..i]
      {
        entries := entries + [Shown(world, g.entries[i])];
      }
      assert entries == ShownEntries(world, g.entries);
      return Some(Payload(g.city, generation.value, g.version, g.publishedAt, g.sourceAt, entries));
    }
  }
}
