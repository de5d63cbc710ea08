/**
 The central promise: a stored score is exact for its own window, or some event of that
 driver still has to be processed; and a staged snapshot is as good, as long as it can
 still be installed.
 */
module Consistency {
  import opened Tables
  import opened Scoring
  import opened Writes
  import opened Histories
  import opened Leaderboard
  import opened Outbox
  import opened Rebuild
  import opened Expiration
  import opened System

  ghost predicate Unprocessed(s: Store, e: EventId, k: DriverKey) {
    e < |s.events| && e !in s.ledger && s.events[e].target == k
  }

  /** Some event of the driver has no ledger row. */
  ghost predicate Awaiting(s: Store, k: DriverKey) {
    exists e: EventId :: Unprocessed(s, e, k)
  }

  ghost predicate ExactOrAwaiting(w: World, s: Store, k: DriverKey) {
    k in s.scores ==> Exact(w, s.reviews, k, s.scores[k]) || Awaiting(s, k)
  }

  /** Rows of the distrusted cities `x`, whose live scores may be corrupted, are not spoken about. */
  ghost predicate DirtyOrExact(w: World, s: Store, x: set<CityId>) {
    forall k :: k in s.scores && k.city !in x ==> ExactOrAwaiting(w, s, k)
  }

  /** A candidate equals the aggregate at the job's time. */
  ghost predicate CandidateExact(w: World, rt: Reviews, k: DriverKey, c: CandidateScore, at: Time) {
    Totals(c.sum, c.count) == Aggregate(w, rt, k, at - WINDOW, at)
  }

  ghost predicate CandidateOrAwaiting(w: World, s: Store, job: Job, d: DriverId) {
    d in job.scores ==>
      CandidateExact(w, s.reviews, DriverKey(job.city, d), job.scores[d], job.calculatedAt) || Awaiting(s, DriverKey(job.city, d))
  }

  /** The job passes the checks of publication: it is ready and its base is still published. */
  predicate Installable(s: Store, job: Job) {
    job.status == Ready && job.base < |s.generations| && s.generations[job.base].status == Published
  }

  /** In a sound store, publication of a job succeeds exactly when it is ready and its base is still published. */
  lemma PublishesExactlyWhenInstallable(w: World, s: Store, j: JobId, now: Time)
    requires ValidGenerations(s.generations) && ValidJobs(w, s.generations, s.jobs)
    ensures PublishRebuild(w, s, j, now).reply.JobDone? <==> j < |s.jobs| && Installable(s, s.jobs[j])
    ensures !PublishRebuild(w, s, j, now).reply.JobDone? ==> PublishRebuild(w, s, j, now).store == s
  {
    hide VersionsCount, CandidateBoard, Promote, Rebuild.Installed;
    if j < |s.jobs| {
      var job := s.jobs[j];
      assert ValidJob(w, s.generations, job);
      if Installable(s, job) {
        PublishedIsUnique(s.generations, job.city, job.base);
      }
    }
  }

  ghost predicate SnapshotUsable(w: World, s: Store, job: Job) {
    Installable(s, job) ==> forall d :: d in job.scores ==> CandidateOrAwaiting(w, s, job, d)
  }

  ghost predicate SnapshotsUsable(w: World, s: Store) {
    forall j :: 0 <= j < |s.jobs| ==> SnapshotUsable(w, s, s.jobs[j])
  }

  // ---------- what a step does to one driver ----------

  /** Reviews as seen by one driver: the aggregate of every window is as before. */
  ghost predicate SameReviewsOf(w: World, rt: Reviews, rt': Reviews, k: DriverKey) {
    forall lo, hi :: Aggregate(w, rt', k, lo, hi) == Aggregate(w, rt, k, lo, hi)
  }

  /** No driver's reviews change, and no event disappears, without an event to process. */
  ghost predicate Announced(w: World, s: Store, s': Store, k: DriverKey) {
    && (SameReviewsOf(w, s.reviews, s'.reviews, k) || Awaiting(s', k))
    && (Awaiting(s, k) ==> Awaiting(s', k))
  }

  /** An accepted write leaves the driver's reviews alone or enqueues an event for the driver. */
  lemma WriteAnnounces(w: World, s: Store, request: Request, s': Store, now: Time, k: DriverKey)
    requires WriteIsSound(w, s, request, s', now)
    requires ValidOutbox(w, s.events, s.ledger)
    ensures Announced(w, s, s', k)
  {
    hide Aggregate;
    var t := Subject(s, request);
    WriteKeepsOutbox(w, s, request, s', now);
    MoreEventsAwaitMore(s, s', k);
    if Contribution(s'.reviews, t) != Contribution(s.reviews, t) && k == DriverKey(w.trips[t].city, w.trips[t].driver) {
      assert Unprocessed(s', |s.events|, k);
    } else {
      forall lo, hi ensures Aggregate(w, s'.reviews, k, lo, hi) == Aggregate(w, s.reviews, k, lo, hi) {
        SameContributions(w, s.reviews, s'.reviews, k, lo, hi);
      }
    }
  }

  lemma MoreEventsAwaitMore(s: Store, s': Store, k: DriverKey)
    requires s.events <= s'.events && s'.ledger == s.ledger
    ensures Awaiting(s, k) ==> Awaiting(s', k)
  {
    if Awaiting(s, k) {
      var e: EventId :| Unprocessed(s, e, k);
      assert Unprocessed(s', e, k);
    }
  }

  lemma SameContributions(w: World, rt: Reviews, rt': Reviews, k: DriverKey, lo: Time, hi: Time)
    requires forall t :: 0 <= t < |w.trips| && w.trips[t].city == k.city && w.trips[t].driver == k.driver
                         ==> Contribution(rt, t) == Contribution(rt', t)
    ensures Aggregate(w, rt, k, lo, hi) == Aggregate(w, rt', k, lo, hi)
  {
    AggregateFrame(w, rt, rt', k, lo, hi, |w.trips|);
  }

  /** Events keep their target and the ledger is unchanged. */
  lemma SameOutboxAwaits(s: Store, s': Store, k: DriverKey)
    requires |s'.events| == |s.events| && s'.ledger == s.ledger
    requires forall e :: 0 <= e < |s.events| ==> s'.events[e].target == s.events[e].target
    ensures Awaiting(s, k) <==> Awaiting(s', k)
  {
    if Awaiting(s, k) {
      var e: EventId :| Unprocessed(s, e, k);
      assert Unprocessed(s', e, k);
    }
    if Awaiting(s', k) {
      var e: EventId :| Unprocessed(s', e, k);
      assert Unprocessed(s, e, k);
    }
  }

  /** A batch takes the waiting event of a driver only together with recalculating that driver. */
  lemma BatchAwaits(w: World, s: Store, ids: seq<EventId>, at: Time, k: DriverKey)
    requires Awaiting(s, k) && k !in Affected(s.events, s.ledger, ids)
    ensures Awaiting(ProcessBatch(w, s, ids, at), k)
  {
    hide ScoresAfter, PublishAll, CityOrder;
    var e: EventId :| Unprocessed(s, e, k);
    assert forall i :: i in ids && i !in s.ledger && i < |s.events| ==> s.events[i].target in Affected(s.events, s.ledger, ids);
    assert Unprocessed(ProcessBatch(w, s, ids, at), e, k);
  }

  // ---------- the two invariants under each transaction ----------

  ghost predicate Consistent(w: World, s: Store, x: set<CityId>) {
    DirtyOrExact(w, s, x) && SnapshotsUsable(w, s)
  }

  lemma AnnouncedRow(w: World, s: Store, s': Store, k: DriverKey)
    requires Announced(w, s, s', k) && ExactOrAwaiting(w, s, k)
    requires s'.scores == s.scores
    ensures ExactOrAwaiting(w, s', k)
  {
    hide Aggregate;
  }

  lemma AnnouncedSnapshot(w: World, s: Store, s': Store, job: Job)
    requires forall d :: d in job.scores ==> Announced(w, s, s', DriverKey(job.city, d))
    requires Installable(s', job) ==> Installable(s, job)
    requires SnapshotUsable(w, s, job)
    ensures SnapshotUsable(w, s', job)
  {
    hide Aggregate;
    if Installable(s', job) {
      forall d | d in job.scores ensures CandidateOrAwaiting(w, s', job, d) {
        assert CandidateOrAwaiting(w, s, job, d);
        assert Announced(w, s, s', DriverKey(job.city, d));
      }
    }
  }

  /** Whatever announces itself and leaves scores, jobs and generations alone keeps both invariants. */
  lemma AnnouncedKeepsConsistency(w: World, s: Store, s': Store, x: set<CityId>)
    requires Consistent(w, s, x)
    requires s'.scores == s.scores && s'.jobs == s.jobs && s'.generations == s.generations
    requires forall k :: Announced(w, s, s', k)
    ensures Consistent(w, s', x)
  {
    hide ExactOrAwaiting, SnapshotUsable, Announced, Installable;
    forall k | k in s'.scores && k.city !in x ensures ExactOrAwaiting(w, s', k) {
      AnnouncedRow(w, s, s', k);
    }
    forall j | 0 <= j < |s'.jobs| ensures SnapshotUsable(w, s', s'.jobs[j]) {
      InstallableFrame(s, s', s.jobs[j]);
      AnnouncedSnapshot(w, s, s', s.jobs[j]);
    }
  }

  lemma InstallableFrame(s: Store, s': Store, job: Job)
    requires s'.generations == s.generations
    ensures Installable(s', job) <==> Installable(s, job)
  {}

  lemma WriteKeepsConsistency(w: World, s: Store, request: Request, key: Key, now: Time, x: set<CityId>)
    requires Structured(w, s) && Consistent(w, s, x)
    ensures Consistent(w, Submit(w, s, request, key, now).store, x)
  {
    hide Submit, Consistent, Announced, WriteIsSound;
    var s' := Submit(w, s, request, key, now).store;
    WriteKeepsStructure(w, s, request, key, now);
    if s' != s {
      forall k ensures Announced(w, s, s', k) {
        WriteAnnounces(w, s, request, s', now, k);
      }
      OnlyWritesOf(w, s, request, s', now);
      AnnouncedKeepsConsistency(w, s, s', x);
    }
  }

  lemma OnlyWritesOf(w: World, s: Store, request: Request, s': Store, now: Time)
    requires WriteIsSound(w, s, request, s', now)
    ensures s'.scores == s.scores && s'.jobs == s.jobs && s'.generations == s.generations
  {}

  lemma ReportKeepsConsistency(w: World, s: Store, failed: set<EventId>, error: string, at: Time, x: set<CityId>)
    requires Consistent(w, s, x)
    ensures Consistent(w, RecordFailure(s, failed, error, at), x)
  {
    hide Consistent;
    var s' := RecordFailure(s, failed, error, at);
    forall k ensures Announced(w, s, s', k) {
      SameOutboxAwaits(s, s', k);
    }
    AnnouncedKeepsConsistency(w, s, s', x);
  }

  /** A recalculated row is exact. */
  lemma RecalculatedIsExact(w: World, rt: Reviews, k: DriverKey, at: Time)
    ensures Exact(w, rt, k, Recalculated(w, rt, k, at))
  {}

  lemma RescoredRows(w: World, s: Store, s': Store, keys: set<DriverKey>, kept: map<DriverKey, Score>, at: Time, x: set<CityId>)
    requires DirtyOrExact(w, s, x)
    requires s'.reviews == s.reviews && s'.scores == Rescored(w, s.reviews, kept, keys, at)
    requires forall k :: k in kept ==> k in s.scores && kept[k] == s.scores[k]
    requires forall k :: k !in keys && Awaiting(s, k) ==> Awaiting(s', k)
    ensures DirtyOrExact(w, s', x)
  {
    hide Aggregate, Exact, Recalculated, Awaiting;
    forall k | k in s'.scores && k.city !in x ensures ExactOrAwaiting(w, s', k) {
      if k in keys {
        RecalculatedIsExact(w, s.reviews, k, at);
      } else {
        assert ExactOrAwaiting(w, s, k);
      }
    }
  }

  /** Retiring publications can only make fewer snapshots installable. */
  lemma RetiringKeepsSnapshots(w: World, s: Store, s': Store)
    requires SnapshotsUsable(w, s) && s'.jobs == s.jobs && s'.reviews == s.reviews
    requires OnlyRetires(s.generations, s'.generations)
    requires ValidJobs(w, s.generations, s.jobs)
    requires forall k: DriverKey, j :: 0 <= j < |s.jobs| && k.city == s.jobs[j].city && Installable(s', s.jobs[j]) && Awaiting(s, k) ==> Awaiting(s', k)
    ensures SnapshotsUsable(w, s')
  {
    hide Awaiting, CandidateExact, ValidJobs;
    forall j | 0 <= j < |s'.jobs| ensures SnapshotUsable(w, s', s'.jobs[j]) {
      var job := s.jobs[j];
      assert SnapshotUsable(w, s, job);
      JobsAreValid(w, s.generations, s.jobs, j);
      if Installable(s', job) {
        forall d | d in job.scores ensures CandidateOrAwaiting(w, s', job, d) {
          assert CandidateOrAwaiting(w, s, job, d);
          assert DriverKey(job.city, d).city == s.jobs[j].city;
        }
      }
    }
  }

  /**
   A batch recalculates every driver whose event it takes. It adds ledger rows only in
   cities whose publication it replaces, so no installable snapshot loses its excuse.
   */
  lemma WorkKeepsConsistency(w: World, s: Store, ids: seq<EventId>, availableAt: Time, at: Time, x: set<CityId>)
    requires Structured(w, s) && Consistent(w, s, x) && Claimable(s.events, ids, availableAt)
    ensures Consistent(w, ProcessBatch(w, s, ids, at), x)
  {
    var s' := ProcessBatch(w, s, ids, at);
    var cs := AffectedCities(s.events, s.ledger, ids);
    WorkKeepsStructure(w, s, ids, availableAt, at);
    PublishedAnewOnlyRetires(w, s'.scores, s.generations, s'.generations, cs);
    hide Aggregate, Awaiting, PublishAll, CityOrder, EventsAfter, LedgerAfter, Exact, Claimable, Structured, ValidJobs, SnapshotsUsable, DirtyOrExact, Rescored;
    forall k | k !in Affected(s.events, s.ledger, ids) && Awaiting(s, k) ensures Awaiting(s', k) {
      BatchAwaits(w, s, ids, at, k);
    }
    RescoredRows(w, s, s', Affected(s.events, s.ledger, ids), s.scores, at, x);
    BatchKeepsSnapshots(w, s, ids, availableAt, at);
  }

  lemma RepublishedBaseIsRetired(w: World, scores: map<DriverKey, Score>, gens: seq<Generation>, gens': seq<Generation>, cs: set<CityId>, b: GenerationId)
    requires PublishedAnew(w, scores, gens, gens', cs) && b < |gens|
    ensures gens[b].city in cs ==> gens'[b].status != Published
  {}

  lemma AffectedCity(s: Store, ids: seq<EventId>, k: DriverKey)
    ensures k in Affected(s.events, s.ledger, ids) ==> k.city in AffectedCities(s.events, s.ledger, ids)
  {}

  lemma BatchKeepsSnapshots(w: World, s: Store, ids: seq<EventId>, availableAt: Time, at: Time)
    requires Structured(w, s) && SnapshotsUsable(w, s) && Claimable(s.events, ids, availableAt)
    ensures SnapshotsUsable(w, ProcessBatch(w, s, ids, at))
  {
    var s' := ProcessBatch(w, s, ids, at);
    var cs := AffectedCities(s.events, s.ledger, ids);
    WorkKeepsStructure(w, s, ids, availableAt, at);
    PublishedAnewOnlyRetires(w, s'.scores, s.generations, s'.generations, cs);
    assert ValidJobs(w, s.generations, s.jobs);
    hide Aggregate, Awaiting, PublishAll, CityOrder, EventsAfter, LedgerAfter, Claimable, Structured, ValidJobs, SnapshotsUsable, ScoresAfter, FreshBoard, OnlyRetires;
    forall k: DriverKey, j | 0 <= j < |s.jobs| && k.city == s.jobs[j].city && Installable(s', s.jobs[j]) && Awaiting(s, k)
      ensures Awaiting(s', k)
    {
      JobsAreValid(w, s.generations, s.jobs, j);
      RepublishedBaseIsRetired(w, s'.scores, s.generations, s'.generations, cs, s.jobs[j].base);
      AffectedCity(s, ids, k);
      BatchAwaits(w, s, ids, at, k);
    }
    RetiringKeepsSnapshots(w, s, s');
  }

  lemma ExpireKeepsConsistency(w: World, s: Store, c: CityId, at: Time, x: set<CityId>)
    requires Structured(w, s) && Consistent(w, s, x)
    ensures Consistent(w, RunExpiration(w, s, c, at).store, x)
  {
    var o := RunExpiration(w, s, c, at);
    if o.reply.Ran? {
      PublishKeepsStructure(w, o.store.scores, s.generations, c, at, s.jobs, s.expirations);
      assert OnlyRetires(s.generations, o.store.generations);
      assert ValidJobs(w, s.generations, s.jobs);
      hide Aggregate, Publish, Structured, ValidJobs, ValidGenerations, SnapshotsUsable, DirtyOrExact, Rescored, CityKeys, ChangedKeys, OnlyRetires, AllEvolve;
      forall k ensures Awaiting(s, k) <==> Awaiting(o.store, k) {
        SameOutboxAwaits(s, o.store, k);
      }
      RescoredRows(w, s, o.store, CityKeys(w, c), s.scores, at, x);
      RetiringKeepsSnapshots(w, s, o.store);
    }
  }

  lemma RescoreKeepsConsistency(w: World, s: Store, c: CityId, at: Time, x: set<CityId>)
    requires Structured(w, s) && Consistent(w, s, x)
    ensures Consistent(w, RescoreCity(w, s, c, at), x)
  {
    var s' := RescoreCity(w, s, c, at);
    assert ValidJobs(w, s.generations, s.jobs);
    hide Aggregate, Structured, ValidJobs, SnapshotsUsable, DirtyOrExact, Rescored, CityKeys;
    forall k ensures Awaiting(s, k) <==> Awaiting(s', k) {
      SameOutboxAwaits(s, s', k);
    }
    RescoredRows(w, s, s', CityKeys(w, c), WithoutCity(s.scores, c), at, x);
    RetiringKeepsSnapshots(w, s, s');
  }

  lemma RepublishKeepsConsistency(w: World, s: Store, c: CityId, at: Time, x: set<CityId>)
    requires Structured(w, s) && Consistent(w, s, x)
    ensures Consistent(w, PublishCity(w, s, c, at), x)
  {
    var s' := PublishCity(w, s, c, at);
    if c in w.cities {
      PublishKeepsStructure(w, s.scores, s.generations, c, at, s.jobs, s.expirations);
      assert ValidJobs(w, s.generations, s.jobs);
      hide Aggregate, Publish, Structured, ValidJobs, ValidGenerations, SnapshotsUsable, OnlyRetires, AllEvolve;
      forall k ensures Awaiting(s, k) <==> Awaiting(s', k) {
        SameOutboxAwaits(s, s', k);
      }
      forall k | k in s'.scores && k.city !in x ensures ExactOrAwaiting(w, s', k) {
        assert ExactOrAwaiting(w, s, k);
      }
      RetiringKeepsSnapshots(w, s, s');
    }
  }

  lemma StageKeepsConsistency(w: World, s: Store, c: CityId, at: Time, now: Time, x: set<CityId>)
    requires Structured(w, s) && Consistent(w, s, x)
    ensures Consistent(w, StartRebuild(w, s, c, at, now).store, x)
  {
    hide Aggregate, Structured, ValidJobs, NewJob, CandidateGeneration, SnapshotUsable, HasActive, DirtyOrExact;
    var o := StartRebuild(w, s, c, at, now);
    var s' := o.store;
    if o.reply.JobDone? {
      var job := s'.jobs[|s.jobs|];
      var g := s'.generations[|s.generations|];
      NewSnapshotIsExact(w, s, s', c, PublishedOf(s.generations, c).value, at, now);
      var before := s.(generations := s.generations + [g]);
      StagedGenerationKeepsConsistency(w, s, g, x);
      forall j | 0 <= j < |s'.jobs| ensures SnapshotUsable(w, s', s'.jobs[j]) {
        if j < |s.jobs| {
          SnapshotFrame(w, before, s', s.jobs[j]);
        }
      }
      SameRowsFrame(w, before, s', x);
    }
  }

  lemma NewSnapshotIsExact(w: World, s: Store, s': Store, c: CityId, base: GenerationId, at: Time, now: Time)
    requires base < |s.generations| && s'.reviews == s.reviews
    ensures SnapshotUsable(w, s', NewJob(w, s, c, base, at, now))
  {
    hide Aggregate, Compare, CandidateGeneration;
    var job := NewJob(w, s, c, base, at, now);
    forall d | d in job.scores ensures CandidateOrAwaiting(w, s', job, d) {}
  }

  lemma StagedGenerationKeepsConsistency(w: World, s: Store, g: Generation, x: set<CityId>)
    requires Structured(w, s) && Consistent(w, s, x)
    ensures Consistent(w, s.(generations := s.generations + [g]), x)
  {
    assert ValidJobs(w, s.generations, s.jobs);
    hide Aggregate, Structured, ValidJobs, SnapshotsUsable, DirtyOrExact;
    var s' := s.(generations := s.generations + [g]);
    forall k ensures Awaiting(s, k) <==> Awaiting(s', k) {
      SameOutboxAwaits(s, s', k);
    }
    RetiringKeepsSnapshots(w, s, s');
    SameRowsFrame(w, s, s', x);
  }

  lemma SameRowsFrame(w: World, s: Store, s': Store, x: set<CityId>)
    requires DirtyOrExact(w, s, x)
    requires s'.scores == s.scores && s'.reviews == s.reviews && s'.events == s.events && s'.ledger == s.ledger
    ensures DirtyOrExact(w, s', x)
  {
    hide Aggregate, Exact;
    forall k | k in s'.scores && k.city !in x ensures ExactOrAwaiting(w, s', k) {
      assert ExactOrAwaiting(w, s, k);
      SameOutboxAwaits(s, s', k);
    }
  }

  /**
   The staged snapshot replaces the city's rows, and by then each candidate is exact or its
   driver awaits an event: afterwards the city can be trusted whatever its rows were before.
   */
  lemma InstallHealsCity(w: World, s: Store, j: JobId, now: Time, x: set<CityId>)
    requires Structured(w, s) && Consistent(w, s, x)
    requires PublishRebuild(w, s, j, now).reply.JobDone?
    ensures j < |s.jobs|
    ensures Consistent(w, PublishRebuild(w, s, j, now).store, x - {s.jobs[j].city})
  {
    hide Aggregate, Structured, Promote, DirtyOrExact, SnapshotsUsable;
    InstalledRowsAreUsable(w, s, j, now, x);
    InstallKeepsSnapshots(w, s, j, now);
  }

  lemma InstallKeepsConsistency(w: World, s: Store, j: JobId, now: Time, x: set<CityId>)
    requires Structured(w, s) && Consistent(w, s, x)
    ensures Consistent(w, PublishRebuild(w, s, j, now).store, x)
  {
    hide ExactOrAwaiting, Structured, SnapshotsUsable;
    if PublishRebuild(w, s, j, now).reply.JobDone? {
      InstallHealsCity(w, s, j, now, x);
    }
  }

  lemma InstalledRowsAreUsable(w: World, s: Store, j: JobId, now: Time, x: set<CityId>)
    requires Structured(w, s) && SnapshotsUsable(w, s)
    requires PublishRebuild(w, s, j, now).reply.JobDone?
    ensures var s' := PublishRebuild(w, s, j, now).store;
            && (forall k :: k in s'.scores && k.city == s.jobs[j].city ==> ExactOrAwaiting(w, s', k))
            && (DirtyOrExact(w, s, x) ==> DirtyOrExact(w, s', x - {s.jobs[j].city}))
  {
    hide Aggregate, Structured, Promote;
    var s' := PublishRebuild(w, s, j, now).store;
    var job := s.jobs[j];
    assert SnapshotUsable(w, s, job);
    forall k: DriverKey | k in s'.scores && k.city == job.city ensures ExactOrAwaiting(w, s', k) {
      assert CandidateOrAwaiting(w, s, job, k.driver);
      assert DriverKey(job.city, k.driver) == k;
      SameOutboxAwaits(s, s', k);
    }
    if DirtyOrExact(w, s, x) {
      forall k: DriverKey | k in s'.scores && k.city != job.city && k.city !in x ensures ExactOrAwaiting(w, s', k) {
        assert ExactOrAwaiting(w, s, k);
        SameOutboxAwaits(s, s', k);
      }
    }
  }

  lemma InstallKeepsSnapshots(w: World, s: Store, j: JobId, now: Time)
    requires Structured(w, s) && SnapshotsUsable(w, s)
    requires PublishRebuild(w, s, j, now).reply.JobDone?
    ensures SnapshotsUsable(w, PublishRebuild(w, s, j, now).store)
  {
    var s' := PublishRebuild(w, s, j, now).store;
    assert ValidJobs(w, s.generations, s.jobs);
    PublicationShape(w, s, j, now);
    hide PublishRebuild, Structured, ValidJobs, Rebuild.Installed, Promote, Installable, CandidateOrAwaiting;
    forall i | 0 <= i < |s'.jobs| ensures SnapshotUsable(w, s', s'.jobs[i]) {
      assert SnapshotUsable(w, s, s.jobs[i]);
      InstallMakesNothingInstallable(w, s, s', j, now, i);
      KeepsSnapshot(w, s, s', s.jobs[i]);
    }
  }

  lemma InstallMakesNothingInstallable(w: World, s: Store, s': Store, j: JobId, now: Time, i: JobId)
    requires ValidJobs(w, s.generations, s.jobs) && j < |s.jobs| && i < |s.jobs| && s.jobs[j].status == Ready
    requires s'.generations == Promote(s.generations, s.jobs[j].base, s.jobs[j].candidate.value, now)
    requires s'.jobs == s.jobs[j := s.jobs[j].(status := JobStatus.Installed, completedAt := Some(now))]
    ensures Installable(s', s'.jobs[i]) ==> s'.jobs[i] == s.jobs[i] && Installable(s, s.jobs[i])
  {
    hide CandidateBoard;
    assert ValidJob(w, s.generations, s.jobs[j]) && ValidJob(w, s.generations, s.jobs[i]);
  }

  /** Same reviews and outbox, and no newly installable job. */
  lemma KeepsSnapshot(w: World, s: Store, s': Store, job: Job)
    requires SnapshotUsable(w, s, job)
    requires s'.reviews == s.reviews && s'.events == s.events && s'.ledger == s.ledger
    ensures (Installable(s', job) ==> Installable(s, job)) ==> SnapshotUsable(w, s', job)
  {
    hide Aggregate, CandidateExact;
    if Installable(s', job) && Installable(s, job) {
      forall d | d in job.scores ensures CandidateOrAwaiting(w, s', job, d) {
        assert CandidateOrAwaiting(w, s, job, d);
        SameOutboxAwaits(s, s', DriverKey(job.city, d));
      }
    }
  }

  lemma DiscardKeepsConsistency(w: World, s: Store, j: JobId, now: Time, x: set<CityId>)
    requires Structured(w, s) && Consistent(w, s, x)
    ensures Consistent(w, DiscardRebuild(s, j, now).store, x)
  {
    var o := DiscardRebuild(s, j, now);
    var s' := o.store;
    if o.reply.JobDone? {
      assert ValidJobs(w, s.generations, s.jobs);
      hide Aggregate, Structured, ValidJobs, DirtyOrExact;
      SameRowsFrame(w, s, s', x);
      forall i | 0 <= i < |s'.jobs| ensures SnapshotUsable(w, s', s'.jobs[i]) {
        JobsAreValid(w, s.generations, s.jobs, i);
        assert SnapshotUsable(w, s, s.jobs[i]);
        KeepsSnapshot(w, s, s', s.jobs[i]);
      }
    }
  }

  /** Every transaction keeps "exact or awaiting an event", for live rows and for installable snapshots. */
  lemma StepKeepsConsistency(w: World, s: Store, a: Action, x: set<CityId>)
    requires Structured(w, s) && Consistent(w, s, x)
    ensures Consistent(w, Step(w, s, a), x)
  {
    hide Structured, Consistent, Submit, ProcessBatch, RecordFailure, RunExpiration, StartRebuild, PublishRebuild, DiscardRebuild;
    match a
    case Write(request, key, now) => WriteKeepsConsistency(w, s, request, key, now, x);
    case Work(claimed, availableAt, at) =>
      if Claimable(s.events, claimed, availableAt) {
        WorkKeepsConsistency(w, s, claimed, availableAt, at, x);
      }
    case ReportFailure(failed, error, failedAt) => ReportKeepsConsistency(w, s, failed, error, failedAt, x);
    case Expire(city, effectiveAt) => ExpireKeepsConsistency(w, s, city, effectiveAt, x);
    case Stage(city, calculatedAt, now) => StageKeepsConsistency(w, s, city, calculatedAt, now, x);
    case Install(job, now) => InstallKeepsConsistency(w, s, job, now, x);
    case Discard(job, now) => DiscardKeepsConsistency(w, s, job, now, x);
    case Rescore(city, at) => RescoreKeepsConsistency(w, s, city, at, x);
    case Republish(city, at) => RepublishKeepsConsistency(w, s, city, at, x);
  }

  /**
   In every state of every run, each score row equals a fresh aggregation over its own
   window unless an event of that driver is still unprocessed; and so does each candidate
   of a rebuild that could still be published.
   */
  lemma {:induction false} RunIsConsistent(w: World, s: Store, actions: seq<Action>, n: nat, x: set<CityId>)
    requires n <= |actions|
    requires Structured(w, s) && Consistent(w, s, x)
    ensures Consistent(w, Run(w, s, actions, n), x)
  {
    hide Structured, Consistent, Step;
    if n > 0 {
      RunIsConsistent(w, s, actions, n - 1, x);
      RunKeepsStructure(w, s, actions, n - 1, n - 1);
      StepKeepsConsistency(w, Run(w, s, actions, n - 1), actions[n - 1], x);
    }
  }

  lemma EveryReachableStateIsConsistent(w: World, actions: seq<Action>, n: nat)
    requires n <= |actions|
    ensures var s := Run(w, EMPTY, actions, n);
            && (forall k :: k in s.scores ==> Exact(w, s.reviews, k, s.scores[k]) || Awaiting(s, k))
            && (forall j, d :: 0 <= j < |s.jobs| && Installable(s, s.jobs[j]) && d in s.jobs[j].scores ==>
                  CandidateOrAwaiting(w, s, s.jobs[j], d))
  {
    hide Aggregate, Step;
    EmptyIsStructured(w);
    RunIsConsistent(w, EMPTY, actions, n, {});
    var s := Run(w, EMPTY, actions, n);
    forall k | k in s.scores ensures Exact(w, s.reviews, k, s.scores[k]) || Awaiting(s, k) {
      assert ExactOrAwaiting(w, s, k);
    }
    forall j | 0 <= j < |s.jobs| ensures SnapshotUsable(w, s, s.jobs[j]) {}
  }

  lemma SnapshotFrame(w: World, s: Store, s': Store, job: Job)
    requires SnapshotUsable(w, s, job)
    requires s'.reviews == s.reviews && s'.events == s.events && s'.ledger == s.ledger && s'.generations == s.generations
    ensures SnapshotUsable(w, s', job)
  {
    hide Aggregate;
    forall k {
      SameOutboxAwaits(s, s', k);
    }
    if Installable(s', job) {
      forall d | d in job.scores ensures CandidateOrAwaiting(w, s', job, d) {
        assert CandidateOrAwaiting(w, s, job, d);
      }
    }
  }
}
