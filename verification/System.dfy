/** The committed transactions of all services as one state machine, and its structural invariants. */
module System {
  import opened Tables
  import opened Scoring
  import opened Writes
  import opened Histories
  import opened Leaderboard
  import opened Outbox
  import opened Rebuild
  import opened Expiration

  /**
   One committed transaction with all its inputs. A worker's claim may be any list of
   distinct due events, and a failure report may name any events, so every interleaving of
   any number of workers is a sequence of these. A rolled-back batch commits nothing.
   */
  datatype Action =
    | Write(request: Request, key: Key, now: Time)
    | Work(claimed: seq<EventId>, availableAt: Time, at: Time)
    | ReportFailure(failed: set<EventId>, error: string, failedAt: Time)
    | Expire(city: CityId, effectiveAt: Time)
    | Stage(city: CityId, calculatedAt: Time, now: Time)
    | Install(job: JobId, now: Time)
    | Discard(job: JobId, now: Time)
    | Rescore(city: CityId, at: Time)
    | Republish(city: CityId, at: Time)

  /** The city score rebuild, which commits without publishing. */
  function RescoreCity(w: World, s: Store, c: CityId, at: Time): Store {
    s.(scores := Rescored(w, s.reviews, WithoutCity(s.scores, c), CityKeys(w, c), at))
  }

  function PublishCity(w: World, s: Store, c: CityId, at: Time): Store {
    if c in w.cities then s.(generations := Publish(w, s.scores, s.generations, c, at)) else s
  }

  function Step(w: World, s: Store, a: Action): Store {
    match a
    case Write(request, key, now) => Submit(w, s, request, key, now).store
    case Work(claimed, availableAt, at) =>
      if Claimable(s.events, claimed, availableAt) then ProcessBatch(w, s, claimed, at) else s
    case ReportFailure(failed, error, failedAt) => RecordFailure(s, failed, error, failedAt)
    case Expire(city, effectiveAt) => RunExpiration(w, s, city, effectiveAt).store
    case Stage(city, calculatedAt, now) => StartRebuild(w, s, city, calculatedAt, now).store
    case Install(job, now) => PublishRebuild(w, s, job, now).store
    case Discard(job, now) => DiscardRebuild(s, job, now).store
    case Rescore(city, at) => RescoreCity(w, s, city, at)
    case Republish(city, at) => PublishCity(w, s, city, at)
  }

  /** Each transaction of the machine is what one service commits, whatever it answers. */
  lemma StepIsService(w: World, s: Store, a: Action)
    ensures a.Write? ==> Step(w, s, a) == Submit(w, s, a.request, a.key, a.now).store
    ensures a.Work? && Claimable(s.events, a.claimed, a.availableAt) ==> Step(w, s, a) == ProcessBatch(w, s, a.claimed, a.at)
    ensures a.ReportFailure? ==> Step(w, s, a) == RecordFailure(s, a.failed, a.error, a.failedAt)
    ensures a.Expire? ==> Step(w, s, a) == RunExpiration(w, s, a.city, a.effectiveAt).store
    ensures a.Stage? ==> Step(w, s, a) == StartRebuild(w, s, a.city, a.calculatedAt, a.now).store
    ensures a.Install? ==> Step(w, s, a) == PublishRebuild(w, s, a.job, a.now).store
    ensures a.Discard? ==> Step(w, s, a) == DiscardRebuild(s, a.job, a.now).store
    ensures a.Rescore? ==> Step(w, s, a) == RescoreCity(w, s, a.city, a.at)
    ensures a.Republish? && a.city in w.cities ==> Step(w, s, a) == s.(generations := Publish(w, s.scores, s.generations, a.city, a.at))
  {
    hide Submit, ProcessBatch, RecordFailure, RunExpiration, StartRebuild, PublishRebuild, DiscardRebuild, RescoreCity, Publish, Claimable;
  }

  /** The state after the first `n` transactions of a run. */
  function Run(w: World, s: Store, actions: seq<Action>, n: nat): Store
    requires n <= |actions|
  {
    if n == 0 then s else Step(w, Run(w, s, actions, n - 1), actions[n - 1])
  }

  // ---------- structural invariants ----------

  ghost predicate InRange(sum: int, count: nat) {
    count <= sum <= 5 * count
  }

  ghost predicate ValidJob(w: World, gens: seq<Generation>, j: Job) {
    && j.city in w.cities
    && j.base < |gens| && gens[j.base].city == j.city
    && (gens[j.base].status == Published || gens[j.base].status == Superseded)
    && j.candidate.Some? && j.base < j.candidate.value < |gens|
    && gens[j.candidate.value].city == j.city
    && gens[j.candidate.value].entries == CandidateBoard(w, j.scores)
    && j.status != Running
    && (j.status == Ready ==> gens[j.candidate.value].status == Candidate)
    && (j.status == JobStatus.Installed ==>
          gens[j.candidate.value].status == Published || gens[j.candidate.value].status == Superseded)
    && (j.status == Dropped ==> gens[j.candidate.value].status == Discarded)
    && (forall d :: d in j.scores <==> d in CityDrivers(w, j.city))
    && (forall d :: d in j.scores ==> InRange(j.scores[d].sum, j.scores[d].count)
                                      && j.scores[d].eligible == Eligible(j.scores[d].count))
  }

  ghost predicate ValidJobs(w: World, gens: seq<Generation>, jobs: seq<Job>) {
    && (forall j :: 0 <= j < |jobs| ==> ValidJob(w, gens, jobs[j]))
    && (forall i, j :: 0 <= i < j < |jobs| ==> jobs[i].candidate != jobs[j].candidate)
    && (forall i, j :: 0 <= i < j < |jobs| && IsActive(jobs[i]) && IsActive(jobs[j]) ==> jobs[i].city != jobs[j].city)
  }

  ghost predicate ValidExpirations(gens: seq<Generation>, runs: seq<ExpirationRun>) {
    && (forall r :: 0 <= r < |runs| ==>
          && (runs[r].affected > 0 <==> runs[r].generation.Some?)
          && (runs[r].generation.Some? ==> runs[r].generation.value < |gens| && gens[runs[r].generation.value].city == runs[r].city))
    && (forall q, r :: 0 <= q < r < |runs| ==> runs[q].city != runs[r].city || runs[q].effectiveAt != runs[r].effectiveAt)
  }

  /** Everything that does not speak about the live scores. */
  ghost predicate Structured(w: World, s: Store) {
    && ValidReviews(w, s.reviews)
    && ValidOutbox(w, s.events, s.ledger)
    && ValidGenerations(s.generations)
    && ValidJobs(w, s.generations, s.jobs)
    && ValidExpirations(s.generations, s.expirations)
  }

  /** What is only ever extended from one state to a later one. */
  ghost predicate Succeeds(s: Store, s': Store) {
    && AllExtend(s.reviews, s'.reviews)
    && AllEvolve(s.generations, s'.generations)
    && |s.events| <= |s'.events|
    && (forall e :: 0 <= e < |s.events| ==> s'.events[e].target == s.events[e].target)
    && (forall e :: e in s.ledger ==> e in s'.ledger && s'.ledger[e] == s.ledger[e])
    && (forall k :: k in s.requests ==> k in s'.requests && s'.requests[k] == s.requests[k])
    && s.expirations <= s'.expirations
  }

  lemma SucceedsIsReflexive(s: Store)
    ensures Succeeds(s, s)
  {
    EvolutionIsReflexive(s.generations);
  }

  lemma SucceedsIsTransitive(a: Store, b: Store, c: Store)
    requires Succeeds(a, b) && Succeeds(b, c)
    ensures Succeeds(a, c)
  {
    EvolutionIsTransitive(a.generations, b.generations, c.generations);
    assert AllExtend(a.reviews, c.reviews) by {
      hide AllEvolve;
      forall r | 0 <= r < |a.reviews.rows| ensures Extends(a.reviews.rows[r], c.reviews.rows[r]) {
        assert Extends(a.reviews.rows[r], b.reviews.rows[r]) && Extends(b.reviews.rows[r], c.reviews.rows[r]);
      }
    }
  }

  lemma RatingsAreInRange(w: World, rt: Reviews)
    requires ValidReviews(w, rt)
    ensures RatingsInRange(rt)
  {
    forall t | Contribution(rt, t).Some? ensures 1 <= Contribution(rt, t).value <= 5 {
      CurrentIsLatest(rt.rows[rt.ofTrip[t]].versions);
    }
  }

  // ---------- each transaction keeps the structure ----------

  ghost predicate OnlyRetires(gens: seq<Generation>, gens': seq<Generation>) {
    && |gens| <= |gens'|
    && (forall i :: 0 <= i < |gens| ==> gens'[i] == gens[i] || gens'[i] == Retire(gens[i], gens[i].city))
  }

  lemma RetiringKeepsJobs(w: World, gens: seq<Generation>, gens': seq<Generation>, jobs: seq<Job>, runs: seq<ExpirationRun>)
    requires ValidJobs(w, gens, jobs) && ValidExpirations(gens, runs)
    requires OnlyRetires(gens, gens')
    ensures ValidJobs(w, gens', jobs) && ValidExpirations(gens', runs)
  {
    hide CandidateBoard;
  }

  lemma WriteKeepsStructure(w: World, s: Store, request: Request, key: Key, now: Time)
    requires Structured(w, s)
    ensures var s' := Submit(w, s, request, key, now).store;
            Structured(w, s') && Succeeds(s, s') && (s' == s || WriteIsSound(w, s, request, s', now))
  {
    hide ValidReviews, ValidOutbox, ValidGenerations, ValidJobs, ValidExpirations, AllExtend, AllEvolve, Submit, NotifiesIffChanged, IntendedContribution;
    var o := Submit(w, s, request, key, now);
    SubmitChangesOnlyWhenAccepted(w, s, request, key, now);
    SucceedsIsReflexive(s);
    if o.reply.Accepted? && key !in s.requests {
      AcceptedWriteIsSound(w, s, request, key, now);
      WriteKeepsOutbox(w, s, request, o.store, now);
    }
  }

  lemma SubmitChangesOnlyWhenAccepted(w: World, s: Store, request: Request, key: Key, now: Time)
    ensures var o := Submit(w, s, request, key, now);
            && (o.reply.Rejected? || key in s.requests ==> o.store == s)
            && (forall k :: k in s.requests ==> k in o.store.requests && o.store.requests[k] == s.requests[k])
  {
    hide WithRating, WithDecision, WithRow, WithNewRow, NewEvent, CurrentBody, UpsertChangesContribution, RatingChanges;
  }

  lemma WriteKeepsOutbox(w: World, s: Store, request: Request, s': Store, now: Time)
    requires WriteIsSound(w, s, request, s', now)
    requires ValidOutbox(w, s.events, s.ledger)
    ensures ValidOutbox(w, s'.events, s'.ledger)
    ensures s.events <= s'.events
  {
    hide ValidReviews, AllExtend, IntendedContribution, Contribution, NotifiesIffChanged;
    AppendsAtMostOne(w, s, s', Subject(s, request), now);
  }

  lemma AppendsAtMostOne(w: World, s: Store, s': Store, t: TripId, now: Time)
    requires t < |w.trips| && NotifiesIffChanged(w, s, s', t, now)
    ensures s'.events == s.events || (|s'.events| == |s.events| + 1 && s.events <= s'.events && FreshEventFor(w, s'.events[|s.events|], t, now))
  {
    hide Contribution, FreshEventFor;
    if s'.events != s.events {
      assert s'.events == s.events + [s'.events[|s.events|]];
    }
  }

  lemma WorkKeepsStructure(w: World, s: Store, ids: seq<EventId>, availableAt: Time, at: Time)
    requires Structured(w, s) && Claimable(s.events, ids, availableAt)
    ensures var s' := ProcessBatch(w, s, ids, at); Structured(w, s') && Succeeds(s, s')
    ensures var s' := ProcessBatch(w, s, ids, at);
            PublishedAnew(w, s'.scores, s.generations, s'.generations, AffectedCities(s.events, s.ledger, ids))
  {
    hide PublishAll, ScoresAfter, CityOrder, ValidGenerations, ValidJobs, ValidExpirations, PublishedAnew, AllEvolve, ValidOutbox,
         Claimable, EventsAfter, LedgerAfter, AffectedCities, ValidReviews, AllExtend;
    BatchPublishesAffectedCities(w, s, ids, at);
    BatchKeepsOutbox(w, s, ids, availableAt, at);
    BatchExtends(s, ids, at);
    var s' := ProcessBatch(w, s, ids, at);
    PublishedAnewOnlyRetires(w, s'.scores, s.generations, s'.generations, AffectedCities(s.events, s.ledger, ids));
    RetiringKeepsJobs(w, s.generations, s'.generations, s.jobs, s.expirations);
  }

  lemma BatchExtends(s: Store, ids: seq<EventId>, at: Time)
    ensures AllExtend(s.reviews, s.reviews)
    ensures var events := EventsAfter(s.events, ids, at);
            |events| == |s.events| && forall e :: 0 <= e < |events| ==> events[e].target == s.events[e].target
  {}

  lemma PublishedAnewOnlyRetires(w: World, scores: map<DriverKey, Score>, gens: seq<Generation>, gens': seq<Generation>, cs: set<CityId>)
    requires PublishedAnew(w, scores, gens, gens', cs)
    ensures OnlyRetires(gens, gens')
  {}

  lemma PublishKeepsStructure(w: World, scores: map<DriverKey, Score>, gens: seq<Generation>, c: CityId, at: Time, jobs: seq<Job>, runs: seq<ExpirationRun>)
    requires ValidGenerations(gens) && ValidJobs(w, gens, jobs) && ValidExpirations(gens, runs)
    ensures var gens' := Publish(w, scores, gens, c, at);
            && ValidGenerations(gens') && ValidJobs(w, gens', jobs) && ValidExpirations(gens', runs)
            && AllEvolve(gens, gens') && OnlyRetires(gens, gens')
            && |gens'| == |gens| + 1 && gens'[|gens|].city == c
  {
    PublishIsSound(w, scores, gens, c, at);
    hide Publish, ValidGenerations, ValidJobs, ValidExpirations, AllEvolve;
    RetiringKeepsJobs(w, gens, Publish(w, scores, gens, c, at), jobs, runs);
  }

  lemma ExpireKeepsStructure(w: World, s: Store, c: CityId, at: Time)
    requires Structured(w, s)
    ensures var s' := RunExpiration(w, s, c, at).store; Structured(w, s') && Succeeds(s, s')
  {
    hide ValidReviews, ValidOutbox, ValidGenerations, ValidJobs, ValidExpirations, AllExtend, AllEvolve, Rescored, CityKeys, Publish, ChangedKeys;
    SucceedsIsReflexive(s);
    var o := RunExpiration(w, s, c, at);
    if o.reply.Ran? {
      PublishKeepsStructure(w, o.store.scores, s.generations, c, at, s.jobs, s.expirations);
      var run := o.store.expirations[|s.expirations|];
      NewRunIsValid(o.store.generations, s.expirations, run);
    }
  }

  lemma NewRunIsValid(gens': seq<Generation>, runs: seq<ExpirationRun>, run: ExpirationRun)
    requires ValidExpirations(gens', runs)
    requires FindRun(runs, run.city, run.effectiveAt, |runs|).None?
    requires run.affected > 0 <==> run.generation.Some?
    requires run.generation.Some? ==> run.generation.value < |gens'| && gens'[run.generation.value].city == run.city
    ensures ValidExpirations(gens', runs + [run])
  {}

  lemma StageKeepsStructure(w: World, s: Store, c: CityId, at: Time, now: Time)
    requires Structured(w, s)
    ensures var s' := StartRebuild(w, s, c, at, now).store;
            Structured(w, s') && Succeeds(s, s') && SamePublished(s.generations, s'.generations)
  {
    hide ValidReviews, ValidOutbox, ValidGenerations, ValidJobs, ValidExpirations, AllExtend, AllEvolve, NewJob, CandidateGeneration, SamePublished, HasActive;
    SucceedsIsReflexive(s);
    NothingStaged(s.generations);
    var o := StartRebuild(w, s, c, at, now);
    if o.reply.JobDone? {
      var base := PublishedOf(s.generations, c).value;
      var job := NewJob(w, s, c, base, at, now);
      CandidateGenerationShape(w, s.generations, c, job.scores, at);
      StagingIsSound(s.generations, CandidateGeneration(w, s.generations, c, job.scores, at));
      NewJobIsValid(w, s, c, base, at, now);
      StagingKeepsJobs(w, s, CandidateGeneration(w, s.generations, c, job.scores, at), job);
    }
  }

  lemma NothingStaged(gens: seq<Generation>)
    ensures SamePublished(gens, gens)
  {}

  lemma CandidateGenerationShape(w: World, gens: seq<Generation>, c: CityId, scores: map<DriverId, CandidateScore>, at: Time)
    ensures var g := CandidateGeneration(w, gens, c, scores, at);
            g.city == c && g.version == MaxVersion(gens, g.city, |gens|) + 1 && g.status == Candidate
  {}

  lemma NewJobIsValid(w: World, s: Store, c: CityId, base: GenerationId, at: Time, now: Time)
    requires ValidReviews(w, s.reviews) && c in w.cities
    requires IsPublished(s.generations, base, c)
    ensures var job := NewJob(w, s, c, base, at, now);
            && ValidJob(w, s.generations + [CandidateGeneration(w, s.generations, c, job.scores, at)], job)
            && job.candidate == Some(|s.generations|) && job.city == c
  {
    hide CandidateBoard, Compare, MaxVersion, Aggregate;
    var job := NewJob(w, s, c, base, at, now);
    RatingsAreInRange(w, s.reviews);
    forall d | d in job.scores ensures InRange(job.scores[d].sum, job.scores[d].count) {
      AggregateInRange(w, s.reviews, DriverKey(c, d), at - WINDOW, at);
    }
  }

  lemma AggregateInRange(w: World, rt: Reviews, k: DriverKey, lo: Time, hi: Time)
    requires RatingsInRange(rt)
    ensures InRange(Aggregate(w, rt, k, lo, hi).sum, Aggregate(w, rt, k, lo, hi).count)
  {
    AggregateRange(w, rt, k, lo, hi, |w.trips|);
  }

  lemma StagingKeepsJobs(w: World, s: Store, g: Generation, job: Job)
    requires ValidJobs(w, s.generations, s.jobs) && ValidExpirations(s.generations, s.expirations)
    requires ValidJob(w, s.generations + [g], job) && job.candidate == Some(|s.generations|)
    requires !HasActive(s.jobs, job.city)
    ensures ValidJobs(w, s.generations + [g], s.jobs + [job])
    ensures ValidExpirations(s.generations + [g], s.expirations)
  {
    hide CandidateBoard;
    RetiringKeepsJobs(w, s.generations, s.generations + [g], s.jobs, s.expirations);
  }

  lemma InstallKeepsStructure(w: World, s: Store, j: JobId, now: Time)
    requires Structured(w, s)
    ensures var s' := PublishRebuild(w, s, j, now).store; Structured(w, s') && Succeeds(s, s')
  {
    hide ValidReviews, ValidOutbox, ValidGenerations, ValidJobs, ValidExpirations, AllExtend, AllEvolve, ValidJob, Promote, Rebuild.Installed;
    SucceedsIsReflexive(s);
    var o := PublishRebuild(w, s, j, now);
    if o.reply.JobDone? {
      var job := s.jobs[j];
      JobsAreValid(w, s.generations, s.jobs, j);
      PromoteIsSound(s.generations, job.base, job.candidate.value, job.city, now);
      PromotionKeepsJobs(w, s, j, now);
    }
  }

  lemma JobsAreValid(w: World, gens: seq<Generation>, jobs: seq<Job>, j: JobId)
    requires ValidJobs(w, gens, jobs) && j < |jobs|
    ensures var job := jobs[j];
            && job.base < |gens| && gens[job.base].city == job.city
            && job.candidate.Some? && job.base < job.candidate.value < |gens|
            && gens[job.candidate.value].city == job.city
            && (job.status == Ready ==> gens[job.candidate.value].status == Candidate)
            && job.city in w.cities
            && gens[job.candidate.value].entries == CandidateBoard(w, job.scores)
            && job.scores.Keys == KeysIn(CityDrivers(w, job.city))
  {
    hide CandidateBoard;
    assert ValidJob(w, gens, jobs[j]);
  }

  function KeysIn(ds: seq<DriverId>): set<DriverId> {
    set d | d in ds
  }

  lemma PromotionKeepsJobs(w: World, s: Store, j: JobId, now: Time)
    requires ValidJobs(w, s.generations, s.jobs) && ValidExpirations(s.generations, s.expirations)
    requires ValidGenerations(s.generations)
    requires j < |s.jobs| && s.jobs[j].status == Ready
    requires IsPublished(s.generations, s.jobs[j].base, s.jobs[j].city)
    ensures var gens' := Promote(s.generations, s.jobs[j].base, s.jobs[j].candidate.value, now);
            && ValidJobs(w, gens', s.jobs[j := s.jobs[j].(status := JobStatus.Installed, completedAt := Some(now))])
            && ValidExpirations(gens', s.expirations)
  {
    hide CandidateBoard, VersionsCount, Settled;
    var gens' := Promote(s.generations, s.jobs[j].base, s.jobs[j].candidate.value, now);
    var jobs' := s.jobs[j := s.jobs[j].(status := JobStatus.Installed, completedAt := Some(now))];
    forall i | 0 <= i < |jobs'| ensures ValidJob(w, gens', jobs'[i]) {
      assert ValidJob(w, s.generations, s.jobs[i]);
    }
  }

  lemma DiscardKeepsStructure(w: World, s: Store, j: JobId, now: Time)
    requires Structured(w, s)
    ensures var s' := DiscardRebuild(s, j, now).store;
            Structured(w, s') && Succeeds(s, s') && SamePublished(s.generations, s'.generations)
  {
    hide ValidReviews, ValidOutbox, ValidGenerations, ValidJobs, ValidExpirations, AllExtend, AllEvolve, Drop, SamePublished;
    SucceedsIsReflexive(s);
    NothingStaged(s.generations);
    var o := DiscardRebuild(s, j, now);
    if o.reply.JobDone? {
      JobsAreValid(w, s.generations, s.jobs, j);
      DropIsSound(s.generations, s.jobs[j].candidate);
      DroppingKeepsJobs(w, s, j, now);
    }
  }

  lemma DroppingKeepsJobs(w: World, s: Store, j: JobId, now: Time)
    requires ValidJobs(w, s.generations, s.jobs) && ValidExpirations(s.generations, s.expirations)
    requires j < |s.jobs| && s.jobs[j].status == Ready
    ensures var gens' := Drop(s.generations, s.jobs[j].candidate);
            && ValidJobs(w, gens', s.jobs[j := s.jobs[j].(status := Dropped, completedAt := Some(now))])
            && ValidExpirations(gens', s.expirations)
  {
    hide CandidateBoard;
    var gens' := Drop(s.generations, s.jobs[j].candidate);
    var jobs' := s.jobs[j := s.jobs[j].(status := Dropped, completedAt := Some(now))];
    forall i | 0 <= i < |jobs'| ensures ValidJob(w, gens', jobs'[i]) {
      assert ValidJob(w, s.generations, s.jobs[i]);
    }
  }

  /** Every committed transaction keeps the structure and only extends what is append-only. */
  lemma StepKeepsStructure(w: World, s: Store, a: Action)
    requires Structured(w, s)
    ensures Structured(w, Step(w, s, a)) && Succeeds(s, Step(w, s, a))
  {
    hide Structured, Succeeds, Submit, ProcessBatch, RunExpiration, StartRebuild, PublishRebuild, DiscardRebuild;
    SucceedsIsReflexive(s);
    match a
    case Write(request, key, now) => WriteKeepsStructure(w, s, request, key, now);
    case Work(claimed, availableAt, at) =>
      if Claimable(s.events, claimed, availableAt) {
        WorkKeepsStructure(w, s, claimed, availableAt, at);
      }
    case ReportFailure(failed, error, failedAt) => ReportKeepsStructure(w, s, failed, error, failedAt);
    case Expire(city, effectiveAt) => ExpireKeepsStructure(w, s, city, effectiveAt);
    case Stage(city, calculatedAt, now) => StageKeepsStructure(w, s, city, calculatedAt, now);
    case Install(job, now) => InstallKeepsStructure(w, s, job, now);
    case Discard(job, now) => DiscardKeepsStructure(w, s, job, now);
    case Rescore(city, at) => RescoreKeepsStructure(w, s, city, at);
    case Republish(city, at) => RepublishKeepsStructure(w, s, city, at);
  }

  lemma ReportKeepsStructure(w: World, s: Store, failed: set<EventId>, error: string, at: Time)
    requires Structured(w, s)
    ensures var s' := RecordFailure(s, failed, error, at); Structured(w, s') && Succeeds(s, s')
  {
    FailureKeepsOutbox(w, s, failed, error, at);
    EvolutionIsReflexive(s.generations);
    hide ValidReviews, ValidGenerations, ValidJobs, ValidExpirations, ValidOutbox, AllEvolve;
  }

  lemma RescoreKeepsStructure(w: World, s: Store, c: CityId, at: Time)
    requires Structured(w, s)
    ensures var s' := RescoreCity(w, s, c, at); Structured(w, s') && Succeeds(s, s')
  {
    SucceedsIsReflexive(s);
  }

  lemma RepublishKeepsStructure(w: World, s: Store, c: CityId, at: Time)
    requires Structured(w, s)
    ensures var s' := PublishCity(w, s, c, at); Structured(w, s') && Succeeds(s, s')
  {
    hide ValidGenerations, ValidJobs, ValidExpirations, AllEvolve, Publish, ValidReviews, ValidOutbox, AllExtend, OnlyRetires;
    SucceedsIsReflexive(s);
    PublishKeepsStructure(w, s.scores, s.generations, c, at, s.jobs, s.expirations);
  }

  /**
   Over any run: histories only grow, generations are never altered and never published
   twice, publications of a city only move to newer generations, ledger rows and
   idempotency records stay for ever.
   */
  lemma {:induction false} RunKeepsStructure(w: World, s: Store, actions: seq<Action>, m: nat, n: nat)
    requires m <= n <= |actions|
    requires Structured(w, s)
    ensures Structured(w, Run(w, s, actions, n))
    ensures Succeeds(Run(w, s, actions, m), Run(w, s, actions, n))
    decreases n
  {
    hide Structured, Succeeds, Step;
    if n == m {
      SucceedsIsReflexive(Run(w, s, actions, n));
      if n > 0 {
        RunKeepsStructure(w, s, actions, n - 1, n - 1);
        StepKeepsStructure(w, Run(w, s, actions, n - 1), actions[n - 1]);
      }
    } else {
      RunKeepsStructure(w, s, actions, m, n - 1);
      StepKeepsStructure(w, Run(w, s, actions, n - 1), actions[n - 1]);
      SucceedsIsTransitive(Run(w, s, actions, m), Run(w, s, actions, n - 1), Run(w, s, actions, n));
    }
  }

  lemma EmptyIsStructured(w: World)
    ensures Structured(w, EMPTY)
  {}

  /** The city's published generation in a later table is the same or a newer one. */
  lemma PublishedVersionGrows(gens: seq<Generation>, gens': seq<Generation>, i: nat, j: nat, c: CityId)
    requires AllEvolve(gens, gens') && VersionsCount(gens') && OnePublished(gens')
    requires IsPublished(gens, i, c) && IsPublished(gens', j, c)
    ensures i <= j && gens[i].version <= gens'[j].version
  {
    hide VersionsCount;
    assert SomePublishedFrom(gens', i, c);
    var k: nat :| i <= k && IsPublished(gens', k, c);
    assert Evolves(gens[i], gens'[i]);
    if i < j {
      VersionsIncrease(gens', i, j);
    }
  }

  /**
   Over any run from the empty database, from any state to any later one: at most one
   generation of a city is published; what was built keeps its city, version and entries;
   nothing superseded or discarded is ever published again; and a city's published version
   never goes down.
   */
  lemma PublicationsMoveForward(w: World, actions: seq<Action>, m: nat, n: nat)
    requires m <= n <= |actions|
    ensures var gens, later := Run(w, EMPTY, actions, m).generations, Run(w, EMPTY, actions, n).generations;
            && (forall i: nat, j: nat, c :: IsPublished(later, i, c) && IsPublished(later, j, c) ==> i == j)
            && |gens| <= |later|
            && (forall i :: 0 <= i < |gens| ==>
                  && later[i].city == gens[i].city && later[i].version == gens[i].version && later[i].entries == gens[i].entries
                  && (gens[i].status == Superseded || gens[i].status == Discarded ==> later[i].status == gens[i].status))
            && (forall i: nat, j: nat, c :: IsPublished(gens, i, c) && IsPublished(later, j, c) ==> gens[i].version <= later[j].version)
  {
    hide Structured, Step, Succeeds;
    EmptyIsStructured(w);
    RunKeepsStructure(w, EMPTY, actions, m, n);
    GenerationsOf(w, Run(w, EMPTY, actions, m), Run(w, EMPTY, actions, n));
    hide Run, VersionsCount;
    var gens, later := Run(w, EMPTY, actions, m).generations, Run(w, EMPTY, actions, n).generations;
    forall i: nat, j: nat, c | IsPublished(gens, i, c) && IsPublished(later, j, c) ensures gens[i].version <= later[j].version {
      PublishedVersionGrows(gens, later, i, j, c);
    }
    forall i | 0 <= i < |gens| ensures Evolves(gens[i], later[i]) {}
  }

  lemma GenerationsOf(w: World, s: Store, s': Store)
    requires Structured(w, s') && Succeeds(s, s')
    ensures AllEvolve(s.generations, s'.generations) && VersionsCount(s'.generations) && OnePublished(s'.generations)
  {
    hide AllEvolve, VersionsCount, OnePublished;
  }
}
