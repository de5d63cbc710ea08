/** The audit's rules about single score rows and event targets, in every reachable state. */
module Audit {
  import opened Tables
  import opened Scoring
  import opened Writes
  import opened Histories
  import opened Leaderboard
  import opened Outbox
  import opened Rebuild
  import opened Expiration
  import opened System

  // ---------- every score row ----------

  /** Foreign keys, a 90-day window, eligibility from the count, and averages between 1 and 5. */
  ghost predicate ValidScore(w: World, k: DriverKey, s: Score) {
    && k.city in w.cities && k.driver < |w.drivers|
    && s.windowStart == s.calculatedAt - WINDOW
    && s.eligible == Eligible(s.count)
    && InRange(s.sum, s.count)
    && (w.TripsMatchDrivers() ==> w.drivers[k.driver].city == k.city)
  }

  ghost predicate ValidScores(w: World, scores: map<DriverKey, Score>) {
    forall k :: k in scores ==> ValidScore(w, k, scores[k])
  }

  /** Events are addressed to a trip's city and driver. */
  ghost predicate ValidTarget(w: World, k: DriverKey) {
    && k.city in w.cities && k.driver < |w.drivers|
    && (w.TripsMatchDrivers() ==> w.drivers[k.driver].city == k.city)
  }

  ghost predicate ValidTargets(w: World, events: seq<Event>) {
    forall e :: 0 <= e < |events| ==> ValidTarget(w, events[e].target)
  }

  lemma RecalculatedIsValid(w: World, rt: Reviews, k: DriverKey, at: Time)
    requires ValidReviews(w, rt) && ValidTarget(w, k)
    ensures ValidScore(w, k, Recalculated(w, rt, k, at))
  {
    RatingsAreInRange(w, rt);
    AggregateInRange(w, rt, k, at - WINDOW, at);
  }

  lemma RescoredIsValid(w: World, rt: Reviews, scores: map<DriverKey, Score>, keys: set<DriverKey>, at: Time)
    requires ValidReviews(w, rt) && ValidScores(w, scores)
    requires forall k :: k in keys ==> ValidTarget(w, k)
    ensures ValidScores(w, Rescored(w, rt, scores, keys, at))
  {
    hide ValidReviews, ValidTarget, ValidScore, Recalculated;
    forall k | k in keys ensures ValidScore(w, k, Recalculated(w, rt, k, at)) {
      RecalculatedIsValid(w, rt, k, at);
    }
  }

  lemma CityKeysAreValid(w: World, c: CityId)
    requires c in w.cities || CityKeys(w, c) == {}
    ensures forall k :: k in CityKeys(w, c) ==> ValidTarget(w, k)
  {}

  lemma NoDriversOutsideCities(w: World, c: CityId)
    ensures c in w.cities || CityKeys(w, c) == {}
  {}

  lemma InstalledIsValid(w: World, gens: seq<Generation>, scores: map<DriverKey, Score>, job: Job)
    requires ValidJob(w, gens, job) && ValidScores(w, scores)
    ensures ValidScores(w, Rebuild.Installed(scores, job))
  {
    hide CandidateBoard;
    var scores' := Rebuild.Installed(scores, job);
    forall k | k in scores' ensures ValidScore(w, k, scores'[k]) {
      if k.city == job.city {
        assert k.driver in CityDrivers(w, job.city);
      }
    }
  }

  ghost predicate Audited(w: World, s: Store) {
    ValidScores(w, s.scores) && ValidTargets(w, s.events)
  }

  lemma WriteKeepsTargets(w: World, s: Store, request: Request, s': Store, now: Time)
    requires WriteIsSound(w, s, request, s', now)
    requires ValidOutbox(w, s.events, s.ledger) && ValidTargets(w, s.events)
    ensures ValidTargets(w, s'.events)
  {
    hide ValidReviews, AllExtend, IntendedContribution, Contribution, OnlyWrites, ValidEvent;
    WriteKeepsOutbox(w, s, request, s', now);
    var t := Subject(s, request);
    NewTargetsAreTrips(w, s, s', t, now);
    assert ValidTarget(w, DriverKey(w.trips[t].city, w.trips[t].driver));
    hide ValidOutbox, ValidTarget, NotifiesIffChanged;
    forall e | 0 <= e < |s'.events| ensures ValidTarget(w, s'.events[e].target) {
      if e < |s.events| {
        assert s'.events[e] == s.events[e];
      }
    }
  }

  lemma NewTargetsAreTrips(w: World, s: Store, s': Store, t: TripId, now: Time)
    requires t < |w.trips| && NotifiesIffChanged(w, s, s', t, now)
    ensures forall e :: |s.events| <= e < |s'.events| ==> s'.events[e].target == DriverKey(w.trips[t].city, w.trips[t].driver)
  {
    hide Contribution;
  }

  lemma WriteKeepsAudit(w: World, s: Store, request: Request, key: Key, now: Time)
    requires Structured(w, s) && Audited(w, s)
    ensures Audited(w, Submit(w, s, request, key, now).store)
  {
    hide Submit, ValidTargets, ValidScores, WriteIsSound, Succeeds;
    WriteKeepsStructure(w, s, request, key, now);
    var s' := Submit(w, s, request, key, now).store;
    if s' != s {
      WriteKeepsTargets(w, s, request, s', now);
      OnlyWritesScores(w, s, request, s', now);
    }
  }

  lemma OnlyWritesScores(w: World, s: Store, request: Request, s': Store, now: Time)
    requires WriteIsSound(w, s, request, s', now)
    ensures s'.scores == s.scores
  {}

  lemma WorkKeepsAudit(w: World, s: Store, ids: seq<EventId>, at: Time)
    requires ValidReviews(w, s.reviews) && Audited(w, s)
    ensures Audited(w, ProcessBatch(w, s, ids, at))
  {
    hide ValidReviews, ValidTarget, ValidScores, PublishAll, CityOrder, LedgerAfter, Rescored;
    assert forall k :: k in Affected(s.events, s.ledger, ids) ==> ValidTarget(w, k);
    RescoredIsValid(w, s.reviews, s.scores, Affected(s.events, s.ledger, ids), at);
  }

  /** Every transaction keeps the row rules of the audit. */
  lemma StepKeepsAudit(w: World, s: Store, a: Action)
    requires Structured(w, s) && Audited(w, s)
    ensures Audited(w, Step(w, s, a))
  {
    hide ValidScores, Rescored, CityKeys, Publish, ValidTarget;
    match a
    case Write(request, key, now) =>
      hide Submit, Structured;
      WriteKeepsAudit(w, s, request, key, now);
    case Work(claimed, availableAt, at) =>
      hide ProcessBatch;
      WorkKeepsAudit(w, s, claimed, at);
    case ReportFailure(failed, error, failedAt) => hide Structured;
    case Expire(city, effectiveAt) =>
      hide ChangedKeys, ValidReviews, ValidOutbox, ValidGenerations, ValidJobs, ValidExpirations;
      NoDriversOutsideCities(w, city);
      CityKeysAreValid(w, city);
      RescoredIsValid(w, s.reviews, s.scores, CityKeys(w, city), effectiveAt);
    case Stage(city, calculatedAt, now) => hide Structured, NewJob, CandidateGeneration, HasActive;
    case Install(job, now) =>
      InstallKeepsAudit(w, s, job, now);
      hide Structured, PublishRebuild;
    case Discard(job, now) => hide Structured;
    case Rescore(city, at) =>
      hide ValidReviews, ValidOutbox, ValidGenerations, ValidJobs, ValidExpirations;
      NoDriversOutsideCities(w, city);
      CityKeysAreValid(w, city);
      WithoutCityIsValid(w, s.scores, city);
      RescoredIsValid(w, s.reviews, WithoutCity(s.scores, city), CityKeys(w, city), at);
    case Republish(city, at) => hide Structured;
  }

  lemma WithoutCityIsValid(w: World, scores: map<DriverKey, Score>, c: CityId)
    requires ValidScores(w, scores)
    ensures ValidScores(w, WithoutCity(scores, c))
  {}

  lemma InstallKeepsAudit(w: World, s: Store, j: JobId, now: Time)
    requires Structured(w, s) && Audited(w, s)
    ensures Audited(w, PublishRebuild(w, s, j, now).store)
  {
    if PublishRebuild(w, s, j, now).reply.JobDone? {
      PublicationShape(w, s, j, now);
      assert ValidJob(w, s.generations, s.jobs[j]);
      hide PublishRebuild, Structured, ValidScores, ValidJob, Rebuild.Installed;
      InstalledIsValid(w, s.generations, s.scores, s.jobs[j]);
    }
  }

  lemma {:induction false} EveryReachableScoreIsValid(w: World, actions: seq<Action>, n: nat)
    requires n <= |actions|
    ensures Audited(w, Run(w, EMPTY, actions, n))
  {
    hide Structured, Step, Audited;
    EmptyIsStructured(w);
    if n == 0 {
      EmptyIsAudited(w);
    } else {
      EveryReachableScoreIsValid(w, actions, n - 1);
      RunKeepsStructure(w, EMPTY, actions, n - 1, n - 1);
      StepKeepsAudit(w, Run(w, EMPTY, actions, n - 1), actions[n - 1]);
    }
  }

  lemma EmptyIsAudited(w: World)
    ensures Audited(w, EMPTY)
  {}
}
