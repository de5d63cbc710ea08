/** The audit's rules that a database meets only once it has been scored and published: exactly when it does. */
module Progress {
  import opened Tables
  import opened Scoring
  import opened Writes
  import opened Leaderboard
  import opened Outbox
  import opened Rebuild
  import opened Expiration
  import opened System
  import opened Consistency
  import opened Agreement

  // ---------- every driver has a score ----------

  ghost predicate CityScored(w: World, s: Store, c: CityId) {
    forall k :: k in CityKeys(w, c) ==> k in s.scores
  }

  /** The transaction writes a row for every driver of the city. */
  predicate ScoresWholeCity(w: World, s: Store, a: Action, c: CityId) {
    match a
    case Expire(city, at) => city == c && c in w.cities && FindRun(s.expirations, c, at, |s.expirations|).None?
    case Install(j, _) => j < |s.jobs| && s.jobs[j].city == c && Installable(s, s.jobs[j])
    case Rescore(city, _) => city == c
    case _ => false
  }

  /** The batch writes the rows that were missing. */
  predicate CompletesCity(w: World, s: Store, a: Action, c: CityId) {
    && a.Work? && Claimable(s.events, a.claimed, a.availableAt)
    && CityKeys(w, c) <= s.scores.Keys + Affected(s.events, s.ledger, a.claimed)
  }

  lemma ExpireScoresIff(w: World, s: Store, a: Action, c: CityId)
    requires a.Expire?
    ensures CityScored(w, Step(w, s, a), c) <==> CityScored(w, s, c) || ScoresWholeCity(w, s, a, c)
  {
    hide Publish, ChangedKeys, Recalculated, CityDrivers;
  }

  lemma RescoreScoresIff(w: World, s: Store, a: Action, c: CityId)
    requires a.Rescore?
    ensures CityScored(w, Step(w, s, a), c) <==> CityScored(w, s, c) || ScoresWholeCity(w, s, a, c)
  {
    hide Recalculated, CityDrivers;
  }

  lemma InstallScoresIff(w: World, s: Store, a: Action, c: CityId)
    requires a.Install? && ValidGenerations(s.generations) && ValidJobs(w, s.generations, s.jobs)
    ensures CityScored(w, Step(w, s, a), c) <==> CityScored(w, s, c) || ScoresWholeCity(w, s, a, c)
  {
    hide PublishRebuild, ValidGenerations, ValidJobs, Installable, CityDrivers, Promote, Rebuild.Installed, CityScored;
    PublishesExactlyWhenInstallable(w, s, a.job, a.now);
    if PublishRebuild(w, s, a.job, a.now).reply.JobDone? {
      PublicationShape(w, s, a.job, a.now);
      JobsAreValid(w, s.generations, s.jobs, a.job);
      InstalledKeys(w, s, s.jobs[a.job], Step(w, s, a), c);
    }
  }

  lemma InstalledKeys(w: World, s: Store, job: Job, s': Store, c: CityId)
    requires s'.scores == Rebuild.Installed(s.scores, job) && job.scores.Keys == KeysIn(CityDrivers(w, job.city))
    ensures CityScored(w, s', c) <==> CityScored(w, s, c) || c == job.city
  {
    hide CityDrivers;
    forall k: DriverKey | k in CityKeys(w, c) ensures k in s'.scores <==> k in s.scores || c == job.city {
      assert k.city == c && k.driver in CityDrivers(w, c);
    }
  }

  lemma WorkScoresIff(w: World, s: Store, a: Action, c: CityId)
    requires a.Work?
    ensures CityScored(w, Step(w, s, a), c) <==> CityScored(w, s, c) || CompletesCity(w, s, a, c)
  {
    hide PublishAll, CityOrder, EventsAfter, LedgerAfter, Recalculated, CityKeys, Affected, Claimable;
  }

  lemma QuietScores(w: World, s: Store, a: Action)
    requires a.Write? || a.ReportFailure? || a.Stage? || a.Discard? || a.Republish?
    ensures Step(w, s, a).scores == s.scores
  {
    hide NewJob, CandidateGeneration, HasActive, PublishedOf, Publish, Drop, WithRating, WithDecision, WithRow, WithNewRow,
         NewEvent, CurrentBody, UpsertChangesContribution, RatingChanges;
  }

  /**
   Every driver of a city has a score row after a transaction if and only if they all had
   one before, or the transaction scores the whole city, or it is a batch that brings the
   missing ones. In particular no row ever goes missing again.
   */
  lemma StepScoresIff(w: World, s: Store, a: Action, c: CityId)
    requires Structured(w, s)
    ensures CityScored(w, Step(w, s, a), c) <==> CityScored(w, s, c) || ScoresWholeCity(w, s, a, c) || CompletesCity(w, s, a, c)
  {
    assert ValidGenerations(s.generations) && ValidJobs(w, s.generations, s.jobs);
    hide Structured, ValidGenerations, ValidJobs, Step, CityKeys, Installable, Claimable, Affected;
    match a
    case Expire(_, _) => ExpireScoresIff(w, s, a, c);
    case Rescore(_, _) => RescoreScoresIff(w, s, a, c);
    case Install(_, _) => InstallScoresIff(w, s, a, c);
    case Work(_, _, _) => WorkScoresIff(w, s, a, c);
    case _ => QuietScores(w, s, a);
  }

  /** Once a city is scored it stays scored, whatever happens. */
  lemma {:induction false} ScoredForEver(w: World, s: Store, actions: seq<Action>, m: nat, n: nat, c: CityId)
    requires m <= n <= |actions| && Structured(w, s)
    requires CityScored(w, Run(w, s, actions, m), c)
    ensures CityScored(w, Run(w, s, actions, n), c)
    decreases n
  {
    hide Structured, Step, CityScored;
    if m < n {
      ScoredForEver(w, s, actions, m, n - 1, c);
      RunKeepsStructure(w, s, actions, n - 1, n - 1);
      StepScoresIff(w, Run(w, s, actions, n - 1), actions[n - 1], c);
    }
  }

  // ---------- exactly one published generation per city ----------

  lemma PublishingPublishes(w: World, s: Store, a: Action, c: CityId)
    requires Structured(w, s) && PublishesIn(w, s, a, c)
    ensures PublishedOf(Step(w, s, a).generations, c).Some?
  {
    assert ValidGenerations(s.generations) && ValidJobs(w, s.generations, s.jobs);
    hide Structured, ValidGenerations, ValidJobs, PublishedOf, Claimable, AffectedCities, ProcessBatch, Rescored, ChangedKeys, CityKeys,
         Publish, PublishRebuild, FreshBoard, PublishedAnew, AllEvolve, Promote, Succeeds;
    match a
    case Work(claimed, availableAt, at) =>
      WorkKeepsStructure(w, s, claimed, availableAt, at);
      var s' := ProcessBatch(w, s, claimed, at);
      AffectedBoardIsFresh(w, s'.scores, s.generations, s'.generations, AffectedCities(s.events, s.ledger, claimed), c);
      FreshIsPublished(w, s'.scores, s'.generations, c, |s.generations|);
    case Expire(_, at) =>
      var s' := RunExpiration(w, s, c, at).store;
      PublishedHere(w, s'.scores, s.generations, c, at);
      FreshIsPublished(w, s'.scores, s'.generations, c, 0);
    case Install(j, now) =>
      PublicationShape(w, s, j, now);
      JobsAreValid(w, s.generations, s.jobs, j);
      PromoteIsSound(s.generations, s.jobs[j].base, s.jobs[j].candidate.value, c, now);
    case Republish(_, at) =>
      PublishedHere(w, s.scores, s.generations, c, at);
      FreshIsPublished(w, s.scores, Publish(w, s.scores, s.generations, c, at), c, 0);
  }

  lemma FreshIsPublished(w: World, scores: map<DriverKey, Score>, gens: seq<Generation>, c: CityId, from: nat)
    requires FreshBoard(w, scores, gens, c, from)
    ensures PublishedOf(gens, c).Some?
  {}

  lemma WorkElsewhere(w: World, s: Store, a: Action, c: CityId)
    requires Structured(w, s) && a.Work? && !PublishesIn(w, s, a, c)
    ensures PublishedOf(Step(w, s, a).generations, c) == PublishedOf(s.generations, c)
  {
    hide Structured, PublishedOf, Claimable, AffectedCities, ProcessBatch, PublishedAnew, Succeeds;
    if Claimable(s.events, a.claimed, a.availableAt) {
      WorkKeepsStructure(w, s, a.claimed, a.availableAt, a.at);
      var s' := ProcessBatch(w, s, a.claimed, a.at);
      PublishedElsewhere(w, s'.scores, s.generations, s'.generations, AffectedCities(s.events, s.ledger, a.claimed), c);
    }
  }

  lemma ExpirationElsewhere(w: World, s: Store, a: Action, c: CityId)
    requires Structured(w, s) && a.Expire? && !PublishesIn(w, s, a, c)
    ensures PublishedOf(Step(w, s, a).generations, c) == PublishedOf(s.generations, c)
  {
    hide ValidOutbox, ValidJobs, ValidExpirations, ValidGenerations, PublishedOf, Rescored, ChangedKeys, CityKeys, Publish;
    if a.city != c {
      PublishedThere(w, Rescored(w, s.reviews, s.scores, CityKeys(w, a.city), a.effectiveAt), s.generations, a.city, a.effectiveAt, c);
    }
  }

  lemma RepublicationElsewhere(w: World, s: Store, a: Action, c: CityId)
    requires Structured(w, s) && a.Republish? && !PublishesIn(w, s, a, c)
    ensures PublishedOf(Step(w, s, a).generations, c) == PublishedOf(s.generations, c)
  {
    hide ValidOutbox, ValidJobs, ValidExpirations, ValidGenerations, PublishedOf, Publish;
    if a.city != c {
      PublishedThere(w, s.scores, s.generations, a.city, a.at, c);
    }
  }

  lemma StagedElsewhere(w: World, s: Store, a: Action, c: CityId)
    requires Structured(w, s) && (a.Stage? || a.Discard?)
    ensures PublishedOf(Step(w, s, a).generations, c) == PublishedOf(s.generations, c)
  {
    hide Structured, PublishedOf, StartRebuild, DiscardRebuild, Succeeds, SamePublished;
    match a
    case Stage(city, calculatedAt, now) =>
      StageKeepsStructure(w, s, city, calculatedAt, now);
      SamePublishedFrame(s.generations, StartRebuild(w, s, city, calculatedAt, now).store.generations, c);
    case Discard(j, now) =>
      DiscardKeepsStructure(w, s, j, now);
      SamePublishedFrame(s.generations, DiscardRebuild(s, j, now).store.generations, c);
  }

  lemma InstallationElsewhere(w: World, s: Store, a: Action, c: CityId)
    requires Structured(w, s) && a.Install? && !PublishesIn(w, s, a, c)
    ensures PublishedOf(Step(w, s, a).generations, c) == PublishedOf(s.generations, c)
  {
    hide ValidOutbox, ValidJobs, ValidExpirations, ValidGenerations, PublishedOf, PublishRebuild, Promote;
    var j, now := a.job, a.now;
    if PublishRebuild(w, s, j, now).reply.JobDone? {
      PublicationShape(w, s, j, now);
      JobsAreValid(w, s.generations, s.jobs, j);
      PromoteFrame(s.generations, s.jobs[j].base, s.jobs[j].candidate.value, s.jobs[j].city, c, now);
    } else {
      RefusedChangesNothing(w, s, j, now);
    }
  }

  lemma RefusedChangesNothing(w: World, s: Store, j: JobId, now: Time)
    requires !PublishRebuild(w, s, j, now).reply.JobDone?
    ensures PublishRebuild(w, s, j, now).store == s
  {}

  lemma QuietKeepsGenerations(w: World, s: Store, a: Action)
    requires a.Write? || a.ReportFailure? || a.Rescore?
    ensures Step(w, s, a).generations == s.generations
  {
    hide Rescored, WithRating, WithDecision, WithRow, WithNewRow, NewEvent, CurrentBody, UpsertChangesContribution, RatingChanges, FailedOnce;
  }

  /** A city has a published generation after a transaction if and only if it had one or the transaction publishes it. */
  lemma StepPublishesIff(w: World, s: Store, a: Action, c: CityId)
    requires Structured(w, s)
    ensures PublishedOf(Step(w, s, a).generations, c).Some? <==> PublishedOf(s.generations, c).Some? || PublishesIn(w, s, a, c)
    ensures !PublishesIn(w, s, a, c) ==> PublishedOf(Step(w, s, a).generations, c) == PublishedOf(s.generations, c)
  {
    hide Structured, Step, PublishesIn, PublishedOf;
    if PublishesIn(w, s, a, c) {
      PublishingPublishes(w, s, a, c);
    } else {
      match a
      case Work(_, _, _) => WorkElsewhere(w, s, a, c);
      case Expire(_, _) => ExpirationElsewhere(w, s, a, c);
      case Republish(_, _) => RepublicationElsewhere(w, s, a, c);
      case Stage(_, _, _) => StagedElsewhere(w, s, a, c);
      case Install(_, _) => InstallationElsewhere(w, s, a, c);
      case Discard(_, _) => StagedElsewhere(w, s, a, c);
      case _ => QuietKeepsGenerations(w, s, a);
    }
  }

  /** The city has exactly one published generation. */
  ghost predicate OneIsPublished(s: Store, c: CityId) {
    exists i: nat :: IsPublished(s.generations, i, c) && forall j: nat :: IsPublished(s.generations, j, c) ==> j == i
  }

  lemma OneIsPublishedIff(w: World, s: Store, c: CityId)
    requires Structured(w, s)
    ensures OneIsPublished(s, c) <==> PublishedOf(s.generations, c).Some?
  {
    assert OnePublished(s.generations);
    hide Structured;
    if PublishedOf(s.generations, c).Some? {
      assert IsPublished(s.generations, PublishedOf(s.generations, c).value, c);
    }
  }

  /**
   The audit rule over runs from the empty database: a city has exactly one published
   generation if and only if some transaction so far has published it.
   */
  lemma {:induction false} CityIsPublishedIff(w: World, actions: seq<Action>, n: nat, c: CityId)
    requires n <= |actions|
    ensures OneIsPublished(Run(w, EMPTY, actions, n), c)
       <==> exists m: nat :: m < n && PublishesIn(w, Run(w, EMPTY, actions, m), actions[m], c)
  {
    hide Structured, Step, PublishesIn, PublishedOf, OneIsPublished;
    EmptyIsStructured(w);
    RunKeepsStructure(w, EMPTY, actions, n, n);
    OneIsPublishedIff(w, Run(w, EMPTY, actions, n), c);
    if n == 0 {
      assert PublishedOf(EMPTY.generations, c).None? by { NothingIsPublished(c); }
    } else {
      CityIsPublishedIff(w, actions, n - 1, c);
      RunKeepsStructure(w, EMPTY, actions, n - 1, n - 1);
      var before := Run(w, EMPTY, actions, n - 1);
      OneIsPublishedIff(w, before, c);
      StepPublishesIff(w, before, actions[n - 1], c);
    }
  }

  lemma NothingIsPublished(c: CityId)
    ensures PublishedOf(EMPTY.generations, c).None?
  {}
}
