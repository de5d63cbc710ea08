/** Expiration runs, and exactly when every score is at least as recent as the runs of its city. */
module Coverage {
  import opened Tables
  import opened Scoring
  import opened Writes
  import opened Histories
  import opened Leaderboard
  import opened Outbox
  import opened Rebuild
  import opened Expiration
  import opened System
  import opened Consistency

  /**
   One expiration run: every driver of the city is exact at the effective time and no other
   row changes, the counter is the number of drivers whose sum, count or eligibility differ
   from before, and exactly one generation is published if and only if that is positive.
   */
  lemma ExpirationIsExact(w: World, s: Store, c: CityId, at: Time)
    requires Structured(w, s)
    requires RunExpiration(w, s, c, at).reply.Ran?
    ensures var s' := RunExpiration(w, s, c, at).store;
            && |s'.expirations| == |s.expirations| + 1
            && (forall k :: k in CityKeys(w, c) ==> k in s'.scores && s'.scores[k] == Recalculated(w, s.reviews, k, at))
            && (forall k :: k !in CityKeys(w, c) ==> (k in s'.scores <==> k in s.scores) && (k in s.scores ==> s'.scores[k] == s.scores[k]))
            && var run := s'.expirations[|s.expirations|];
               && run.city == c && run.effectiveAt == at
               && run.affected == |set k | k in CityKeys(w, c) && Ranking3(s.scores, k) != Ranking3(s'.scores, k)|
               && |s'.generations| == |s.generations| + (if run.affected > 0 then 1 else 0)
               && (run.affected > 0 ==> run.generation == Some(|s.generations|) && PublishedOf(s'.generations, c) == run.generation
                                        && s'.generations[|s.generations|].entries == LiveBoard(w, s'.scores, c))
               && (run.affected == 0 ==> run.generation == None && s'.generations == s.generations)
  {
    var s' := RunExpiration(w, s, c, at).store;
    hide Recalculated, LiveBoard, CityKeys;
    PublishIsSound(w, s'.scores, s.generations, c, at);
    hide AllEvolve, ValidGenerations;
    assert ChangedKeys(s.scores, s'.scores, CityKeys(w, c))
        == set k | k in CityKeys(w, c) && Ranking3(s.scores, k) != Ranking3(s'.scores, k);
  }

  /** Whatever happens in between, repeating the same city and time changes nothing. */
  lemma RepeatedExpirationIsSilent(w: World, s: Store, c: CityId, at: Time, later: Store)
    requires !RunExpiration(w, s, c, at).reply.NotRun?
    requires Succeeds(RunExpiration(w, s, c, at).store, later)
    ensures RunExpiration(w, later, c, at).store == later
    ensures RunExpiration(w, later, c, at).reply.AlreadyRan?
  {
    hide Rescored, Publish, AllExtend, AllEvolve, ChangedKeys, CityKeys;
    var o := RunExpiration(w, s, c, at);
    var r := o.reply.run;
    assert r < |o.store.expirations| && o.store.expirations[r].city == c && o.store.expirations[r].effectiveAt == at;
    assert later.expirations[r] == o.store.expirations[r];
  }

  // ---------- scores cover the latest expiration ----------

  /** The audit rule that no score of the city is older than an expiration run of the city. */
  ghost predicate Covered(s: Store, c: CityId) {
    forall k, r :: k in s.scores && k.city == c && 0 <= r < |s.expirations| && s.expirations[r].city == c
                   ==> s.expirations[r].effectiveAt <= s.scores[k].calculatedAt
  }

  ghost predicate NotBeforeRuns(runs: seq<ExpirationRun>, c: CityId, at: Time) {
    forall r :: 0 <= r < |runs| && runs[r].city == c ==> runs[r].effectiveAt <= at
  }

  /** Rows of the city that belong to drivers of other cities; an expiration does not move them. */
  ghost predicate HasForeignRow(w: World, s: Store, c: CityId, k: DriverKey) {
    k in s.scores && k.city == c && k !in CityKeys(w, c)
  }

  /**
   A run leaves the city covered exactly when no earlier run of the city had a later time
   (unless the city has no driver), and every row it does not move is recent enough.
   */
  lemma ExpirationCoversIff(w: World, s: Store, c: CityId, at: Time)
    requires RunExpiration(w, s, c, at).reply.Ran?
    ensures Covered(RunExpiration(w, s, c, at).store, c)
       <==> && (CityKeys(w, c) != {} ==> NotBeforeRuns(s.expirations, c, at))
            && (forall k :: HasForeignRow(w, s, c, k) ==>
                  at <= s.scores[k].calculatedAt && NotBeforeRuns(s.expirations, c, s.scores[k].calculatedAt))
  {
    var s' := RunExpiration(w, s, c, at).store;
    ExpirationRows(w, s, c, at);
    hide RunExpiration, CityKeys;
    RowsCoverIff(s', c);
    MoreRuns(s.expirations, s'.expirations, c, at);
    forall k | k in s'.scores && k.city == c
      ensures k in CityKeys(w, c) ==> s'.scores[k].calculatedAt == at
      ensures k !in CityKeys(w, c) ==> HasForeignRow(w, s, c, k) && s'.scores[k] == s.scores[k]
    {}
    if CityKeys(w, c) != {} {
      var k :| k in CityKeys(w, c);
      assert k in s'.scores && k.city == c;
    }
    assert forall k :: HasForeignRow(w, s, c, k) ==> k in s'.scores && s'.scores[k] == s.scores[k];
  }

  lemma ExpirationRows(w: World, s: Store, c: CityId, at: Time)
    requires RunExpiration(w, s, c, at).reply.Ran?
    ensures var s' := RunExpiration(w, s, c, at).store;
            && s'.scores == Rescored(w, s.reviews, s.scores, CityKeys(w, c), at)
            && |s'.expirations| == |s.expirations| + 1 && s.expirations <= s'.expirations
            && s'.expirations[|s.expirations|].city == c && s'.expirations[|s.expirations|].effectiveAt == at
    ensures forall k :: k in CityKeys(w, c) ==> k.city == c
  {
    hide Publish, ChangedKeys, Recalculated;
  }

  /** A city is covered when each of its rows is at least as late as every run. */
  lemma RowsCoverIff(s: Store, c: CityId)
    ensures Covered(s, c) <==> forall k :: k in s.scores && k.city == c ==> NotBeforeRuns(s.expirations, c, s.scores[k].calculatedAt)
  {
    if Covered(s, c) {
      forall k | k in s.scores && k.city == c ensures NotBeforeRuns(s.expirations, c, s.scores[k].calculatedAt) {}
    }
  }

  lemma MoreRuns(runs: seq<ExpirationRun>, runs': seq<ExpirationRun>, c: CityId, at: Time)
    requires |runs'| == |runs| + 1 && runs <= runs' && runs'[|runs|].city == c && runs'[|runs|].effectiveAt == at
    ensures forall t :: NotBeforeRuns(runs', c, t) <==> NotBeforeRuns(runs, c, t) && at <= t
  {
    forall t | NotBeforeRuns(runs', c, t) ensures NotBeforeRuns(runs, c, t) && at <= t {
      forall r | 0 <= r < |runs| && runs[r].city == c ensures runs[r].effectiveAt <= t {
        assert runs'[r] == runs[r];
      }
    }
  }

  /** The bare rescore leaves the city covered exactly when its time is not before any run of the city. */
  lemma RescoreCoversIff(w: World, s: Store, c: CityId, at: Time)
    ensures Covered(RescoreCity(w, s, c, at), c) <==> (CityKeys(w, c) != {} ==> NotBeforeRuns(s.expirations, c, at))
  {
    var s' := RescoreCity(w, s, c, at);
    RescoredRowsAreNew(w, s, c, at);
    hide RescoreCity, CityKeys;
    RowsCoverIff(s', c);
    if CityKeys(w, c) != {} {
      var k :| k in CityKeys(w, c);
      assert k in s'.scores && k.city == c;
    }
  }

  lemma RescoredRowsAreNew(w: World, s: Store, c: CityId, at: Time)
    ensures var s' := RescoreCity(w, s, c, at);
            && s'.expirations == s.expirations
            && (forall k: DriverKey :: k in CityKeys(w, c) <==> k in s'.scores && k.city == c)
            && (forall k :: k in CityKeys(w, c) ==> s'.scores[k].calculatedAt == at)
  {
    hide Aggregate;
  }

  /** Installing a rebuild leaves the city covered exactly when no run of the city is later than the job's time. */
  lemma InstallCoversIff(w: World, s: Store, j: JobId, now: Time)
    requires PublishRebuild(w, s, j, now).reply.JobDone?
    ensures j < |s.jobs|
    ensures Covered(PublishRebuild(w, s, j, now).store, s.jobs[j].city)
       <==> (s.jobs[j].scores != map[] ==> NotBeforeRuns(s.expirations, s.jobs[j].city, s.jobs[j].calculatedAt))
  {
    hide Promote, PublishRebuild;
    PublicationShape(w, s, j, now);
    var s', job := PublishRebuild(w, s, j, now).store, s.jobs[j];
    RowsCoverIff(s', job.city);
    forall k | k in s'.scores && k.city == job.city ensures k.driver in job.scores && s'.scores[k].calculatedAt == job.calculatedAt {}
    if job.scores != map[] {
      var d :| d in job.scores;
      assert DriverKey(job.city, d) in s'.scores;
    }
  }

  /** A batch at any time keeps a covered city covered exactly when it recalculates nothing there or its time is not before any run. */
  lemma WorkCoversIff(w: World, s: Store, ids: seq<EventId>, at: Time, c: CityId)
    requires Covered(s, c)
    ensures Covered(ProcessBatch(w, s, ids, at), c)
       <==> (c in AffectedCities(s.events, s.ledger, ids) ==> NotBeforeRuns(s.expirations, c, at))
  {
    hide PublishAll, CityOrder, EventsAfter, LedgerAfter, Aggregate, Affected;
    var s' := ProcessBatch(w, s, ids, at);
    RowsCoverIff(s, c);
    RowsCoverIff(s', c);
    if c in AffectedCities(s.events, s.ledger, ids) {
      var k :| k in Affected(s.events, s.ledger, ids) && k.city == c;
      assert k in s'.scores && s'.scores[k].calculatedAt == at;
    }
  }

  /** The worker's own choice of time never uncovers a city. */
  lemma WorkKeepsCovered(w: World, s: Store, ids: seq<EventId>, now: Time, c: CityId)
    requires Covered(s, c)
    ensures Covered(ProcessBatch(w, s, ids, BatchTime(s, ids, None, now)), c)
  {
    hide PublishAll, CityOrder, EventsAfter, LedgerAfter, Aggregate;
    var at := BatchTime(s, ids, None, now);
    var cs := ClaimedCities(s.events, ids);
    LatestExpirationBounds(s.expirations, cs, |s.expirations|);
    var s' := ProcessBatch(w, s, ids, at);
    forall k, r | k in s'.scores && k.city == c && 0 <= r < |s'.expirations| && s'.expirations[r].city == c
      ensures s'.expirations[r].effectiveAt <= s'.scores[k].calculatedAt
    {
      if k in Affected(s.events, s.ledger, ids) {
        assert c in cs;
      }
    }
  }

  // ---------- all transactions ----------

  /**
   What a transaction must look like, before it is made, to leave a covered city covered:
   whatever writes score rows of the city writes them at a time not before any run of the
   city, and an expiration is not later than the rows it does not move.
   */
  ghost predicate KeepsCovered(w: World, s: Store, a: Action, c: CityId) {
    match a
    case Work(claimed, availableAt, at) =>
      Claimable(s.events, claimed, availableAt) && c in AffectedCities(s.events, s.ledger, claimed) ==> NotBeforeRuns(s.expirations, c, at)
    case Expire(city, at) =>
      city == c && c in w.cities && FindRun(s.expirations, c, at, |s.expirations|).None? ==>
        && (CityKeys(w, c) != {} ==> NotBeforeRuns(s.expirations, c, at))
        && (forall k :: HasForeignRow(w, s, c, k) ==> at <= s.scores[k].calculatedAt)
    case Install(j, _) =>
      j < |s.jobs| && s.jobs[j].city == c && Installable(s, s.jobs[j]) && CityKeys(w, c) != {} ==>
        NotBeforeRuns(s.expirations, c, s.jobs[j].calculatedAt)
    case Rescore(city, at) => city == c && CityKeys(w, c) != {} ==> NotBeforeRuns(s.expirations, c, at)
    case _ => true
  }

  /** Whatever leaves the city's rows and runs alone leaves it covered or not, as it was. */
  lemma CoverFrame(s: Store, s': Store, c: CityId)
    requires forall k: DriverKey :: k.city == c ==> (k in s'.scores <==> k in s.scores)
    requires forall k: DriverKey :: k.city == c && k in s.scores ==> s'.scores[k] == s.scores[k]
    requires s.expirations <= s'.expirations
    requires forall r :: |s.expirations| <= r < |s'.expirations| ==> s'.expirations[r].city != c
    ensures Covered(s', c) <==> Covered(s, c)
  {
    if Covered(s', c) {
      forall k, r | k in s.scores && k.city == c && 0 <= r < |s.expirations| && s.expirations[r].city == c
        ensures s.expirations[r].effectiveAt <= s.scores[k].calculatedAt
      {
        assert s'.expirations[r] == s.expirations[r];
      }
    }
  }

  lemma ExpireCoversIff(w: World, s: Store, a: Action, c: CityId)
    requires a.Expire? && Covered(s, c)
    ensures Covered(Step(w, s, a), c) <==> KeepsCovered(w, s, a, c)
  {
    RowsCoverIff(s, c);
    if a.city == c && RunExpiration(w, s, c, a.effectiveAt).reply.Ran? {
      ExpirationCoversIff(w, s, c, a.effectiveAt);
      hide Covered, NotBeforeRuns, CityKeys;
    } else {
      if RunExpiration(w, s, a.city, a.effectiveAt).reply.Ran? {
        ExpirationRows(w, s, a.city, a.effectiveAt);
      }
      hide Covered, NotBeforeRuns, CityKeys, ChangedKeys, Publish, Recalculated;
      CoverFrame(s, Step(w, s, a), c);
    }
  }

  lemma JobCoversIff(w: World, s: Store, a: Action, c: CityId)
    requires a.Install? && Covered(s, c) && Structured(w, s)
    ensures Covered(Step(w, s, a), c) <==> KeepsCovered(w, s, a, c)
  {
    hide Covered, NotBeforeRuns, PublishRebuild, Structured, ValidGenerations, ValidJobs, Installable, CityKeys, Promote;
    JobsOfStructured(w, s);
    PublishesExactlyWhenInstallable(w, s, a.job, a.now);
    InstallIsStep(w, s, a);
    hide Step;
    if PublishRebuild(w, s, a.job, a.now).reply.JobDone? {
      if s.jobs[a.job].city == c {
        InstallCoversIff(w, s, a.job, a.now);
        JobHoldsCityDrivers(w, s, a.job);
      } else {
        InstallElsewhereFrame(w, s, a.job, a.now, c);
      }
    }
  }

  lemma JobsOfStructured(w: World, s: Store)
    requires Structured(w, s)
    ensures ValidGenerations(s.generations) && ValidJobs(w, s.generations, s.jobs)
  {
    hide ValidGenerations, ValidJobs;
  }

  lemma InstallIsStep(w: World, s: Store, a: Action)
    requires a.Install?
    ensures Step(w, s, a) == PublishRebuild(w, s, a.job, a.now).store
  {
    hide PublishRebuild;
  }

  lemma InstallElsewhereFrame(w: World, s: Store, j: JobId, now: Time, c: CityId)
    requires PublishRebuild(w, s, j, now).reply.JobDone? && j < |s.jobs| && s.jobs[j].city != c
    ensures Covered(PublishRebuild(w, s, j, now).store, c) <==> Covered(s, c)
  {
    hide Covered, PublishRebuild, Promote;
    PublicationShape(w, s, j, now);
    CoverFrame(s, PublishRebuild(w, s, j, now).store, c);
  }

  lemma JobHoldsCityDrivers(w: World, s: Store, j: JobId)
    requires ValidJobs(w, s.generations, s.jobs) && j < |s.jobs|
    ensures s.jobs[j].scores != map[] <==> CityKeys(w, s.jobs[j].city) != {}
  {
    hide CandidateBoard;
    var job := s.jobs[j];
    assert ValidJob(w, s.generations, job);
    if job.scores != map[] {
      var d :| d in job.scores;
      assert DriverKey(job.city, d) in CityKeys(w, job.city);
    }
    if CityKeys(w, job.city) != {} {
      var k :| k in CityKeys(w, job.city);
      assert k.driver in job.scores;
    }
  }

  lemma RescoreStepCoversIff(w: World, s: Store, a: Action, c: CityId)
    requires a.Rescore? && Covered(s, c)
    ensures Covered(Step(w, s, a), c) <==> KeepsCovered(w, s, a, c)
  {
    hide Covered, NotBeforeRuns, Recalculated, CityDrivers;
    if a.city == c {
      RescoreCoversIff(w, s, c, a.at);
    } else {
      CoverFrame(s, Step(w, s, a), c);
    }
  }

  lemma QuietStepCovers(w: World, s: Store, a: Action, c: CityId)
    requires a.Write? || a.ReportFailure? || a.Stage? || a.Discard? || a.Republish?
    ensures Covered(Step(w, s, a), c) <==> Covered(s, c)
  {
    hide Covered, NewJob, CandidateGeneration, HasActive, PublishedOf, Publish, Drop, WithRating, WithDecision, WithRow, WithNewRow,
         NewEvent, CurrentBody, UpsertChangesContribution, RatingChanges;
    CoverFrame(s, Step(w, s, a), c);
  }

  /** The audit rule under each transaction: a covered city stays covered if and only if the transaction keeps it so. */
  lemma StepCoversIff(w: World, s: Store, a: Action, c: CityId)
    requires Structured(w, s) && Covered(s, c)
    ensures Covered(Step(w, s, a), c) <==> KeepsCovered(w, s, a, c)
  {
    hide Structured, Covered, NotBeforeRuns, Step;
    match a
    case Work(claimed, availableAt, at) => WorkStepCoversIff(w, s, a, c);
    case Expire(_, _) => ExpireCoversIff(w, s, a, c);
    case Install(_, _) => JobCoversIff(w, s, a, c);
    case Rescore(_, _) => RescoreStepCoversIff(w, s, a, c);
    case _ => QuietStepCovers(w, s, a, c);
  }

  lemma WorkStepCoversIff(w: World, s: Store, a: Action, c: CityId)
    requires a.Work? && Covered(s, c)
    ensures Covered(Step(w, s, a), c) <==> KeepsCovered(w, s, a, c)
  {
    hide Covered, NotBeforeRuns, ProcessBatch, Claimable, AffectedCities;
    WorkCoversIff(w, s, a.claimed, a.at, c);
  }

  ghost predicate AlwaysCovered(w: World, actions: seq<Action>, n: nat, c: CityId)
    requires n <= |actions|
  {
    forall m: nat :: m <= n ==> Covered(Run(w, EMPTY, actions, m), c)
  }

  ghost predicate AlwaysKept(w: World, actions: seq<Action>, n: nat, c: CityId)
    requires n <= |actions|
  {
    forall m: nat :: m < n ==> KeepsCovered(w, Run(w, EMPTY, actions, m), actions[m], c)
  }

  /**
   The audit rule over runs: a city is covered in every state of a run that starts with an
   empty database if and only if every transaction keeps it so.
   */
  lemma {:induction false} RunCoversIff(w: World, actions: seq<Action>, n: nat, c: CityId)
    requires n <= |actions|
    ensures AlwaysCovered(w, actions, n, c) <==> AlwaysKept(w, actions, n, c)
  {
    hide Structured, Step, KeepsCovered, Covered;
    if n == 0 {
      assert Covered(EMPTY, c) by { EmptyIsCovered(c); }
    } else {
      RunCoversIff(w, actions, n - 1, c);
      EmptyIsStructured(w);
      RunKeepsStructure(w, EMPTY, actions, n - 1, n - 1);
      var before := Run(w, EMPTY, actions, n - 1);
      assert Run(w, EMPTY, actions, n) == Step(w, before, actions[n - 1]);
      if Covered(before, c) {
        StepCoversIff(w, before, actions[n - 1], c);
      }
      assert AlwaysCovered(w, actions, n, c) <==> AlwaysCovered(w, actions, n - 1, c) && Covered(Run(w, EMPTY, actions, n), c);
      assert AlwaysKept(w, actions, n, c) <==> AlwaysKept(w, actions, n - 1, c) && KeepsCovered(w, before, actions[n - 1], c);
    }
  }

  lemma EmptyIsCovered(c: CityId)
    ensures Covered(EMPTY, c)
  {}
}
