/** The audit rule that the candidates of a ready rebuild equal the current aggregates, and exactly when it breaks. */
module Candidates {
  import opened Tables
  import opened Scoring
  import opened Writes
  import opened Histories
  import opened Leaderboard
  import opened Outbox
  import opened Rebuild
  import opened Expiration
  import opened System
  import opened Consistency

  // ---------- one changed trip ----------

  function PartOf(contribution: Option<int>): Totals {
    match contribution
    case None => Totals(0, 0)
    case Some(rating) => Totals(rating, 1)
  }

  /** The trip is one that an aggregate of this driver and window looks at. */
  predicate LooksAt(w: World, k: DriverKey, lo: Time, hi: Time, t: TripId)
    requires t < |w.trips|
  {
    w.trips[t].city == k.city && w.trips[t].driver == k.driver && lo <= w.trips[t].completedAt <= hi
  }

  /** When one trip's contribution changes, an aggregate changes by just that, if it looks at the trip. */
  lemma {:induction false} OneTripsPart(w: World, rt: Reviews, rt': Reviews, k: DriverKey, lo: Time, hi: Time, t: TripId, n: nat)
    requires n <= |w.trips| && t < |w.trips|
    requires forall u :: u != t ==> Contribution(rt', u) == Contribution(rt, u)
    ensures var before, after := AggregateUpTo(w, rt, k, lo, hi, n), AggregateUpTo(w, rt', k, lo, hi, n);
            if t < n && LooksAt(w, k, lo, hi, t)
            then && after.sum - before.sum == PartOf(Contribution(rt', t)).sum - PartOf(Contribution(rt, t)).sum
                 && after.count - before.count == PartOf(Contribution(rt', t)).count - PartOf(Contribution(rt, t)).count
            else after == before
  {
    hide Contribution;
    if n > 0 {
      OneTripsPart(w, rt, rt', k, lo, hi, t, n - 1);
    }
  }

  lemma AggregateChangesIff(w: World, rt: Reviews, rt': Reviews, k: DriverKey, lo: Time, hi: Time, t: TripId)
    requires t < |w.trips|
    requires forall u :: u != t ==> Contribution(rt', u) == Contribution(rt, u)
    ensures Aggregate(w, rt', k, lo, hi) != Aggregate(w, rt, k, lo, hi)
       <==> LooksAt(w, k, lo, hi, t) && Contribution(rt', t) != Contribution(rt, t)
  {
    OneTripsPart(w, rt, rt', k, lo, hi, t, |w.trips|);
    hide Contribution, AggregateUpTo;
  }

  // ---------- one job ----------

  /** Every candidate of the job is the aggregate, at the job's time, of the reviews as they are now. */
  ghost predicate CandidatesExact(w: World, rt: Reviews, job: Job) {
    forall d :: d in job.scores ==> CandidateExact(w, rt, DriverKey(job.city, d), job.scores[d], job.calculatedAt)
  }

  /** The request changes the contribution of a trip that the job has counted for one of its drivers. */
  predicate Corrects(w: World, s: Store, request: Request, job: Job)
    requires request.Moderate? ==> request.review < |s.reviews.rows|
  {
    var t := Subject(s, request);
    && t < |w.trips| && w.trips[t].driver in job.scores
    && LooksAt(w, DriverKey(job.city, w.trips[t].driver), job.calculatedAt - WINDOW, job.calculatedAt, t)
    && IntendedContribution(s, request) != Contribution(s.reviews, t)
  }

  lemma ChangedCandidates(w: World, rt: Reviews, rt': Reviews, job: Job, t: TripId)
    requires t < |w.trips| && CandidatesExact(w, rt, job)
    requires forall u :: u != t ==> Contribution(rt', u) == Contribution(rt, u)
    ensures CandidatesExact(w, rt', job)
       <==> !(w.trips[t].driver in job.scores && Contribution(rt', t) != Contribution(rt, t)
              && LooksAt(w, DriverKey(job.city, w.trips[t].driver), job.calculatedAt - WINDOW, job.calculatedAt, t))
  {
    hide Contribution, Aggregate;
    forall d | d in job.scores
      ensures CandidateExact(w, rt', DriverKey(job.city, d), job.scores[d], job.calculatedAt)
         <==> !(LooksAt(w, DriverKey(job.city, d), job.calculatedAt - WINDOW, job.calculatedAt, t) && Contribution(rt', t) != Contribution(rt, t))
    {
      assert CandidateExact(w, rt, DriverKey(job.city, d), job.scores[d], job.calculatedAt);
      AggregateChangesIff(w, rt, rt', DriverKey(job.city, d), job.calculatedAt - WINDOW, job.calculatedAt, t);
    }
  }

  /** An accepted request leaves a job's candidates exact if and only if it does not correct a counted trip. */
  lemma WriteKeepsCandidatesIff(w: World, s: Store, request: Request, key: Key, now: Time, job: Job)
    requires ValidReviews(w, s.reviews) && key !in s.requests && Acceptable(w, s, request)
    requires CandidatesExact(w, s.reviews, job)
    ensures CandidatesExact(w, Submit(w, s, request, key, now).store.reviews, job) <==> !Corrects(w, s, request, job)
  {
    hide Submit, Contribution, CandidatesExact, IntendedContribution, ValidReviews, AllExtend;
    AcceptedExactlyWhen(w, s, request, key, now);
    AcceptedWriteIsSound(w, s, request, key, now);
    ChangedCandidates(w, s.reviews, Submit(w, s, request, key, now).store.reviews, job, Subject(s, request));
  }

  // ---------- all transactions ----------

  /** The audit rule: the candidates of every ready job equal the current aggregates. (Their eligibility fits their counts anyway; see `System.ValidJob`.) */
  ghost predicate ReadyAreExact(w: World, s: Store) {
    forall j :: 0 <= j < |s.jobs| && s.jobs[j].status == Ready ==> CandidatesExact(w, s.reviews, s.jobs[j])
  }

  /** The transaction is a new, acceptable request that corrects a trip counted by a ready job. */
  ghost predicate CorrectsReadyJob(w: World, s: Store, a: Action) {
    && a.Write? && a.key !in s.requests && Acceptable(w, s, a.request)
    && exists j :: 0 <= j < |s.jobs| && s.jobs[j].status == Ready && Corrects(w, s, a.request, s.jobs[j])
  }

  lemma WriteStepIff(w: World, s: Store, a: Action)
    requires Structured(w, s) && a.Write? && ReadyAreExact(w, s)
    ensures ReadyAreExact(w, Step(w, s, a)) <==> !CorrectsReadyJob(w, s, a)
  {
    hide CandidatesExact, Corrects, Submit, ValidReviews, ValidOutbox, ValidGenerations, ValidJobs, ValidExpirations;
    var s' := Step(w, s, a);
    WriteKeepsJobs(w, s, a);
    if a.key !in s.requests && Acceptable(w, s, a.request) {
      forall j | 0 <= j < |s.jobs| && s.jobs[j].status == Ready
        ensures CandidatesExact(w, s'.reviews, s.jobs[j]) <==> !Corrects(w, s, a.request, s.jobs[j])
      {
        WriteKeepsCandidatesIff(w, s, a.request, a.key, a.now, s.jobs[j]);
      }
    } else {
      SubmitChangesOnlyWhenAccepted(w, s, a.request, a.key, a.now);
      if a.key !in s.requests {
        AcceptedExactlyWhen(w, s, a.request, a.key, a.now);
      }
    }
  }

  lemma WriteKeepsJobs(w: World, s: Store, a: Action)
    requires a.Write?
    ensures Step(w, s, a).jobs == s.jobs
  {
    hide WithRating, WithDecision, WithRow, WithNewRow, NewEvent, CurrentBody, UpsertChangesContribution, RatingChanges;
  }

  /** A job that is ready after a transaction other than a write was ready before, or has just been staged. */
  lemma OtherStepsKeepSnapshots(w: World, s: Store, a: Action)
    requires !a.Write?
    ensures var s' := Step(w, s, a);
            && s'.reviews == s.reviews
            && forall j :: 0 <= j < |s'.jobs| && s'.jobs[j].status == Ready ==>
                 (j < |s.jobs| && s.jobs[j] == s'.jobs[j]) || CandidatesExact(w, s.reviews, s'.jobs[j])
  {
    hide CandidatesExact, Rescored, ChangedKeys, Publish, NewJob, CandidateGeneration, Promote, Rebuild.Installed, PublishedOf, HasActive,
         Claimable, ScoresAfter, PublishAll, EventsAfter, LedgerAfter, CityOrder, Drop;
    if a.Stage? && StartRebuild(w, s, a.city, a.calculatedAt, a.now).reply.JobDone? {
      StagedCandidatesAreExact(w, s, a);
    }
  }

  lemma StagedCandidatesAreExact(w: World, s: Store, a: Action)
    requires a.Stage? && StartRebuild(w, s, a.city, a.calculatedAt, a.now).reply.JobDone?
    ensures var job := NewJob(w, s, a.city, PublishedOf(s.generations, a.city).value, a.calculatedAt, a.now);
            CandidatesExact(w, s.reviews, job)
  {
    hide Aggregate, CandidateGeneration, Compare;
  }

  /** The audit rule under each transaction: it survives if and only if no counted trip is corrected. */
  lemma StepKeepsCandidateAuditIff(w: World, s: Store, a: Action)
    requires Structured(w, s) && ReadyAreExact(w, s)
    ensures ReadyAreExact(w, Step(w, s, a)) <==> !CorrectsReadyJob(w, s, a)
  {
    hide Structured, Step, CandidatesExact;
    if a.Write? {
      WriteStepIff(w, s, a);
    } else {
      OtherStepsKeepSnapshots(w, s, a);
    }
  }

  ghost predicate AlwaysExact(w: World, actions: seq<Action>, n: nat)
    requires n <= |actions|
  {
    forall m: nat :: m <= n ==> ReadyAreExact(w, Run(w, EMPTY, actions, m))
  }

  ghost predicate NeverCorrected(w: World, actions: seq<Action>, n: nat)
    requires n <= |actions|
  {
    forall m: nat :: m < n ==> !CorrectsReadyJob(w, Run(w, EMPTY, actions, m), actions[m])
  }

  /** Over runs from the empty database: the audit rule holds throughout if and only if no counted trip is ever corrected. */
  lemma {:induction false} CandidateAuditHoldsIff(w: World, actions: seq<Action>, n: nat)
    requires n <= |actions|
    ensures AlwaysExact(w, actions, n) <==> NeverCorrected(w, actions, n)
  {
    hide Structured, Step, ReadyAreExact, CorrectsReadyJob;
    if n == 0 {
      assert ReadyAreExact(w, EMPTY) by { NoJobsAreExact(w); }
    } else {
      CandidateAuditHoldsIff(w, actions, n - 1);
      EmptyIsStructured(w);
      RunKeepsStructure(w, EMPTY, actions, n - 1, n - 1);
      var before := Run(w, EMPTY, actions, n - 1);
      assert Run(w, EMPTY, actions, n) == Step(w, before, actions[n - 1]);
      if ReadyAreExact(w, before) {
        StepKeepsCandidateAuditIff(w, before, actions[n - 1]);
      }
      assert AlwaysExact(w, actions, n) <==> AlwaysExact(w, actions, n - 1) && ReadyAreExact(w, Run(w, EMPTY, actions, n));
      assert NeverCorrected(w, actions, n) <==> NeverCorrected(w, actions, n - 1) && !CorrectsReadyJob(w, before, actions[n - 1]);
    }
  }

  lemma NoJobsAreExact(w: World)
    ensures ReadyAreExact(w, EMPTY)
  {}
}
