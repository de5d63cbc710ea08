/** The audit's rules about idempotency records: the result a record names exists. */
module Answers {
  import opened Tables
  import opened Scoring
  import opened Writes
  import opened Histories
  import opened Leaderboard
  import opened Outbox
  import opened Rebuild
  import opened Expiration
  import opened System

  /** The stored body fits the stored request, and the review or decision it names is there. */
  ghost predicate PointsAtResult(rt: Reviews, rec: RequestRecord) {
    && !rec.body.replay
    && rec.body.review < |rt.rows|
    && var row := rt.rows[rec.body.review];
       match rec.request
       case Upsert(trip, _, rating) =>
         && rec.body.ReviewBody? && rec.body.trip == row.trip == trip
         && 1 <= rec.body.version <= |row.versions| && row.versions[rec.body.version - 1].rating == rec.body.rating == rating
       case Delete(trip, _) => rec.body.DeletionBody? && rec.body.trip == row.trip == trip
       case Moderate(review, moderator, action, reason) =>
         && rec.body.DecisionBody? && rec.body.review == review
         && 1 <= rec.body.number <= |row.decisions|
         && var d := row.decisions[rec.body.number - 1];
            d.action == action && d.moderator == moderator && d.reason == reason && d.changedState == rec.body.changedState
  }

  ghost predicate RecordsPoint(s: Store) {
    forall key :: key in s.requests ==> PointsAtResult(s.reviews, s.requests[key])
  }

  /** What a record names stays there. */
  lemma ResultsStay(rt: Reviews, rt': Reviews, rec: RequestRecord)
    requires PointsAtResult(rt, rec) && AllExtend(rt, rt')
    ensures PointsAtResult(rt', rec)
  {
    assert Extends(rt.rows[rec.body.review], rt'.rows[rec.body.review]);
  }

  /** An accepted request records what it has just written. */
  lemma NewRecordPoints(w: World, s: Store, request: Request, key: Key, now: Time)
    requires ValidReviews(w, s.reviews) && key !in s.requests
    requires Submit(w, s, request, key, now).reply.Accepted?
    ensures var o := Submit(w, s, request, key, now);
            && key in o.store.requests && PointsAtResult(o.store.reviews, o.store.requests[key])
            && (forall k :: k in o.store.requests && k != key ==> k in s.requests && o.store.requests[k] == s.requests[k])
  {
    hide Submit, PointsAtResult;
    RecordIsAnswer(w, s, request, key, now);
    match request
    case Upsert(_, _, _) => UpsertRecordPoints(w, s, request, key, now);
    case Delete(_, _) => DeleteRecordPoints(w, s, request, key, now);
    case Moderate(_, _, _, _) => DecisionRecordPoints(w, s, request, key, now);
  }

  lemma UpsertRecordPoints(w: World, s: Store, request: Request, key: Key, now: Time)
    requires request.Upsert? && ValidReviews(w, s.reviews) && key !in s.requests
    requires Submit(w, s, request, key, now).reply.Accepted?
    ensures var o := Submit(w, s, request, key, now);
            !o.reply.body.replay ==> PointsAtResult(o.store.reviews, RequestRecord(request, o.reply.created, o.reply.body))
  {
    hide Submit, AllExtend, NotifiesIffChanged, ValidDecisions, IntendedContribution, Contribution;
    UpsertAnswerIsTrue(w, s, request, key, now);
    AcceptedWriteIsSound(w, s, request, key, now);
    var o := Submit(w, s, request, key, now);
    assert ValidReview(w, o.store.reviews.rows[o.reply.body.review]);
  }

  lemma DeleteRecordPoints(w: World, s: Store, request: Request, key: Key, now: Time)
    requires request.Delete? && key !in s.requests
    requires Submit(w, s, request, key, now).reply.Accepted?
    ensures var o := Submit(w, s, request, key, now);
            !o.reply.body.replay ==> PointsAtResult(o.store.reviews, RequestRecord(request, o.reply.created, o.reply.body))
  {
    hide Submit;
    DeleteAnswerIsTrue(w, s, request, key, now);
  }

  lemma DecisionRecordPoints(w: World, s: Store, request: Request, key: Key, now: Time)
    requires request.Moderate? && ValidReviews(w, s.reviews) && key !in s.requests
    requires Submit(w, s, request, key, now).reply.Accepted?
    ensures var o := Submit(w, s, request, key, now);
            !o.reply.body.replay ==> PointsAtResult(o.store.reviews, RequestRecord(request, o.reply.created, o.reply.body))
  {
    hide Submit, ValidReviews;
    DecisionAnswerIsTrue(w, s, request, key, now);
  }

  lemma RecordIsAnswer(w: World, s: Store, request: Request, key: Key, now: Time)
    requires key !in s.requests && Submit(w, s, request, key, now).reply.Accepted?
    ensures var o := Submit(w, s, request, key, now);
            && o.store.requests == s.requests[key := RequestRecord(request, o.reply.created, o.reply.body)]
            && !o.reply.body.replay
  {
    hide WithRating, WithDecision, WithRow, WithNewRow, NewEvent, CurrentBody, UpsertChangesContribution, RatingChanges, Rejection;
  }

  lemma WriteKeepsRecords(w: World, s: Store, a: Action)
    requires Structured(w, s) && RecordsPoint(s) && a.Write?
    ensures RecordsPoint(Step(w, s, a))
  {
    assert ValidReviews(w, s.reviews);
    hide Structured, Submit, PointsAtResult, AllExtend, AllEvolve, ValidReviews;
    WriteKeepsStructure(w, s, a.request, a.key, a.now);
    SubmitChangesOnlyWhenAccepted(w, s, a.request, a.key, a.now);
    var o := Submit(w, s, a.request, a.key, a.now);
    if o.reply.Accepted? && a.key !in s.requests {
      NewRecordPoints(w, s, a.request, a.key, a.now);
      forall key | key in o.store.requests ensures PointsAtResult(o.store.reviews, o.store.requests[key]) {
        if key != a.key {
          ResultsStay(s.reviews, o.store.reviews, s.requests[key]);
        }
      }
    }
  }

  lemma OtherStepsKeepRecords(w: World, s: Store, a: Action)
    requires !a.Write?
    ensures Step(w, s, a).requests == s.requests && Step(w, s, a).reviews == s.reviews
  {
    hide Rescored, ChangedKeys, Publish, NewJob, CandidateGeneration, Promote, Rebuild.Installed, PublishedOf, HasActive,
         Claimable, ScoresAfter, PublishAll, EventsAfter, LedgerAfter, CityOrder, Drop;
  }

  /**
   In every reachable state every idempotency record belongs to the operation it was made
   for, and the version, deletion target or decision that it names exists with that content.
   */
  lemma {:induction false} EveryReachableRecordPointsAtItsResult(w: World, actions: seq<Action>, n: nat)
    requires n <= |actions|
    ensures RecordsPoint(Run(w, EMPTY, actions, n))
  {
    hide Structured, Step, PointsAtResult;
    if n > 0 {
      EveryReachableRecordPointsAtItsResult(w, actions, n - 1);
      EmptyIsStructured(w);
      RunKeepsStructure(w, EMPTY, actions, n - 1, n - 1);
      var before := Run(w, EMPTY, actions, n - 1);
      if actions[n - 1].Write? {
        WriteKeepsRecords(w, before, actions[n - 1]);
      } else {
        OtherStepsKeepRecords(w, before, actions[n - 1]);
      }
    }
  }
}
