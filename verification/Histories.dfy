/** What the authoritative writes keep, and when they must tell the worker. */
module Histories {
  import opened Tables
  import opened Scoring
  import opened Writes

  // ---------- append-only histories ----------

  /** Versions 1..n, exactly the last one current, neighbours with different ratings in 1..5. */
  ghost predicate ValidVersions(vs: seq<Version>) {
    && |vs| > 0
    && (forall i :: 0 <= i < |vs| ==> vs[i].version == i + 1)
    && (forall i :: 0 <= i < |vs| ==> (vs[i].isCurrent <==> i == |vs| - 1))
    && (forall i :: 0 <= i < |vs| ==> 1 <= vs[i].rating <= 5)
    && (forall i :: 0 < i < |vs| ==> vs[i].rating != vs[i - 1].rating)
  }

  /** The exclusion flag a decision log stands for. */
  function ExcludedAfter(ds: seq<Decision>, n: nat): bool
    requires n <= |ds|
  {
    if n == 0 then false
    else match ds[n - 1].action
         case Exclude => true
         case Restore => false
  }

  /** Decisions 1..m; each records whether it flipped the flag of the log before it. */
  ghost predicate ValidDecisions(ds: seq<Decision>) {
    && (forall i :: 0 <= i < |ds| ==> ds[i].number == i + 1)
    && (forall i :: 0 <= i < |ds| ==> (ds[i].changedState <==> ExcludedAfter(ds, i) != ExcludedAfter(ds, i + 1)))
  }

  ghost predicate ValidReview(w: World, r: Review) {
    && r.trip < |w.trips|
    && ValidVersions(r.versions)
    && ValidDecisions(r.decisions)
    && r.excluded == ExcludedAfter(r.decisions, |r.decisions|)
  }

  ghost predicate ValidReviews(w: World, rt: Reviews) {
    forall r :: 0 <= r < |rt.rows| ==> ValidReview(w, rt.rows[r])
  }

  /** `r'` is a later state of `r`: nothing recorded in `r` is altered. */
  ghost predicate Extends(r: Review, r': Review) {
    && r'.trip == r.trip
    && |r.versions| <= |r'.versions|
    && (forall i :: 0 <= i < |r.versions| ==>
          && r'.versions[i].version == r.versions[i].version
          && r'.versions[i].rating == r.versions[i].rating
          && r'.versions[i].createdAt == r.versions[i].createdAt)
    && r.decisions <= r'.decisions
  }

  ghost predicate AllExtend(rt: Reviews, rt': Reviews) {
    && |rt.rows| <= |rt'.rows|
    && (forall r :: 0 <= r < |rt.rows| ==> Extends(rt.rows[r], rt'.rows[r]))
  }

  lemma CurrentIsLatest(vs: seq<Version>)
    requires ValidVersions(vs)
    ensures CurrentIndex(vs) == Some(|vs| - 1)
  {}

  lemma {:induction false} NextNumberIsLength(ds: seq<Decision>)
    requires forall i :: 0 <= i < |ds| ==> ds[i].number == i + 1
    ensures NextDecisionNumber(ds) == |ds| + 1
  {
    if |ds| > 0 {
      NextNumberIsLength(ds[..|ds| - 1]);
    }
  }

  /** A rating is appended as the next version, and only when it differs from the latest. */
  lemma RatingExtendsHistory(w: World, r: Review, rating: int, now: Time)
    requires ValidReview(w, r)
    requires RatingChanges(r, rating) ==> 1 <= rating <= 5
    ensures ValidReview(w, WithRating(r, rating, now))
    ensures Extends(r, WithRating(r, rating, now))
    ensures |WithRating(r, rating, now).versions| == |r.versions| + if RatingChanges(r, rating) then 1 else 0
    ensures ReviewContribution(WithRating(r, rating, now)) == if r.excluded then None else Some(rating)
  {
    CurrentIsLatest(r.versions);
    CurrentIsLatest(WithRating(r, rating, now).versions);
  }

  lemma FirstRating(w: World, trip: TripId, rating: int, now: Time)
    requires trip < |w.trips| && 1 <= rating <= 5
    ensures var r := WithRating(BLANK.(trip := trip), rating, now);
            ValidReview(w, r) && r.trip == trip && |r.versions| == 1 && ReviewContribution(r) == Some(rating)
  {}

  lemma DecisionExtendsLog(w: World, r: Review, moderator: string, action: ModerationAction, reason: Option<string>)
    requires ValidReview(w, r)
    ensures ValidReview(w, WithDecision(r, moderator, action, reason))
    ensures Extends(r, WithDecision(r, moderator, action, reason))
    ensures var r' := WithDecision(r, moderator, action, reason);
            && |r'.decisions| == |r.decisions| + 1
            && (action.Exclude? ==> ReviewContribution(r').None?)
            && (action.Restore? ==> ReviewContribution(r') == ReviewContribution(r.(excluded := false)))
  {
    NextNumberIsLength(r.decisions);
    var ds, ds' := r.decisions, WithDecision(r, moderator, action, reason).decisions;
    forall i | 0 <= i <= |ds| ensures ExcludedAfter(ds', i) == ExcludedAfter(ds, i) {}
  }

  // ---------- one write ----------

  function Subject(s: Store, request: Request): TripId
    requires request.Moderate? ==> request.review < |s.reviews.rows|
  {
    match request
    case Upsert(trip, _, _) => trip
    case Delete(trip, _) => trip
    case Moderate(review, _, _, _) => s.reviews.rows[review].trip
  }

  ghost predicate FreshEventFor(w: World, e: Event, t: TripId, now: Time)
    requires t < |w.trips|
  {
    && e.target == DriverKey(w.trips[t].city, w.trips[t].driver)
    && e.status == Pending && e.attempts == 0 && e.nextAttemptAt == now
  }

  /** Exactly one event, addressed to the trip's driver, if the trip's contribution changed; else none. */
  ghost predicate NotifiesIffChanged(w: World, s: Store, s': Store, t: TripId, now: Time)
    requires t < |w.trips|
  {
    && (forall u :: u != t ==> Contribution(s'.reviews, u) == Contribution(s.reviews, u))
    && (Contribution(s'.reviews, t) == Contribution(s.reviews, t) ==> s'.events == s.events)
    && (Contribution(s'.reviews, t) != Contribution(s.reviews, t) ==>
          && |s'.events| == |s.events| + 1
          && s'.events[..|s.events|] == s.events
          && FreshEventFor(w, s'.events[|s.events|], t, now))
  }

  ghost predicate OnlyWrites(s: Store, s': Store) {
    && s'.ledger == s.ledger && s'.scores == s.scores && s'.generations == s.generations
    && s'.jobs == s.jobs && s'.expirations == s.expirations
  }

  /** The contribution a trip has after an accepted request. */
  function IntendedContribution(s: Store, request: Request): Option<int>
    requires request.Moderate? ==> request.review < |s.reviews.rows|
  {
    match request
    case Upsert(trip, _, rating) =>
      if trip in s.reviews.ofTrip && s.reviews.rows[s.reviews.ofTrip[trip]].excluded then None else Some(rating)
    case Delete(_, _) => None
    case Moderate(review, _, action, _) =>
      if action.Exclude? then None else ReviewContribution(s.reviews.rows[review].(excluded := false))
  }

  ghost predicate WriteIsSound(w: World, s: Store, request: Request, s': Store, now: Time) {
    && (request.Moderate? ==> request.review < |s.reviews.rows|)
    && Subject(s, request) < |w.trips|
    && ValidReviews(w, s'.reviews)
    && AllExtend(s.reviews, s'.reviews)
    && NotifiesIffChanged(w, s, s', Subject(s, request), now)
    && Contribution(s'.reviews, Subject(s, request)) == IntendedContribution(s, request)
    && OnlyWrites(s, s')
  }

  /** Replacing one row affects the contribution of that row's trip alone. */
  lemma RowFrame(w: World, rt: Reviews, id: ReviewId, r: Review)
    requires ValidReviews(w, rt) && id < |rt.rows|
    requires ValidReview(w, r) && Extends(rt.rows[id], r)
    ensures ValidReviews(w, WithRow(rt, id, r))
    ensures AllExtend(rt, WithRow(rt, id, r))
    ensures Contribution(WithRow(rt, id, r), r.trip) == ReviewContribution(r)
    ensures forall u :: u != r.trip ==> Contribution(WithRow(rt, id, r), u) == Contribution(rt, u)
  {}

  lemma NewRowFrame(w: World, rt: Reviews, r: Review)
    requires ValidReviews(w, rt) && r.trip !in rt.ofTrip
    requires ValidReview(w, r)
    ensures ValidReviews(w, WithNewRow(rt, r))
    ensures AllExtend(rt, WithNewRow(rt, r))
    ensures Contribution(rt, r.trip).None?
    ensures Contribution(WithNewRow(rt, r), r.trip) == ReviewContribution(r)
    ensures forall u :: u != r.trip ==> Contribution(WithNewRow(rt, r), u) == Contribution(rt, u)
  {}

  lemma OldContribution(w: World, rt: Reviews, id: ReviewId, r: Review)
    requires id < |rt.rows| && Extends(rt.rows[id], r)
    ensures r.trip == rt.rows[id].trip && Contribution(rt, r.trip) == ReviewContribution(rt.rows[id])
  {}

  /** The shape shared by every write to an existing row. */
  lemma RowWriteIsSound(w: World, s: Store, request: Request, s': Store, id: ReviewId, r: Review, e: Event, now: Time)
    requires ValidReviews(w, s.reviews) && id < |s.reviews.rows|
    requires request.Moderate? ==> request.review == id
    requires !request.Moderate? ==> request.trip in s.reviews.ofTrip && s.reviews.ofTrip[request.trip] == id
    requires ValidReview(w, r) && Extends(s.reviews.rows[id], r)
    requires s'.reviews == WithRow(s.reviews, id, r) && OnlyWrites(s, s')
    requires ReviewContribution(r) == IntendedContribution(s, request)
    requires s'.events == if ReviewContribution(r) == ReviewContribution(s.reviews.rows[id]) then s.events else s.events + [e]
    requires FreshEventFor(w, e, r.trip, now)
    ensures WriteIsSound(w, s, request, s', now)
  {
    hide ReviewContribution, IntendedContribution, ValidReviews, AllExtend, OnlyWrites, Contribution, FreshEventFor, Extends, NotifiesIffChanged,
         ValidVersions, ValidDecisions;
    RowFrame(w, s.reviews, id, r);
    OldContribution(w, s.reviews, id, r);
    OneEventIffChanged(w, s, s', r.trip, e, now);
  }

  lemma OneEventIffChanged(w: World, s: Store, s': Store, t: TripId, e: Event, now: Time)
    requires t < |w.trips| && FreshEventFor(w, e, t, now)
    requires forall u :: u != t ==> Contribution(s'.reviews, u) == Contribution(s.reviews, u)
    requires s'.events == if Contribution(s'.reviews, t) == Contribution(s.reviews, t) then s.events else s.events + [e]
    ensures NotifiesIffChanged(w, s, s', t, now)
  {
    hide Contribution;
  }

  lemma UpsertOfNewReview(w: World, s: Store, request: Request, key: Key, now: Time)
    requires request.Upsert? && ValidReviews(w, s.reviews)
    requires request.trip !in s.reviews.ofTrip
    requires ApplyUpsert(w, s, request, key, now).reply.Accepted?
    ensures WriteIsSound(w, s, request, ApplyUpsert(w, s, request, key, now).store, now)
  {
    FirstRating(w, request.trip, request.rating, now);
    NewRowFrame(w, s.reviews, WithRating(BLANK.(trip := request.trip), request.rating, now));
  }

  lemma UpsertOfExistingReview(w: World, s: Store, request: Request, key: Key, now: Time)
    requires request.Upsert? && ValidReviews(w, s.reviews)
    requires request.trip in s.reviews.ofTrip
    requires ApplyUpsert(w, s, request, key, now).reply.Accepted?
    ensures WriteIsSound(w, s, request, ApplyUpsert(w, s, request, key, now).store, now)
  {
    var trip, rating := request.trip, request.rating;
    var id := s.reviews.ofTrip[trip];
    var before := s.reviews.rows[id];
    var after := WithRating(before, rating, now);
    UpsertFlagsAreExact(w, before, rating, now);
    RatingExtendsHistory(w, before, rating, now);
    RowWriteIsSound(w, s, request, ApplyUpsert(w, s, request, key, now).store, id, after,
                    NewEvent(w, ReviewUpserted, trip, id, now), now);
  }

  /** The flags the service compares detect exactly the changes of the contribution. */
  lemma UpsertFlagsAreExact(w: World, r: Review, rating: int, now: Time)
    requires ValidReview(w, r)
    requires RatingChanges(r, rating) ==> 1 <= rating <= 5
    ensures UpsertChangesContribution(r, rating)
       <==> ReviewContribution(WithRating(r, rating, now)) != ReviewContribution(r)
  {
    CurrentIsLatest(r.versions);
    RatingExtendsHistory(w, r, rating, now);
  }

  lemma DeleteIsSound(w: World, s: Store, request: Request, key: Key, now: Time)
    requires request.Delete? && ValidReviews(w, s.reviews)
    requires ApplyDelete(w, s, request, key, now).reply.Accepted?
    ensures WriteIsSound(w, s, request, ApplyDelete(w, s, request, key, now).store, now)
  {
    hide ValidVersions, ValidDecisions, WriteIsSound;
    var id := s.reviews.ofTrip[request.trip];
    var before := s.reviews.rows[id];
    var after := if before.deletedAt.None? then before.(deletedAt := Some(now)) else before;
    CurrentIsLatest(before.versions);
    assert WithRow(s.reviews, id, before) == s.reviews;
    RowWriteIsSound(w, s, request, ApplyDelete(w, s, request, key, now).store, id, after,
                    NewEvent(w, ReviewDeleted, request.trip, id, now), now);
  }

  lemma ModerateIsSound(w: World, s: Store, request: Request, key: Key, now: Time)
    requires request.Moderate? && ValidReviews(w, s.reviews)
    requires ApplyModerate(w, s, request, key, now).reply.Accepted?
    ensures WriteIsSound(w, s, request, ApplyModerate(w, s, request, key, now).store, now)
  {
    var before := s.reviews.rows[request.review];
    CurrentIsLatest(before.versions);
    DecisionExtendsLog(w, before, request.moderator, request.action, request.reason);
    RowWriteIsSound(w, s, request, ApplyModerate(w, s, request, key, now).store, request.review,
                    WithDecision(before, request.moderator, request.action, request.reason),
                    NewEvent(w, ReviewModerated(request.action), before.trip, request.review, now), now);
  }

  /**
   Every accepted request, in every combination of new, deleted, excluded and same or
   different rating: histories are only extended, the trip contributes what the request
   intends, and exactly one event is enqueued if and only if that changed something.
   */
  lemma AcceptedWriteIsSound(w: World, s: Store, request: Request, key: Key, now: Time)
    requires ValidReviews(w, s.reviews)
    requires key !in s.requests
    requires Submit(w, s, request, key, now).reply.Accepted?
    ensures WriteIsSound(w, s, request, Submit(w, s, request, key, now).store, now)
  {
    match request
    case Upsert(trip, _, _) =>
      if trip in s.reviews.ofTrip {
        UpsertOfExistingReview(w, s, request, key, now);
      } else {
        UpsertOfNewReview(w, s, request, key, now);
      }
    case Delete(_, _) => DeleteIsSound(w, s, request, key, now);
    case Moderate(_, _, _, _) => ModerateIsSound(w, s, request, key, now);
  }

  /** The write's own answer is what a reader sees next; a deleted review is absent to readers. */
  lemma ReaderSeesWrite(w: World, s: Store, request: Request, key: Key, now: Time)
    requires ValidReviews(w, s.reviews) && key !in s.requests
    requires Submit(w, s, request, key, now).reply.Accepted?
    ensures var o := Submit(w, s, request, key, now);
            && (request.Upsert? ==> CurrentReview(o.store, request.trip) == Accepted(o.reply.body, false, false)
                                    && o.reply.body.rating == request.rating)
            && (request.Delete? ==> CurrentReview(o.store, request.trip) == Rejected(ReviewNotFound))
  {
    if request.Upsert? {
      UpsertIsSeen(w, s, request, key, now);
    }
  }

  lemma UpsertIsSeen(w: World, s: Store, request: Request, key: Key, now: Time)
    requires request.Upsert? && ValidReviews(w, s.reviews) && key !in s.requests
    requires Submit(w, s, request, key, now).reply.Accepted?
    ensures var o := Submit(w, s, request, key, now);
            CurrentReview(o.store, request.trip) == Accepted(o.reply.body, false, false) && o.reply.body.rating == request.rating
  {
    var o := Submit(w, s, request, key, now);
    var after := WithRating(ReviewOrBlank(s.reviews, request.trip), request.rating, now);
    var id := o.store.reviews.ofTrip[request.trip];
    assert o.store.reviews.rows[id] == after;
    if request.trip in s.reviews.ofTrip {
      assert ValidReview(w, s.reviews.rows[id]);
      RatingExtendsHistory(w, s.reviews.rows[id], request.rating, now);
    } else {
      FirstRating(w, request.trip, request.rating, now);
    }
    CurrentIsLatest(after.versions);
    hide ValidReview, CurrentIndex;
    CurrentCarriesRating(ReviewOrBlank(s.reviews, request.trip), request.rating, now);
  }

  /** After a rating is submitted, the current version carries it. */
  lemma CurrentCarriesRating(r: Review, rating: int, now: Time)
    requires CurrentIndex(WithRating(r, rating, now).versions) == Some(|WithRating(r, rating, now).versions| - 1)
    ensures var vs := WithRating(r, rating, now).versions; vs[|vs| - 1].rating == rating
    ensures WithRating(r, rating, now).deletedAt.None?
  {}

  // ---------- which requests are accepted ----------

  /** What can be checked of a request before it is made under a fresh key. */
  predicate Acceptable(w: World, s: Store, request: Request) {
    match request
    case Upsert(trip, rider, rating) => trip < |w.trips| && w.trips[trip].rider == rider && 1 <= rating <= 5
    case Delete(trip, rider) => trip < |w.trips| && w.trips[trip].rider == rider && trip in s.reviews.ofTrip
    case Moderate(review, _, _, _) => review < |s.reviews.rows|
  }

  /**
   Under a fresh key, a rating in 1..5 by the trip's rider is accepted and nothing else; a
   delete needs the rider and a review, deleted or not; a decision needs the review. What is
   refused changes nothing.
   */
  lemma AcceptedExactlyWhen(w: World, s: Store, request: Request, key: Key, now: Time)
    requires ValidReviews(w, s.reviews) && key !in s.requests
    ensures var o := Submit(w, s, request, key, now);
            && (o.reply.Accepted? <==> Acceptable(w, s, request))
            && (o.reply.Rejected? ==> o.store == s)
  {
    hide WithRating, WithDecision, UpsertChangesContribution, CurrentIndex, CurrentBody;
    match request
    case Upsert(trip, _, rating) =>
      if trip in s.reviews.ofTrip {
        OnlyRatingsInRangeAreKept(w, s.reviews.rows[s.reviews.ofTrip[trip]], rating);
      } else {
        NewReviewsChange(trip, rating);
      }
    case Delete(_, _) =>
    case Moderate(review, _, _, _) =>
      assert review < |s.reviews.rows| ==> ValidReview(w, s.reviews.rows[review]);
  }

  lemma OnlyRatingsInRangeAreKept(w: World, r: Review, rating: int)
    requires ValidReview(w, r)
    ensures RatingChanges(r, rating) || 1 <= rating <= 5
  {
    CurrentIsLatest(r.versions);
  }

  lemma NewReviewsChange(trip: TripId, rating: int)
    ensures RatingChanges(BLANK.(trip := trip), rating)
  {}

  // ---------- the answers ----------

  /** The row an accepted request ended up with. */
  function RowOf(s: Store, body: Body): Option<Review> {
    if body.review < |s.reviews.rows| then Some(s.reviews.rows[body.review]) else None
  }

  /**
   What an accepted upsert answers is true of the row it left behind: the latest version
   with its number, rating and time, and "created" exactly when the trip had no review.
   */
  lemma UpsertAnswerIsTrue(w: World, s: Store, request: Request, key: Key, now: Time)
    requires request.Upsert? && ValidReviews(w, s.reviews) && key !in s.requests
    requires Submit(w, s, request, key, now).reply.Accepted?
    ensures var o := Submit(w, s, request, key, now);
            var row := RowOf(o.store, o.reply.body);
            && o.reply.body.ReviewBody? && row.Some? && row.value.trip == request.trip == o.reply.body.trip
            && (var latest := row.value.versions[|row.value.versions| - 1];
                && o.reply.body.version == |row.value.versions| && o.reply.body.rating == latest.rating == request.rating
                && o.reply.body.createdAt == latest.createdAt)
            && (o.reply.created <==> request.trip !in s.reviews.ofTrip)
            && row.value.deletedAt.None?
  {
    var after := WithRating(ReviewOrBlank(s.reviews, request.trip), request.rating, now);
    if request.trip in s.reviews.ofTrip {
      assert ValidReview(w, s.reviews.rows[s.reviews.ofTrip[request.trip]]);
      RatingExtendsHistory(w, s.reviews.rows[s.reviews.ofTrip[request.trip]], request.rating, now);
    } else {
      FirstRating(w, request.trip, request.rating, now);
    }
    CurrentIsLatest(after.versions);
    CurrentCarriesRating(ReviewOrBlank(s.reviews, request.trip), request.rating, now);
    hide CurrentIndex, WithRating, UpsertChangesContribution, RatingChanges, ApplyDelete, ApplyModerate;
  }

  /** A delete marks the review, says whether it was the one to do so, and touches neither versions nor decisions. */
  lemma DeleteAnswerIsTrue(w: World, s: Store, request: Request, key: Key, now: Time)
    requires request.Delete? && key !in s.requests
    requires Submit(w, s, request, key, now).reply.Accepted?
    ensures var o := Submit(w, s, request, key, now);
            var before, row := RowOf(s, o.reply.body), RowOf(o.store, o.reply.body);
            && o.reply.body.DeletionBody? && before.Some? && row.Some? && row.value.trip == request.trip == o.reply.body.trip
            && row.value.deletedAt == (if before.value.deletedAt.Some? then before.value.deletedAt else Some(now))
            && (o.reply.body.changedState <==> before.value.deletedAt.None?)
            && row.value.versions == before.value.versions && row.value.decisions == before.value.decisions
  {
    hide ApplyUpsert, ApplyModerate, CurrentIndex;
  }

  /** A decision is logged last; the answer gives its number, the new flag, and whether it flipped the old one. */
  lemma DecisionAnswerIsTrue(w: World, s: Store, request: Request, key: Key, now: Time)
    requires request.Moderate? && ValidReviews(w, s.reviews) && key !in s.requests
    requires Submit(w, s, request, key, now).reply.Accepted?
    ensures var o := Submit(w, s, request, key, now);
            var before, row := RowOf(s, o.reply.body), RowOf(o.store, o.reply.body);
            && o.reply.body.DecisionBody? && before.Some? && row.Some? && o.reply.body.review == request.review
            && |row.value.decisions| == |before.value.decisions| + 1 == o.reply.body.number
            && (var d := row.value.decisions[|before.value.decisions|];
                && d.number == o.reply.body.number && d.action == request.action == o.reply.body.action
                && d.moderator == request.moderator && d.reason == request.reason
                && d.changedState == o.reply.body.changedState)
            && o.reply.body.excluded == row.value.excluded == request.action.Exclude?
            && (o.reply.body.changedState <==> row.value.excluded != before.value.excluded)
            && row.value.versions == before.value.versions && row.value.deletedAt == before.value.deletedAt
  {
    assert ValidReview(w, s.reviews.rows[request.review]);
    NextNumberIsLength(s.reviews.rows[request.review].decisions);
    hide ApplyUpsert, ApplyDelete, CurrentIndex, NextDecisionNumber, ValidReview;
  }

  // ---------- what exactly is written ----------

  /** The latest rating of a review that is neither deleted nor excluded. */
  function LatestRating(r: Review): Option<int> {
    if r.deletedAt.Some? || r.excluded || |r.versions| == 0 then None else Some(r.versions[|r.versions| - 1].rating)
  }

  /** What a trip contributes, read off its review row. */
  lemma ContributionIsLatestRating(w: World, rt: Reviews, t: TripId)
    requires ValidReviews(w, rt)
    ensures Contribution(rt, t) == if t in rt.ofTrip then LatestRating(rt.rows[rt.ofTrip[t]]) else None
  {
    if t in rt.ofTrip {
      assert ValidReview(w, rt.rows[rt.ofTrip[t]]);
      CurrentIsLatest(rt.rows[rt.ofTrip[t]].versions);
    }
  }

  /** Which error refuses a request under a fresh key: the first check that fails, in the order of the service. */
  lemma RefusalNamesTheReason(w: World, s: Store, request: Request, key: Key, now: Time)
    requires ValidReviews(w, s.reviews) && key !in s.requests && Submit(w, s, request, key, now).reply.Rejected?
    ensures Submit(w, s, request, key, now).reply.error
         == match request
            case Upsert(trip, rider, _) =>
              if trip >= |w.trips| then TripNotFound else if w.trips[trip].rider != rider then RiderDoesNotOwnTrip else ConstraintViolation
            case Delete(trip, rider) =>
              if trip >= |w.trips| then TripNotFound else if w.trips[trip].rider != rider then RiderDoesNotOwnTrip else ReviewNotFound
            case Moderate(_, _, _, _) => ReviewNotFound
  {
    hide WithRating, WithDecision, UpsertChangesContribution, CurrentIndex, CurrentBody, RatingChanges;
  }

  /** Why an event was enqueued. */
  function KindOf(request: Request): EventKind {
    match request
    case Upsert(_, _, _) => ReviewUpserted
    case Delete(_, _) => ReviewDeleted
    case Moderate(_, _, action, _) => ReviewModerated(action)
  }

  /** An accepted request enqueues nothing, or one event that says what was written, for which review, city and driver. */
  lemma NewEventSaysWhat(w: World, s: Store, request: Request, key: Key, now: Time)
    requires ValidReviews(w, s.reviews) && key !in s.requests
    requires Submit(w, s, request, key, now).reply.Accepted?
    ensures var o := Submit(w, s, request, key, now);
            && (request.Moderate? ==> request.review < |s.reviews.rows|) && Subject(s, request) < |w.trips|
            && var t := w.trips[Subject(s, request)];
               || o.store.events == s.events
               || o.store.events == s.events + [Event(KindOf(request), DriverKey(t.city, t.driver), o.reply.body.review, Pending, 0, now, None, None)]
  {
    hide Submit, ValidReviews, KindOf;
    SubjectExists(w, s, request, key, now);
    match request
    case Upsert(_, _, _) => UpsertEvent(w, s, request, key, now);
    case Delete(_, _) => DeleteEvent(w, s, request, key, now);
    case Moderate(_, _, _, _) => DecisionEvent(w, s, request, key, now);
  }

  lemma SubjectExists(w: World, s: Store, request: Request, key: Key, now: Time)
    requires ValidReviews(w, s.reviews) && key !in s.requests && Submit(w, s, request, key, now).reply.Accepted?
    ensures request.Moderate? ==> request.review < |s.reviews.rows|
    ensures Subject(s, request) < |w.trips|
  {
    AcceptedWriteIsSound(w, s, request, key, now);
    hide Submit, ValidReviews, AllExtend, NotifiesIffChanged, OnlyWrites, IntendedContribution;
  }

  lemma UpsertEvent(w: World, s: Store, request: Request, key: Key, now: Time)
    requires request.Upsert? && key !in s.requests && Submit(w, s, request, key, now).reply.Accepted?
    requires Subject(s, request) < |w.trips|
    ensures var o, t := Submit(w, s, request, key, now), w.trips[Subject(s, request)];
            || o.store.events == s.events
            || o.store.events == s.events + [Event(KindOf(request), DriverKey(t.city, t.driver), o.reply.body.review, Pending, 0, now, None, None)]
  {
    hide WithRating, UpsertChangesContribution, CurrentIndex, RatingChanges, WithRow, WithNewRow, ApplyDelete, ApplyModerate;
  }

  lemma DeleteEvent(w: World, s: Store, request: Request, key: Key, now: Time)
    requires request.Delete? && key !in s.requests && Submit(w, s, request, key, now).reply.Accepted?
    requires Subject(s, request) < |w.trips|
    ensures var o, t := Submit(w, s, request, key, now), w.trips[Subject(s, request)];
            || o.store.events == s.events
            || o.store.events == s.events + [Event(KindOf(request), DriverKey(t.city, t.driver), o.reply.body.review, Pending, 0, now, None, None)]
  {
    hide WithRow, ApplyUpsert, ApplyModerate;
  }

  lemma DecisionEvent(w: World, s: Store, request: Request, key: Key, now: Time)
    requires request.Moderate? && key !in s.requests && Submit(w, s, request, key, now).reply.Accepted?
    requires request.review < |s.reviews.rows| && Subject(s, request) < |w.trips|
    ensures var o, t := Submit(w, s, request, key, now), w.trips[Subject(s, request)];
            || o.store.events == s.events
            || o.store.events == s.events + [Event(KindOf(request), DriverKey(t.city, t.driver), o.reply.body.review, Pending, 0, now, None, None)]
  {
    hide WithDecision, WithRow, NextDecisionNumber, ApplyUpsert, ApplyDelete;
  }

  /** A write touches the row of its own review alone. */
  lemma OtherRowsAreUntouched(w: World, s: Store, request: Request, key: Key, now: Time)
    requires key !in s.requests && Submit(w, s, request, key, now).reply.Accepted?
    ensures var o := Submit(w, s, request, key, now);
            && (forall r :: 0 <= r < |s.reviews.rows| && r != o.reply.body.review ==> r < |o.store.reviews.rows| && o.store.reviews.rows[r] == s.reviews.rows[r])
            && |o.store.reviews.rows| == |s.reviews.rows| + (if o.reply.body.review < |s.reviews.rows| then 0 else 1)
  {
    hide WithRating, WithDecision, UpsertChangesContribution, CurrentIndex, RatingChanges;
  }

  /**
   The row an upsert leaves: the same rating keeps the versions as they are, a new one is
   appended with the present time; decisions and exclusion are left alone.
   */
  lemma UpsertedRow(w: World, s: Store, request: Request, key: Key, now: Time)
    requires request.Upsert? && ValidReviews(w, s.reviews) && key !in s.requests
    requires Submit(w, s, request, key, now).reply.Accepted?
    ensures var o := Submit(w, s, request, key, now);
            var before, row := RowOf(s, o.reply.body), RowOf(o.store, o.reply.body);
            && row.Some? && |row.value.versions| > 0
            && (before.None? ==> row.value.decisions == [] && !row.value.excluded
                                 && row.value.versions == [Version(1, request.rating, true, now)])
            && (before.Some? ==>
                  && row.value.decisions == before.value.decisions && row.value.excluded == before.value.excluded
                  && |before.value.versions| > 0
                  && var latest := before.value.versions[|before.value.versions| - 1];
                     if latest.rating == request.rating then row.value.versions == before.value.versions
                     else row.value.versions == before.value.versions[|before.value.versions| - 1 := latest.(isCurrent := false)]
                                                + [Version(|before.value.versions| + 1, request.rating, true, now)])
  {
    hide UpsertChangesContribution, ApplyDelete, ApplyModerate, CurrentBody;
    if request.trip in s.reviews.ofTrip {
      var r := s.reviews.rows[s.reviews.ofTrip[request.trip]];
      assert ValidReview(w, r);
      CurrentIsLatest(r.versions);
    } else {
      assert CurrentIndex([]) == None;
    }
    BodyNamesRow(w, s, request, key, now);
  }

  lemma BodyNamesRow(w: World, s: Store, request: Request, key: Key, now: Time)
    requires request.Upsert? && key !in s.requests && Submit(w, s, request, key, now).reply.Accepted?
    ensures Submit(w, s, request, key, now).reply.body.review == ReviewIdOrNew(s.reviews, request.trip)
  {
    hide WithRating, UpsertChangesContribution, RatingChanges;
  }
}
