/**
 The three authoritative writes (upsert, delete, moderate) as functions on the store,
 with the idempotency table they share. A rejected write leaves the store as it was.
 */
module Writes {
  import opened Tables
  import opened Scoring

  datatype Outcome = Outcome(store: Store, reply: Reply)

  // ---------- one review ----------

  /** Clear the deletion mark; append a version only when the rating is a new one. */
  function WithRating(r: Review, rating: int, now: Time): Review {
    match CurrentIndex(r.versions)
    case None =>
      r.(deletedAt := None, versions := r.versions + [Version(1, rating, true, now)])
    case Some(i) =>
      var current := r.versions[i];
      if current.rating == rating then r.(deletedAt := None)
      else r.(deletedAt := None,
              versions := r.versions[i := current.(isCurrent := false)]
                          + [Version(current.version + 1, rating, true, now)])
  }

  predicate RatingChanges(r: Review, rating: int) {
    match CurrentIndex(r.versions)
    case None => true
    case Some(i) => r.versions[i].rating != rating
  }

  /** The flags the upsert compares, exactly as it computes them. */
  predicate UpsertChangesContribution(r: Review, rating: int) {
    var contributedBefore := r.deletedAt.None? && !r.excluded;
    var contributesAfter := !r.excluded;
    contributedBefore != contributesAfter || (RatingChanges(r, rating) && contributesAfter)
  }

  predicate DecisionChangesState(excluded: bool, action: ModerationAction) {
    excluded != action.Exclude?
  }

  /** One more than the largest decision number. */
  function NextDecisionNumber(ds: seq<Decision>): nat {
    if |ds| == 0 then 1 else Max(NextDecisionNumber(ds[..|ds| - 1]), ds[|ds| - 1].number + 1)
  }

  function WithDecision(r: Review, moderator: string, action: ModerationAction, reason: Option<string>): Review {
    var d := Decision(NextDecisionNumber(r.decisions), action, moderator, reason,
                      DecisionChangesState(r.excluded, action));
    r.(excluded := action.Exclude?, decisions := r.decisions + [d])
  }

  // ---------- one table update ----------

  /** Replace a row; its trip must stay the same. */
  function WithRow(rt: Reviews, id: ReviewId, r: Review): (rt': Reviews)
    requires id < |rt.rows| && r.trip == rt.rows[id].trip
    ensures rt'.rows == rt.rows[id := r] && rt'.ofTrip == rt.ofTrip
  {
    ReviewData(rt.rows[id := r], rt.ofTrip)
  }

  /** Insert the row of a trip that has none. */
  function WithNewRow(rt: Reviews, r: Review): (rt': Reviews)
    requires r.trip !in rt.ofTrip
    ensures rt'.rows == rt.rows + [r] && rt'.ofTrip == rt.ofTrip[r.trip := |rt.rows|]
  {
    ReviewData(rt.rows + [r], rt.ofTrip[r.trip := |rt.rows|])
  }

  function NewEvent(w: World, kind: EventKind, trip: TripId, review: ReviewId, now: Time): Event
    requires trip < |w.trips|
  {
    Event(kind, DriverKey(w.trips[trip].city, w.trips[trip].driver), review, Pending, 0, now, None, None)
  }

  // ---------- the operations ----------

  function Replayed(b: Body): Body {
    b.(replay := true)
  }

  /** A delete or moderation replay never reports a creation. */
  function Replay(rec: RequestRecord, request: Request): Reply {
    if rec.request != request then Rejected(IdempotencyConflict)
    else Accepted(Replayed(rec.body), request.Upsert? && rec.created, true)
  }

  function Remember(s: Store, key: Key, request: Request, created: bool, body: Body): Outcome {
    Outcome(s.(requests := s.requests[key := RequestRecord(request, created, body)]), Accepted(body, created, false))
  }

  function Rejection(w: World, trip: TripId, rider: RiderId): Option<Error> {
    if trip >= |w.trips| then Some(TripNotFound)
    else if w.trips[trip].rider != rider then Some(RiderDoesNotOwnTrip)
    else None
  }

  const BLANK: Review := Review(0, None, false, [], [])

  function ReviewOrBlank(rt: Reviews, trip: TripId): Review {
    if trip in rt.ofTrip then rt.rows[rt.ofTrip[trip]] else BLANK.(trip := trip)
  }

  function ReviewIdOrNew(rt: Reviews, trip: TripId): ReviewId {
    if trip in rt.ofTrip then rt.ofTrip[trip] else |rt.rows|
  }

  function ApplyUpsert(w: World, s: Store, request: Request, key: Key, now: Time): Outcome
    requires request.Upsert?
  {
    var trip, rating := request.trip, request.rating;
    match Rejection(w, trip, request.rider)
    case Some(e) => Outcome(s, Rejected(e))
    case None =>
      var created := trip !in s.reviews.ofTrip;
      var before, id := ReviewOrBlank(s.reviews, trip), ReviewIdOrNew(s.reviews, trip);
      if RatingChanges(before, rating) && !(1 <= rating <= 5) then Outcome(s, Rejected(ConstraintViolation))
      else
        var after := WithRating(before, rating, now);
        var reviews := if created then WithNewRow(s.reviews, after) else WithRow(s.reviews, id, after);
        var events := if UpsertChangesContribution(before, rating)
                      then s.events + [NewEvent(w, ReviewUpserted, trip, id, now)] else s.events;
        Remember(s.(reviews := reviews, events := events), key, request, created,
                 CurrentBody(id, after))
  }

  /** The body built from the version that is current after the write. */
  function CurrentBody(id: ReviewId, r: Review): (b: Body)
    ensures b.ReviewBody? && !b.replay
  {
    match CurrentIndex(r.versions)
    case None => ReviewBody(id, r.trip, 0, 0, 0, false)
    case Some(i) => ReviewBody(id, r.trip, r.versions[i].version, r.versions[i].rating, r.versions[i].createdAt, false)
  }

  function ApplyDelete(w: World, s: Store, request: Request, key: Key, now: Time): Outcome
    requires request.Delete?
  {
    var trip := request.trip;
    match Rejection(w, trip, request.rider)
    case Some(e) => Outcome(s, Rejected(e))
    case None =>
      if trip !in s.reviews.ofTrip then Outcome(s, Rejected(ReviewNotFound))
      else
        var id := s.reviews.ofTrip[trip];
        var before := s.reviews.rows[id];
        var changed := before.deletedAt.None?;
        var reviews := if changed then WithRow(s.reviews, id, before.(deletedAt := Some(now))) else s.reviews;
        var events := if changed && !before.excluded
                      then s.events + [NewEvent(w, ReviewDeleted, trip, id, now)] else s.events;
        Remember(s.(reviews := reviews, events := events), key, request, false,
                 DeletionBody(id, trip, changed, false))
  }

  function ApplyModerate(w: World, s: Store, request: Request, key: Key, now: Time): Outcome
    requires request.Moderate?
  {
    var id := request.review;
    if id >= |s.reviews.rows| || s.reviews.rows[id].trip >= |w.trips| then Outcome(s, Rejected(ReviewNotFound))
    else
      var before := s.reviews.rows[id];
      var changed := DecisionChangesState(before.excluded, request.action);
      var after := WithDecision(before, request.moderator, request.action, request.reason);
      var events := if changed && before.deletedAt.None?
                    then s.events + [NewEvent(w, ReviewModerated(request.action), before.trip, id, now)] else s.events;
      Remember(s.(reviews := WithRow(s.reviews, id, after), events := events), key, request, false,
               DecisionBody(id, NextDecisionNumber(before.decisions), request.action, request.action.Exclude?, changed, false))
  }

  function Apply(w: World, s: Store, request: Request, key: Key, now: Time): Outcome {
    match request
    case Upsert(_, _, _) => ApplyUpsert(w, s, request, key, now)
    case Delete(_, _) => ApplyDelete(w, s, request, key, now)
    case Moderate(_, _, _, _) => ApplyModerate(w, s, request, key, now)
  }

  /** One request under its idempotency key. */
  function Submit(w: World, s: Store, request: Request, key: Key, now: Time): Outcome {
    if key in s.requests then Outcome(s, Replay(s.requests[key], request))
    else Apply(w, s, request, key, now)
  }

  /** The reader's view of a trip's review. */
  function CurrentReview(s: Store, trip: TripId): Reply {
    if trip !in s.reviews.ofTrip then Rejected(ReviewNotFound)
    else
      var id := s.reviews.ofTrip[trip];
      var r := s.reviews.rows[id];
      if r.deletedAt.Some? || CurrentIndex(r.versions).None? then Rejected(ReviewNotFound)
      else Accepted(CurrentBody(id, r), false, false)
  }
}
