/** What a review contributes, and the rolling window aggregate of one driver. */
module Scoring {
  import opened Tables

  datatype Totals = Totals(sum: int, count: nat)

  // ---------- contributions ----------

  /** The position of the version row flagged as current, looking from the newest. */
  function CurrentIndex(vs: seq<Version>): (r: Option<nat>)
    ensures r.Some? ==> r.value < |vs| && vs[r.value].isCurrent
    ensures r.None? ==> forall i :: 0 <= i < |vs| ==> !vs[i].isCurrent
  {
    if |vs| == 0 then None
    else if vs[|vs| - 1].isCurrent then Some(|vs| - 1)
    else CurrentIndex(vs[..|vs| - 1])
  }

  function ReviewContribution(r: Review): Option<int> {
    if r.deletedAt.Some? || r.excluded then None
    else match CurrentIndex(r.versions)
      case None => None
      case Some(i) => Some(r.versions[i].rating)
  }

  /** The rating a trip adds to its driver's score, if it adds any. */
  function Contribution(rt: Reviews, t: TripId): Option<int> {
    if t in rt.ofTrip then ReviewContribution(rt.rows[rt.ofTrip[t]]) else None
  }

  // ---------- aggregation ----------

  predicate InWindow(completedAt: Time, windowStart: Time, calculatedAt: Time) {
    windowStart <= completedAt <= calculatedAt
  }

  predicate Counts(w: World, rt: Reviews, k: DriverKey, lo: Time, hi: Time, t: TripId)
    requires t < |w.trips|
  {
    && w.trips[t].city == k.city
    && w.trips[t].driver == k.driver
    && InWindow(w.trips[t].completedAt, lo, hi)
    && Contribution(rt, t).Some?
  }

  /** Sum and count over the first `n` trips. */
  function AggregateUpTo(w: World, rt: Reviews, k: DriverKey, lo: Time, hi: Time, n: nat): Totals
    requires n <= |w.trips|
  {
    if n == 0 then Totals(0, 0)
    else
      var rest := AggregateUpTo(w, rt, k, lo, hi, n - 1);
      if Counts(w, rt, k, lo, hi, n - 1)
      then Totals(rest.sum + Contribution(rt, n - 1).value, rest.count + 1)
      else rest
  }

  function Aggregate(w: World, rt: Reviews, k: DriverKey, lo: Time, hi: Time): Totals {
    AggregateUpTo(w, rt, k, lo, hi, |w.trips|)
  }

  predicate Eligible(count: nat) {
    count >= ELIGIBILITY_REVIEW_COUNT
  }

  /** The row that recalculation at `at` stores. */
  function Recalculated(w: World, rt: Reviews, k: DriverKey, at: Time): Score {
    var t := Aggregate(w, rt, k, at - WINDOW, at);
    Score(t.sum, t.count, Eligible(t.count), at - WINDOW, at)
  }

  /** The row agrees with a fresh aggregation over its own stored window. */
  predicate Exact(w: World, rt: Reviews, k: DriverKey, score: Score) {
    Totals(score.sum, score.count) == Aggregate(w, rt, k, score.windowStart, score.calculatedAt)
  }

  /** The score table after the rows named by `keys` are recalculated at one time. */
  function Rescored(w: World, rt: Reviews, scores: map<DriverKey, Score>, keys: set<DriverKey>, at: Time): map<DriverKey, Score> {
    map k | k in scores.Keys + keys :: if k in keys then Recalculated(w, rt, k, at) else scores[k]
  }

  function WithoutCity(scores: map<DriverKey, Score>, c: CityId): map<DriverKey, Score> {
    map k | k in scores && k.city != c :: scores[k]
  }

  // ---------- the drivers of a city ----------

  /** Drivers of the city among the first `n`, by ascending stable ID. */
  function CityDriversUpTo(w: World, c: CityId, n: nat): (ds: seq<DriverId>)
    requires n <= |w.drivers|
    ensures forall d: DriverId :: d in ds <==> d < n && w.drivers[d].city == c
    ensures forall i, j :: 0 <= i < j < |ds| ==> ds[i] < ds[j]
  {
    if n == 0 then []
    else
      var rest := CityDriversUpTo(w, c, n - 1);
      assert forall i :: 0 <= i < |rest| ==> rest[i] in rest;
      if w.drivers[n - 1].city == c then rest + [n - 1] else rest
  }

  function CityDrivers(w: World, c: CityId): (ds: seq<DriverId>)
    ensures forall d: DriverId :: d in ds <==> d < |w.drivers| && w.drivers[d].city == c
    ensures forall i, j :: 0 <= i < j < |ds| ==> ds[i] < ds[j]
  {
    CityDriversUpTo(w, c, |w.drivers|)
  }

  function KeysOf(c: CityId, ds: seq<DriverId>): set<DriverKey> {
    set d | d in ds :: DriverKey(c, d)
  }

  function CityKeys(w: World, c: CityId): set<DriverKey> {
    KeysOf(c, CityDrivers(w, c))
  }

  // ---------- frame and range of the aggregate ----------

  /** Only contributions of the driver's own trips in the city matter. */
  lemma {:induction false} AggregateFrame(w: World, rt: Reviews, rt': Reviews, k: DriverKey, lo: Time, hi: Time, n: nat)
    requires n <= |w.trips|
    requires forall t :: 0 <= t < n && w.trips[t].city == k.city && w.trips[t].driver == k.driver
                         ==> Contribution(rt, t) == Contribution(rt', t)
    ensures AggregateUpTo(w, rt, k, lo, hi, n) == AggregateUpTo(w, rt', k, lo, hi, n)
  {
    if n > 0 {
      AggregateFrame(w, rt, rt', k, lo, hi, n - 1);
    }
  }

  ghost predicate RatingsInRange(rt: Reviews) {
    forall t :: Contribution(rt, t).Some? ==> 1 <= Contribution(rt, t).value <= 5
  }

  /** Every average lies between 1 and 5. */
  lemma {:induction false} AggregateRange(w: World, rt: Reviews, k: DriverKey, lo: Time, hi: Time, n: nat)
    requires n <= |w.trips|
    requires RatingsInRange(rt)
    ensures var t := AggregateUpTo(w, rt, k, lo, hi, n); t.count <= t.sum <= 5 * t.count
  {
    if n > 0 {
      AggregateRange(w, rt, k, lo, hi, n - 1);
    }
  }

  // ---------- what an aggregate counts ----------

  /** A trip of the driver in the city, completed from `lo` to `hi` inclusive, that contributes. */
  ghost predicate IsCounted(w: World, rt: Reviews, k: DriverKey, lo: Time, hi: Time, t: TripId)
    requires t < |w.trips|
  {
    && w.trips[t].city == k.city && w.trips[t].driver == k.driver
    && lo <= w.trips[t].completedAt <= hi && Contribution(rt, t).Some?
  }

  ghost function CountedTrips(w: World, rt: Reviews, k: DriverKey, lo: Time, hi: Time, n: nat): set<TripId>
    requires n <= |w.trips|
  {
    set t: TripId | t < n && IsCounted(w, rt, k, lo, hi, t)
  }

  /** The ratings that the given trips, among the first `n`, contribute. */
  ghost function RatingSum(rt: Reviews, ts: set<TripId>, n: nat): int {
    if n == 0 then 0
    else RatingSum(rt, ts, n - 1) + if n - 1 in ts && Contribution(rt, n - 1).Some? then Contribution(rt, n - 1).value else 0
  }

  lemma {:induction false} RatingSumFrame(rt: Reviews, ts: set<TripId>, us: set<TripId>, n: nat)
    requires forall t: TripId :: t < n ==> (t in ts <==> t in us)
    ensures RatingSum(rt, ts, n) == RatingSum(rt, us, n)
  {
    if n > 0 {
      RatingSumFrame(rt, ts, us, n - 1);
    }
  }

  lemma CountedNext(w: World, rt: Reviews, k: DriverKey, lo: Time, hi: Time, n: nat)
    requires n < |w.trips|
    ensures var before, ts := CountedTrips(w, rt, k, lo, hi, n), CountedTrips(w, rt, k, lo, hi, n + 1);
            && |ts| == |before| + (if IsCounted(w, rt, k, lo, hi, n) then 1 else 0)
            && (n in ts <==> IsCounted(w, rt, k, lo, hi, n))
            && (forall t: TripId :: t < n ==> (t in before <==> t in ts))
  {
    hide IsCounted;
    var before, ts := CountedTrips(w, rt, k, lo, hi, n), CountedTrips(w, rt, k, lo, hi, n + 1);
    if IsCounted(w, rt, k, lo, hi, n) {
      assert ts == before + {n};
    } else {
      assert ts == before;
    }
  }

  /** An aggregate is the number of counted trips and the sum of their ratings. */
  lemma {:induction false} AggregateCountsTrips(w: World, rt: Reviews, k: DriverKey, lo: Time, hi: Time, n: nat)
    requires n <= |w.trips|
    ensures var ts := CountedTrips(w, rt, k, lo, hi, n);
            && AggregateUpTo(w, rt, k, lo, hi, n).count == |ts|
            && AggregateUpTo(w, rt, k, lo, hi, n).sum == RatingSum(rt, ts, n)
  {
    hide Contribution, CountedTrips;
    if n == 0 {
      assert CountedTrips(w, rt, k, lo, hi, 0) == {} by { NoTripsCounted(w, rt, k, lo, hi); }
    } else {
      AggregateCountsTrips(w, rt, k, lo, hi, n - 1);
      CountedNext(w, rt, k, lo, hi, n - 1);
      RatingSumFrame(rt, CountedTrips(w, rt, k, lo, hi, n - 1), CountedTrips(w, rt, k, lo, hi, n), n - 1);
    }
  }

  lemma NoTripsCounted(w: World, rt: Reviews, k: DriverKey, lo: Time, hi: Time)
    ensures CountedTrips(w, rt, k, lo, hi, 0) == {}
  {}

  /** Without a contributing trip in the window the totals are zero. */
  lemma {:induction false} NothingCountedIsZero(w: World, rt: Reviews, k: DriverKey, lo: Time, hi: Time, n: nat)
    requires n <= |w.trips| && forall t: TripId :: t < n ==> !IsCounted(w, rt, k, lo, hi, t)
    ensures AggregateUpTo(w, rt, k, lo, hi, n) == Totals(0, 0)
  {
    hide Contribution;
    if n > 0 {
      NothingCountedIsZero(w, rt, k, lo, hi, n - 1);
      var t: TripId := n - 1;
      assert !IsCounted(w, rt, k, lo, hi, t);
    }
  }

  // ---------- city conservation ----------

  /** Trips of the city, among the first `n`, that contribute inside the window. */
  function CityCountUpTo(w: World, rt: Reviews, c: CityId, lo: Time, hi: Time, n: nat): nat
    requires n <= |w.trips|
  {
    if n == 0 then 0
    else CityCountUpTo(w, rt, c, lo, hi, n - 1)
         + if w.trips[n - 1].city == c && InWindow(w.trips[n - 1].completedAt, lo, hi)
              && Contribution(rt, n - 1).Some? then 1 else 0
  }

  /** Trips of the city, among the first `n`, that contribute at any time. */
  function CityTotalUpTo(w: World, rt: Reviews, c: CityId, n: nat): nat
    requires n <= |w.trips|
  {
    if n == 0 then 0
    else CityTotalUpTo(w, rt, c, n - 1)
         + if w.trips[n - 1].city == c && Contribution(rt, n - 1).Some? then 1 else 0
  }

  /** Trips of the city that contribute but lie outside the window. */
  function CityOutsideUpTo(w: World, rt: Reviews, c: CityId, lo: Time, hi: Time, n: nat): nat
    requires n <= |w.trips|
  {
    if n == 0 then 0
    else CityOutsideUpTo(w, rt, c, lo, hi, n - 1)
         + if w.trips[n - 1].city == c && Contribution(rt, n - 1).Some?
              && !InWindow(w.trips[n - 1].completedAt, lo, hi) then 1 else 0
  }

  lemma {:induction false} InsidePlusOutside(w: World, rt: Reviews, c: CityId, lo: Time, hi: Time, n: nat)
    requires n <= |w.trips|
    ensures CityCountUpTo(w, rt, c, lo, hi, n) + CityOutsideUpTo(w, rt, c, lo, hi, n) == CityTotalUpTo(w, rt, c, n)
  {
    if n > 0 {
      InsidePlusOutside(w, rt, c, lo, hi, n - 1);
    }
  }

  /** The per-driver counts of the listed drivers, over the first `n` trips. */
  function DriverCounts(w: World, rt: Reviews, c: CityId, ds: seq<DriverId>, lo: Time, hi: Time, n: nat): nat
    requires n <= |w.trips|
  {
    if |ds| == 0 then 0
    else DriverCounts(w, rt, c, ds[..|ds| - 1], lo, hi, n)
         + AggregateUpTo(w, rt, DriverKey(c, ds[|ds| - 1]), lo, hi, n).count
  }

  lemma {:induction false} DriverCountsNone(w: World, rt: Reviews, c: CityId, ds: seq<DriverId>, lo: Time, hi: Time)
    ensures DriverCounts(w, rt, c, ds, lo, hi, 0) == 0
  {
    if |ds| > 0 {
      DriverCountsNone(w, rt, c, ds[..|ds| - 1], lo, hi);
    }
  }

  /** One more trip adds one to the counts of exactly the listed driver that made it. */
  lemma {:induction false} DriverCountsStep(w: World, rt: Reviews, c: CityId, ds: seq<DriverId>, lo: Time, hi: Time, n: nat)
    requires 0 < n <= |w.trips|
    requires forall i, j :: 0 <= i < j < |ds| ==> ds[i] < ds[j]
    ensures DriverCounts(w, rt, c, ds, lo, hi, n)
         == DriverCounts(w, rt, c, ds, lo, hi, n - 1)
            + if w.trips[n - 1].driver in ds && Counts(w, rt, DriverKey(c, w.trips[n - 1].driver), lo, hi, n - 1)
              then 1 else 0
  {
    hide Contribution, InWindow;
    if |ds| > 0 {
      var front, last := ds[..|ds| - 1], ds[|ds| - 1];
      DriverCountsStep(w, rt, c, front, lo, hi, n);
      assert ds == front + [last];
      assert last !in front;
    }
  }

  /** Trips counted in the city, among the first `n`, whose driver belongs to another city. */
  function CityForeignUpTo(w: World, rt: Reviews, c: CityId, lo: Time, hi: Time, n: nat): nat
    requires n <= |w.trips|
  {
    if n == 0 then 0
    else CityForeignUpTo(w, rt, c, lo, hi, n - 1) + if Foreign(w, rt, c, lo, hi, n - 1) then 1 else 0
  }

  predicate Foreign(w: World, rt: Reviews, c: CityId, lo: Time, hi: Time, t: TripId)
    requires t < |w.trips|
  {
    && w.trips[t].city == c && InWindow(w.trips[t].completedAt, lo, hi)
    && Contribution(rt, t).Some? && w.drivers[w.trips[t].driver].city != c
  }

  /**
   City conservation: counting driver by driver finds every contributing trip that counting
   trip by trip finds, except those made by drivers of other cities.
   */
  lemma {:induction false} CityConservation(w: World, rt: Reviews, c: CityId, lo: Time, hi: Time, n: nat)
    requires n <= |w.trips|
    ensures DriverCounts(w, rt, c, CityDrivers(w, c), lo, hi, n) + CityForeignUpTo(w, rt, c, lo, hi, n)
         == CityCountUpTo(w, rt, c, lo, hi, n)
  {
    if n == 0 {
      DriverCountsNone(w, rt, c, CityDrivers(w, c), lo, hi);
    } else {
      CityConservation(w, rt, c, lo, hi, n - 1);
      DriverCountsStep(w, rt, c, CityDrivers(w, c), lo, hi, n);
    }
  }

  lemma {:induction false} ForeignNone(w: World, rt: Reviews, c: CityId, lo: Time, hi: Time, n: nat)
    requires n <= |w.trips|
    ensures CityForeignUpTo(w, rt, c, lo, hi, n) == 0 <==> forall t :: 0 <= t < n ==> !Foreign(w, rt, c, lo, hi, t)
  {
    if n > 0 {
      hide Foreign;
      ForeignNone(w, rt, c, lo, hi, n - 1);
    }
  }

  /**
   The reported number of reviews outside the window is never negative, and it is right if
   and only if no trip counted in the city was made by a driver of another city. Trips that
   match their drivers' cities are enough for that.
   */
  lemma OutsideIsExactIff(w: World, rt: Reviews, c: CityId, lo: Time, hi: Time)
    ensures var n := |w.trips|;
            var outside := CityTotalUpTo(w, rt, c, n) - DriverCounts(w, rt, c, CityDrivers(w, c), lo, hi, n);
            && 0 <= CityOutsideUpTo(w, rt, c, lo, hi, n) <= outside
            && (outside == CityOutsideUpTo(w, rt, c, lo, hi, n) <==> forall t :: 0 <= t < n ==> !Foreign(w, rt, c, lo, hi, t))
            && (w.TripsMatchDrivers() ==> outside == CityOutsideUpTo(w, rt, c, lo, hi, n)
                                          && CityTotalUpTo(w, rt, c, n) - outside == CityCountUpTo(w, rt, c, lo, hi, n))
  {
    CityConservation(w, rt, c, lo, hi, |w.trips|);
    InsidePlusOutside(w, rt, c, lo, hi, |w.trips|);
    ForeignNone(w, rt, c, lo, hi, |w.trips|);
  }
}
