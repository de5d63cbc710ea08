/** Draining the outbox: one successful batch after another until nothing is due. */
module Draining {
  import opened Tables
  import opened Scoring
  import opened Outbox
  import opened Leaderboard
  import opened System
  import opened Consistency
  import opened Agreement
  import opened Recovery
  import opened Steps

  datatype BatchResult = BatchResult(events: nat, drivers: nat, generations: nat, cities: set<CityId>)

  const NO_BATCH: BatchResult := BatchResult(0, 0, 0, {})

  /** What the claiming query returns: the oldest due events that no other session has locked. */
  function ClaimedBy(s: Store, limit: nat, processedAt: Option<Time>, now: Time, locked: set<EventId>): seq<EventId> {
    Claim(s.events, AvailableAt(processedAt, now), limit, locked, |s.events|)
  }

  /** The time up to which events are due. */
  function AvailableAt(processedAt: Option<Time>, now: Time): Time {
    match processedAt
    case Some(t) => t
    case None => now
  }

  /** What a committed batch reports: events, drivers recalculated once each, one generation per city. */
  function ResultOf(s: Store, ids: seq<EventId>): BatchResult {
    var cs := CityOrder(s.events, s.ledger, ids, |ids|);
    BatchResult(|ids|, |Affected(s.events, s.ledger, ids)|, |cs|, Elements(cs))
  }

  function Plus(a: BatchResult, b: BatchResult): BatchResult {
    BatchResult(a.events + b.events, a.drivers + b.drivers, a.generations + b.generations, a.cities + b.cities)
  }

  // ---------- rounds ----------

  function RoundIds(s: Store, limit: nat, now: Time): seq<EventId> {
    ClaimedBy(s, limit, None, now, {})
  }

  function Round(w: World, s: Store, limit: nat, now: Time): Store {
    ProcessBatch(w, s, RoundIds(s, limit, now), BatchTime(s, RoundIds(s, limit, now), None, now))
  }

  /** The store after `n` rounds; round `i` reads the clock as `clock(i)`. */
  function AfterRounds(w: World, s: Store, limit: nat, clock: nat -> Time, n: nat): Store {
    if n == 0 then s else Round(w, AfterRounds(w, s, limit, clock, n - 1), limit, clock(n - 1))
  }

  /** The sums of the reports of the first `n` rounds. */
  function BatchTotals(w: World, s: Store, limit: nat, clock: nat -> Time, n: nat): BatchResult {
    if n == 0 then NO_BATCH
    else
      var before := AfterRounds(w, s, limit, clock, n - 1);
      Plus(BatchTotals(w, s, limit, clock, n - 1), ResultOf(before, RoundIds(before, limit, clock(n - 1))))
  }

  /** All events claimed in the first `n` rounds, in the order of their claims. */
  function Claims(w: World, s: Store, limit: nat, clock: nat -> Time, n: nat): seq<EventId> {
    if n == 0 then []
    else Claims(w, s, limit, clock, n - 1) + RoundIds(AfterRounds(w, s, limit, clock, n - 1), limit, clock(n - 1))
  }

  /** Round `i` finds something to claim. */
  predicate Claiming(w: World, s: Store, limit: nat, clock: nat -> Time, i: nat) {
    |RoundIds(AfterRounds(w, s, limit, clock, i), limit, clock(i))| > 0
  }

  /** Round `n` is the first that finds nothing to claim. */
  ghost predicate EndsAfter(w: World, s: Store, limit: nat, clock: nat -> Time, n: nat) {
    !Claiming(w, s, limit, clock, n) && forall i: nat :: i < n ==> Claiming(w, s, limit, clock, i)
  }

  lemma ClaimIsClaimable(s: Store, limit: nat, now: Time)
    ensures Claimable(s.events, RoundIds(s, limit, now), now)
    ensures limit > 0 && |RoundIds(s, limit, now)| == 0 ==> forall e :: 0 <= e < |s.events| ==> !Due(s.events[e], now)
  {
    hide Due;
    var ids := RoundIds(s, limit, now);
    forall e | 0 <= e < |s.events| && limit > 0 && |ids| == 0 ensures !Due(s.events[e], now) {
      assert e !in ids;
    }
  }

  lemma OneRound(w: World, s: Store, limit: nat, now: Time)
    ensures var after := Round(w, s, limit, now);
            && |after.events| == |s.events|
            && PendingCount(after.events, |s.events|) + |RoundIds(s, limit, now)| == PendingCount(s.events, |s.events|)
            && ResultOf(s, RoundIds(s, limit, now)).events == |RoundIds(s, limit, now)|
  {
    hide PendingCount, BatchTime, ClaimedBy, ScoresAfter, PublishAll, LedgerAfter, Affected, CityOrder;
    var ids := RoundIds(s, limit, now);
    ClaimIsClaimable(s, limit, now);
    PendingFalls(s.events, ids, now, BatchTime(s, ids, None, now));
  }

  /** Rounds take exactly the claimed events off the pending ones. */
  lemma {:induction false} PendingPlusClaimed(w: World, s: Store, limit: nat, clock: nat -> Time, n: nat)
    ensures var after := AfterRounds(w, s, limit, clock, n);
            && |after.events| == |s.events|
            && PendingCount(after.events, |s.events|) + BatchTotals(w, s, limit, clock, n).events == PendingCount(s.events, |s.events|)
    ensures |Claims(w, s, limit, clock, n)| == BatchTotals(w, s, limit, clock, n).events
  {
    hide PendingCount, Round, RoundIds, ResultOf;
    if n > 0 {
      PendingPlusClaimed(w, s, limit, clock, n - 1);
      OneRound(w, AfterRounds(w, s, limit, clock, n - 1), limit, clock(n - 1));
    }
  }

  lemma ClaimsNext(w: World, s: Store, limit: nat, clock: nat -> Time, n: nat)
    ensures |Claims(w, s, limit, clock, n + 1)| >= |Claims(w, s, limit, clock, n)| + if Claiming(w, s, limit, clock, n) then 1 else 0
    ensures |Claims(w, s, limit, clock, 0)| == 0
  {
    hide RoundIds, AfterRounds;
  }

  /** As long as every round claims something, each adds at least one event. */
  lemma {:induction false} RoundsAreBounded(w: World, s: Store, limit: nat, clock: nat -> Time, n: nat)
    requires forall i: nat :: i < n ==> Claiming(w, s, limit, clock, i)
    ensures n <= |Claims(w, s, limit, clock, n)|
  {
    hide Claims, Claiming;
    if n > 0 {
      RoundsAreBounded(w, s, limit, clock, n - 1);
      ClaimsNext(w, s, limit, clock, n - 1);
      assert Claiming(w, s, limit, clock, n - 1);
    }
  }

  /** Draining ends, after at most as many rounds as there were pending events. */
  lemma DrainingEnds(w: World, s: Store, limit: nat, clock: nat -> Time)
    ensures exists n: nat :: EndsAfter(w, s, limit, clock, n) && n <= PendingCount(s.events, |s.events|)
  {
    hide PendingCount, BatchTotals, Claims, Claiming, AfterRounds;
    var n: nat := 0;
    while Claiming(w, s, limit, clock, n)
      invariant forall i: nat :: i < n ==> Claiming(w, s, limit, clock, i)
      invariant n <= PendingCount(s.events, |s.events|)
      decreases PendingCount(s.events, |s.events|) - n
    {
      n := n + 1;
      RoundsAreBounded(w, s, limit, clock, n);
      PendingPlusClaimed(w, s, limit, clock, n);
    }
    assert EndsAfter(w, s, limit, clock, n);
  }

  // ---------- what a drain does ----------

  /** Each claimed event is completed and entered in the ledger; no other event is touched. */
  ghost predicate Delivered(s: Store, after: Store, ids: seq<EventId>) {
    && Distinct(ids)
    && |after.events| == |s.events|
    && (forall e :: 0 <= e < |s.events| && e !in ids ==> after.events[e] == s.events[e])
    && (forall e :: e in ids ==> e < |s.events| && s.events[e].status == Pending && after.events[e].status == Completed)
    && (forall e :: e in after.ledger <==> e in s.ledger || e in ids)
  }

  lemma NothingDelivered(s: Store)
    ensures Delivered(s, s, [])
  {}

  lemma OneMoreRound(w: World, s: Store, mid: Store, ids: seq<EventId>, more: seq<EventId>, now: Time, at: Time)
    requires Delivered(s, mid, ids) && Claimable(mid.events, more, now)
    ensures Delivered(s, ProcessBatch(w, mid, more, at), ids + more)
  {
    hide ScoresAfter, PublishAll, CityOrder;
    var after, all := ProcessBatch(w, mid, more, at), ids + more;
    forall e | e in more ensures e < |s.events| && e !in ids && s.events[e].status == Pending {
      assert Due(mid.events[e], now);
    }
    NothingClaimedTwice(ids, more);
  }

  lemma NothingClaimedTwice(ids: seq<EventId>, more: seq<EventId>)
    requires Distinct(ids) && Distinct(more) && forall e :: e in more ==> e !in ids
    ensures Distinct(ids + more)
  {
    var all := ids + more;
    forall i, j | 0 <= i < j < |all| ensures all[i] != all[j] {
      if i < |ids| <= j {
        assert all[i] in ids && all[j] in more;
      }
    }
  }

  lemma {:induction false} RoundsDeliver(w: World, s: Store, limit: nat, clock: nat -> Time, n: nat)
    ensures Delivered(s, AfterRounds(w, s, limit, clock, n), Claims(w, s, limit, clock, n))
  {
    hide RoundIds, BatchTime, ProcessBatch, Claimable, Delivered;
    if n == 0 {
      NothingDelivered(s);
    } else {
      RoundsDeliver(w, s, limit, clock, n - 1);
      var mid, now := AfterRounds(w, s, limit, clock, n - 1), clock(n - 1);
      var ids := RoundIds(mid, limit, now);
      ClaimIsClaimable(mid, limit, now);
      OneMoreRound(w, s, mid, Claims(w, s, limit, clock, n - 1), ids, now, BatchTime(mid, ids, None, now));
    }
  }

  lemma {:induction false} RoundsKeepInvariants(w: World, s: Store, limit: nat, clock: nat -> Time, n: nat)
    requires Structured(w, s) && Consistent(w, s, {})
    ensures var after := AfterRounds(w, s, limit, clock, n); Structured(w, after) && Consistent(w, after, {})
  {
    hide Structured, Consistent, RoundIds, BatchTime, ProcessBatch, Claimable;
    if n > 0 {
      RoundsKeepInvariants(w, s, limit, clock, n - 1);
      var mid, now := AfterRounds(w, s, limit, clock, n - 1), clock(n - 1);
      var ids := RoundIds(mid, limit, now);
      var action := Work(ids, now, BatchTime(mid, ids, None, now));
      ClaimIsClaimable(mid, limit, now);
      StepKeepsStructure(w, mid, action);
      StepKeepsConsistency(w, mid, action, {});
    }
  }

  lemma NothingStuckStays(s: Store, after: Store, ids: seq<EventId>, at: Time)
    requires Delivered(s, after, ids) && NothingStuck(s, at)
    ensures NothingStuck(after, at)
  {
    forall e | 0 <= e < |after.events| && e !in after.ledger
      ensures after.events[e].status != Failed && !(after.events[e].status == Pending && after.events[e].nextAttemptAt > at)
    {
      assert after.events[e] == s.events[e];
    }
  }

  /**
   Draining a sound store with a positive limit: when the last round finds nothing, nothing
   is due; and if no unledgered event had failed for good or was waiting beyond that time,
   every event has its ledger row and every score row is exact.
   */
  lemma DrainedStoreIsExact(w: World, s: Store, limit: nat, clock: nat -> Time, n: nat)
    requires Structured(w, s) && Consistent(w, s, {})
    requires limit > 0 && EndsAfter(w, s, limit, clock, n)
    ensures var after := AfterRounds(w, s, limit, clock, n);
            && after.reviews == s.reviews
            && (forall e :: 0 <= e < |after.events| ==> !Due(after.events[e], clock(n)))
            && (NothingStuck(s, clock(n)) ==>
                  && (forall e :: 0 <= e < |s.events| ==> e in after.ledger)
                  && (forall k :: k in after.scores ==> Exact(w, s.reviews, k, after.scores[k])))
  {
    hide Structured, Consistent, RoundIds, Round, Delivered, NothingStuck, Exact, Due, PendingCount;
    var after := AfterRounds(w, s, limit, clock, n);
    RoundsKeepInvariants(w, s, limit, clock, n);
    RoundsKeepReviews(w, s, limit, clock, n);
    PendingPlusClaimed(w, s, limit, clock, n);
    ClaimIsClaimable(after, limit, clock(n));
    DrainedMeansExact(w, after, clock(n));
    if NothingStuck(s, clock(n)) {
      RoundsDeliver(w, s, limit, clock, n);
      NothingStuckStays(s, after, Claims(w, s, limit, clock, n), clock(n));
    }
  }

  lemma {:induction false} RoundsKeepReviews(w: World, s: Store, limit: nat, clock: nat -> Time, n: nat)
    ensures AfterRounds(w, s, limit, clock, n).reviews == s.reviews
  {
    hide RoundIds, BatchTime, PublishAll, ScoresAfter, EventsAfter, LedgerAfter;
    if n > 0 {
      RoundsKeepReviews(w, s, limit, clock, n - 1);
    }
  }

  /** Round `i` publishes a generation of the city. */
  predicate RoundPublishes(w: World, s: Store, limit: nat, clock: nat -> Time, i: nat, c: CityId) {
    var before := AfterRounds(w, s, limit, clock, i);
    c in AffectedCities(before.events, before.ledger, RoundIds(before, limit, clock(i)))
  }

  /** Rounds keep a city's board in agreement with its scores, and restore it when they publish in the city. */
  lemma {:induction false} RoundsKeepAgreement(w: World, s: Store, limit: nat, clock: nat -> Time, n: nat, c: CityId)
    requires Structured(w, s)
    requires Agrees(w, s, c) || exists i: nat :: i < n && RoundPublishes(w, s, limit, clock, i, c)
    ensures Structured(w, AfterRounds(w, s, limit, clock, n)) && Agrees(w, AfterRounds(w, s, limit, clock, n), c)
  {
    hide Structured, Agrees, RoundIds, BatchTime, ProcessBatch, Claimable, AffectedCities;
    if n > 0 {
      if RoundPublishes(w, s, limit, clock, n - 1, c) {
        RoundsKeepStructure(w, s, limit, clock, n - 1);
      } else {
        hide RoundPublishes;
        RoundsKeepAgreement(w, s, limit, clock, n - 1, c);
      }
      var mid, now := AfterRounds(w, s, limit, clock, n - 1), clock(n - 1);
      var ids := RoundIds(mid, limit, now);
      var action := Work(ids, now, BatchTime(mid, ids, None, now));
      ClaimIsClaimable(mid, limit, now);
      StepKeepsStructure(w, mid, action);
      StepAgrees(w, mid, action, c);
    }
  }

  lemma {:induction false} RoundsKeepStructure(w: World, s: Store, limit: nat, clock: nat -> Time, n: nat)
    requires Structured(w, s)
    ensures Structured(w, AfterRounds(w, s, limit, clock, n))
  {
    hide Structured, RoundIds, BatchTime, ProcessBatch, Claimable;
    if n > 0 {
      RoundsKeepStructure(w, s, limit, clock, n - 1);
      var mid, now := AfterRounds(w, s, limit, clock, n - 1), clock(n - 1);
      var ids := RoundIds(mid, limit, now);
      ClaimIsClaimable(mid, limit, now);
      StepKeepsStructure(w, mid, Work(ids, now, BatchTime(mid, ids, None, now)));
    }
  }

  /**
   Start from the empty database, let any transactions happen in any order, then drain: if
   nothing had failed for good or was backing off, the whole derived state is a simple
   recomputation: every score row is its aggregate, and the published board of every city
   that has been published since its last bare rescore, before or during the drain, ranks
   those rows.
   */
  lemma DrainedSystemIsRecomputation(w: World, actions: seq<Action>, m: nat, limit: nat, clock: nat -> Time, n: nat, c: CityId)
    requires m <= |actions|
    requires var s := Run(w, EMPTY, actions, m);
             limit > 0 && EndsAfter(w, s, limit, clock, n) && NothingStuck(s, clock(n))
    ensures var s := Run(w, EMPTY, actions, m);
            var after := AfterRounds(w, s, limit, clock, n);
            && (forall k :: k in after.scores ==> Exact(w, s.reviews, k, after.scores[k]))
            && (PublishedSinceRescore(w, EMPTY, actions, m, c) || (exists i: nat :: i < n && RoundPublishes(w, s, limit, clock, i, c)) ==>
                  match PublishedOf(after.generations, c)
                  case Some(g) => after.generations[g].entries == LiveBoard(w, after.scores, c)
                  case None => forall k :: k in after.scores ==> k.city != c)
  {
    hide Structured, Consistent, EndsAfter, NothingStuck, Exact, AfterRounds, Step, LiveBoard, PublishedSinceRescore, RoundPublishes;
    var s := Run(w, EMPTY, actions, m);
    EmptyIsStructured(w);
    RunKeepsStructure(w, EMPTY, actions, m, m);
    EmptyIsConsistent(w);
    RunIsConsistent(w, EMPTY, actions, m, {});
    DrainedStoreIsExact(w, s, limit, clock, n);
    EmptyAgrees(w, c);
    if PublishedSinceRescore(w, EMPTY, actions, m, c) {
      PublishedSinceRescoreAgrees(w, EMPTY, actions, m, c);
      RoundsKeepAgreement(w, s, limit, clock, n, c);
    }
    if exists i: nat :: i < n && RoundPublishes(w, s, limit, clock, i, c) {
      RoundsKeepAgreement(w, s, limit, clock, n, c);
    }
  }

  lemma EmptyIsConsistent(w: World)
    ensures Consistent(w, EMPTY, {})
  {}

  lemma EmptyAgrees(w: World, c: CityId)
    ensures Agrees(w, EMPTY, c)
  {}

  // ---------- what the totals mean ----------

  /** The drivers of the round's claimed events that have no ledger row. */
  ghost function DriversOfRound(w: World, s: Store, limit: nat, clock: nat -> Time, i: nat): set<DriverKey> {
    var before := AfterRounds(w, s, limit, clock, i);
    set e: EventId | e in RoundIds(before, limit, clock(i)) && e !in before.ledger && e < |before.events| :: before.events[e].target
  }

  ghost function DriversOfRounds(w: World, s: Store, limit: nat, clock: nat -> Time, n: nat): nat {
    if n == 0 then 0 else DriversOfRounds(w, s, limit, clock, n - 1) + |DriversOfRound(w, s, limit, clock, n - 1)|
  }

  /** What one batch reports: its claimed events, its affected drivers once each, and one new generation in each of their cities. */
  lemma ResultOfBatch(w: World, s: Store, ids: seq<EventId>, at: Time)
    ensures var result, after := ResultOf(s, ids), ProcessBatch(w, s, ids, at);
            var drivers := set e: EventId | e in ids && e !in s.ledger && e < |s.events| :: s.events[e].target;
            && result.events == |ids|
            && result.drivers == |drivers|
            && result.generations == |after.generations| - |s.generations| == |result.cities|
            && result.cities == set k | k in drivers :: k.city
  {
    hide Publish, ScoresAfter, EventsAfter, LedgerAfter, CityOrder;
    var cs := CityOrder(s.events, s.ledger, ids, |ids|);
    var drivers := set e: EventId | e in ids && e !in s.ledger && e < |s.events| :: s.events[e].target;
    assert drivers == Affected(s.events, s.ledger, ids);
    PublishAllAppends(w, ScoresAfter(w, s, ids, at), s.generations, cs, |cs|, at);
    CityOrderIsAffected(s.events, s.ledger, ids);
    DistinctCities(cs);
    hide PublishAll;
  }

  lemma {:induction false} PublishAllAppends(w: World, scores: map<DriverKey, Score>, gens: seq<Generation>, cs: seq<CityId>, n: nat, at: Time)
    requires n <= |cs|
    ensures |PublishAll(w, scores, gens, cs, n, at)| == |gens| + n
  {
    hide NewGeneration;
    if n > 0 {
      PublishAllAppends(w, scores, gens, cs, n - 1, at);
    }
  }

  lemma {:induction false} DistinctCities(cs: seq<CityId>)
    requires forall i, j :: 0 <= i < j < |cs| ==> cs[i] != cs[j]
    ensures |Elements(cs)| == |cs|
  {
    if |cs| > 0 {
      var front, last := cs[..|cs| - 1], cs[|cs| - 1];
      DistinctCities(front);
      assert cs == front + [last];
      assert Elements(cs) == Elements(front) + {last};
    }
  }

  /**
   The totals of a drain: every claimed event; each round's drivers once each; as many
   generations as were added; and the cities in which some round published.
   */
  lemma {:induction false} TotalsAreSums(w: World, s: Store, limit: nat, clock: nat -> Time, n: nat)
    ensures var total, after := BatchTotals(w, s, limit, clock, n), AfterRounds(w, s, limit, clock, n);
            && total.events == |Claims(w, s, limit, clock, n)|
            && total.drivers == DriversOfRounds(w, s, limit, clock, n)
            && total.generations == |after.generations| - |s.generations|
            && forall c :: c in total.cities <==> exists i: nat :: i < n && exists k :: k in DriversOfRound(w, s, limit, clock, i) && k.city == c
  {
    hide RoundIds, ResultOf, BatchTime, ProcessBatch, DriversOfRound;
    if n > 0 {
      TotalsAreSums(w, s, limit, clock, n - 1);
      var before, now := AfterRounds(w, s, limit, clock, n - 1), clock(n - 1);
      var ids := RoundIds(before, limit, now);
      ResultOfBatch(w, before, ids, BatchTime(before, ids, None, now));
      RoundDrivers(w, s, limit, clock, n - 1);
      var total, last := BatchTotals(w, s, limit, clock, n), ResultOf(before, ids).cities;
      assert total.cities == BatchTotals(w, s, limit, clock, n - 1).cities + last;
      forall c ensures c in last <==> exists k :: k in DriversOfRound(w, s, limit, clock, n - 1) && k.city == c {}
    }
  }

  lemma RoundDrivers(w: World, s: Store, limit: nat, clock: nat -> Time, i: nat)
    ensures var before := AfterRounds(w, s, limit, clock, i);
            DriversOfRound(w, s, limit, clock, i)
            == set e: EventId | e in RoundIds(before, limit, clock(i)) && e !in before.ledger && e < |before.events| :: before.events[e].target
  {}
}
