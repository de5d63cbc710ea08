/** Any way of splitting the due events into batches ends with the same scores and boards. */
module Confluence {
  import opened Tables
  import opened Scoring
  import opened Ranking
  import opened Leaderboard
  import opened Outbox
  import opened System
  import opened Agreement

  /** The first `n` batches, one commit each, all at one explicit processing time. */
  function Batches(w: World, s: Store, batches: seq<seq<EventId>>, n: nat, at: Time): Store
    requires n <= |batches|
  {
    if n == 0 then s else ProcessBatch(w, Batches(w, s, batches, n - 1, at), batches[n - 1], at)
  }

  /** The first `n` batches run together. */
  function Joined(batches: seq<seq<EventId>>, n: nat): seq<EventId>
    requires n <= |batches|
  {
    if n == 0 then [] else Joined(batches, n - 1) + batches[n - 1]
  }

  ghost predicate SameSet(a: seq<EventId>, b: seq<EventId>) {
    forall e :: e in a <==> e in b
  }

  /** The parts of the store that batches at one time determine from the claimed events alone. */
  ghost predicate AsOneBatch(w: World, s: Store, s': Store, ids: seq<EventId>, at: Time) {
    && s'.reviews == s.reviews && s'.requests == s.requests && s'.jobs == s.jobs && s'.expirations == s.expirations
    && s'.scores == ScoresAfter(w, s, ids, at)
    && s'.events == EventsAfter(s.events, ids, at)
    && s'.ledger == LedgerAfter(s.ledger, ids, at)
  }

  lemma AffectedOfJoin(s: Store, a: seq<EventId>, b: seq<EventId>, at: Time)
    requires Distinct(a + b)
    ensures Affected(s.events, s.ledger, a + b)
         == Affected(s.events, s.ledger, a) + Affected(EventsAfter(s.events, a, at), LedgerAfter(s.ledger, a, at), b)
  {
    var events', ledger' := EventsAfter(s.events, a, at), LedgerAfter(s.ledger, a, at);
    DisjointParts(a, b);
    forall e | e in b && e < |s.events| ensures e in ledger' <==> e in s.ledger {}
    forall k | k in Affected(s.events, s.ledger, a + b)
      ensures k in Affected(s.events, s.ledger, a) + Affected(events', ledger', b)
    {
      var e :| e in a + b && e !in s.ledger && e < |s.events| && s.events[e].target == k;
      assert e in a || (e in b && events'[e].target == k);
    }
    forall k | k in Affected(events', ledger', b) ensures k in Affected(s.events, s.ledger, a + b) {
      var e :| e in b && e !in ledger' && e < |events'| && events'[e].target == k;
      assert e in a + b && s.events[e].target == k;
    }
    forall k | k in Affected(s.events, s.ledger, a) ensures k in Affected(s.events, s.ledger, a + b) {
      var e :| e in a && e !in s.ledger && e < |s.events| && s.events[e].target == k;
      assert e in a + b;
    }
  }

  lemma DisjointParts(a: seq<EventId>, b: seq<EventId>)
    requires Distinct(a + b)
    ensures forall e :: e in a ==> e !in b
    ensures Distinct(a) && Distinct(b)
  {
    var c := a + b;
    forall e | e in a ensures e !in b {
      var i :| 0 <= i < |a| && a[i] == e;
      assert c[i] == e;
      assert forall j :: 0 <= j < |b| ==> c[|a| + j] == b[j];
    }
    forall i, j | 0 <= i < j < |a| ensures a[i] != a[j] { assert c[i] != c[j]; }
    forall i, j | 0 <= i < j < |b| ensures b[i] != b[j] { assert c[|a| + i] != c[|a| + j]; }
  }

  /** Recalculating twice at the same time is recalculating both at once. */
  lemma RescoredTwice(w: World, s: Store, a: set<DriverKey>, b: set<DriverKey>, at: Time)
    ensures Rescored(w, s.reviews, Rescored(w, s.reviews, s.scores, a, at), b, at) == Rescored(w, s.reviews, s.scores, a + b, at)
  {
    hide Recalculated;
  }

  lemma OneMoreBatch(w: World, s: Store, mid: Store, a: seq<EventId>, b: seq<EventId>, at: Time)
    requires AsOneBatch(w, s, mid, a, at) && Distinct(a + b)
    ensures AsOneBatch(w, s, ProcessBatch(w, mid, b, at), a + b, at)
  {
    hide Recalculated, PublishAll, CityOrder, Affected, Rescored;
    DisjointParts(a, b);
    AffectedOfJoin(s, a, b, at);
    RescoredTwice(w, s, Affected(s.events, s.ledger, a), Affected(mid.events, mid.ledger, b), at);
    EventsOfJoin(s.events, a, b, at);
    LedgerOfJoin(s.ledger, a, b, at);
  }

  lemma EventsOfJoin(events: seq<Event>, a: seq<EventId>, b: seq<EventId>, at: Time)
    requires forall e :: e in a ==> e !in b
    ensures EventsAfter(EventsAfter(events, a, at), b, at) == EventsAfter(events, a + b, at)
  {}

  lemma LedgerOfJoin(ledger: map<EventId, Time>, a: seq<EventId>, b: seq<EventId>, at: Time)
    ensures LedgerAfter(LedgerAfter(ledger, a, at), b, at) == LedgerAfter(ledger, a + b, at)
  {
  }

  /** Each batch of a split is claimable when its turn comes. */
  lemma NextBatchIsClaimable(w: World, s: Store, mid: Store, a: seq<EventId>, b: seq<EventId>, at: Time)
    requires AsOneBatch(w, s, mid, a, at) && Claimable(s.events, a + b, at)
    ensures Claimable(mid.events, b, at)
  {
    hide ScoresAfter, LedgerAfter;
    DisjointParts(a, b);
    forall j | 0 <= j < |b| ensures b[j] < |mid.events| && Due(mid.events[b[j]], at) {
      assert (a + b)[|a| + j] == b[j];
      assert b[j] in b;
    }
  }

  lemma {:induction false} JoinedPrefix(batches: seq<seq<EventId>>, m: nat, n: nat)
    requires m <= n <= |batches|
    ensures Joined(batches, m) <= Joined(batches, n)
  {
    if m < n {
      JoinedPrefix(batches, m, n - 1);
    }
  }

  lemma PrefixIsClaimable(events: seq<Event>, a: seq<EventId>, b: seq<EventId>, at: Time)
    requires Claimable(events, b, at) && a <= b
    ensures Claimable(events, a, at)
  {}

  function BoardOf(gens: seq<Generation>, c: CityId): Option<seq<Entry>> {
    match PublishedOf(gens, c)
    case None => None
    case Some(g) => Some(gens[g].entries)
  }

  /** The city's board after the events `ids` were processed, in whatever batches. */
  function BoardAfter(w: World, s: Store, ids: seq<EventId>, at: Time, c: CityId): Option<seq<Entry>> {
    if c in AffectedCities(s.events, s.ledger, ids) then Some(LiveBoard(w, ScoresAfter(w, s, ids, at), c))
    else BoardOf(s.generations, c)
  }

  /** A split has the effect of one batch and keeps the structure. */
  lemma {:induction false} SplitIsOneBatch(w: World, s: Store, batches: seq<seq<EventId>>, n: nat, at: Time)
    requires n <= |batches| && Structured(w, s)
    requires Claimable(s.events, Joined(batches, |batches|), at)
    ensures AsOneBatch(w, s, Batches(w, s, batches, n, at), Joined(batches, n), at)
    ensures Structured(w, Batches(w, s, batches, n, at))
    ensures forall c: CityId :: BoardOf(Batches(w, s, batches, n, at).generations, c) == BoardAfter(w, s, Joined(batches, n), at, c)
  {
    hide Structured, BoardOf, BoardAfter, AsOneBatch, Claimable, ProcessBatch;
    if n == 0 {
      EmptyBatch(w, s, at);
    } else {
      SplitIsOneBatch(w, s, batches, n - 1, at);
      var mid, a, b := Batches(w, s, batches, n - 1, at), Joined(batches, n - 1), batches[n - 1];
      JoinedPrefix(batches, n, |batches|);
      PrefixIsClaimable(s.events, a + b, Joined(batches, |batches|), at);
      NextBatchIsClaimable(w, s, mid, a, b, at);
      ClaimableIsDistinct(s.events, a + b, at);
      OneMoreBatch(w, s, mid, a, b, at);
      WorkKeepsStructure(w, mid, b, at, at);
      forall c: CityId ensures BoardOf(ProcessBatch(w, mid, b, at).generations, c) == BoardAfter(w, s, a + b, at, c) {
        OneMoreBoard(w, s, mid, a, b, at, c);
      }
    }
  }

  lemma OneMoreBoard(w: World, s: Store, mid: Store, a: seq<EventId>, b: seq<EventId>, at: Time, c: CityId)
    requires AsOneBatch(w, s, mid, a, at) && Distinct(a + b)
    requires Structured(w, mid) && Claimable(mid.events, b, at)
    requires BoardOf(mid.generations, c) == BoardAfter(w, s, a, at, c)
    ensures BoardOf(ProcessBatch(w, mid, b, at).generations, c) == BoardAfter(w, s, a + b, at, c)
  {
    hide Structured, Claimable, Affected, PublishAll, CityOrder, EventsAfter, LedgerAfter, Rescored, LiveBoard, AsOneBatch;
    var next := ProcessBatch(w, mid, b, at);
    var cs, late := AffectedCities(s.events, s.ledger, a), AffectedCities(mid.events, mid.ledger, b);
    OneMoreBatch(w, s, mid, a, b, at);
    assert AffectedCities(s.events, s.ledger, a + b) == cs + late by {
      CitiesOfJoin(w, s, mid, a, b, at);
    }
    assert next.scores == ScoresAfter(w, s, a + b, at) && mid.scores == ScoresAfter(w, s, a, at) by {
      SameScores(w, s, next, a + b, at);
      SameScores(w, s, mid, a, at);
    }
    WorkKeepsStructure(w, mid, b, at, at);
    if c in late {
      assert FreshBoard(w, next.scores, next.generations, c, |mid.generations|);
    } else {
      PublishedElsewhere(w, next.scores, mid.generations, next.generations, late, c);
      BoardUntouched(w, mid, b, at, c);
    }
  }

  lemma SameScores(w: World, s: Store, s': Store, ids: seq<EventId>, at: Time)
    requires AsOneBatch(w, s, s', ids, at)
    ensures s'.scores == ScoresAfter(w, s, ids, at)
  {}

  lemma CitiesOfJoin(w: World, s: Store, mid: Store, a: seq<EventId>, b: seq<EventId>, at: Time)
    requires AsOneBatch(w, s, mid, a, at) && Distinct(a + b)
    ensures AffectedCities(s.events, s.ledger, a + b)
         == AffectedCities(s.events, s.ledger, a) + AffectedCities(mid.events, mid.ledger, b)
  {
    hide Affected, EventsAfter, LedgerAfter, ScoresAfter;
    AffectedOfJoin(s, a, b, at);
  }

  lemma BoardUntouched(w: World, s: Store, ids: seq<EventId>, at: Time, c: CityId)
    requires c !in AffectedCities(s.events, s.ledger, ids)
    ensures LiveBoard(w, ScoresAfter(w, s, ids, at), c) == LiveBoard(w, s.scores, c)
  {
    hide Affected, Board, Recalculated;
    var keys := Affected(s.events, s.ledger, ids);
    forall k | k in keys ensures k.city != c {
      CityOfAffected(s, ids, k);
    }
    RescoringElsewhere(w, s.reviews, s.scores, keys, at, c);
    LiveRowsFrame(w, s.scores, ScoresAfter(w, s, ids, at), c, |w.drivers|);
  }

  lemma ClaimableIsDistinct(events: seq<Event>, ids: seq<EventId>, at: Time)
    requires Claimable(events, ids, at)
    ensures Distinct(ids)
  {}

  lemma EmptyBatch(w: World, s: Store, at: Time)
    ensures AsOneBatch(w, s, s, [], at)
    ensures forall c: CityId :: BoardAfter(w, s, [], at, c) == BoardOf(s.generations, c)
  {
    hide Recalculated, BoardOf;
    assert Affected(s.events, s.ledger, []) == {};
  }

  /** The order of the claimed events does not matter for scores, events and ledger. */
  lemma OrderDoesNotMatter(w: World, s: Store, a: seq<EventId>, b: seq<EventId>, at: Time)
    requires SameSet(a, b)
    ensures ScoresAfter(w, s, a, at) == ScoresAfter(w, s, b, at)
    ensures EventsAfter(s.events, a, at) == EventsAfter(s.events, b, at)
    ensures LedgerAfter(s.ledger, a, at) == LedgerAfter(s.ledger, b, at)
    ensures Affected(s.events, s.ledger, a) == Affected(s.events, s.ledger, b)
  {
    hide Recalculated;
    assert Affected(s.events, s.ledger, a) == Affected(s.events, s.ledger, b);
  }

  /**
   Batching confluence: two ways of splitting the same due events, in any claim order, end
   with the same scores, events and ledger, and with the same published entries in every
   city; only the number of generations published on the way may differ.
   */
  lemma BatchingIsConfluent(w: World, s: Store, one: seq<seq<EventId>>, two: seq<seq<EventId>>, at: Time)
    requires Structured(w, s)
    requires Claimable(s.events, Joined(one, |one|), at) && Claimable(s.events, Joined(two, |two|), at)
    requires SameSet(Joined(one, |one|), Joined(two, |two|))
    ensures var a, b := Batches(w, s, one, |one|, at), Batches(w, s, two, |two|, at);
            && a.(generations := []) == b.(generations := [])
            && (forall c: CityId :: BoardOf(a.generations, c) == BoardOf(b.generations, c))
  {
    hide Structured, Claimable, ProcessBatch, ScoresAfter, EventsAfter, LedgerAfter, LiveBoard, BoardOf, Affected;
    SplitIsOneBatch(w, s, one, |one|, at);
    SplitIsOneBatch(w, s, two, |two|, at);
    OrderDoesNotMatter(w, s, Joined(one, |one|), Joined(two, |two|), at);
  }
}
