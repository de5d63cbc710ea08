/** The outbox protocol: claiming, one commit per batch, the ledger, and retries. */
module Outbox {
  import opened Tables
  import opened Scoring
  import opened Leaderboard

  // ---------- retries ----------

  function Pow2(n: nat): nat {
    if n == 0 then 1 else 2 * Pow2(n - 1)
  }

  /** Status after the given number of attempts, and the delay in seconds if there is a next one. */
  function FailureOutcome(attempts: nat): (EventStatus, Option<nat>)
    requires attempts > 0
  {
    if attempts >= MAX_ATTEMPTS then (Failed, None) else (Pending, Some(Pow2(attempts - 1)))
  }

  const ERROR_LIMIT: nat := 1000

  function Truncated(error: string): (kept: string)
    ensures kept <= error && |kept| <= ERROR_LIMIT && (|error| <= ERROR_LIMIT ==> kept == error)
    ensures |error| > ERROR_LIMIT ==> |kept| == ERROR_LIMIT
  {
    if |error| <= ERROR_LIMIT then error else error[..ERROR_LIMIT]
  }

  function FailedOnce(e: Event, error: string, at: Time): Event {
    var (status, delay) := FailureOutcome(e.attempts + 1);
    e.(attempts := e.attempts + 1, lastError := Some(Truncated(error)), status := status,
       nextAttemptAt := match delay case None => e.nextAttemptAt case Some(d) => at + d * SECOND)
  }

  /**
   A recorded failure, field by field: one more attempt; the error, cut at 1000 characters;
   after the fifth attempt the end, before it another try 1, 2, 4 or 8 seconds later.
   */
  lemma FailureIsRecorded(e: Event, error: string, at: Time)
    ensures var after := FailedOnce(e, error, at);
            && after.kind == e.kind && after.target == e.target && after.review == e.review && after.processedAt == e.processedAt
            && after.attempts == e.attempts + 1
            && after.lastError == Some(if |error| <= 1000 then error else error[..1000])
            && after.status == (if e.attempts < 4 then Pending else Failed)
            && after.nextAttemptAt == (if e.attempts < 4 then at + 1_000_000 * [1, 2, 4, 8][e.attempts] else e.nextAttemptAt)
  {
    assert Pow2(0) == 1 && Pow2(1) == 2 && Pow2(2) == 4 && Pow2(3) == 8;
  }

  /** Recording a failure looks at nothing but the event identifiers. */
  function RecordFailure(s: Store, ids: set<EventId>, error: string, at: Time): Store {
    s.(events := seq(|s.events|, i requires 0 <= i < |s.events| =>
                   if i in ids then FailedOnce(s.events[i], error, at) else s.events[i]))
  }

  // ---------- one batch ----------

  predicate Due(e: Event, at: Time) {
    e.status == Pending && e.nextAttemptAt <= at
  }

  predicate Distinct(ids: seq<EventId>) {
    forall i, j :: 0 <= i < j < |ids| ==> ids[i] != ids[j]
  }

  /** What the claiming query can return: distinct due events. */
  predicate Claimable(events: seq<Event>, ids: seq<EventId>, at: Time) {
    Distinct(ids) && forall i :: 0 <= i < |ids| ==> ids[i] < |events| && Due(events[ids[i]], at)
  }

  /** The first `limit` due events, among the first `n`, that no other session has locked. */
  function Claim(events: seq<Event>, at: Time, limit: nat, locked: set<EventId>, n: nat): (ids: seq<EventId>)
    requires n <= |events|
    ensures |ids| <= limit
    ensures forall i :: 0 <= i < |ids| ==> ids[i] < n && Due(events[ids[i]], at) && ids[i] !in locked
    ensures forall i, j :: 0 <= i < j < |ids| ==> ids[i] < ids[j]
    ensures Distinct(ids)
    ensures |ids| < limit ==> forall e: EventId :: e < n && Due(events[e], at) && e !in locked ==> e in ids
  {
    if n == 0 then []
    else
      var rest := Claim(events, at, limit, locked, n - 1);
      if |rest| < limit && Due(events[n - 1], at) && n - 1 !in locked then rest + [n - 1] else rest
  }

  /** A claim takes the oldest events first: pending ones whose time has come and that nobody else has locked. */
  lemma {:induction false} ClaimTakesOldest(events: seq<Event>, at: Time, limit: nat, locked: set<EventId>, n: nat)
    requires n <= |events|
    ensures var ids := Claim(events, at, limit, locked, n);
            && (forall e :: e in ids ==> e < n && events[e].status == Pending && events[e].nextAttemptAt <= at && e !in locked)
            && (forall e, f: EventId :: e in ids && f < e && f !in locked && events[f].status == Pending && events[f].nextAttemptAt <= at ==> f in ids)
            && (|ids| < limit ==>
                  forall f: EventId :: f < n && f !in locked && events[f].status == Pending && events[f].nextAttemptAt <= at ==> f in ids)
  {
    if n > 0 {
      ClaimTakesOldest(events, at, limit, locked, n - 1);
    }
  }

  /** The drivers whose claimed events have no ledger row yet. */
  function Affected(events: seq<Event>, ledger: map<EventId, Time>, ids: seq<EventId>): set<DriverKey> {
    set e | e in ids && e !in ledger && e < |events| :: events[e].target
  }

  function AffectedCities(events: seq<Event>, ledger: map<EventId, Time>, ids: seq<EventId>): set<CityId> {
    set k | k in Affected(events, ledger, ids) :: k.city
  }

  /** The affected cities in the order their first unledgered event was claimed. */
  function CityOrder(events: seq<Event>, ledger: map<EventId, Time>, ids: seq<EventId>, n: nat): (cs: seq<CityId>)
    requires n <= |ids|
    ensures forall i, j :: 0 <= i < j < |cs| ==> cs[i] != cs[j]
    ensures forall c :: c in cs <==> exists i :: 0 <= i < n && ids[i] !in ledger && ids[i] < |events| && events[ids[i]].target.city == c
  {
    if n == 0 then []
    else
      var rest, e := CityOrder(events, ledger, ids, n - 1), ids[n - 1];
      if e in ledger || e >= |events| || events[e].target.city in rest then rest
      else rest + [events[e].target.city]
  }

  function Elements(cs: seq<CityId>): set<CityId> {
    set c | c in cs
  }

  function PublishAll(w: World, scores: map<DriverKey, Score>, gens: seq<Generation>, cs: seq<CityId>, n: nat, at: Time): seq<Generation>
    requires n <= |cs|
  {
    if n == 0 then gens else Publish(w, scores, PublishAll(w, scores, gens, cs, n - 1, at), cs[n - 1], at)
  }

  function Done(e: Event, at: Time): Event {
    e.(status := Completed, attempts := e.attempts + 1, processedAt := Some(at), lastError := None)
  }

  function EventsAfter(events: seq<Event>, ids: seq<EventId>, at: Time): seq<Event> {
    seq(|events|, i requires 0 <= i < |events| => if i in ids then Done(events[i], at) else events[i])
  }

  function LedgerAfter(ledger: map<EventId, Time>, ids: seq<EventId>, at: Time): map<EventId, Time> {
    map e | e in ledger.Keys + (set i | i in ids) :: if e in ledger then ledger[e] else at
  }

  function ScoresAfter(w: World, s: Store, ids: seq<EventId>, at: Time): map<DriverKey, Score> {
    Rescored(w, s.reviews, s.scores, Affected(s.events, s.ledger, ids), at)
  }

  /** The commit of a successful batch. */
  function ProcessBatch(w: World, s: Store, ids: seq<EventId>, at: Time): Store {
    var cs := CityOrder(s.events, s.ledger, ids, |ids|);
    s.(scores := ScoresAfter(w, s, ids, at),
       generations := PublishAll(w, ScoresAfter(w, s, ids, at), s.generations, cs, |cs|, at),
       events := EventsAfter(s.events, ids, at),
       ledger := LedgerAfter(s.ledger, ids, at))
  }

  // ---------- the processing time ----------

  function LatestExpiration(runs: seq<ExpirationRun>, cs: set<CityId>, n: nat): Option<Time>
    requires n <= |runs|
  {
    if n == 0 then None
    else
      var rest := LatestExpiration(runs, cs, n - 1);
      if runs[n - 1].city !in cs then rest
      else match rest
        case None => Some(runs[n - 1].effectiveAt)
        case Some(t) => Some(Max(t, runs[n - 1].effectiveAt))
  }

  /** Not before now, and not before the latest expiration of the cities. */
  function NotBeforeExpiration(runs: seq<ExpirationRun>, cs: set<CityId>, now: Time): Time {
    match LatestExpiration(runs, cs, |runs|)
    case None => now
    case Some(t) => Max(now, t)
  }

  function ClaimedCities(events: seq<Event>, ids: seq<EventId>): set<CityId> {
    set e | e in ids && e < |events| :: events[e].target.city
  }

  /** The time a batch is processed at: the explicit one, or the worker's own choice. */
  function BatchTime(s: Store, ids: seq<EventId>, explicit: Option<Time>, now: Time): Time {
    match explicit
    case Some(t) => t
    case None => NotBeforeExpiration(s.expirations, ClaimedCities(s.events, ids), now)
  }

  /** The time a rebuild is staged at. */
  function StagingTime(runs: seq<ExpirationRun>, c: CityId, explicit: Option<Time>, now: Time): Time {
    match explicit
    case Some(t) => t
    case None => NotBeforeExpiration(runs, {c}, now)
  }

  lemma {:induction false} LatestExpirationBounds(runs: seq<ExpirationRun>, cs: set<CityId>, n: nat)
    requires n <= |runs|
    ensures forall i :: 0 <= i < n && runs[i].city in cs
                        ==> LatestExpiration(runs, cs, n).Some? && runs[i].effectiveAt <= LatestExpiration(runs, cs, n).value
    ensures LatestExpiration(runs, cs, n).Some?
            ==> exists i :: 0 <= i < n && runs[i].city in cs && runs[i].effectiveAt == LatestExpiration(runs, cs, n).value
  {
    if n > 0 {
      LatestExpirationBounds(runs, cs, n - 1);
    }
  }

  /** An expiration of a city of one of the claimed events, at this time. */
  ghost predicate ExpiresClaimedCity(s: Store, ids: seq<EventId>, r: nat) {
    r < |s.expirations| && exists i :: 0 <= i < |ids| && ids[i] < |s.events| && s.events[ids[i]].target.city == s.expirations[r].city
  }

  /**
   An explicit processing time is taken as it is. The worker's own is the present, or the
   latest expiration of a claimed city if that lies ahead: never before either, and always
   one of the two.
   */
  lemma BatchTimeIsNowOrLater(s: Store, ids: seq<EventId>, explicit: Option<Time>, now: Time)
    ensures var at := BatchTime(s, ids, explicit, now);
            && (explicit.Some? ==> at == explicit.value)
            && (explicit.None? ==>
                  && now <= at
                  && (forall r: nat :: ExpiresClaimedCity(s, ids, r) ==> s.expirations[r].effectiveAt <= at)
                  && (at == now || exists r: nat :: ExpiresClaimedCity(s, ids, r) && s.expirations[r].effectiveAt == at))
  {
    var cs := ClaimedCities(s.events, ids);
    LatestExpirationBounds(s.expirations, cs, |s.expirations|);
    forall r: nat | r < |s.expirations| ensures ExpiresClaimedCity(s, ids, r) <==> s.expirations[r].city in cs {
      if ExpiresClaimedCity(s, ids, r) {
        var i :| 0 <= i < |ids| && ids[i] < |s.events| && s.events[ids[i]].target.city == s.expirations[r].city;
        assert ids[i] in ids;
      }
      if s.expirations[r].city in cs {
        var e :| e in ids && e < |s.events| && s.events[e].target.city == s.expirations[r].city;
        var i :| 0 <= i < |ids| && ids[i] == e;
      }
    }
  }

  /** A rebuild is staged at its explicit time, or at the present, or at the city's latest expiration if that lies ahead. */
  lemma StagingTimeIsNowOrLater(runs: seq<ExpirationRun>, c: CityId, explicit: Option<Time>, now: Time)
    ensures var at := StagingTime(runs, c, explicit, now);
            && (explicit.Some? ==> at == explicit.value)
            && (explicit.None? ==>
                  && now <= at
                  && (forall r :: 0 <= r < |runs| && runs[r].city == c ==> runs[r].effectiveAt <= at)
                  && (at == now || exists r :: 0 <= r < |runs| && runs[r].city == c && runs[r].effectiveAt == at))
  {
    LatestExpirationBounds(runs, {c}, |runs|);
  }

  // ---------- publishing several cities ----------

  /** `gens'` is `gens` with a new publication, ranking `scores`, in exactly the cities `cs`. */
  ghost predicate PublishedAnew(w: World, scores: map<DriverKey, Score>, gens: seq<Generation>, gens': seq<Generation>, cs: set<CityId>) {
    && |gens| <= |gens'|
    && (forall i :: 0 <= i < |gens| ==>
          gens'[i] == if gens[i].city in cs then Retire(gens[i], gens[i].city) else gens[i])
    && (forall i :: |gens| <= i < |gens'| ==>
          gens'[i].city in cs && gens'[i].status != Candidate && gens'[i].entries == LiveBoard(w, scores, gens'[i].city))
    && (forall c :: c in cs ==> FreshBoard(w, scores, gens', c, |gens|))
  }

  ghost predicate FreshBoard(w: World, scores: map<DriverKey, Score>, gens: seq<Generation>, c: CityId, from: nat) {
    var g := PublishedOf(gens, c);
    g.Some? && g.value >= from && gens[g.value].entries == LiveBoard(w, scores, c)
  }

  lemma {:induction false} PublishAllIsSound(w: World, scores: map<DriverKey, Score>, gens: seq<Generation>, cs: seq<CityId>, n: nat, at: Time)
    requires n <= |cs| && ValidGenerations(gens)
    requires forall i, j :: 0 <= i < j < |cs| ==> cs[i] != cs[j]
    ensures var gens' := PublishAll(w, scores, gens, cs, n, at);
            && ValidGenerations(gens') && AllEvolve(gens, gens')
            && PublishedAnew(w, scores, gens, gens', Elements(cs[..n]))
  {
    hide LiveBoard, Publish, ValidGenerations, AllEvolve;
    if n == 0 {
      EvolutionIsReflexive(gens);
    } else {
      PublishAllIsSound(w, scores, gens, cs, n - 1, at);
      var mid, c := PublishAll(w, scores, gens, cs, n - 1, at), cs[n - 1];
      var next := Publish(w, scores, mid, c, at);
      PublishIsSound(w, scores, mid, c, at);
      EvolutionIsTransitive(gens, mid, next);
      PublishOneMore(w, scores, gens, mid, next, Elements(cs[..n - 1]), c);
      assert cs[..n] == cs[..n - 1] + [c];
      assert Elements(cs[..n]) == Elements(cs[..n - 1]) + {c};
    }
  }

  lemma PublishOneMore(w: World, scores: map<DriverKey, Score>, gens: seq<Generation>, mid: seq<Generation>, next: seq<Generation>,
                       cs: set<CityId>, c: CityId)
    requires PublishedAnew(w, scores, gens, mid, cs) && c !in cs
    requires |next| == |mid| + 1 && PublishedOf(next, c) == Some(|mid|)
    requires next[|mid|].entries == LiveBoard(w, scores, c)
    requires forall i :: 0 <= i < |mid| ==> next[i] == Retire(mid[i], c)
    ensures PublishedAnew(w, scores, gens, next, cs + {c})
  {
    hide LiveBoard;
    forall d | d in cs + {c} ensures FreshBoard(w, scores, next, d, |gens|) {
      if d != c {
        assert FreshBoard(w, scores, mid, d, |gens|);
        PublishedFrame(mid, next, d, |mid|);
      }
    }
  }

  lemma BatchPublishesAffectedCities(w: World, s: Store, ids: seq<EventId>, at: Time)
    requires ValidGenerations(s.generations)
    ensures var s' := ProcessBatch(w, s, ids, at);
            && ValidGenerations(s'.generations) && AllEvolve(s.generations, s'.generations)
            && PublishedAnew(w, s'.scores, s.generations, s'.generations, AffectedCities(s.events, s.ledger, ids))
  {
    hide PublishAll, ScoresAfter, PublishedAnew, ValidGenerations, AllEvolve;
    var cs := CityOrder(s.events, s.ledger, ids, |ids|);
    PublishAllIsSound(w, ScoresAfter(w, s, ids, at), s.generations, cs, |cs|, at);
    assert cs[..|cs|] == cs;
    CityOrderIsAffected(s.events, s.ledger, ids);
  }

  /** The `i`-th claimed event has no ledger row and belongs to the city. */
  ghost predicate Meets(events: seq<Event>, ledger: map<EventId, Time>, ids: seq<EventId>, i: nat, c: CityId) {
    i < |ids| && ids[i] !in ledger && ids[i] < |events| && events[ids[i]].target.city == c
  }

  /** Up to the `n`-th claimed event, city `c` has been met and city `d` only later or not at all. */
  ghost predicate MetBefore(events: seq<Event>, ledger: map<EventId, Time>, ids: seq<EventId>, n: nat, c: CityId, d: CityId) {
    exists i: nat :: i < n && Meets(events, ledger, ids, i, c) && forall j: nat :: j <= i ==> !Meets(events, ledger, ids, j, d)
  }

  /** Cities are listed in the order in which the claimed events first meet them. */
  lemma {:induction false} CitiesInOrderMet(events: seq<Event>, ledger: map<EventId, Time>, ids: seq<EventId>, n: nat, p: nat, q: nat)
    requires n <= |ids| && p < q < |CityOrder(events, ledger, ids, n)|
    ensures MetBefore(events, ledger, ids, n, CityOrder(events, ledger, ids, n)[p], CityOrder(events, ledger, ids, n)[q])
  {
    if n > 0 {
      var before := CityOrder(events, ledger, ids, n - 1);
      if q < |before| {
        CitiesInOrderMet(events, ledger, ids, n - 1, p, q);
        StillMetBefore(events, ledger, ids, n, before[p], before[q]);
      } else {
        NewCityIsLater(events, ledger, ids, n, p);
      }
    }
  }

  lemma StillMetBefore(events: seq<Event>, ledger: map<EventId, Time>, ids: seq<EventId>, n: nat, c: CityId, d: CityId)
    requires 0 < n && MetBefore(events, ledger, ids, n - 1, c, d)
    ensures MetBefore(events, ledger, ids, n, c, d)
  {}

  lemma NewCityIsLater(events: seq<Event>, ledger: map<EventId, Time>, ids: seq<EventId>, n: nat, p: nat)
    requires 0 < n <= |ids|
    requires var before, cs := CityOrder(events, ledger, ids, n - 1), CityOrder(events, ledger, ids, n);
             p < |before| && |cs| == |before| + 1
    ensures var before, cs := CityOrder(events, ledger, ids, n - 1), CityOrder(events, ledger, ids, n);
            MetBefore(events, ledger, ids, n, before[p], cs[|before|])
  {
    var before, cs := CityOrder(events, ledger, ids, n - 1), CityOrder(events, ledger, ids, n);
    var c, d := before[p], cs[|before|];
    assert c in before && d !in before;
    var i :| 0 <= i < n - 1 && ids[i] !in ledger && ids[i] < |events| && events[ids[i]].target.city == c;
    forall j: nat | j <= i ensures !Meets(events, ledger, ids, j, d) {}
    assert Meets(events, ledger, ids, i, c);
  }

  lemma CityOrderIsAffected(events: seq<Event>, ledger: map<EventId, Time>, ids: seq<EventId>)
    ensures var cs := CityOrder(events, ledger, ids, |ids|);
            Elements(cs) == AffectedCities(events, ledger, ids)
  {
    var cs := CityOrder(events, ledger, ids, |ids|);
    forall c | c in AffectedCities(events, ledger, ids) ensures c in cs {
      var k :| k in Affected(events, ledger, ids) && k.city == c;
      var e :| e in ids && e !in ledger && e < |events| && events[e].target == k;
      var i :| 0 <= i < |ids| && ids[i] == e;
    }
    forall c | c in cs ensures c in AffectedCities(events, ledger, ids) {
      var i :| 0 <= i < |ids| && ids[i] !in ledger && ids[i] < |events| && events[ids[i]].target.city == c;
      assert events[ids[i]].target in Affected(events, ledger, ids);
    }
  }

  // ---------- the retry machine ----------

  /** No committed event is being processed, and each status bounds attempts and ledger. */
  ghost predicate ValidEvent(w: World, e: Event, ledgered: bool) {
    && e.target.driver < |w.drivers| && e.target.city in w.cities
    && e.status != Processing
    && (e.status == Pending ==> e.attempts < MAX_ATTEMPTS)
    && (e.status == Failed ==> e.attempts >= MAX_ATTEMPTS)
    && (e.status == Completed ==> ledgered && e.processedAt.Some?)
  }

  ghost predicate ValidOutbox(w: World, events: seq<Event>, ledger: map<EventId, Time>) {
    && (forall e :: 0 <= e < |events| ==> ValidEvent(w, events[e], e in ledger))
    && (forall e :: e in ledger ==> e < |events|)
  }

  lemma BatchKeepsOutbox(w: World, s: Store, ids: seq<EventId>, availableAt: Time, at: Time)
    requires ValidOutbox(w, s.events, s.ledger) && Claimable(s.events, ids, availableAt)
    ensures ValidOutbox(w, EventsAfter(s.events, ids, at), LedgerAfter(s.ledger, ids, at))
    ensures LedgerAfter(s.ledger, ids, at).Keys == s.ledger.Keys + set e | e in ids
    ensures forall e :: e in s.ledger ==> LedgerAfter(s.ledger, ids, at)[e] == s.ledger[e]
    ensures forall e :: e in ids && e !in s.ledger ==> LedgerAfter(s.ledger, ids, at)[e] == at
    ensures forall e :: 0 <= e < |s.events| ==>
              var after := EventsAfter(s.events, ids, at)[e];
              if e in ids then after.status == Completed && after.processedAt == Some(at) && after.lastError == None
                               && after.attempts == s.events[e].attempts + 1
              else after == s.events[e]
  {}

  lemma FailureKeepsOutbox(w: World, s: Store, ids: set<EventId>, error: string, at: Time)
    requires ValidOutbox(w, s.events, s.ledger)
    ensures ValidOutbox(w, RecordFailure(s, ids, error, at).events, s.ledger)
  {}

  /** The claimed events that have no ledger row yet, in the order of the claim. */
  function Unledgered(ledger: map<EventId, Time>, ids: seq<EventId>, n: nat): seq<EventId>
    requires n <= |ids|
  {
    if n == 0 then []
    else
      var rest := Unledgered(ledger, ids, n - 1);
      if ids[n - 1] in ledger then rest else rest + [ids[n - 1]]
  }

  lemma {:induction false} UnledgeredOnes(ledger: map<EventId, Time>, ids: seq<EventId>, n: nat)
    requires n <= |ids|
    ensures forall e :: e in Unledgered(ledger, ids, n) <==> e !in ledger && exists i :: 0 <= i < n && ids[i] == e
  {
    if n > 0 {
      UnledgeredOnes(ledger, ids, n - 1);
    }
  }

  lemma {:induction false} LedgeredAreSkipped(events: seq<Event>, ledger: map<EventId, Time>, ids: seq<EventId>, n: nat)
    requires n <= |ids|
    ensures var rest := Unledgered(ledger, ids, n);
            CityOrder(events, ledger, rest, |rest|) == CityOrder(events, ledger, ids, n)
  {
    hide CityOrder;
    if n == 0 {
      NoCitiesYet(events, ledger, ids);
    } else {
      LedgeredAreSkipped(events, ledger, ids, n - 1);
      var front := Unledgered(ledger, ids, n - 1);
      if ids[n - 1] in ledger {
        LedgeredAddsNoCity(events, ledger, ids, n);
      } else {
        SameLastSameOrder(events, ledger, front, ids, n, ids[n - 1]);
      }
    }
  }

  lemma NoCitiesYet(events: seq<Event>, ledger: map<EventId, Time>, ids: seq<EventId>)
    ensures CityOrder(events, ledger, ids, 0) == CityOrder(events, ledger, [], 0) == []
  {}

  lemma LedgeredAddsNoCity(events: seq<Event>, ledger: map<EventId, Time>, ids: seq<EventId>, n: nat)
    requires 0 < n <= |ids| && ids[n - 1] in ledger
    ensures CityOrder(events, ledger, ids, n) == CityOrder(events, ledger, ids, n - 1)
  {}

  lemma SameLastSameOrder(events: seq<Event>, ledger: map<EventId, Time>, front: seq<EventId>, ids: seq<EventId>, n: nat, e: EventId)
    requires 0 < n <= |ids| && ids[n - 1] == e
    requires CityOrder(events, ledger, front, |front|) == CityOrder(events, ledger, ids, n - 1)
    ensures CityOrder(events, ledger, front + [e], |front + [e]|) == CityOrder(events, ledger, ids, n)
  {
    SamePrefixSameOrder(events, ledger, front, front + [e], |front|);
  }

  lemma {:induction false} SamePrefixSameOrder(events: seq<Event>, ledger: map<EventId, Time>, a: seq<EventId>, b: seq<EventId>, n: nat)
    requires n <= |a| && n <= |b| && forall i :: 0 <= i < n ==> a[i] == b[i]
    ensures CityOrder(events, ledger, a, n) == CityOrder(events, ledger, b, n)
  {
    if n > 0 {
      SamePrefixSameOrder(events, ledger, a, b, n - 1);
    }
  }

  /**
   An event with a ledger row never causes another recalculation or publication: a batch has
   the scores, generations and ledger of the same batch without its ledgered events, and one
   that claims nothing else changes none of them.
   */
  lemma LedgeredEventsAreSilent(w: World, s: Store, ids: seq<EventId>, at: Time)
    ensures var rest := Unledgered(s.ledger, ids, |ids|);
            var mixed, pure := ProcessBatch(w, s, ids, at), ProcessBatch(w, s, rest, at);
            && mixed.scores == pure.scores && mixed.generations == pure.generations && mixed.ledger == pure.ledger
            && (|rest| == 0 ==> mixed.scores == s.scores && mixed.generations == s.generations && mixed.ledger == s.ledger)
  {
    hide PublishAll, Recalculated, CityOrder, Unledgered;
    var rest := Unledgered(s.ledger, ids, |ids|);
    UnledgeredOnes(s.ledger, ids, |ids|);
    LedgeredAreSkipped(s.events, s.ledger, ids, |ids|);
    assert Affected(s.events, s.ledger, rest) == Affected(s.events, s.ledger, ids);
    if |rest| == 0 {
      NothingToDo(w, s, at);
      assert rest == [];
    }
  }

  lemma NothingToDo(w: World, s: Store, at: Time)
    ensures ProcessBatch(w, s, [], at) == s
  {
    assert EventsAfter(s.events, [], at) == s.events;
  }

  /** The audit rule that a ledger row belongs to a completed event. */
  ghost predicate LedgeredAreCompleted(s: Store) {
    forall e :: e in s.ledger && e < |s.events| ==> s.events[e].status == Completed
  }

  /**
   A failure record that arrives after another worker completed one of its events reopens
   that event: the audit rule survives if and only if no reported event has a ledger row.
   */
  lemma StaleFailureReopens(s: Store, ids: set<EventId>, error: string, at: Time)
    requires LedgeredAreCompleted(s)
    ensures LedgeredAreCompleted(RecordFailure(s, ids, error, at))
       <==> forall e :: e in ids && e < |s.events| ==> e !in s.ledger
  {
    var s' := RecordFailure(s, ids, error, at);
    if LedgeredAreCompleted(s') {
      forall e | e in ids && e < |s.events| ensures e !in s.ledger {
        assert s'.events[e].status != Completed;
      }
    }
  }

  /** A batch completes what it claims, so it cannot break the rule. */
  lemma BatchKeepsLedgerAudit(w: World, s: Store, ids: seq<EventId>, at: Time)
    ensures LedgeredAreCompleted(s) ==> LedgeredAreCompleted(ProcessBatch(w, s, ids, at))
  {}
}
