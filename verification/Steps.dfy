/** Facts about one turn of the services' loops. */
module Steps {
  import opened Tables
  import opened Scoring
  import opened Ranking
  import opened Leaderboard
  import opened Outbox
  import opened Rebuild
  import opened Expiration
  import opened System

  // ---------- loops over the drivers of a city ----------

  lemma AllKeysListed(ds: seq<DriverId>, c: CityId)
    ensures ds[..|ds|] == ds
    ensures KeysOf(c, ds[..0]) == {}
  {}

  lemma NothingRescored(w: World, rt: Reviews, scores: map<DriverKey, Score>, after: map<DriverKey, Score>, at: Time)
    ensures Rescored(w, rt, scores, {}, at) == scores
    ensures ChangedKeys(scores, after, {}) == {}
  {}

  lemma KeysOfNext(c: CityId, ds: seq<DriverId>, i: nat)
    requires i < |ds| && (forall m, n :: 0 <= m < n < |ds| ==> ds[m] < ds[n])
    ensures KeysOf(c, ds[..i + 1]) == KeysOf(c, ds[..i]) + {DriverKey(c, ds[i])}
    ensures DriverKey(c, ds[i]) !in KeysOf(c, ds[..i])
    ensures KeysOf(c, ds[..i + 1]) <= KeysOf(c, ds)
  {
    assert ds[..i + 1] == ds[..i] + [ds[i]];
    forall d | d in ds[..i] ensures d != ds[i] && d in ds {
      var m :| 0 <= m < i && ds[..i][m] == d;
    }
  }

  lemma RescoredNext(w: World, rt: Reviews, scores: map<DriverKey, Score>, keys: set<DriverKey>, k: DriverKey, at: Time)
    ensures Rescored(w, rt, scores, keys + {k}, at) == Rescored(w, rt, scores, keys, at)[k := Recalculated(w, rt, k, at)]
  {
    hide Recalculated;
  }

  /** Recalculating one more listed driver adds one to the changed keys exactly when it changed. */
  lemma OneMoreDriver(w: World, rt: Reviews, scores: map<DriverKey, Score>, c: CityId, ds: seq<DriverId>, i: nat, at: Time)
    requires i < |ds| && ds == CityDrivers(w, c)
    ensures var k := DriverKey(c, ds[i]);
            var keys := KeysOf(c, ds[..i]);
            var all := Rescored(w, rt, scores, CityKeys(w, c), at);
            var new3 := Recalculated(w, rt, k, at);
            && Rescored(w, rt, scores, KeysOf(c, ds[..i + 1]), at) == Rescored(w, rt, scores, keys, at)[k := new3]
            && Ranking3(Rescored(w, rt, scores, keys, at), k) == Ranking3(scores, k)
            && |ChangedKeys(scores, all, KeysOf(c, ds[..i + 1]))|
               == |ChangedKeys(scores, all, keys)|
                  + (if Ranking3(scores, k) != Some(CandidateScore(new3.sum, new3.count, new3.eligible)) then 1 else 0)
  {
    hide Recalculated, CityDrivers, Rescored, KeysOf, ChangedKeys;
    KeysOfNext(c, ds, i);
    var k, keys := DriverKey(c, ds[i]), KeysOf(c, ds[..i]);
    RescoredNext(w, rt, scores, keys, k, at);
    RescoredRow(w, rt, scores, CityKeys(w, c), k, at);
    RescoredRow(w, rt, scores, keys, k, at);
    ChangedNext(scores, Rescored(w, rt, scores, CityKeys(w, c), at), keys, k);
  }

  lemma RescoredRow(w: World, rt: Reviews, scores: map<DriverKey, Score>, keys: set<DriverKey>, k: DriverKey, at: Time)
    ensures var new3 := Recalculated(w, rt, k, at);
            Ranking3(Rescored(w, rt, scores, keys, at), k)
            == if k in keys then Some(CandidateScore(new3.sum, new3.count, new3.eligible)) else Ranking3(scores, k)
  {
    hide Recalculated;
  }

  lemma ChangedNext(before: map<DriverKey, Score>, after: map<DriverKey, Score>, keys: set<DriverKey>, k: DriverKey)
    requires k !in keys
    ensures |ChangedKeys(before, after, keys + {k})|
         == |ChangedKeys(before, after, keys)| + (if Ranking3(before, k) != Ranking3(after, k) then 1 else 0)
  {
    var changed := ChangedKeys(before, after, keys);
    assert ChangedKeys(before, after, keys + {k}) == if Ranking3(before, k) != Ranking3(after, k) then changed + {k} else changed;
  }

  // ---------- a batch, city by city ----------

  /** Claimed events while the batch works on them. */
  function Started(events: seq<Event>, ids: seq<EventId>): seq<Event> {
    seq(|events|, i requires 0 <= i < |events| =>
      if i in ids then events[i].(status := Processing, attempts := events[i].attempts + 1) else events[i])
  }

  /** Affected drivers of the given cities. */
  function KeysOfCities(keys: set<DriverKey>, cs: seq<CityId>): set<DriverKey> {
    set k | k in keys && k.city in cs
  }

  /** The drivers to recalculate, keyed by city, together with the order the cities were met in. */
  ghost predicate Groups(order: seq<CityId>, cityDrivers: map<CityId, set<DriverId>>, keys: set<DriverKey>) {
    && cityDrivers.Keys == Elements(order)
    && (forall m, n :: 0 <= m < n < |order| ==> order[m] != order[n])
    && (forall c, d :: (c in cityDrivers && d in cityDrivers[c]) <==> DriverKey(c, d) in keys)
  }

  function WithDriver(cityDrivers: map<CityId, set<DriverId>>, k: DriverKey): map<CityId, set<DriverId>> {
    cityDrivers[k.city := (if k.city in cityDrivers then cityDrivers[k.city] else {}) + {k.driver}]
  }

  lemma GroupsNext(order: seq<CityId>, cityDrivers: map<CityId, set<DriverId>>, keys: set<DriverKey>, k: DriverKey)
    requires Groups(order, cityDrivers, keys)
    ensures k.city in cityDrivers <==> k.city in order
    ensures Groups(if k.city in order then order else order + [k.city], WithDriver(cityDrivers, k), keys + {k})
  {}

  lemma GroupsStart()
    ensures Groups([], map[], {})
  {}

  /** What grouping does with the `i`-th claimed event. */
  lemma GroupingNext(events: seq<Event>, ledger: map<EventId, Time>, ids: seq<EventId>, i: nat)
    requires i < |ids| && ids[i] < |events|
    ensures var k := events[ids[i]].target;
            var order := CityOrder(events, ledger, ids, i);
            var keys := Affected(events, ledger, ids[..i]);
            && CityOrder(events, ledger, ids, i + 1) == (if ids[i] in ledger || k.city in order then order else order + [k.city])
            && Affected(events, ledger, ids[..i + 1]) == (if ids[i] in ledger then keys else keys + {k})
  {
    AffectedNext(events, ledger, ids, i);
  }

  lemma GroupsMember(order: seq<CityId>, cityDrivers: map<CityId, set<DriverId>>, keys: set<DriverKey>, i: nat)
    requires Groups(order, cityDrivers, keys) && i < |order|
    ensures order[i] in cityDrivers
    ensures var c := order[i];
            && KeysOfCities(keys, order[..i + 1]) == KeysOfCities(keys, order[..i]) + KeyedBy(c, cityDrivers[c])
            && |KeysOfCities(keys, order[..i + 1])| == |KeysOfCities(keys, order[..i])| + |cityDrivers[c]|
  {
    var c := order[i];
    assert c in Elements(order);
    KeysOfCitiesNext(keys, order, i, c, cityDrivers[c]);
    KeyedBySize(c, cityDrivers[c]);
  }

  lemma AllCitiesDone(order: seq<CityId>, cityDrivers: map<CityId, set<DriverId>>, keys: set<DriverKey>)
    requires Groups(order, cityDrivers, keys)
    ensures KeysOfCities(keys, order[..|order|]) == keys
  {
    forall k | k in keys ensures k.city in order {
      assert DriverKey(k.city, k.driver) == k;
      assert k.city in Elements(order);
    }
    assert order[..|order|] == order;
  }

  lemma TakeNext<T>(xs: seq<T>, i: nat)
    requires i < |xs|
    ensures xs[..i + 1] == xs[..i] + [xs[i]]
    ensures xs[..|xs|] == xs
  {}

  lemma AffectedNext(events: seq<Event>, ledger: map<EventId, Time>, ids: seq<EventId>, i: nat)
    requires i < |ids|
    ensures Affected(events, ledger, ids[..i + 1])
         == Affected(events, ledger, ids[..i]) + (if ids[i] !in ledger && ids[i] < |events| then {events[ids[i]].target} else {})
  {
    TakeNext(ids, i);
  }

  lemma StartedNext(events: seq<Event>, ids: seq<EventId>, i: nat)
    requires i < |ids| && Distinct(ids) && ids[i] < |events|
    ensures Started(events, ids[..i])[ids[i]] == events[ids[i]]
    ensures Started(events, ids[..i + 1])
         == Started(events, ids[..i])[ids[i] := events[ids[i]].(status := Processing, attempts := events[ids[i]].attempts + 1)]
  {
    TakeNext(ids, i);
  }

  lemma KeysOfCitiesNext(keys: set<DriverKey>, cs: seq<CityId>, i: nat, c: CityId, ds: set<DriverId>)
    requires i < |cs| && (forall m, n :: 0 <= m < n < |cs| ==> cs[m] != cs[n])
    requires c == cs[i] && forall d :: d in ds <==> DriverKey(c, d) in keys
    ensures KeysOfCities(keys, cs[..i + 1]) == KeysOfCities(keys, cs[..i]) + KeyedBy(c, ds)
    ensures KeysOfCities(keys, cs[..i]) !! KeyedBy(c, ds)
  {
    TakeNext(cs, i);
    forall k: DriverKey | k in keys && k.city == c ensures k in KeyedBy(c, ds) {
      assert DriverKey(c, k.driver) == k;
    }
    assert c !in cs[..i];
  }

  /** Publishing a city looks at the rows of that city alone, so it may happen before the other cities are rescored. */
  lemma PublishLooksAtOneCity(w: World, rt: Reviews, scores: map<DriverKey, Score>, some: set<DriverKey>, all: set<DriverKey>,
                              gens: seq<Generation>, c: CityId, at: Time, now: Time)
    requires forall k: DriverKey :: k.city == c ==> (k in some <==> k in all)
    ensures Publish(w, Rescored(w, rt, scores, some, at), gens, c, now) == Publish(w, Rescored(w, rt, scores, all, at), gens, c, now)
  {
    hide Recalculated, Board;
    var early, late := Rescored(w, rt, scores, some, at), Rescored(w, rt, scores, all, at);
    forall k: DriverKey | k.city == c ensures (k in early <==> k in late) && (k in early ==> early[k] == late[k]) {}
    LiveRowsFrame(w, early, late, c, |w.drivers|);
    LatestSourceFrame(w, early, late, c, |w.drivers|);
  }

  function Finished(events: seq<Event>, ids: seq<EventId>, at: Time): seq<Event> {
    seq(|events|, i requires 0 <= i < |events| =>
      if i in ids then events[i].(status := Completed, processedAt := Some(at), lastError := None) else events[i])
  }

  lemma FinishedNext(events: seq<Event>, ledger: map<EventId, Time>, ids: seq<EventId>, i: nat, at: Time)
    requires i < |ids| && Distinct(ids) && ids[i] < |events|
    ensures Finished(events, ids[..i + 1], at)
         == Finished(events, ids[..i], at)[ids[i] := events[ids[i]].(status := Completed, processedAt := Some(at), lastError := None)]
    ensures Finished(events, ids[..i], at)[ids[i]] == events[ids[i]]
    ensures var before := LedgerAfter(ledger, ids[..i], at);
            LedgerAfter(ledger, ids[..i + 1], at) == if ids[i] in before then before else before[ids[i] := at]
  {
    TakeNext(ids, i);
  }

  lemma NothingStarted(events: seq<Event>, ids: seq<EventId>)
    ensures Started(events, ids[..0]) == events
  {}

  lemma NothingFinished(events: seq<Event>, ledger: map<EventId, Time>, ids: seq<EventId>, at: Time)
    ensures Finished(events, ids[..0], at) == events && LedgerAfter(ledger, ids[..0], at) == ledger
  {}

  lemma StartedThenFinished(events: seq<Event>, ids: seq<EventId>, at: Time)
    ensures Finished(Started(events, ids), ids, at) == EventsAfter(events, ids, at)
  {}

  lemma StartedKeepsTargets(events: seq<Event>, ledger: map<EventId, Time>, ids: seq<EventId>)
    ensures Affected(Started(events, ids), ledger, ids) == Affected(events, ledger, ids)
    ensures CityOrder(Started(events, ids), ledger, ids, |ids|) == CityOrder(events, ledger, ids, |ids|)
  {
    SameTargetsSameOrder(events, Started(events, ids), ledger, ids, |ids|);
  }

  lemma {:induction false} SameTargetsSameOrder(events: seq<Event>, events': seq<Event>, ledger: map<EventId, Time>, ids: seq<EventId>, n: nat)
    requires n <= |ids| && |events'| == |events|
    requires forall e :: 0 <= e < |events| ==> events'[e].target == events[e].target
    ensures CityOrder(events', ledger, ids, n) == CityOrder(events, ledger, ids, n)
  {
    if n > 0 {
      SameTargetsSameOrder(events, events', ledger, ids, n - 1);
    }
  }

  lemma GroupingStarts(events: seq<Event>, ledger: map<EventId, Time>, ids: seq<EventId>)
    ensures Affected(events, ledger, ids[..0]) == {}
    ensures CityOrder(events, ledger, ids, 0) == []
  {}

  lemma RefreshStarts(w: World, rt: Reviews, scores: map<DriverKey, Score>, keys: set<DriverKey>, cs: seq<CityId>, at: Time)
    ensures KeysOfCities(keys, cs[..0]) == {}
    ensures Rescored(w, rt, scores, {}, at) == scores
  {}

  lemma KeyedBySize(c: CityId, ds: set<DriverId>)
    ensures |KeyedBy(c, ds)| == |ds|
  {
    if ds == {} {
      assert KeyedBy(c, ds) == {};
    } else {
      var d :| d in ds;
      KeyedBySize(c, ds - {d});
      assert KeyedBy(c, ds) == KeyedBy(c, ds - {d}) + {DriverKey(c, d)};
    }
  }

  lemma SameCityKeys(keys: set<DriverKey>, cs: seq<CityId>, i: nat)
    requires i < |cs|
    ensures forall k: DriverKey :: k.city == cs[i] ==> (k in KeysOfCities(keys, cs[..i + 1]) <==> k in keys)
  {
    TakeNext(cs, i);
  }

  // ---------- rebuild loops ----------

  lemma CandidatesNext(w: World, rt: Reviews, c: CityId, ds: seq<DriverId>, i: nat, at: Time)
    requires i < |ds|
    ensures CandidateScores(w, rt, c, ds[..0], at) == map[]
    ensures CandidateScores(w, rt, c, ds[..i + 1], at)
         == CandidateScores(w, rt, c, ds[..i], at)[ds[i] := CandidateOf(w, rt, DriverKey(c, ds[i]), at)]
  {
    hide CandidateOf;
    TakeNext(ds, i);
  }

  lemma NoCandidates(w: World, rt: Reviews, c: CityId, at: Time)
    ensures CandidateScores(w, rt, c, [], at) == map[]
  {}

  lemma NothingCounted(w: World, rt: Reviews, c: CityId, at: Time)
    ensures forall ds: seq<DriverId> :: |ds| == 0 ==> EligibleAmong(w, rt, c, ds, at) == {} && DriverCounts(w, rt, c, ds, at - WINDOW, at, |w.trips|) == 0
  {}

  /** The live table after the rows of some of the job's drivers have been inserted. */
  function InstalledSome(scores: map<DriverKey, Score>, job: Job, ds: set<DriverId>): map<DriverKey, Score> {
    Rebuild.Installed(scores, job.(scores := map d | d in job.scores && d in ds :: job.scores[d]))
  }

  lemma InstallStarts(scores: map<DriverKey, Score>, job: Job)
    ensures InstalledSome(scores, job, {}) == WithoutCity(scores, job.city)
    ensures InstalledSome(scores, job, job.scores.Keys) == Rebuild.Installed(scores, job)
  {
    var all := map d | d in job.scores && d in job.scores.Keys :: job.scores[d];
    assert all == job.scores;
  }

  lemma InstallNext(scores: map<DriverKey, Score>, job: Job, ds: set<DriverId>, d: DriverId)
    requires d in job.scores
    ensures InstalledSome(scores, job, ds + {d})
         == InstalledSome(scores, job, ds)[DriverKey(job.city, d) := InstalledScore(job.scores[d], job.calculatedAt)]
  {}

  /** The listed drivers that are eligible at `at`. */
  function EligibleAmong(w: World, rt: Reviews, c: CityId, ds: seq<DriverId>, at: Time): set<DriverId> {
    set d | d in ds && EligibleAt(w, rt, c, d, at)
  }

  predicate EligibleAt(w: World, rt: Reviews, c: CityId, d: DriverId, at: Time) {
    Recalculated(w, rt, DriverKey(c, d), at).eligible
  }

  function IneligibleAmong(w: World, rt: Reviews, c: CityId, ds: seq<DriverId>, at: Time): set<DriverId> {
    set d | d in ds && !EligibleAt(w, rt, c, d, at)
  }

  /** A listing without repetition has as many drivers as eligible and ineligible ones together. */
  lemma {:induction false} EligibleOrNot(w: World, rt: Reviews, c: CityId, ds: seq<DriverId>, n: nat, at: Time)
    requires n <= |ds| && (forall i, j :: 0 <= i < j < |ds| ==> ds[i] < ds[j])
    ensures |EligibleAmong(w, rt, c, ds[..n], at)| + |IneligibleAmong(w, rt, c, ds[..n], at)| == n
  {
    hide EligibleAt, EligibleAmong, IneligibleAmong;
    if n == 0 {
      NobodyAmong(w, rt, c, ds[..0], at);
    } else {
      EligibleOrNot(w, rt, c, ds, n - 1, at);
      OneMoreAmong(w, rt, c, ds, n - 1, at);
    }
  }

  lemma NobodyAmong(w: World, rt: Reviews, c: CityId, ds: seq<DriverId>, at: Time)
    requires |ds| == 0
    ensures EligibleAmong(w, rt, c, ds, at) == {} && IneligibleAmong(w, rt, c, ds, at) == {}
  {}

  lemma OneMoreAmong(w: World, rt: Reviews, c: CityId, ds: seq<DriverId>, i: nat, at: Time)
    requires i < |ds| && (forall m, n :: 0 <= m < n < |ds| ==> ds[m] < ds[n])
    ensures var eligible := EligibleAt(w, rt, c, ds[i], at);
            && |EligibleAmong(w, rt, c, ds[..i + 1], at)| == |EligibleAmong(w, rt, c, ds[..i], at)| + (if eligible then 1 else 0)
            && |IneligibleAmong(w, rt, c, ds[..i + 1], at)| == |IneligibleAmong(w, rt, c, ds[..i], at)| + (if eligible then 0 else 1)
  {
    hide EligibleAt;
    TakeNext(ds, i);
    var front, last := ds[..i], ds[i];
    assert forall m :: 0 <= m < i ==> front[m] == ds[m];
    assert last !in front;
    OneMoreIn(w, rt, c, front, last, at);
  }

  lemma OneMoreIn(w: World, rt: Reviews, c: CityId, front: seq<DriverId>, last: DriverId, at: Time)
    requires last !in front
    ensures var eligible := EligibleAt(w, rt, c, last, at);
            && |EligibleAmong(w, rt, c, front + [last], at)| == |EligibleAmong(w, rt, c, front, at)| + (if eligible then 1 else 0)
            && |IneligibleAmong(w, rt, c, front + [last], at)| == |IneligibleAmong(w, rt, c, front, at)| + (if eligible then 0 else 1)
  {
    hide EligibleAt;
    var yes, no := EligibleAmong(w, rt, c, front, at), IneligibleAmong(w, rt, c, front, at);
    if EligibleAt(w, rt, c, last, at) {
      assert EligibleAmong(w, rt, c, front + [last], at) == yes + {last};
      assert IneligibleAmong(w, rt, c, front + [last], at) == no;
    } else {
      assert EligibleAmong(w, rt, c, front + [last], at) == yes;
      assert IneligibleAmong(w, rt, c, front + [last], at) == no + {last};
    }
  }

  lemma CountersNext(w: World, rt: Reviews, c: CityId, ds: seq<DriverId>, i: nat, at: Time)
    requires i < |ds| && (forall m, n :: 0 <= m < n < |ds| ==> ds[m] < ds[n])
    ensures var score := Recalculated(w, rt, DriverKey(c, ds[i]), at);
            && |EligibleAmong(w, rt, c, ds[..i + 1], at)| == |EligibleAmong(w, rt, c, ds[..i], at)| + (if score.eligible then 1 else 0)
            && DriverCounts(w, rt, c, ds[..i + 1], at - WINDOW, at, |w.trips|)
               == DriverCounts(w, rt, c, ds[..i], at - WINDOW, at, |w.trips|) + score.count
  {
    hide EligibleAmong, AggregateUpTo;
    OneMoreAmong(w, rt, c, ds, i, at);
    assert ds[..i + 1][..i] == ds[..i];
  }

  /** A claimed batch is one transaction of the state machine. */
  lemma WorkIsBatch(w: World, s: Store, ids: seq<EventId>, availableAt: Time, at: Time)
    requires Claimable(s.events, ids, availableAt)
    ensures Step(w, s, Work(ids, availableAt, at)) == ProcessBatch(w, s, ids, at)
  {
    hide ProcessBatch, Claimable;
  }

  // ---------- draining ----------

  function PendingCount(events: seq<Event>, n: nat): nat
    requires n <= |events|
  {
    if n == 0 then 0 else PendingCount(events, n - 1) + if events[n - 1].status == Pending then 1 else 0
  }

  function IdSet(ids: seq<EventId>): set<EventId> {
    set e | e in ids
  }

  function Below(ids: set<EventId>, n: nat): set<EventId> {
    set e | e in ids && e < n
  }

  lemma BelowNext(ids: set<EventId>, n: nat)
    ensures Below(ids, 0) == {}
    ensures |Below(ids, n + 1)| == |Below(ids, n)| + if n in ids then 1 else 0
  {
    assert Below(ids, n + 1) == if n in ids then Below(ids, n) + {n} else Below(ids, n);
  }

  lemma {:induction false} CompletedAreNoLongerPending(events: seq<Event>, ids: seq<EventId>, at: Time, n: nat)
    requires n <= |events|
    requires forall i :: 0 <= i < |ids| ==> ids[i] < |events| && events[ids[i]].status == Pending
    ensures PendingCount(EventsAfter(events, ids, at), n) + |Below(IdSet(ids), n)| == PendingCount(events, n)
  {
    if n == 0 {
      BelowNext(IdSet(ids), 0);
    } else {
      CompletedAreNoLongerPending(events, ids, at, n - 1);
      BelowNext(IdSet(ids), n - 1);
    }
  }

  lemma {:induction false} DistinctSize(ids: seq<EventId>)
    requires Distinct(ids)
    ensures |IdSet(ids)| == |ids|
  {
    if |ids| > 0 {
      var front := ids[..|ids| - 1];
      DistinctSize(front);
      assert ids == front + [ids[|ids| - 1]];
      assert IdSet(ids) == IdSet(front) + {ids[|ids| - 1]};
    }
  }

  /** Each round removes exactly its claimed events from the pending ones. */
  lemma PendingFalls(events: seq<Event>, ids: seq<EventId>, availableAt: Time, at: Time)
    requires Claimable(events, ids, availableAt)
    ensures PendingCount(EventsAfter(events, ids, at), |events|) == PendingCount(events, |events|) - |ids|
  {
    CompletedAreNoLongerPending(events, ids, at, |events|);
    DistinctSize(ids);
    assert Below(IdSet(ids), |events|) == IdSet(ids);
  }
}
