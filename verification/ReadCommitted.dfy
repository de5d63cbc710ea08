/**
 Worker batches statement by statement, as they interleave when every statement reads what
 is committed at that moment: a worker aggregates a driver before it takes the lock of the
 driver's city, so two workers can work on the same driver at once. Boards are left out.
 */
module ReadCommitted {
  import opened Tables
  import opened Scoring
  import opened Writes
  import opened Histories
  import opened Outbox
  import opened System
  import opened Consistency

  type WorkerId = nat

  /** An open batch: its claimed events, the rows it aggregated, and the row and city locks it holds. */
  datatype Batch = Batch(claimed: seq<EventId>, at: Time, rows: map<DriverKey, Score>,
                         flushed: set<DriverKey>, cities: set<CityId>)

  datatype Workers = Workers(db: Store, open: map<WorkerId, Batch>)

  datatype Statement =
    | Handle(request: Request, key: Key, now: Time)
    | Report(failed: set<EventId>, error: string, failedAt: Time)
    | Claim(worker: WorkerId, ids: seq<EventId>, availableAt: Time, at: Time)
    | Aggregate(worker: WorkerId, row: DriverKey)
    | Flush(worker: WorkerId, row: DriverKey)
    | LockCity(worker: WorkerId, city: CityId)
    | Commit(worker: WorkerId)
    | Rollback(worker: WorkerId)

  // ---------- one statement ----------

  predicate ClaimedElsewhere(s: Workers, ids: seq<EventId>) {
    exists u :: u in s.open && exists e :: e in ids && e in s.open[u].claimed
  }

  predicate RowLockedByOther(s: Workers, u: WorkerId, k: DriverKey) {
    exists v :: v in s.open && v != u && k in s.open[v].flushed
  }

  predicate CityLockedByOther(s: Workers, u: WorkerId, c: CityId) {
    exists v :: v in s.open && v != u && c in s.open[v].cities
  }

  function Targets(s: Workers, u: WorkerId): set<DriverKey>
    requires u in s.open
  {
    Affected(s.db.events, s.db.ledger, s.open[u].claimed)
  }

  predicate CanCommit(s: Workers, u: WorkerId) {
    && u in s.open
    && Targets(s, u) <= s.open[u].rows.Keys
    && s.open[u].rows.Keys <= s.open[u].flushed
    && forall k :: k in s.open[u].rows ==> k.city in s.open[u].cities
  }

  function Committed(db: Store, b: Batch): Store {
    db.(scores := db.scores + b.rows, events := EventsAfter(db.events, b.claimed, b.at),
        ledger := LedgerAfter(db.ledger, b.claimed, b.at))
  }

  /** A statement that has to wait leaves everything as it is. */
  function Next(w: World, s: Workers, st: Statement): Workers {
    match st
    case Handle(request, key, now) => s.(db := Submit(w, s.db, request, key, now).store)
    case Report(failed, error, failedAt) => s.(db := RecordFailure(s.db, failed, error, failedAt))
    case Claim(u, ids, availableAt, at) =>
      if u in s.open || !Claimable(s.db.events, ids, availableAt) || ClaimedElsewhere(s, ids) then s
      else s.(open := s.open[u := Batch(ids, at, map[], {}, {})])
    case Aggregate(u, k) =>
      if u !in s.open || k !in Targets(s, u) then s
      else s.(open := s.open[u := s.open[u].(rows := s.open[u].rows[k := Recalculated(w, s.db.reviews, k, s.open[u].at)])])
    case Flush(u, k) =>
      if u !in s.open || k !in s.open[u].rows || RowLockedByOther(s, u, k) then s
      else s.(open := s.open[u := s.open[u].(flushed := s.open[u].flushed + {k})])
    case LockCity(u, c) =>
      if u !in s.open || CityLockedByOther(s, u, c) then s
      else s.(open := s.open[u := s.open[u].(cities := s.open[u].cities + {c})])
    case Commit(u) => if CanCommit(s, u) then Workers(Committed(s.db, s.open[u]), s.open - {u}) else s
    case Rollback(u) => s.(open := s.open - {u})
  }

  function AfterStatements(w: World, s: Workers, sts: seq<Statement>, n: nat): Workers
    requires n <= |sts|
  {
    if n == 0 then s else Next(w, AfterStatements(w, s, sts, n - 1), sts[n - 1])
  }

  // ---------- when a commit is safe ----------

  /** Some event of the driver outside the batch still has to be processed. */
  ghost predicate AwaitingElse(db: Store, claimed: seq<EventId>, k: DriverKey) {
    exists e: EventId :: Unprocessed(db, e, k) && e !in claimed
  }

  /** What the batch aggregated is exact, or a later event will repair it. */
  ghost predicate RowUsable(w: World, db: Store, b: Batch, k: DriverKey)
    requires k in b.rows
  {
    Exact(w, db.reviews, k, b.rows[k]) || AwaitingElse(db, b.claimed, k)
  }

  ghost predicate RowsUsable(w: World, db: Store, b: Batch) {
    forall k :: k in b.rows ==> RowUsable(w, db, b, k)
  }

  /** Committing takes exactly the batch's own events off the waiting ones. */
  lemma CommitAwaits(db: Store, b: Batch, k: DriverKey)
    ensures Awaiting(Committed(db, b), k) <==> AwaitingElse(db, b.claimed, k)
  {
    var db' := Committed(db, b);
    if Awaiting(db', k) {
      var e: EventId :| Unprocessed(db', e, k);
      assert Unprocessed(db, e, k);
    }
    if AwaitingElse(db, b.claimed, k) {
      var e: EventId :| Unprocessed(db, e, k) && e !in b.claimed;
      assert Unprocessed(db', e, k);
    }
  }

  lemma NotAffectedAwaitsElse(db: Store, claimed: seq<EventId>, k: DriverKey)
    requires k !in Affected(db.events, db.ledger, claimed)
    ensures Awaiting(db, k) ==> AwaitingElse(db, claimed, k)
  {
    if Awaiting(db, k) {
      var e: EventId :| Unprocessed(db, e, k);
      assert e !in claimed;
    }
  }

  /**
   A commit keeps "exact or awaiting" for every stored row if and only if each row the
   batch aggregated is still exact or an event outside the batch is waiting for its driver.
   */
  lemma CommitIsSafeIff(w: World, s: Workers, u: WorkerId)
    requires CanCommit(s, u) && DirtyOrExact(w, s.db, {})
    ensures DirtyOrExact(w, Next(w, s, Commit(u)).db, {}) <==> RowsUsable(w, s.db, s.open[u])
  {
    hide Exact, Awaiting, AwaitingElse, Affected, EventsAfter, LedgerAfter;
    var b := s.open[u];
    var db' := Committed(s.db, b);
    forall k ensures Awaiting(db', k) <==> AwaitingElse(s.db, b.claimed, k) {
      CommitAwaits(s.db, b, k);
    }
    forall k | k in db'.scores && k !in b.rows ensures ExactOrAwaiting(w, db', k) {
      assert ExactOrAwaiting(w, s.db, k);
      NotAffectedAwaitsElse(s.db, b.claimed, k);
    }
    forall k | k in b.rows ensures ExactOrAwaiting(w, db', k) <==> RowUsable(w, s.db, b, k) {
      assert k in db'.scores && db'.scores[k] == b.rows[k];
    }
    if DirtyOrExact(w, db', {}) {
      forall k | k in b.rows ensures RowUsable(w, s.db, b, k) {
        assert k in db'.scores && ExactOrAwaiting(w, db', k);
      }
    }
  }

  // ---------- what statements keep ----------

  ghost predicate BatchSound(w: World, db: Store, b: Batch) {
    (forall e :: e in b.claimed ==> e < |db.events|) && RowsUsable(w, db, b)
  }

  ghost predicate DatabaseSound(w: World, db: Store) {
    ValidReviews(w, db.reviews) && ValidOutbox(w, db.events, db.ledger) && DirtyOrExact(w, db, {})
  }

  ghost predicate WorkersSound(w: World, s: Workers) {
    DatabaseSound(w, s.db) && forall u :: u in s.open ==> BatchSound(w, s.db, s.open[u])
  }

  /** No two open batches have aggregated the same driver. */
  ghost predicate Exclusive(s: Workers) {
    forall u, v, k :: u in s.open && v in s.open && u != v && k in s.open[u].rows ==> k !in s.open[v].rows
  }

  /** No other open batch has aggregated the driver that this statement aggregates. */
  ghost predicate AggregatesAlone(s: Workers, st: Statement) {
    st.Aggregate? && st.worker in s.open ==> forall v :: v in s.open && v != st.worker ==> st.row !in s.open[v].rows
  }

  lemma RequestKeepsBatch(w: World, db: Store, request: Request, db': Store, now: Time, b: Batch)
    requires WriteIsSound(w, db, request, db', now) && ValidOutbox(w, db.events, db.ledger)
    requires BatchSound(w, db, b)
    ensures BatchSound(w, db', b)
  {
    hide Scoring.Aggregate, ValidReviews, ValidEvent, Exact;
    WriteKeepsOutbox(w, db, request, db', now);
    forall k | k in b.rows ensures RowUsable(w, db', b, k) {
      RequestKeepsRow(w, db, request, db', now, b, k);
    }
  }

  lemma RequestKeepsRow(w: World, db: Store, request: Request, db': Store, now: Time, b: Batch, k: DriverKey)
    requires WriteIsSound(w, db, request, db', now) && db.events <= db'.events
    requires forall e :: e in db.ledger ==> e < |db.events|
    requires k in b.rows && (forall e :: e in b.claimed ==> e < |db.events|)
    requires RowUsable(w, db, b, k)
    ensures RowUsable(w, db', b, k)
  {
    hide Scoring.Aggregate, ValidReviews;
    var t := Subject(db, request);
    if Contribution(db'.reviews, t) != Contribution(db.reviews, t) && k == DriverKey(w.trips[t].city, w.trips[t].driver) {
      assert Unprocessed(db', |db.events|, k) && |db.events| !in b.claimed;
    } else if AwaitingElse(db, b.claimed, k) {
      var e: EventId :| Unprocessed(db, e, k) && e !in b.claimed;
      assert Unprocessed(db', e, k);
    } else {
      SameContributions(w, db.reviews, db'.reviews, k, b.rows[k].windowStart, b.rows[k].calculatedAt);
    }
  }

  lemma RequestKeepsWorkers(w: World, s: Workers, request: Request, key: Key, now: Time)
    requires WorkersSound(w, s)
    ensures WorkersSound(w, Next(w, s, Handle(request, key, now)))
  {
    hide Submit, WriteIsSound, BatchSound, DirtyOrExact, ValidReviews, ValidOutbox;
    var db' := Submit(w, s.db, request, key, now).store;
    SubmitChangesOnlyWhenAccepted(w, s.db, request, key, now);
    if Submit(w, s.db, request, key, now).reply.Accepted? && key !in s.db.requests {
      AcceptedWriteIsSound(w, s.db, request, key, now);
      RequestKeepsDatabase(w, s.db, request, db', now);
      forall u | u in s.open ensures BatchSound(w, db', s.open[u]) {
        RequestKeepsBatch(w, s.db, request, db', now, s.open[u]);
      }
    }
  }

  lemma RequestKeepsDatabase(w: World, db: Store, request: Request, db': Store, now: Time)
    requires DatabaseSound(w, db) && WriteIsSound(w, db, request, db', now)
    ensures DatabaseSound(w, db')
  {
    hide Exact, ExactOrAwaiting, Announced, ValidReviews, ValidOutbox;
    WriteKeepsOutbox(w, db, request, db', now);
    forall k | k in db'.scores ensures ExactOrAwaiting(w, db', k) {
      WriteAnnounces(w, db, request, db', now, k);
      AnnouncedRow(w, db, db', k);
    }
  }

  lemma ReportKeepsWorkers(w: World, s: Workers, failed: set<EventId>, error: string, at: Time)
    requires WorkersSound(w, s)
    ensures WorkersSound(w, Next(w, s, Report(failed, error, at)))
  {
    hide Exact, ValidReviews, ValidOutbox, FailedOnce;
    var db' := RecordFailure(s.db, failed, error, at);
    FailureKeepsOutbox(w, s.db, failed, error, at);
    FailureKeepsTargets(s.db, failed, error, at);
    assert forall k, e: EventId :: Unprocessed(db', e, k) <==> Unprocessed(s.db, e, k);
    hide Unprocessed;
    forall k | k in db'.scores ensures ExactOrAwaiting(w, db', k) {
      assert ExactOrAwaiting(w, s.db, k);
      SameOutboxAwaits(s.db, db', k);
    }
    forall u, k | u in s.open && k in s.open[u].rows ensures RowUsable(w, db', s.open[u], k) {
      assert RowUsable(w, s.db, s.open[u], k);
    }
  }

  lemma FailureKeepsTargets(db: Store, failed: set<EventId>, error: string, at: Time)
    ensures var events := RecordFailure(db, failed, error, at).events;
            |events| == |db.events| && forall e :: 0 <= e < |events| ==> events[e].target == db.events[e].target
  {}

  /** A fresh aggregate is exact when it is taken, and the driver is taken by this batch alone. */
  lemma AggregateKeepsWorkers(w: World, s: Workers, u: WorkerId, k: DriverKey)
    requires WorkersSound(w, s) && Exclusive(s) && AggregatesAlone(s, Aggregate(u, k))
    ensures var s' := Next(w, s, Aggregate(u, k)); WorkersSound(w, s') && Exclusive(s')
  {
    hide Exact, DatabaseSound, AwaitingElse;
    if u in s.open && k in Targets(s, u) {
      var s' := Next(w, s, Aggregate(u, k));
      RecalculatedIsExact(w, s.db.reviews, k, s.open[u].at);
      hide Recalculated, Affected;
      forall v | v in s'.open ensures BatchSound(w, s'.db, s'.open[v]) {
        assert BatchSound(w, s.db, s.open[v]);
        forall l | l in s'.open[v].rows ensures RowUsable(w, s'.db, s'.open[v], l) {
          assert v != u || l != k ==> RowUsable(w, s.db, s.open[v], l);
        }
      }
    }
  }

  /** Waiting events of a driver that only another batch works on survive a commit. */
  lemma CommitKeepsOtherRow(w: World, db: Store, b: Batch, other: Batch, k: DriverKey)
    requires k in other.rows && RowUsable(w, db, other, k)
    requires k !in Affected(db.events, db.ledger, b.claimed)
    ensures RowUsable(w, Committed(db, b), other, k)
  {
    hide Exact;
    if AwaitingElse(db, other.claimed, k) {
      var e: EventId :| Unprocessed(db, e, k) && e !in other.claimed;
      assert Unprocessed(Committed(db, b), e, k);
    }
  }

  lemma CommitKeepsOutbox(w: World, db: Store, b: Batch)
    requires ValidOutbox(w, db.events, db.ledger) && forall e :: e in b.claimed ==> e < |db.events|
    ensures ValidOutbox(w, Committed(db, b).events, Committed(db, b).ledger)
  {}

  lemma CommitKeepsWorkers(w: World, s: Workers, u: WorkerId)
    requires WorkersSound(w, s) && Exclusive(s)
    ensures var s' := Next(w, s, Commit(u)); WorkersSound(w, s') && Exclusive(s')
  {
    hide RowUsable, DirtyOrExact, ValidReviews, ValidOutbox, EventsAfter, LedgerAfter, Affected;
    if CanCommit(s, u) {
      var b, s' := s.open[u], Next(w, s, Commit(u));
      assert BatchSound(w, s.db, b);
      CommitIsSafeIff(w, s, u);
      CommitKeepsOutbox(w, s.db, b);
      CommitKeepsEvents(s.db, b);
      forall v | v in s'.open ensures BatchSound(w, s'.db, s'.open[v]) {
        assert BatchSound(w, s.db, s.open[v]);
        forall k | k in s.open[v].rows ensures RowUsable(w, s'.db, s.open[v], k) {
          assert k !in b.rows;
          CommitKeepsOtherRow(w, s.db, b, s.open[v], k);
        }
      }
    }
  }

  lemma CommitKeepsEvents(db: Store, b: Batch)
    ensures |Committed(db, b).events| == |db.events| && Committed(db, b).reviews == db.reviews
  {}

  lemma QuietKeepsWorkers(w: World, s: Workers, st: Statement)
    requires WorkersSound(w, s) && Exclusive(s)
    requires st.Claim? || st.Flush? || st.LockCity? || st.Rollback?
    ensures WorkersSound(w, Next(w, s, st)) && Exclusive(Next(w, s, st))
  {
    hide Exact, DatabaseSound, AwaitingElse;
    var s' := Next(w, s, st);
    forall v | v in s'.open ensures BatchSound(w, s'.db, s'.open[v]) {
      if v in s.open {
        assert BatchSound(w, s.db, s.open[v]);
        assert forall k :: k in s.open[v].rows ==> RowUsable(w, s.db, s.open[v], k);
      }
    }
  }

  lemma NextKeepsWorkers(w: World, s: Workers, st: Statement)
    requires WorkersSound(w, s) && Exclusive(s) && AggregatesAlone(s, st)
    ensures WorkersSound(w, Next(w, s, st)) && Exclusive(Next(w, s, st))
  {
    match st
    case Handle(request, key, now) =>
      RequestKeepsWorkers(w, s, request, key, now);
      hide WorkersSound, Submit;
    case Report(failed, error, failedAt) =>
      ReportKeepsWorkers(w, s, failed, error, failedAt);
      hide WorkersSound, RecordFailure;
    case Aggregate(u, k) => AggregateKeepsWorkers(w, s, u, k);
    case Commit(u) => CommitKeepsWorkers(w, s, u);
    case Claim(_, _, _, _) => QuietKeepsWorkers(w, s, st);
    case Flush(_, _) => QuietKeepsWorkers(w, s, st);
    case LockCity(_, _) => QuietKeepsWorkers(w, s, st);
    case Rollback(_) => QuietKeepsWorkers(w, s, st);
  }

  ghost predicate AlwaysAlone(w: World, s: Workers, sts: seq<Statement>, n: nat)
    requires n <= |sts|
  {
    forall i: nat :: i < n ==> AggregatesAlone(AfterStatements(w, s, sts, i), sts[i])
  }

  /**
   However statements of workers and authoritative writes interleave: while no driver is
   aggregated by two open batches, every stored row stays exact or awaiting.
   */
  lemma {:induction false} ExclusiveRunIsSound(w: World, s: Workers, sts: seq<Statement>, n: nat)
    requires n <= |sts| && AlwaysAlone(w, s, sts, n)
    requires WorkersSound(w, s) && Exclusive(s)
    ensures WorkersSound(w, AfterStatements(w, s, sts, n)) && Exclusive(AfterStatements(w, s, sts, n))
  {
    hide WorkersSound, Exclusive, Next, AggregatesAlone;
    if n > 0 {
      ExclusiveRunIsSound(w, s, sts, n - 1);
      assert AggregatesAlone(AfterStatements(w, s, sts, n - 1), sts[n - 1]);
      NextKeepsWorkers(w, AfterStatements(w, s, sts, n - 1), sts[n - 1]);
    }
  }

  // ---------- two disciplines that keep batches apart ----------

  /** A single worker: a batch is claimed only while none is open. */
  ghost predicate OneAtATime(w: World, s: Workers, sts: seq<Statement>, n: nat)
    requires n <= |sts|
  {
    forall i: nat :: i < n && sts[i].Claim? ==> AfterStatements(w, s, sts, i).open == map[]
  }

  /** The city lock is taken before any of its drivers is aggregated. */
  ghost predicate LocksFirst(w: World, s: Workers, sts: seq<Statement>, n: nat)
    requires n <= |sts|
  {
    forall i: nat :: i < n ==> LockedBefore(AfterStatements(w, s, sts, i), sts[i])
  }

  ghost predicate LockedBefore(s: Workers, st: Statement) {
    st.Aggregate? && st.worker in s.open ==> st.row.city in s.open[st.worker].cities
  }

  /** Every aggregated driver lies in a city its batch has locked, and no city is locked twice. */
  ghost predicate RowsLocked(s: Workers) {
    && (forall u, k :: u in s.open && k in s.open[u].rows ==> k.city in s.open[u].cities)
    && (forall u, v, c :: u in s.open && v in s.open && u != v && c in s.open[u].cities ==> c !in s.open[v].cities)
  }

  lemma NextKeepsRowsLocked(w: World, s: Workers, st: Statement)
    requires RowsLocked(s) && LockedBefore(s, st)
    ensures RowsLocked(Next(w, s, st))
  {
    hide Submit, RecordFailure, Affected, Recalculated, Committed, Claimable, ClaimedElsewhere;
  }

  lemma {:induction false} LocksFirstIsAlone(w: World, s: Workers, sts: seq<Statement>, n: nat)
    requires n <= |sts| && RowsLocked(s) && LocksFirst(w, s, sts, n)
    ensures RowsLocked(AfterStatements(w, s, sts, n)) && AlwaysAlone(w, s, sts, n)
  {
    hide Next, RowsLocked, LockedBefore, AggregatesAlone;
    if n > 0 {
      LocksFirstIsAlone(w, s, sts, n - 1);
      var before := AfterStatements(w, s, sts, n - 1);
      assert LockedBefore(before, sts[n - 1]);
      NextKeepsRowsLocked(w, before, sts[n - 1]);
      LockedIsAlone(before, sts[n - 1]);
    }
  }

  lemma LockedIsAlone(s: Workers, st: Statement)
    requires RowsLocked(s) && LockedBefore(s, st)
    ensures AggregatesAlone(s, st)
  {}

  ghost predicate AtMostOne(s: Workers) {
    forall u, v :: u in s.open && v in s.open ==> u == v
  }

  lemma {:induction false} OneAtATimeIsAlone(w: World, s: Workers, sts: seq<Statement>, n: nat)
    requires n <= |sts| && AtMostOne(s) && OneAtATime(w, s, sts, n)
    ensures AtMostOne(AfterStatements(w, s, sts, n)) && AlwaysAlone(w, s, sts, n)
  {
    hide AggregatesAlone, Next;
    if n > 0 {
      OneAtATimeIsAlone(w, s, sts, n - 1);
      NextKeepsAtMostOne(w, AfterStatements(w, s, sts, n - 1), sts[n - 1]);
    }
  }

  lemma NextKeepsAtMostOne(w: World, s: Workers, st: Statement)
    requires AtMostOne(s) && (st.Claim? ==> s.open == map[])
    ensures AtMostOne(Next(w, s, st)) && AggregatesAlone(s, st)
  {
    hide Submit, RecordFailure, Affected, Recalculated, Committed, Claimable, ClaimedElsewhere, RowLockedByOther, CityLockedByOther, CanCommit;
  }

  /**
   From the empty database, with one worker at a time or with city locks taken before
   aggregating, every committed state of every interleaving is sound.
   */
  lemma DisciplinedRunIsSound(w: World, sts: seq<Statement>, n: nat)
    requires n <= |sts|
    requires OneAtATime(w, Workers(EMPTY, map[]), sts, n) || LocksFirst(w, Workers(EMPTY, map[]), sts, n)
    ensures DirtyOrExact(w, AfterStatements(w, Workers(EMPTY, map[]), sts, n).db, {})
  {
    hide AfterStatements, OneAtATime, LocksFirst, AlwaysAlone, DirtyOrExact;
    var start := Workers(EMPTY, map[]);
    assert DirtyOrExact(w, EMPTY, {}) by { NoScoresAreExact(w, EMPTY); }
    if OneAtATime(w, start, sts, n) {
      OneAtATimeIsAlone(w, start, sts, n);
    } else {
      LocksFirstIsAlone(w, start, sts, n);
    }
    ExclusiveRunIsSound(w, start, sts, n);
  }

  lemma NoScoresAreExact(w: World, db: Store)
    requires db.scores == map[]
    ensures DirtyOrExact(w, db, {})
  {}

  // ---------- the atomic batch ----------

  /** A batch whose aggregates are all current when it commits does what the atomic batch does to scores and events. */
  lemma FreshCommitIsAtomic(w: World, s: Workers, u: WorkerId)
    requires CanCommit(s, u) && s.open[u].rows.Keys == Targets(s, u)
    requires forall k :: k in s.open[u].rows ==> s.open[u].rows[k] == Recalculated(w, s.db.reviews, k, s.open[u].at)
    ensures var b := s.open[u];
            Next(w, s, Commit(u)).db == ProcessBatch(w, s.db, b.claimed, b.at).(generations := s.db.generations)
  {
    hide Recalculated, Affected, PublishAll, CityOrder, EventsAfter, LedgerAfter;
    var b := s.open[u];
    assert s.db.scores + b.rows == ScoresAfter(w, s.db, b.claimed, b.at);
  }

  // ---------- two workers lose an update ----------

  const VILLAGE: World := WorldData({0}, [Driver(0, 0)], [Trip(0, 0, 0, 0)])
  const DRIVER: DriverKey := DriverKey(0, 0)

  /** The rating is corrected between the two aggregations, and the older aggregate commits last. */
  const LOST_UPDATE: seq<Statement> := [
    Handle(Upsert(0, 0, 5), "first", 0),
    Claim(0, [0], 0, 0), Aggregate(0, DRIVER),
    Handle(Upsert(0, 0, 1), "second", 0),
    Claim(1, [1], 0, 0), Aggregate(1, DRIVER), Flush(1, DRIVER), LockCity(1, 0), Commit(1),
    Flush(0, DRIVER), LockCity(0, 0), Commit(0)]

  const NOTICE: Event := Event(ReviewUpserted, DRIVER, 0, Pending, 0, 0, None, None)
  const FIVE: Reviews := ReviewData([Review(0, None, false, [Version(1, 5, true, 0)], [])], map[0 := 0])
  const ONE: Reviews := ReviewData([Review(0, None, false, [Version(1, 5, false, 0), Version(2, 1, true, 0)], [])], map[0 := 0])

  lemma Ratings(at: Time)
    requires at == 0
    ensures Recalculated(VILLAGE, FIVE, DRIVER, at) == Score(5, 1, false, at - WINDOW, at)
    ensures Recalculated(VILLAGE, ONE, DRIVER, at) == Score(1, 1, false, at - WINDOW, at)
  {
    assert CurrentIndex(FIVE.rows[0].versions) == Some(0);
    assert CurrentIndex(ONE.rows[0].versions) == Some(1);
    assert AggregateUpTo(VILLAGE, FIVE, DRIVER, at - WINDOW, at, 0) == Totals(0, 0);
    assert AggregateUpTo(VILLAGE, ONE, DRIVER, at - WINDOW, at, 0) == Totals(0, 0);
  }

  const OLD_ROW: Score := Score(5, 1, false, -WINDOW, 0)
  const NEW_ROW: Score := Score(1, 1, false, -WINDOW, 0)
  const STALE_BATCH: Batch := Batch([0], 0, map[DRIVER := OLD_ROW], {}, {})

  lemma RatingIsSubmitted(s: Workers)
    requires s == Workers(EMPTY, map[])
    ensures var s' := Next(VILLAGE, s, LOST_UPDATE[0]);
            s'.db == EMPTY.(reviews := FIVE, events := [NOTICE], requests := s'.db.requests)
            && s'.db.requests.Keys == {"first"} && s'.open == map[]
  {
    var s' := Next(VILLAGE, s, LOST_UPDATE[0]);
    var first := WithRating(BLANK.(trip := 0), 5, 0);
    assert first.versions == FIVE.rows[0].versions;
    assert s'.db.reviews.rows == [first];
    assert s'.db.reviews.rows == FIVE.rows && s'.db.reviews.ofTrip == FIVE.ofTrip;
    assert s'.db.events == [NOTICE];
  }

  lemma ClaimOne(s: Workers, u: WorkerId, e: EventId)
    requires u !in s.open && e < |s.db.events| && s.db.events[e] == NOTICE && !ClaimedElsewhere(s, [e])
    ensures Next(VILLAGE, s, Claim(u, [e], 0, 0)) == s.(open := s.open[u := Batch([e], 0, map[], {}, {})])
  {}

  lemma AggregateOne(s: Workers, u: WorkerId, e: EventId, row: Score)
    requires u in s.open && s.open[u] == Batch([e], 0, map[], {}, {})
    requires e < |s.db.events| && s.db.events[e] == NOTICE && e !in s.db.ledger
    requires Recalculated(VILLAGE, s.db.reviews, DRIVER, 0) == row
    ensures Next(VILLAGE, s, Aggregate(u, DRIVER)) == s.(open := s.open[u := Batch([e], 0, map[DRIVER := row], {}, {})])
  {
    hide Recalculated;
    assert e in s.open[u].claimed && s.db.events[e].target == DRIVER;
    assert DRIVER in Targets(s, u);
  }

  lemma NobodyClaims(s: Workers, ids: seq<EventId>)
    requires s.open == map[]
    ensures !ClaimedElsewhere(s, ids)
  {}

  lemma WorkerZeroReads(s: Workers)
    requires s.db.reviews == FIVE && s.db.events == [NOTICE] && s.db.ledger == map[] && s.open == map[]
    ensures Next(VILLAGE, Next(VILLAGE, s, LOST_UPDATE[1]), LOST_UPDATE[2]) == Workers(s.db, map[0 := STALE_BATCH])
  {
    hide Recalculated, Next, ClaimedElsewhere;
    Ratings(0);
    assert !ClaimedElsewhere(s, [0]) by { NobodyClaims(s, [0]); }
    ClaimOne(s, 0, 0);
    AggregateOne(Next(VILLAGE, s, LOST_UPDATE[1]), 0, 0, OLD_ROW);
  }

  lemma CorrectionIsSubmitted(s: Workers)
    requires s.db.reviews == FIVE && s.db.events == [NOTICE] && s.db.requests.Keys == {"first"}
    ensures var s' := Next(VILLAGE, s, LOST_UPDATE[3]);
            s'.db == s.db.(reviews := ONE, events := [NOTICE, NOTICE], requests := s'.db.requests) && s'.open == s.open
  {
    assert CurrentIndex(FIVE.rows[0].versions) == Some(0);
    assert "second" != "first";
    var s' := Next(VILLAGE, s, LOST_UPDATE[3]);
    var second := WithRating(FIVE.rows[0], 1, 0);
    assert second.versions == ONE.rows[0].versions;
    assert s'.db.reviews.rows == [second];
    assert s'.db.reviews.rows == ONE.rows && s'.db.reviews.ofTrip == ONE.ofTrip;
  }

  lemma WorkerOneReads(s: Workers)
    requires s.db.reviews == ONE && s.db.events == [NOTICE, NOTICE] && s.db.ledger == map[] && s.open == map[0 := STALE_BATCH]
    ensures Next(VILLAGE, Next(VILLAGE, s, LOST_UPDATE[4]), LOST_UPDATE[5])
         == Workers(s.db, map[0 := STALE_BATCH, 1 := Batch([1], 0, map[DRIVER := NEW_ROW], {}, {})])
  {
    Ratings(0);
    hide Recalculated, Next;
    assert !ClaimedElsewhere(s, [1]);
    ClaimOne(s, 1, 1);
    AggregateOne(Next(VILLAGE, s, LOST_UPDATE[4]), 1, 1, NEW_ROW);
  }

  /** Take the row lock and the city lock, and commit. */
  lemma WorkerCommits(s: Workers, u: WorkerId, row: Score)
    requires u in s.open && s.open[u] == Batch(s.open[u].claimed, 0, map[DRIVER := row], {}, {})
    requires Targets(s, u) <= {DRIVER}
    requires forall v :: v in s.open && v != u ==> s.open[v].flushed == {} && s.open[v].cities == {}
    ensures Next(VILLAGE, Next(VILLAGE, Next(VILLAGE, s, Flush(u, DRIVER)), LockCity(u, 0)), Commit(u))
         == Workers(Committed(s.db, s.open[u]), s.open - {u})
  {
    hide Committed, Affected;
    var s1 := Next(VILLAGE, s, Flush(u, DRIVER));
    assert !RowLockedByOther(s, u, DRIVER) && DRIVER in s.open[u].rows && s.open[u].flushed + {DRIVER} == {DRIVER};
    assert s1 == s.(open := s.open[u := s.open[u].(flushed := {DRIVER})]);
    var s2 := Next(VILLAGE, s1, LockCity(u, 0));
    assert !CityLockedByOther(s1, u, 0) && s1.open[u].cities + {0} == {0};
    assert s2 == s.(open := s.open[u := s.open[u].(flushed := {DRIVER}, cities := {0})]);
    assert s2.open - {u} == s.open - {u};
    SameCommit(s.db, s.open[u], s2.open[u]);
  }

  lemma SameCommit(db: Store, b: Batch, b': Batch)
    requires b'.claimed == b.claimed && b'.at == b.at && b'.rows == b.rows
    ensures Committed(db, b') == Committed(db, b)
  {}

  lemma Unfold(w: World, s: Workers, sts: seq<Statement>, n: nat)
    requires n < |sts|
    ensures AfterStatements(w, s, sts, n + 1) == Next(w, AfterStatements(w, s, sts, n), sts[n])
    ensures AfterStatements(w, s, sts, 0) == s
  {
    hide Next;
  }

  lemma BeforeTheCommits()
    ensures var s := AfterStatements(VILLAGE, Workers(EMPTY, map[]), LOST_UPDATE, 6);
            && s.db.reviews == ONE && s.db.events == [NOTICE, NOTICE] && s.db.ledger == map[] && s.db.scores == map[]
            && s.open == map[0 := STALE_BATCH, 1 := Batch([1], 0, map[DRIVER := NEW_ROW], {}, {})]
  {
    hide Next, AfterStatements;
    var s0 := Workers(EMPTY, map[]);
    Unfold(VILLAGE, s0, LOST_UPDATE, 0);
    Unfold(VILLAGE, s0, LOST_UPDATE, 1);
    Unfold(VILLAGE, s0, LOST_UPDATE, 2);
    Unfold(VILLAGE, s0, LOST_UPDATE, 3);
    Unfold(VILLAGE, s0, LOST_UPDATE, 4);
    Unfold(VILLAGE, s0, LOST_UPDATE, 5);
    RatingIsSubmitted(s0);
    WorkerZeroReads(AfterStatements(VILLAGE, s0, LOST_UPDATE, 1));
    CorrectionIsSubmitted(AfterStatements(VILLAGE, s0, LOST_UPDATE, 3));
    WorkerOneReads(AfterStatements(VILLAGE, s0, LOST_UPDATE, 4));
  }

  lemma OneTarget(s: Workers, u: WorkerId)
    requires u in s.open && forall e :: 0 <= e < |s.db.events| ==> s.db.events[e].target == DRIVER
    ensures Targets(s, u) <= {DRIVER}
  {}

  lemma CommitShape(db: Store, b: Batch)
    ensures var db' := Committed(db, b);
            && db'.reviews == db.reviews && |db'.events| == |db.events|
            && (forall e :: 0 <= e < |db.events| ==> db'.events[e].target == db.events[e].target)
            && (forall e :: e in db'.ledger <==> e in db.ledger || e in b.claimed)
            && db'.scores == db.scores + b.rows
  {}

  lemma AfterWorkerOne()
    ensures var s := AfterStatements(VILLAGE, Workers(EMPTY, map[]), LOST_UPDATE, 9);
            && s.db.reviews == ONE && 1 in s.db.ledger && |s.db.events| == 2
            && (forall e :: 0 <= e < 2 ==> s.db.events[e].target == DRIVER)
            && s.open == map[0 := STALE_BATCH]
  {
    hide Next, AfterStatements, Committed, Recalculated, Affected;
    var s0 := Workers(EMPTY, map[]);
    BeforeTheCommits();
    Unfold(VILLAGE, s0, LOST_UPDATE, 6);
    Unfold(VILLAGE, s0, LOST_UPDATE, 7);
    Unfold(VILLAGE, s0, LOST_UPDATE, 8);
    var s6 := AfterStatements(VILLAGE, s0, LOST_UPDATE, 6);
    OneTarget(s6, 1);
    WorkerCommits(s6, 1, NEW_ROW);
    CommitShape(s6.db, s6.open[1]);
  }

  /**
   Two workers that hold different events of one driver lose an update: worker 0 aggregates
   the rating 5, worker 1 aggregates and commits its correction to 1, and worker 0 commits
   last. The stored sum is 5, the reviews say 1, and no event is left to repair it.
   */
  lemma TwoWorkersLoseAnUpdate()
    ensures var db := AfterStatements(VILLAGE, Workers(EMPTY, map[]), LOST_UPDATE, 12).db;
            && DRIVER in db.scores && db.scores[DRIVER] == OLD_ROW
            && Recalculated(VILLAGE, db.reviews, DRIVER, 0) == NEW_ROW
            && !Awaiting(db, DRIVER)
            && !DirtyOrExact(VILLAGE, db, {})
  {
    hide Next, AfterStatements, Committed, Recalculated, Affected;
    var s0 := Workers(EMPTY, map[]);
    AfterWorkerOne();
    Unfold(VILLAGE, s0, LOST_UPDATE, 9);
    Unfold(VILLAGE, s0, LOST_UPDATE, 10);
    Unfold(VILLAGE, s0, LOST_UPDATE, 11);
    var s9 := AfterStatements(VILLAGE, s0, LOST_UPDATE, 9);
    OneTarget(s9, 0);
    WorkerCommits(s9, 0, OLD_ROW);
    CommitShape(s9.db, s9.open[0]);
    var db := AfterStatements(VILLAGE, s0, LOST_UPDATE, 12).db;
    Ratings(0);
    AllLedgered(db);
    OldRowIsWrong(db);
  }

  lemma AllLedgered(db: Store)
    requires |db.events| == 2 && 0 in db.ledger && 1 in db.ledger
    ensures !Awaiting(db, DRIVER)
  {}

  lemma OldRowIsWrong(db: Store)
    requires db.reviews == ONE && DRIVER in db.scores && db.scores[DRIVER] == OLD_ROW && !Awaiting(db, DRIVER)
    ensures !DirtyOrExact(VILLAGE, db, {})
  {
    Ratings(0);
    assert !ExactOrAwaiting(VILLAGE, db, DRIVER);
  }
}
