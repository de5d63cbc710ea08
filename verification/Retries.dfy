/** Retries are erased: only the first accepted call of each idempotency key matters. */
module Retries {
  import opened Tables
  import opened Writes

  datatype Call = Call(key: Key, request: Request, now: Time)

  /** The store after the first `n` calls. */
  function AfterCalls(w: World, s: Store, calls: seq<Call>, n: nat): Store
    requires n <= |calls|
  {
    if n == 0 then s
    else
      var c := calls[n - 1];
      Submit(w, AfterCalls(w, s, calls, n - 1), c.request, c.key, c.now).store
  }

  /** The answer to call `i`. */
  function ReplyTo(w: World, s: Store, calls: seq<Call>, i: nat): Reply
    requires i < |calls|
  {
    Submit(w, AfterCalls(w, s, calls, i), calls[i].request, calls[i].key, calls[i].now).reply
  }

  /** Call `i` is the first accepted call under its key. */
  predicate FirstSuccess(w: World, s: Store, calls: seq<Call>, i: nat)
    requires i < |calls|
  {
    && calls[i].key !in s.requests
    && ReplyTo(w, s, calls, i).Accepted?
    && (forall j | 0 <= j < i :: calls[j].key == calls[i].key ==> !ReplyTo(w, s, calls, j).Accepted?)
  }

  /** The first `n` calls without retries and rejected calls. */
  function Kept(w: World, s: Store, calls: seq<Call>, n: nat): seq<Call>
    requires n <= |calls|
  {
    if n == 0 then []
    else if FirstSuccess(w, s, calls, n - 1) then Kept(w, s, calls, n - 1) + [calls[n - 1]]
    else Kept(w, s, calls, n - 1)
  }

  // ---------- one call ----------

  lemma SubmitAddsOnlyItsKey(w: World, s: Store, c: Call)
    ensures var o := Submit(w, s, c.request, c.key, c.now);
            && (o.reply.Rejected? || c.key in s.requests ==> o.store == s)
            && (o.reply.Accepted? && c.key !in s.requests ==>
                  && o.store.requests == s.requests[c.key := RequestRecord(c.request, o.reply.created, o.reply.body)]
                  && !o.reply.replayed && !o.reply.body.replay)
  {
    hide WithRating, WithDecision, WithRow, WithNewRow, NewEvent, CurrentBody, UpsertChangesContribution, RatingChanges;
  }

  /** A key that is already used answers from its record or refuses, and changes nothing. */
  lemma UsedKeyChangesNothing(w: World, s: Store, c: Call)
    requires c.key in s.requests
    ensures var o, rec := Submit(w, s, c.request, c.key, c.now), s.requests[c.key];
            && o.store == s
            && (o.reply.Accepted? <==> rec.request == c.request)
            && (o.reply.Accepted? ==> o.reply.replayed && o.reply.body == rec.body.(replay := true)
                                      && (c.request.Upsert? ==> o.reply.created == rec.created))
            && (o.reply.Rejected? ==> o.reply.error == IdempotencyConflict)
  {}

  // ---------- runs of calls ----------

  /** A key is recorded exactly when it was to begin with or one of its calls was accepted. */
  lemma {:induction false} RecordedKeys(w: World, s: Store, calls: seq<Call>, n: nat, key: Key)
    requires n <= |calls|
    ensures key in AfterCalls(w, s, calls, n).requests
       <==> key in s.requests || exists j :: 0 <= j < n && calls[j].key == key && ReplyTo(w, s, calls, j).Accepted?
  {
    hide Submit;
    if n > 0 {
      RecordedKeys(w, s, calls, n - 1, key);
      SubmitAddsOnlyItsKey(w, AfterCalls(w, s, calls, n - 1), calls[n - 1]);
    }
  }

  lemma FirstSuccessMeetsFreshKey(w: World, s: Store, calls: seq<Call>, i: nat)
    requires i < |calls|
    ensures FirstSuccess(w, s, calls, i)
       <==> calls[i].key !in AfterCalls(w, s, calls, i).requests && ReplyTo(w, s, calls, i).Accepted?
  {
    RecordedKeys(w, s, calls, i, calls[i].key);
  }

  lemma {:induction false} AfterPrefix(w: World, s: Store, a: seq<Call>, b: seq<Call>, n: nat)
    requires n <= |a| && a <= b
    ensures AfterCalls(w, s, a, n) == AfterCalls(w, s, b, n)
  {
    hide Submit;
    if n > 0 {
      AfterPrefix(w, s, a, b, n - 1);
    }
  }

  /** Retry erasure: dropping every call but the first accepted one of each key leaves the same store. */
  lemma {:induction false} RetryErasure(w: World, s: Store, calls: seq<Call>, n: nat)
    requires n <= |calls|
    ensures var kept := Kept(w, s, calls, n); AfterCalls(w, s, kept, |kept|) == AfterCalls(w, s, calls, n)
  {
    hide Submit;
    if n > 0 {
      RetryErasure(w, s, calls, n - 1);
      var front := Kept(w, s, calls, n - 1);
      FirstSuccessMeetsFreshKey(w, s, calls, n - 1);
      SubmitAddsOnlyItsKey(w, AfterCalls(w, s, calls, n - 1), calls[n - 1]);
      if FirstSuccess(w, s, calls, n - 1) {
        AfterPrefix(w, s, front, front + [calls[n - 1]], |front|);
      }
    }
  }

  /** Every kept call's key was new at the start and is recorded at the end. */
  lemma {:induction false} KeptKeysAreRecorded(w: World, s: Store, calls: seq<Call>, n: nat)
    requires n <= |calls|
    ensures forall c :: c in Kept(w, s, calls, n) ==> c.key !in s.requests && c.key in AfterCalls(w, s, calls, n).requests
  {
    hide Submit;
    if n > 0 {
      KeptKeysAreRecorded(w, s, calls, n - 1);
      FirstSuccessMeetsFreshKey(w, s, calls, n - 1);
      SubmitAddsOnlyItsKey(w, AfterCalls(w, s, calls, n - 1), calls[n - 1]);
    }
  }

  /** In the run without retries no key occurs twice. */
  lemma {:induction false} KeptKeysAreDistinct(w: World, s: Store, calls: seq<Call>, n: nat)
    requires n <= |calls|
    ensures forall i, j :: 0 <= i < j < |Kept(w, s, calls, n)| ==> Kept(w, s, calls, n)[i].key != Kept(w, s, calls, n)[j].key
  {
    hide Submit;
    if n > 0 {
      KeptKeysAreDistinct(w, s, calls, n - 1);
      KeptKeysAreRecorded(w, s, calls, n - 1);
      FirstSuccessMeetsFreshKey(w, s, calls, n - 1);
      var front := Kept(w, s, calls, n - 1);
      assert forall i :: 0 <= i < |front| ==> front[i] in front;
    }
  }

  /** A record, once written, never changes. */
  lemma {:induction false} RecordsAreStable(w: World, s: Store, calls: seq<Call>, m: nat, n: nat, key: Key)
    requires m <= n <= |calls|
    requires key in AfterCalls(w, s, calls, m).requests
    ensures key in AfterCalls(w, s, calls, n).requests
    ensures AfterCalls(w, s, calls, n).requests[key] == AfterCalls(w, s, calls, m).requests[key]
  {
    hide Submit;
    if m < n {
      RecordsAreStable(w, s, calls, m, n - 1, key);
      SubmitAddsOnlyItsKey(w, AfterCalls(w, s, calls, n - 1), calls[n - 1]);
    }
  }

  /**
   Every later call with the key of a first success gets that call's stored answer, apart
   from the replay flag, when its content is the same, and is refused otherwise.
   */
  lemma ReplayReturnsFirstAnswer(w: World, s: Store, calls: seq<Call>, i: nat, j: nat)
    requires i < j < |calls|
    requires FirstSuccess(w, s, calls, i) && calls[j].key == calls[i].key
    ensures AfterCalls(w, s, calls, j + 1) == AfterCalls(w, s, calls, j)
    ensures var first, later := ReplyTo(w, s, calls, i), ReplyTo(w, s, calls, j);
            && !first.replayed && !first.body.replay
            && (calls[j].request == calls[i].request ==>
                  later == Accepted(first.body.(replay := true), first.created && calls[i].request.Upsert?, true))
            && (calls[j].request != calls[i].request ==> later == Rejected(IdempotencyConflict))
  {
    FirstSuccessMeetsFreshKey(w, s, calls, i);
    SubmitAddsOnlyItsKey(w, AfterCalls(w, s, calls, i), calls[i]);
    RecordsAreStable(w, s, calls, i + 1, j, calls[i].key);
  }
}
