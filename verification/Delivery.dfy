/** The life of one outbox event over a run, under any interleaving of workers. */
module Delivery {
  import opened Tables
  import opened Scoring
  import opened Writes
  import opened Histories
  import opened Leaderboard
  import opened Outbox
  import opened Rebuild
  import opened Expiration
  import opened System

  /** The times at which failures of event `e` are recorded in the first `n` transactions. */
  function FailureTimes(actions: seq<Action>, n: nat, e: EventId): seq<Time>
    requires n <= |actions|
  {
    if n == 0 then []
    else if actions[n - 1].ReportFailure? && e in actions[n - 1].failed
    then FailureTimes(actions, n - 1, e) + [actions[n - 1].failedAt]
    else FailureTimes(actions, n - 1, e)
  }

  /** Delay in seconds after the given number of recorded failures. */
  function Delay(failures: nat): nat
    requires failures > 0
  {
    Pow2(failures - 1)
  }

  lemma DelaysAreOneTwoFourEight()
    ensures Delay(1) == 1 && Delay(2) == 2 && Delay(3) == 4 && Delay(4) == 8
  {}

  /**
   The state that a never successful event has after failures at these times: terminal
   from the fifth on, and until then due again 1, 2, 4 and 8 seconds after each of them.
   */
  ghost predicate HasFailedAt(first: Event, e: Event, times: seq<Time>) {
    && e.attempts == |times|
    && e.status == (if |times| >= MAX_ATTEMPTS then Failed else Pending)
    && (|times| == 0 ==> e.nextAttemptAt == first.nextAttemptAt)
    && (0 < |times| < MAX_ATTEMPTS ==> e.nextAttemptAt == times[|times| - 1] + Delay(|times|) * SECOND)
    && (|times| >= MAX_ATTEMPTS ==> e.nextAttemptAt == times[MAX_ATTEMPTS - 2] + Delay(MAX_ATTEMPTS - 1) * SECOND)
  }

  lemma OneMoreFailure(first: Event, e: Event, times: seq<Time>, error: string, at: Time)
    requires HasFailedAt(first, e, times)
    ensures HasFailedAt(first, FailedOnce(e, error, at), times + [at])
  {}

  /** Transactions other than writes, batches and reports do not touch the outbox. */
  lemma QuietKeepsEvents(w: World, s: Store, a: Action)
    requires a.Expire? || a.Stage? || a.Install? || a.Discard? || a.Rescore? || a.Republish?
    ensures Step(w, s, a).events == s.events
  {
    hide Rescored, ChangedKeys, Publish, NewJob, CandidateGeneration, Promote, Rebuild.Installed, PublishedOf, HasActive;
  }

  lemma WorkKeepsOtherEvents(w: World, s: Store, a: Action, e: EventId)
    requires a.Work? && e < |s.events| && e !in Step(w, s, a).ledger
    ensures |Step(w, s, a).events| == |s.events| && Step(w, s, a).events[e] == s.events[e]
  {
    hide PublishAll, ScoresAfter, CityOrder;
    if Claimable(s.events, a.claimed, a.availableAt) {
      assert e !in a.claimed;
    }
  }

  /** A transaction that neither reports nor completes an event leaves it alone. */
  lemma EventFrame(w: World, s: Store, a: Action, e: EventId)
    requires Structured(w, s) && e < |s.events|
    requires a.ReportFailure? ==> e !in a.failed
    requires e !in Step(w, s, a).ledger
    ensures e < |Step(w, s, a).events| && Step(w, s, a).events[e] == s.events[e]
  {
    match a
    case Write(request, key, now) =>
      hide Submit, WriteIsSound;
      WriteKeepsStructure(w, s, request, key, now);
      WriteKeepsEvents(w, s, request, Submit(w, s, request, key, now).store, now);
    case Work(_, _, _) =>
      hide Step, Structured;
      WorkKeepsOtherEvents(w, s, a, e);
    case ReportFailure(failed, error, failedAt) => hide Structured, FailedOnce;
    case _ =>
      hide Step, Structured;
      QuietKeepsEvents(w, s, a);
  }

  lemma WriteKeepsEvents(w: World, s: Store, request: Request, s': Store, now: Time)
    requires ValidOutbox(w, s.events, s.ledger)
    requires s' == s || WriteIsSound(w, s, request, s', now)
    ensures s.events <= s'.events
  {
    if s' != s {
      WriteKeepsOutbox(w, s, request, s', now);
    }
  }

  lemma ReportStep(w: World, s: Store, a: Action, e: EventId)
    requires a.ReportFailure? && e in a.failed && e < |s.events|
    ensures Step(w, s, a).events[e] == FailedOnce(s.events[e], a.error, a.failedAt)
    ensures |Step(w, s, a).events| == |s.events|
  {}

  /** Ledger rows are for ever, so an event without one never had one. */
  lemma NeverLedgered(w: World, s: Store, a: Action, e: EventId)
    requires Structured(w, s) && e !in Step(w, s, a).ledger
    ensures e !in s.ledger
  {
    hide Structured, Step, AllExtend, AllEvolve;
    StepKeepsStructure(w, s, a);
  }

  /**
   Over any run from the moment an event was enqueued: while it has no ledger row, its
   attempts are exactly the recorded failures, it becomes terminal with the fifth, and its
   next attempt is due 1, 2, 4 or 8 seconds after the latest one.
   */
  lemma {:induction false} RetryHistory(w: World, s: Store, actions: seq<Action>, n: nat, e: EventId)
    requires n <= |actions| && Structured(w, s) && e < |s.events|
    requires s.events[e].status == Pending && s.events[e].attempts == 0
    requires e !in Run(w, s, actions, n).ledger
    ensures e < |Run(w, s, actions, n).events|
    ensures HasFailedAt(s.events[e], Run(w, s, actions, n).events[e], FailureTimes(actions, n, e))
  {
    hide Structured, Step, HasFailedAt;
    if n == 0 {
      FreshEventHasNotFailed(s.events[e]);
    } else {
      var before, a := Run(w, s, actions, n - 1), actions[n - 1];
      RunKeepsStructure(w, s, actions, n - 1, n - 1);
      NeverLedgered(w, before, a, e);
      RetryHistory(w, s, actions, n - 1, e);
      if a.ReportFailure? && e in a.failed {
        ReportStep(w, before, a, e);
        OneMoreFailure(s.events[e], before.events[e], FailureTimes(actions, n - 1, e), a.error, a.failedAt);
      } else {
        EventFrame(w, before, a, e);
      }
    }
  }

  lemma FreshEventHasNotFailed(e: Event)
    requires e.status == Pending && e.attempts == 0
    ensures HasFailedAt(e, e, [])
  {}

  /** In every reachable state: nothing is being processed, and status, attempts and ledger fit together. */
  lemma EveryReachableOutboxIsValid(w: World, actions: seq<Action>, n: nat)
    requires n <= |actions|
    ensures var s := Run(w, EMPTY, actions, n);
            forall e :: 0 <= e < |s.events| ==>
              && s.events[e].status != Processing
              && (s.events[e].status == Pending ==> s.events[e].attempts < MAX_ATTEMPTS)
              && (s.events[e].status == Failed ==> s.events[e].attempts >= MAX_ATTEMPTS)
              && (s.events[e].status == Completed ==> e in s.ledger && s.events[e].processedAt.Some?)
  {
    hide Step;
    EmptyIsStructured(w);
    RunKeepsStructure(w, EMPTY, actions, n, n);
    var s := Run(w, EMPTY, actions, n);
    assert ValidOutbox(w, s.events, s.ledger);
    hide Structured;
    forall e | 0 <= e < |s.events| ensures ValidEvent(w, s.events[e], e in s.ledger) {}
  }

  // ---------- ledger rows belong to completed events ----------

  /** The transaction reports the failure of an event that has a ledger row. */
  predicate Reopens(s: Store, a: Action) {
    a.ReportFailure? && exists e :: e in a.failed && e < |s.events| && e in s.ledger
  }

  lemma WriteKeepsLedgerAudit(w: World, s: Store, a: Action)
    requires Structured(w, s) && a.Write? && LedgeredAreCompleted(s)
    ensures LedgeredAreCompleted(Step(w, s, a))
  {
    assert ValidOutbox(w, s.events, s.ledger);
    hide Structured, Submit, WriteIsSound, ValidEvent;
    WriteKeepsStructure(w, s, a.request, a.key, a.now);
    var s' := Submit(w, s, a.request, a.key, a.now).store;
    WriteKeepsEvents(w, s, a.request, s', a.now);
    WriteKeepsLedger(w, s, a);
    forall e | e in s'.ledger && e < |s'.events| ensures s'.events[e].status == Completed {
      assert e < |s.events| && s'.events[e] == s.events[e];
    }
  }

  lemma WriteKeepsLedger(w: World, s: Store, a: Action)
    requires a.Write?
    ensures Step(w, s, a).ledger == s.ledger
  {
    hide WithRating, WithDecision, WithRow, WithNewRow, NewEvent, CurrentBody, UpsertChangesContribution, RatingChanges;
  }

  lemma QuietKeepsLedger(w: World, s: Store, a: Action)
    requires a.Expire? || a.Stage? || a.Install? || a.Discard? || a.Rescore? || a.Republish?
    ensures Step(w, s, a).ledger == s.ledger
  {
    hide Rescored, ChangedKeys, Publish, NewJob, CandidateGeneration, Promote, Rebuild.Installed, PublishedOf, HasActive;
  }

  /** The audit rule under each transaction: it survives if and only if no ledgered event is reported as failed. */
  lemma StepKeepsLedgerAuditIff(w: World, s: Store, a: Action)
    requires Structured(w, s) && LedgeredAreCompleted(s)
    ensures LedgeredAreCompleted(Step(w, s, a)) <==> !Reopens(s, a)
  {
    hide Structured, LedgeredAreCompleted, ProcessBatch, RecordFailure, Submit, RunExpiration, StartRebuild, PublishRebuild, DiscardRebuild,
         RescoreCity, PublishCity, Claimable;
    match a
    case Write(_, _, _) => WriteKeepsLedgerAudit(w, s, a);
    case Work(claimed, availableAt, at) =>
      if Claimable(s.events, claimed, availableAt) {
        BatchKeepsLedgerAudit(w, s, claimed, at);
      }
    case ReportFailure(failed, error, failedAt) => StaleFailureReopens(s, failed, error, failedAt);
    case _ =>
      QuietKeepsEvents(w, s, a);
      QuietKeepsLedger(w, s, a);
      SameOutboxSameAudit(s, Step(w, s, a));
  }

  lemma SameOutboxSameAudit(s: Store, s': Store)
    requires s'.events == s.events && s'.ledger == s.ledger
    ensures LedgeredAreCompleted(s') <==> LedgeredAreCompleted(s)
  {}

  ghost predicate AlwaysCompleted(w: World, actions: seq<Action>, n: nat)
    requires n <= |actions|
  {
    forall m: nat :: m <= n ==> LedgeredAreCompleted(Run(w, EMPTY, actions, m))
  }

  ghost predicate NeverReopened(w: World, actions: seq<Action>, n: nat)
    requires n <= |actions|
  {
    forall m: nat :: m < n ==> !Reopens(Run(w, EMPTY, actions, m), actions[m])
  }

  /** Over runs from the empty database: the audit rule holds throughout if and only if no report ever names a ledgered event. */
  lemma {:induction false} LedgerAuditHoldsIff(w: World, actions: seq<Action>, n: nat)
    requires n <= |actions|
    ensures AlwaysCompleted(w, actions, n) <==> NeverReopened(w, actions, n)
  {
    hide Structured, Step, LedgeredAreCompleted, Reopens;
    if n == 0 {
      assert LedgeredAreCompleted(EMPTY) by { NothingIsLedgered(); }
    } else {
      LedgerAuditHoldsIff(w, actions, n - 1);
      EmptyIsStructured(w);
      RunKeepsStructure(w, EMPTY, actions, n - 1, n - 1);
      var before := Run(w, EMPTY, actions, n - 1);
      assert Run(w, EMPTY, actions, n) == Step(w, before, actions[n - 1]);
      if LedgeredAreCompleted(before) {
        StepKeepsLedgerAuditIff(w, before, actions[n - 1]);
      }
      assert AlwaysCompleted(w, actions, n) <==> AlwaysCompleted(w, actions, n - 1) && LedgeredAreCompleted(Run(w, EMPTY, actions, n));
      assert NeverReopened(w, actions, n) <==> NeverReopened(w, actions, n - 1) && !Reopens(before, actions[n - 1]);
    }
  }

  lemma NothingIsLedgered()
    ensures LedgeredAreCompleted(EMPTY)
  {}
}
