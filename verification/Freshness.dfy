/** The audit rule that a published generation states when it was published and how recent its scores are. */
module Freshness {
  import opened Tables
  import opened Scoring
  import opened Writes
  import opened Histories
  import opened Leaderboard
  import opened Outbox
  import opened Rebuild
  import opened Expiration
  import opened System
  import opened Audit

  ghost predicate Dated(g: Generation) {
    && (g.status == Published ==> g.publishedAt.Some? && g.sourceAt.Some?)
    && (g.status == Candidate ==> g.sourceAt.Some?)
  }

  /** The audit rule, together with what a candidate needs to meet it once it is installed. */
  ghost predicate AllDated(gens: seq<Generation>) {
    forall g :: 0 <= g < |gens| ==> Dated(gens[g])
  }

  /** The city has a score row. */
  predicate Scored(scores: map<DriverKey, Score>, c: CityId) {
    exists k :: k in scores && k.city == c
  }

  lemma SourceIffScored(w: World, scores: map<DriverKey, Score>, c: CityId)
    requires ValidScores(w, scores)
    ensures LatestSource(w, scores, c, |w.drivers|).Some? <==> Scored(scores, c)
  {
    hide LatestSource;
    LatestSourceIsMax(w, scores, c, |w.drivers|);
    if Scored(scores, c) {
      var k :| k in scores && k.city == c;
      assert ValidScore(w, k, scores[k]);
      var d: DriverId := k.driver;
      assert k == DriverKey(c, d) && d < |w.drivers|;
    }
  }

  lemma PublishIsDatedIff(w: World, scores: map<DriverKey, Score>, gens: seq<Generation>, c: CityId, at: Time)
    requires AllDated(gens) && ValidScores(w, scores)
    ensures AllDated(Publish(w, scores, gens, c, at)) <==> Scored(scores, c)
  {
    hide LiveBoard, MaxVersion, LatestSource, ValidScores, Scored;
    SourceIffScored(w, scores, c);
    var gens' := Publish(w, scores, gens, c, at);
    forall g | 0 <= g < |gens| ensures Dated(gens'[g]) {
      assert Dated(gens[g]);
    }
    assert gens'[|gens|] == NewGeneration(w, scores, gens, c, at);
    assert AllDated(gens') ==> Dated(gens'[|gens|]);
  }

  lemma {:induction false} PublishAllIsDated(w: World, scores: map<DriverKey, Score>, gens: seq<Generation>, cs: seq<CityId>, n: nat, at: Time)
    requires n <= |cs| && AllDated(gens) && ValidScores(w, scores)
    requires forall i :: 0 <= i < n ==> Scored(scores, cs[i])
    ensures AllDated(PublishAll(w, scores, gens, cs, n, at))
  {
    hide AllDated, ValidScores, Scored, Publish;
    if n > 0 {
      PublishAllIsDated(w, scores, gens, cs, n - 1, at);
      PublishIsDatedIff(w, scores, PublishAll(w, scores, gens, cs, n - 1, at), cs[n - 1], at);
    }
  }

  lemma WorkIsDated(w: World, s: Store, ids: seq<EventId>, at: Time)
    requires AllDated(s.generations) && ValidReviews(w, s.reviews) && Audited(w, s)
    ensures AllDated(ProcessBatch(w, s, ids, at).generations)
  {
    hide AllDated, Audited, ValidReviews, PublishAll, EventsAfter, LedgerAfter, Rescored, CityOrder, Affected;
    var scores := ScoresAfter(w, s, ids, at);
    var cs := CityOrder(s.events, s.ledger, ids, |ids|);
    WorkKeepsAudit(w, s, ids, at);
    assert ValidScores(w, scores) by { AuditedScores(w, ProcessBatch(w, s, ids, at)); }
    CityOrderIsAffected(s.events, s.ledger, ids);
    forall i | 0 <= i < |cs| ensures Scored(scores, cs[i]) {
      assert cs[i] in Elements(cs);
      AffectedCityIsScored(w, s, ids, at, cs[i]);
    }
    PublishAllIsDated(w, scores, s.generations, cs, |cs|, at);
  }

  lemma AuditedScores(w: World, s: Store)
    requires Audited(w, s)
    ensures ValidScores(w, s.scores)
  {}

  lemma AffectedCityIsScored(w: World, s: Store, ids: seq<EventId>, at: Time, c: CityId)
    requires c in AffectedCities(s.events, s.ledger, ids)
    ensures Scored(ScoresAfter(w, s, ids, at), c)
  {
    hide Affected, Recalculated;
    var k :| k in Affected(s.events, s.ledger, ids) && k.city == c;
    assert k in ScoresAfter(w, s, ids, at);
  }

  lemma ExpirationIsDated(w: World, s: Store, c: CityId, at: Time)
    requires AllDated(s.generations) && Structured(w, s) && Audited(w, s)
    ensures AllDated(RunExpiration(w, s, c, at).store.generations)
  {
    hide AllDated, Audited, Structured, Rescored, Publish, CityKeys, Scored, ChangedKeys, ValidScores;
    var s' := RunExpiration(w, s, c, at).store;
    StepKeepsAudit(w, s, Expire(c, at));
    assert ValidScores(w, s'.scores) by { AuditedScores(w, s'); }
    if RunExpiration(w, s, c, at).reply.Ran? {
      ChangedCityIsScored(w, s.reviews, s.scores, c, at);
      PublishIsDatedIff(w, s'.scores, s.generations, c, at);
    }
  }

  lemma ChangedCityIsScored(w: World, rt: Reviews, scores: map<DriverKey, Score>, c: CityId, at: Time)
    ensures var scores' := Rescored(w, rt, scores, CityKeys(w, c), at);
            |ChangedKeys(scores, scores', CityKeys(w, c))| > 0 ==> Scored(scores', c)
  {
    hide Recalculated;
    var scores' := Rescored(w, rt, scores, CityKeys(w, c), at);
    if |ChangedKeys(scores, scores', CityKeys(w, c))| > 0 {
      var k :| k in ChangedKeys(scores, scores', CityKeys(w, c));
      assert k in scores' && k.city == c;
    }
  }

  lemma StagingIsDated(w: World, s: Store, a: Action)
    requires (a.Stage? || a.Install? || a.Discard?) && AllDated(s.generations)
    ensures AllDated(Step(w, s, a).generations)
  {
    hide PublishedUpTo, HasActive, CandidateScores, CandidateBoard, Compare, MaxVersion, Rebuild.Installed;
  }

  lemma QuietIsDated(w: World, s: Store, a: Action)
    requires a.Write? || a.ReportFailure? || a.Rescore?
    ensures Step(w, s, a).generations == s.generations
  {
    hide WithRating, WithDecision, WithRow, WithNewRow, NewEvent, CurrentBody, UpsertChangesContribution, RatingChanges, Rescored, FailedOnce;
  }

  /** The transaction publishes a city without any score row. */
  predicate PublishesUnscored(w: World, s: Store, a: Action) {
    a.Republish? && a.city in w.cities && !Scored(s.scores, a.city)
  }

  /** The audit rule under each transaction: it survives if and only if no unscored city is published on its own. */
  lemma StepIsDatedIff(w: World, s: Store, a: Action)
    requires Structured(w, s) && Audited(w, s) && BoardsAreDated(s)
    ensures BoardsAreDated(Step(w, s, a)) <==> !PublishesUnscored(w, s, a)
  {
    assert ValidReviews(w, s.reviews) && ValidScores(w, s.scores);
    hide Structured, Audited, AllDated, ValidScores, ValidReviews, ProcessBatch, RunExpiration, Claimable, Publish, Scored;
    match a
    case Work(claimed, availableAt, at) => WorkIsDated(w, s, claimed, at);
    case Expire(city, at) => ExpirationIsDated(w, s, city, at);
    case Republish(city, at) => PublishIsDatedIff(w, s.scores, s.generations, city, at);
    case Stage(_, _, _) =>
      hide Step;
      StagingIsDated(w, s, a);
    case Install(_, _) =>
      hide Step;
      StagingIsDated(w, s, a);
    case Discard(_, _) =>
      hide Step;
      StagingIsDated(w, s, a);
    case _ =>
      hide Step;
      QuietIsDated(w, s, a);
  }

  ghost predicate BoardsAreDated(s: Store) {
    AllDated(s.generations)
  }

  ghost predicate AlwaysDated(w: World, actions: seq<Action>, n: nat)
    requires n <= |actions|
  {
    forall m: nat :: m <= n ==> BoardsAreDated(Run(w, EMPTY, actions, m))
  }

  ghost predicate NeverUnscored(w: World, actions: seq<Action>, n: nat)
    requires n <= |actions|
  {
    forall m: nat :: m < n ==> !PublishesUnscored(w, Run(w, EMPTY, actions, m), actions[m])
  }

  /** Over runs from the empty database: the audit rule holds throughout if and only if no unscored city is published on its own. */
  lemma {:induction false} FreshnessHoldsIff(w: World, actions: seq<Action>, n: nat)
    requires n <= |actions|
    ensures AlwaysDated(w, actions, n) <==> NeverUnscored(w, actions, n)
  {
    hide Structured, Step, BoardsAreDated, PublishesUnscored, Audited;
    if n == 0 {
      assert BoardsAreDated(EMPTY) by { NothingIsDated(); }
    } else {
      FreshnessHoldsIff(w, actions, n - 1);
      EmptyIsStructured(w);
      RunKeepsStructure(w, EMPTY, actions, n - 1, n - 1);
      EveryReachableScoreIsValid(w, actions, n - 1);
      var before := Run(w, EMPTY, actions, n - 1);
      assert Run(w, EMPTY, actions, n) == Step(w, before, actions[n - 1]);
      if BoardsAreDated(before) {
        StepIsDatedIff(w, before, actions[n - 1]);
      }
      assert AlwaysDated(w, actions, n) <==> AlwaysDated(w, actions, n - 1) && BoardsAreDated(Run(w, EMPTY, actions, n));
      assert NeverUnscored(w, actions, n) <==> NeverUnscored(w, actions, n - 1) && !PublishesUnscored(w, before, actions[n - 1]);
    }
  }

  lemma NothingIsDated()
    ensures BoardsAreDated(EMPTY)
  {}
}
