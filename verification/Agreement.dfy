/** The published board of a city is the ranking of its live scores. */
module Agreement {
  import opened Tables
  import opened Scoring
  import opened Ranking
  import opened Writes
  import opened Histories
  import opened Leaderboard
  import opened Outbox
  import opened Rebuild
  import opened Expiration
  import opened System

  /** A city without a published generation has no scores either. */
  ghost predicate Agrees(w: World, s: Store, c: CityId) {
    match PublishedOf(s.generations, c)
    case Some(g) => s.generations[g].entries == LiveBoard(w, s.scores, c)
    case None => forall k :: k in s.scores ==> k.city != c
  }

  /** As far as the city is concerned, its publication and the ranked part of its scores are as before. */
  ghost predicate SameCity(w: World, s: Store, s': Store, c: CityId) {
    && PublishedOf(s'.generations, c) == PublishedOf(s.generations, c)
    && (forall g: GenerationId :: g < |s.generations| ==> g < |s'.generations| && s'.generations[g].entries == s.generations[g].entries)
    && (forall d: DriverId :: d < |w.drivers| ==> Ranking3(s'.scores, DriverKey(c, d)) == Ranking3(s.scores, DriverKey(c, d)))
    && (forall k: DriverKey :: k in s'.scores && k.city == c ==> k in s.scores)
  }

  lemma SameCityAgrees(w: World, s: Store, s': Store, c: CityId)
    requires Agrees(w, s, c) && SameCity(w, s, s', c)
    ensures Agrees(w, s', c)
  {
    hide Board;
    LiveRowsFrame(w, s.scores, s'.scores, c, |w.drivers|);
  }

  lemma FreshBoardAgrees(w: World, s: Store, c: CityId, from: nat)
    requires FreshBoard(w, s.scores, s.generations, c, from)
    ensures Agrees(w, s, c)
  {
    hide LiveBoard;
  }

  // ---------- which transactions publish in a city ----------

  /** The expiration is not a repetition and moves some aggregate of the city. */
  predicate ExpirationPublishes(w: World, s: Store, c: CityId, at: Time) {
    && FindRun(s.expirations, c, at, |s.expirations|).None? && c in w.cities
    && |ChangedKeys(s.scores, Rescored(w, s.reviews, s.scores, CityKeys(w, c), at), CityKeys(w, c))| > 0
  }

  /** The transaction publishes a generation of the city. */
  predicate PublishesIn(w: World, s: Store, a: Action, c: CityId) {
    match a
    case Work(claimed, availableAt, _) => Claimable(s.events, claimed, availableAt) && c in AffectedCities(s.events, s.ledger, claimed)
    case Expire(city, effectiveAt) => city == c && ExpirationPublishes(w, s, c, effectiveAt)
    case Install(job, now) => job < |s.jobs| && s.jobs[job].city == c && PublishRebuild(w, s, job, now).reply.JobDone?
    case Republish(city, _) => city == c && c in w.cities
    case _ => false
  }

  /** The transaction rebuilds the city's scores and does not publish. */
  predicate RescoresBarely(a: Action, c: CityId) {
    a.Rescore? && a.city == c
  }

  /** Since the last bare rescore of the city, if there was one, the city has been published. */
  predicate PublishedSinceRescore(w: World, s: Store, actions: seq<Action>, n: nat, c: CityId)
    requires n <= |actions|
  {
    n == 0
    || PublishesIn(w, Run(w, s, actions, n - 1), actions[n - 1], c)
    || (PublishedSinceRescore(w, s, actions, n - 1, c) && !RescoresBarely(actions[n - 1], c))
  }

  /** Rows of other cities do not change what a city ranks. */
  lemma RescoringElsewhere(w: World, rt: Reviews, scores: map<DriverKey, Score>, keys: set<DriverKey>, at: Time, c: CityId)
    requires forall k :: k in keys ==> k.city != c
    ensures var scores' := Rescored(w, rt, scores, keys, at);
            && (forall d: DriverId :: Ranking3(scores', DriverKey(c, d)) == Ranking3(scores, DriverKey(c, d)))
            && (forall k: DriverKey :: k in scores' && k.city == c ==> k in scores)
  {
    hide Recalculated;
  }

  lemma PublishedElsewhere(w: World, scores: map<DriverKey, Score>, gens: seq<Generation>, gens': seq<Generation>, cs: set<CityId>, c: CityId)
    requires PublishedAnew(w, scores, gens, gens', cs) && c !in cs
    ensures PublishedOf(gens', c) == PublishedOf(gens, c) && |gens| <= |gens'|
    ensures forall g: GenerationId :: g < |gens| ==> g < |gens'| && gens'[g].entries == gens[g].entries
  {
    hide FreshBoard;
    PublishedFrame(gens, gens', c, |gens|);
    SkipCity(gens', c, |gens|, |gens'|);
  }

  lemma {:induction false} SkipCity(gens: seq<Generation>, c: CityId, m: nat, n: nat)
    requires m <= n <= |gens|
    requires forall i :: m <= i < n ==> gens[i].city != c
    ensures PublishedUpTo(gens, c, n) == PublishedUpTo(gens, c, m)
  {
    if m < n {
      SkipCity(gens, c, m, n - 1);
    }
  }

  lemma CityOfAffected(s: Store, ids: seq<EventId>, k: DriverKey)
    requires k in Affected(s.events, s.ledger, ids)
    ensures k.city in AffectedCities(s.events, s.ledger, ids)
  {}

  lemma WorkAgrees(w: World, s: Store, ids: seq<EventId>, availableAt: Time, at: Time, c: CityId)
    requires Structured(w, s) && Claimable(s.events, ids, availableAt)
    requires Agrees(w, s, c) || c in AffectedCities(s.events, s.ledger, ids)
    ensures Agrees(w, ProcessBatch(w, s, ids, at), c)
  {
    hide Structured, Claimable, PublishAll, CityOrder, EventsAfter, LedgerAfter, Rescored, Agrees, Affected, AffectedCities, FreshBoard,
         PublishedOf, PublishedAnew, Succeeds, SameCity, Ranking3;
    var s' := ProcessBatch(w, s, ids, at);
    var keys, cs := Affected(s.events, s.ledger, ids), AffectedCities(s.events, s.ledger, ids);
    WorkKeepsStructure(w, s, ids, availableAt, at);
    if c in cs {
      AffectedBoardIsFresh(w, s'.scores, s.generations, s'.generations, cs, c);
      FreshBoardAgrees(w, s', c, |s.generations|);
    } else {
      forall k | k in keys ensures k.city != c {
        CityOfAffected(s, ids, k);
      }
      UntouchedCity(w, s, s', keys, cs, at, c);
      SameCityAgrees(w, s, s', c);
    }
  }

  lemma AffectedBoardIsFresh(w: World, scores: map<DriverKey, Score>, gens: seq<Generation>, gens': seq<Generation>, cs: set<CityId>, c: CityId)
    requires PublishedAnew(w, scores, gens, gens', cs) && c in cs
    ensures FreshBoard(w, scores, gens', c, |gens|)
  {
    hide FreshBoard;
  }

  lemma UntouchedCity(w: World, s: Store, s': Store, keys: set<DriverKey>, cs: set<CityId>, at: Time, c: CityId)
    requires PublishedAnew(w, s'.scores, s.generations, s'.generations, cs) && c !in cs
    requires s'.scores == Rescored(w, s.reviews, s.scores, keys, at) && forall k :: k in keys ==> k.city != c
    ensures SameCity(w, s, s', c)
  {
    hide PublishedAnew, Rescored, PublishedOf, Ranking3;
    PublishedElsewhere(w, s'.scores, s.generations, s'.generations, cs, c);
    RescoringElsewhere(w, s.reviews, s.scores, keys, at, c);
  }

  lemma PublishAgrees(w: World, s: Store, s': Store, p: CityId, at: Time, c: CityId)
    requires ValidGenerations(s.generations)
    requires s'.generations == Publish(w, s'.scores, s.generations, p, at)
    requires c != p ==> Agrees(w, s, c)
    requires c != p ==> forall d: DriverId :: Ranking3(s'.scores, DriverKey(c, d)) == Ranking3(s.scores, DriverKey(c, d))
    requires c != p ==> forall k: DriverKey :: k in s'.scores && k.city == c ==> k in s.scores
    ensures Agrees(w, s', c)
  {
    hide Publish, ValidGenerations, Agrees, FreshBoard, PublishedOf, Ranking3;
    if c == p {
      PublishedHere(w, s'.scores, s.generations, p, at);
      FreshBoardAgrees(w, s', c, 0);
    } else {
      PublishedThere(w, s'.scores, s.generations, p, at, c);
      SameCityAgrees(w, s, s', c);
    }
  }

  lemma PublishedHere(w: World, scores: map<DriverKey, Score>, gens: seq<Generation>, p: CityId, at: Time)
    requires ValidGenerations(gens)
    ensures FreshBoard(w, scores, Publish(w, scores, gens, p, at), p, 0)
  {
    hide Publish, ValidGenerations, LiveBoard, AllEvolve, PublishedOf;
    PublishIsSound(w, scores, gens, p, at);
  }

  lemma PublishedThere(w: World, scores: map<DriverKey, Score>, gens: seq<Generation>, p: CityId, at: Time, c: CityId)
    requires ValidGenerations(gens) && c != p
    ensures var gens' := Publish(w, scores, gens, p, at);
            && PublishedOf(gens', c) == PublishedOf(gens, c) && |gens'| == |gens| + 1
            && (forall g: GenerationId :: g < |gens| ==> gens'[g].entries == gens[g].entries)
  {
    hide LiveBoard, LatestSource, MaxVersion, ValidGenerations;
    OnlyAppended(w, scores, gens, p, at);
    PublishedFrame(gens, Publish(w, scores, gens, p, at), c, |gens|);
  }

  lemma OnlyAppended(w: World, scores: map<DriverKey, Score>, gens: seq<Generation>, p: CityId, at: Time)
    ensures var gens' := Publish(w, scores, gens, p, at);
            && |gens'| == |gens| + 1
            && gens'[|gens|].city == p
            && (forall c: CityId :: c != p ==> PublishedOf(gens', c) == PublishedUpTo(gens', c, |gens|))
            && (forall g: GenerationId :: g < |gens| ==> gens'[g].entries == gens[g].entries)
  {
    hide LiveBoard, LatestSource, MaxVersion;
  }

  lemma ExpireAgrees(w: World, s: Store, p: CityId, at: Time, c: CityId)
    requires Structured(w, s)
    requires Agrees(w, s, c) || (c == p && ExpirationPublishes(w, s, p, at))
    ensures Agrees(w, RunExpiration(w, s, p, at).store, c)
  {
    assert ValidGenerations(s.generations);
    hide Structured, Agrees, ValidGenerations, Rescored, Publish, LiveBoard, ChangedKeys, CityKeys, Ranking3;
    var o := RunExpiration(w, s, p, at);
    if o.reply.Ran? {
      if c != p {
        CityKeysStayInCity(w, p);
        RescoringElsewhere(w, s.reviews, s.scores, CityKeys(w, p), at, c);
      }
      if ExpirationPublishes(w, s, p, at) {
        PublishAgrees(w, s, o.store, p, at, c);
      } else {
        if c == p {
          SkippedPublication(w, s, p, at);
        }
        SameCityAgrees(w, s, o.store, c);
      }
    }
  }

  lemma CityKeysStayInCity(w: World, c: CityId)
    ensures forall k :: k in CityKeys(w, c) ==> k.city == c
  {}

  /** When nothing changed in the city, skipping the publication is right. */
  lemma SkippedPublication(w: World, s: Store, c: CityId, at: Time)
    requires |ChangedKeys(s.scores, Rescored(w, s.reviews, s.scores, CityKeys(w, c), at), CityKeys(w, c))| == 0
    ensures var scores' := Rescored(w, s.reviews, s.scores, CityKeys(w, c), at);
            && (forall d: DriverId :: Ranking3(scores', DriverKey(c, d)) == Ranking3(s.scores, DriverKey(c, d)))
            && (forall k: DriverKey :: k in scores' && k.city == c ==> k in s.scores)
  {
    hide Recalculated;
    var keys := CityKeys(w, c);
    var scores' := Rescored(w, s.reviews, s.scores, keys, at);
    forall k | k in keys ensures Ranking3(s.scores, k) == Ranking3(scores', k) {
      assert k !in ChangedKeys(s.scores, scores', keys);
    }
  }

  lemma SameGenerationsAgree(w: World, s: Store, s': Store, c: CityId)
    requires Agrees(w, s, c)
    requires SamePublished(s.generations, s'.generations) && AllEvolve(s.generations, s'.generations)
    requires s'.scores == s.scores
    ensures Agrees(w, s', c)
  {
    hide LiveBoard, Agrees;
    SamePublishedFrame(s.generations, s'.generations, c);
    assert forall g: GenerationId :: g < |s.generations| ==> Evolves(s.generations[g], s'.generations[g]);
    SameCityAgrees(w, s, s', c);
  }

  /** The installed rows are the candidates, and no others. */
  lemma InstalledHere(scores: map<DriverKey, Score>, job: Job)
    ensures forall d: DriverId :: Ranking3(Rebuild.Installed(scores, job), DriverKey(job.city, d))
                                  == if d in job.scores then Some(job.scores[d]) else None
  {
    forall d: DriverId
      ensures Ranking3(Rebuild.Installed(scores, job), DriverKey(job.city, d)) == if d in job.scores then Some(job.scores[d]) else None
    {
      assert DriverKey(job.city, d) in Rebuild.Installed(scores, job) <==> d in job.scores;
    }
  }

  lemma InstalledBoardIsCandidateBoard(w: World, scores: map<DriverKey, Score>, job: Job)
    ensures LiveBoard(w, Rebuild.Installed(scores, job), job.city) == CandidateBoard(w, job.scores)
  {
    hide Rebuild.Installed, Board, Ranking3;
    InstalledHere(scores, job);
    RankingsAgree(w, Rebuild.Installed(scores, job), job.scores, job.city, |w.drivers|);
  }

  /** Installing a rebuild promotes a board that was ranked from the very scores it installs. */
  lemma InstalledCityAgrees(w: World, s: Store, j: JobId, now: Time)
    requires ValidGenerations(s.generations) && ValidJobs(w, s.generations, s.jobs)
    requires PublishRebuild(w, s, j, now).reply.JobDone?
    ensures Agrees(w, PublishRebuild(w, s, j, now).store, s.jobs[j].city)
  {
    hide PublishRebuild, ValidJobs, AllEvolve, ValidGenerations, LiveBoard, CandidateBoard, Rebuild.Installed;
    PublicationShape(w, s, j, now);
    var job, s' := s.jobs[j], PublishRebuild(w, s, j, now).store;
    JobsAreValid(w, s.generations, s.jobs, j);
    PromoteIsSound(s.generations, job.base, job.candidate.value, job.city, now);
    InstalledBoardIsCandidateBoard(w, s.scores, job);
  }

  lemma InstallAgrees(w: World, s: Store, j: JobId, now: Time, c: CityId)
    requires ValidGenerations(s.generations) && ValidJobs(w, s.generations, s.jobs)
    requires PublishRebuild(w, s, j, now).reply.JobDone?
    requires Agrees(w, s, c) || s.jobs[j].city == c
    ensures Agrees(w, PublishRebuild(w, s, j, now).store, c)
  {
    hide PublishRebuild, ValidGenerations, ValidJobs, Agrees, Rebuild.Installed, CandidateBoard, Ranking3;
    PublicationShape(w, s, j, now);
    JobsAreValid(w, s.generations, s.jobs, j);
    var job := s.jobs[j];
    if c == job.city {
      InstalledCityAgrees(w, s, j, now);
    } else {
      PromoteFrame(s.generations, job.base, job.candidate.value, job.city, c, now);
      InstalledElsewhere(s, job, c);
      SameCityAgrees(w, s, PublishRebuild(w, s, j, now).store, c);
    }
  }

  lemma InstalledElsewhere(s: Store, job: Job, c: CityId)
    requires c != job.city
    ensures forall d: DriverId :: Ranking3(Rebuild.Installed(s.scores, job), DriverKey(c, d)) == Ranking3(s.scores, DriverKey(c, d))
    ensures forall k: DriverKey :: k in Rebuild.Installed(s.scores, job) && k.city == c ==> k in s.scores
  {}

  lemma InstallingAgrees(w: World, s: Store, j: JobId, now: Time, c: CityId)
    requires Structured(w, s)
    requires Agrees(w, s, c) || PublishesIn(w, s, Install(j, now), c)
    ensures Agrees(w, PublishRebuild(w, s, j, now).store, c)
  {
    hide Agrees, ValidGenerations, ValidJobs;
    if PublishRebuild(w, s, j, now).reply.JobDone? {
      InstallAgrees(w, s, j, now, c);
    }
  }

  lemma RescoreAgrees(w: World, s: Store, p: CityId, at: Time, c: CityId)
    requires c != p && Agrees(w, s, c)
    ensures Agrees(w, RescoreCity(w, s, p, at), c)
  {
    hide Agrees, Recalculated;
    SameCityAgrees(w, s, RescoreCity(w, s, p, at), c);
  }

  lemma WriteAgrees(w: World, s: Store, request: Request, key: Key, now: Time, c: CityId)
    requires Structured(w, s) && Agrees(w, s, c)
    ensures Agrees(w, Submit(w, s, request, key, now).store, c)
  {
    WriteKeepsStructure(w, s, request, key, now);
    hide Structured, Submit, NotifiesIffChanged, IntendedContribution, LiveBoard, ValidReviews, AllExtend, Succeeds;
  }

  /**
   Only the city score rebuild, which commits without publishing, can part a city's board
   from its scores; and every publication of the city brings them together again, whatever
   they were before.
   */
  lemma StepAgrees(w: World, s: Store, a: Action, c: CityId)
    requires Structured(w, s)
    requires (Agrees(w, s, c) && !RescoresBarely(a, c)) || PublishesIn(w, s, a, c)
    ensures Agrees(w, Step(w, s, a), c)
  {
    hide Structured, Agrees, Submit, ProcessBatch, RunExpiration, StartRebuild, PublishRebuild, DiscardRebuild, AllEvolve, SamePublished,
         Claimable, AffectedCities, ExpirationPublishes;
    match a
    case Write(request, key, now) => WriteAgrees(w, s, request, key, now, c);
    case Work(claimed, availableAt, at) =>
      if Claimable(s.events, claimed, availableAt) {
        WorkAgrees(w, s, claimed, availableAt, at, c);
      }
    case ReportFailure(failed, error, failedAt) =>
      NothingStaged(s.generations);
      EvolutionIsReflexive(s.generations);
      SameGenerationsAgree(w, s, Step(w, s, a), c);
    case Expire(city, effectiveAt) => ExpireAgrees(w, s, city, effectiveAt, c);
    case Stage(city, calculatedAt, now) => StagingAgrees(w, s, city, calculatedAt, now, c);
    case Install(job, now) => InstallingAgrees(w, s, job, now, c);
    case Discard(job, now) => DiscardingAgrees(w, s, job, now, c);
    case Rescore(city, at) => RescoreAgrees(w, s, city, at, c);
    case Republish(city, at) => RepublishAgrees(w, s, city, at, c);
  }

  lemma StagingAgrees(w: World, s: Store, p: CityId, at: Time, now: Time, c: CityId)
    requires Structured(w, s) && Agrees(w, s, c)
    ensures Agrees(w, StartRebuild(w, s, p, at, now).store, c)
  {
    hide Structured, Agrees, AllEvolve, SamePublished, NewJob, CandidateGeneration, HasActive;
    StageKeepsStructure(w, s, p, at, now);
    SameGenerationsAgree(w, s, StartRebuild(w, s, p, at, now).store, c);
  }

  lemma DiscardingAgrees(w: World, s: Store, j: JobId, now: Time, c: CityId)
    requires Structured(w, s) && Agrees(w, s, c)
    ensures Agrees(w, DiscardRebuild(s, j, now).store, c)
  {
    hide Structured, Agrees, AllEvolve, SamePublished, Drop;
    DiscardKeepsStructure(w, s, j, now);
    SameGenerationsAgree(w, s, DiscardRebuild(s, j, now).store, c);
  }

  lemma RepublishAgrees(w: World, s: Store, p: CityId, at: Time, c: CityId)
    requires Structured(w, s)
    requires Agrees(w, s, c) || (c == p && c in w.cities)
    ensures Agrees(w, PublishCity(w, s, p, at), c)
  {
    assert ValidGenerations(s.generations);
    hide Structured, Agrees, ValidGenerations, Publish;
    if p in w.cities {
      PublishAgrees(w, s, PublishCity(w, s, p, at), p, at, c);
    }
  }

  /**
   From any state in which a city agrees, and also from any publication of the city on, its
   published board is the ranking of its live scores until the next bare score rebuild of
   that city.
   */
  lemma {:induction false} RunAgrees(w: World, s: Store, actions: seq<Action>, m: nat, n: nat, c: CityId)
    requires m <= n <= |actions| && Structured(w, s)
    requires Agrees(w, Run(w, s, actions, m), c) || (m < n && PublishesIn(w, Run(w, s, actions, m), actions[m], c))
    requires forall i :: m <= i < n ==> !RescoresBarely(actions[i], c)
    ensures Agrees(w, Run(w, s, actions, n), c)
    decreases n
  {
    hide Structured, Agrees, Step, PublishesIn;
    if m < n {
      if n > m + 1 || Agrees(w, Run(w, s, actions, m), c) {
        RunAgrees(w, s, actions, m, n - 1, c);
      }
      RunKeepsStructure(w, s, actions, n - 1, n - 1);
      StepAgrees(w, Run(w, s, actions, n - 1), actions[n - 1], c);
    }
  }

  /** The same counted from the last bare rescore of the city. */
  lemma {:induction false} PublishedSinceRescoreAgrees(w: World, s: Store, actions: seq<Action>, n: nat, c: CityId)
    requires n <= |actions| && Structured(w, s) && Agrees(w, s, c)
    requires PublishedSinceRescore(w, s, actions, n, c)
    ensures Agrees(w, Run(w, s, actions, n), c)
  {
    hide Structured, Agrees, Step, PublishesIn, RescoresBarely;
    if n > 0 {
      if !PublishesIn(w, Run(w, s, actions, n - 1), actions[n - 1], c) {
        PublishedSinceRescoreAgrees(w, s, actions, n - 1, c);
      }
      RunKeepsStructure(w, s, actions, n - 1, n - 1);
      StepAgrees(w, Run(w, s, actions, n - 1), actions[n - 1], c);
    }
  }

  /** A city that was never rescored without publishing needs no publication to catch up. */
  lemma {:induction false} NeverRescoredBarely(w: World, s: Store, actions: seq<Action>, n: nat, c: CityId)
    requires n <= |actions|
    requires forall i :: 0 <= i < n ==> !RescoresBarely(actions[i], c)
    ensures PublishedSinceRescore(w, s, actions, n, c)
  {
    hide PublishesIn, Run;
    if n > 0 {
      NeverRescoredBarely(w, s, actions, n - 1, c);
    }
  }

  /**
   In every reachable state, a city that has been published since its last bare rescore
   shows exactly the ranking of its live scores.
   */
  lemma EveryReachableBoardAgrees(w: World, actions: seq<Action>, n: nat, c: CityId)
    requires n <= |actions| && PublishedSinceRescore(w, EMPTY, actions, n, c)
    ensures var s := Run(w, EMPTY, actions, n);
            match PublishedOf(s.generations, c)
            case Some(g) => s.generations[g].entries == Board(LiveRows(w, s.scores, c, |w.drivers|))
            case None => forall k :: k in s.scores ==> k.city != c
  {
    hide Step, Board, PublishedSinceRescore;
    EmptyIsStructured(w);
    PublishedSinceRescoreAgrees(w, EMPTY, actions, n, c);
  }

  // ---------- the rebuild that does not publish ----------

  lemma RescoredRowsOf(w: World, s: Store, c: CityId, at: Time)
    ensures (forall k :: k in RescoreCity(w, s, c, at).scores ==> k.city != c)
       <==> CityDrivers(w, c) == []
  {
    hide Recalculated;
    var scores := RescoreCity(w, s, c, at).scores;
    if CityDrivers(w, c) != [] {
      var d := CityDrivers(w, c)[0];
      assert d in CityDrivers(w, c);
      assert DriverKey(c, d) in scores;
    } else {
      assert CityKeys(w, c) == {};
    }
  }

  /** The rows a bare rescore leaves are those a rebuild staged at the same time would hold. */
  lemma RescoredBoardIsCandidateBoard(w: World, s: Store, c: CityId, at: Time)
    ensures LiveBoard(w, RescoreCity(w, s, c, at).scores, c) == CandidateBoard(w, CandidateScores(w, s.reviews, c, CityDrivers(w, c), at))
  {
    hide Board, Aggregate;
    var scores, candidates := RescoreCity(w, s, c, at).scores, CandidateScores(w, s.reviews, c, CityDrivers(w, c), at);
    forall d: DriverId | d < |w.drivers|
      ensures Ranking3(scores, DriverKey(c, d)) == if d in candidates then Some(candidates[d]) else None
    {
      assert DriverKey(c, d) in CityKeys(w, c) <==> d in CityDrivers(w, c);
    }
    RankingsAgree(w, scores, candidates, c, |w.drivers|);
  }

  /**
   Rebuilding a city's scores without publishing leaves board and scores in agreement if and
   only if the published board is the one that a rebuild staged at that time would rank from
   the reviews; without a publication, if and only if the city has no driver.
   */
  lemma BareRescoreAgreesIff(w: World, s: Store, c: CityId, at: Time)
    ensures Agrees(w, RescoreCity(w, s, c, at), c)
       <==> (match PublishedOf(s.generations, c)
             case Some(g) => s.generations[g].entries == CandidateBoard(w, CandidateScores(w, s.reviews, c, CityDrivers(w, c), at))
             case None => CityDrivers(w, c) == [])
  {
    RescoredRowsOf(w, s, c, at);
    RescoredBoardIsCandidateBoard(w, s, c, at);
    hide LiveBoard, CandidateBoard, CandidateScores, Rescored, CityDrivers;
  }

  /** Followed by a publication it always restores the agreement. */
  lemma RescoreThenPublishAgrees(w: World, s: Store, c: CityId, at: Time)
    requires Structured(w, s) && c in w.cities
    ensures Agrees(w, PublishCity(w, RescoreCity(w, s, c, at), c, at), c)
  {
    hide Structured, Agrees;
    RescoreKeepsStructure(w, s, c, at);
    StepAgrees(w, RescoreCity(w, s, c, at), Republish(c, at), c);
  }
}
