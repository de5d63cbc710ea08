/** Rebuilding corrupted scores, and quiescence. */
module Recovery {
  import opened Tables
  import opened Scoring
  import opened Histories
  import opened Leaderboard
  import opened Outbox
  import opened Rebuild
  import opened System
  import opened Consistency
  import opened Agreement
  import opened Readable

  /** Every driver of the city, and nobody else, has a row, and it is the recalculation at `at`. */
  ghost predicate CityExactAt(w: World, s: Store, c: CityId, at: Time) {
    && (forall k :: k in CityKeys(w, c) ==> k in s.scores && s.scores[k] == Recalculated(w, s.reviews, k, at))
    && (forall k: DriverKey :: k in s.scores && k.city == c ==> k in CityKeys(w, c))
  }

  lemma SnapshotInstallsRecalculation(w: World, s: Store, scores: map<DriverKey, Score>, c: CityId, base: GenerationId, at: Time, now: Time)
    requires base < |s.generations|
    ensures CityExactAt(w, s.(scores := Rebuild.Installed(scores, NewJob(w, s, c, base, at, now))), c, at)
  {
    hide Aggregate, CandidateGeneration, Compare;
    var job := NewJob(w, s, c, base, at, now);
    forall k | k in CityKeys(w, c) ensures k in Rebuild.Installed(scores, job) && Rebuild.Installed(scores, job)[k] == Recalculated(w, s.reviews, k, at) {
      assert k.driver in job.scores;
    }
  }

  /**
   Self-healing: whatever is in the live score table, starting a rebuild and publishing it
   with nothing in between makes the city exact at the job's time and its board the ranking
   of those scores. Other cities keep their rows.
   */
  lemma RebuildHealsCity(w: World, s: Store, junk: map<DriverKey, Score>, c: CityId, at: Time, now: Time, later: Time)
    requires Structured(w, s) && c in w.cities
    requires PublishedOf(s.generations, c).Some? && !HasActive(s.jobs, c)
    ensures var staged := StartRebuild(w, s.(scores := junk), c, at, now);
            var o := PublishRebuild(w, staged.store, |s.jobs|, later);
            && staged.reply == JobDone(|s.jobs|) && o.reply == JobDone(|s.jobs|)
            && CityExactAt(w, o.store, c, at)
            && Agrees(w, o.store, c)
            && (forall k: DriverKey :: k.city != c ==> (k in o.store.scores <==> k in junk) && (k in junk ==> o.store.scores[k] == junk[k]))
  {
    hide Structured, CityExactAt, Agrees, NewJob, CandidateGeneration;
    var s0 := s.(scores := junk);
    assert Structured(w, s0) by { StructureIgnoresScores(w, s, junk); }
    var base := PublishedOf(s.generations, c).value;
    var staged := StartRebuild(w, s0, c, at, now).store;
    StageKeepsStructure(w, s0, c, at, now);
    StagedJobIsPublishable(w, s0, c, base, at, now, later);
    SnapshotInstallsRecalculation(w, s0, junk, c, base, at, now);
    PublicationShape(w, staged, |s.jobs|, later);
    InstalledCityAgreesIn(w, staged, |s.jobs|, later);
    OtherRowsKept(junk, staged.jobs[|s.jobs|]);
    CityExactFrame(w, s0.(scores := Rebuild.Installed(junk, NewJob(w, s0, c, base, at, now))),
                   PublishRebuild(w, staged, |s.jobs|, later).store, c, at);
  }

  /** The bare rescore of a city also makes every driver's row exact, and leaves other cities alone. */
  lemma RescoreMakesCityExact(w: World, s: Store, c: CityId, at: Time)
    ensures CityExactAt(w, RescoreCity(w, s, c, at), c, at)
    ensures forall k: DriverKey :: k.city != c ==>
              var s' := RescoreCity(w, s, c, at);
              (k in s'.scores <==> k in s.scores) && (k in s.scores ==> s'.scores[k] == s.scores[k])
  {
    hide Recalculated, CityDrivers;
  }

  /**
   When a bare rescore would leave the published board in agreement can be read off a rebuild
   staged at the same time: exactly when its comparison counts no added, removed, moved or
   rescored entry.
   */
  lemma BareRescoreAgreesIffNoChange(w: World, s: Store, c: CityId, at: Time, now: Time)
    requires Structured(w, s) && AllReadable(s.generations)
    requires StartRebuild(w, s, c, at, now).reply.JobDone?
    ensures |StartRebuild(w, s, c, at, now).store.jobs| == |s.jobs| + 1
    ensures var summary := StartRebuild(w, s, c, at, now).store.jobs[|s.jobs|].summary;
            && summary.Some?
            && (Agrees(w, RescoreCity(w, s, c, at), c)
                <==> summary.value.entriesAdded == summary.value.entriesRemoved == summary.value.rankChanges == summary.value.scoreChanges == 0)
  {
    hide Structured, CandidateBoard, CandidateScores, Compare, Agrees, RescoreCity, HasActive, PublishedUpTo, ReadableBoard, MaxVersion;
    var base := PublishedOf(s.generations, c).value;
    var candidates := CandidateScores(w, s.reviews, c, CityDrivers(w, c), at);
    var entries, ranked := s.generations[base].entries, CandidateBoard(w, candidates);
    BareRescoreAgreesIff(w, s, c, at);
    StagedBoardIsReadable(w, s, c, at, now);
    ReadableIsBoard(entries);
    ReadableIsBoard(ranked);
    NoChangesMeansSameBoard(s.scores, entries, ranked, candidates, c);
  }

  lemma StagedBoardIsReadable(w: World, s: Store, c: CityId, at: Time, now: Time)
    requires Structured(w, s) && StartRebuild(w, s, c, at, now).reply.JobDone?
    ensures ReadableBoard(CandidateBoard(w, CandidateScores(w, s.reviews, c, CityDrivers(w, c), at)))
  {
    hide ReadableBoard, CandidateBoard, Compare, MaxVersion, CandidateScores, ValidReviews, ValidOutbox, ValidGenerations, ValidJobs, ValidExpirations;
    StageKeepsStructure(w, s, c, at, now);
    var o := StartRebuild(w, s, c, at, now);
    JobsAreReadable(w, o.store.generations, o.store.jobs, |s.jobs|);
  }

  lemma ReadableIsBoard(es: seq<Entry>)
    requires ReadableBoard(es)
    ensures IsBoard(es)
  {}

  lemma StructureIgnoresScores(w: World, s: Store, junk: map<DriverKey, Score>)
    requires Structured(w, s)
    ensures Structured(w, s.(scores := junk))
  {}

  lemma StagedJobIsPublishable(w: World, s: Store, c: CityId, base: GenerationId, at: Time, now: Time, later: Time)
    requires c in w.cities && PublishedOf(s.generations, c) == Some(base) && !HasActive(s.jobs, c)
    ensures var staged := StartRebuild(w, s, c, at, now).store;
            && PublishRebuild(w, staged, |s.jobs|, later).reply == JobDone(|s.jobs|)
            && staged.jobs[|s.jobs|] == NewJob(w, s, c, base, at, now) && staged.jobs[|s.jobs|].city == c
            && staged.scores == s.scores && staged.reviews == s.reviews
  {
    hide Aggregate, Compare, CandidateBoard, MaxVersion, CandidateScores;
    var staged := StartRebuild(w, s, c, at, now).store;
    var g := staged.generations[|s.generations|];
    assert staged.generations == s.generations + [g];
    PublishedFrame(s.generations, staged.generations, c, |s.generations|);
  }

  lemma InstalledCityAgreesIn(w: World, s: Store, j: JobId, now: Time)
    requires Structured(w, s) && PublishRebuild(w, s, j, now).reply.JobDone?
    ensures j < |s.jobs| && Agrees(w, PublishRebuild(w, s, j, now).store, s.jobs[j].city)
  {
    hide ValidGenerations, ValidJobs, ValidReviews, ValidOutbox, ValidExpirations, PublishRebuild, Agrees;
    PublicationShape(w, s, j, now);
    InstalledCityAgrees(w, s, j, now);
  }

  lemma OtherRowsKept(scores: map<DriverKey, Score>, job: Job)
    ensures forall k: DriverKey :: k.city != job.city ==>
              (k in Rebuild.Installed(scores, job) <==> k in scores)
              && (k in scores ==> Rebuild.Installed(scores, job)[k] == scores[k])
  {}

  lemma CityExactFrame(w: World, s: Store, s': Store, c: CityId, at: Time)
    requires CityExactAt(w, s, c, at) && s'.reviews == s.reviews && s'.scores == s.scores
    ensures CityExactAt(w, s', c, at)
  {}

  // ---------- healing while everything else goes on ----------

  function CitiesOf(scores: map<DriverKey, Score>): set<CityId> {
    set k | k in scores :: k.city
  }

  /** Cities for which the first `n` transactions installed a rebuild. */
  function Healed(w: World, s: Store, actions: seq<Action>, n: nat): set<CityId>
    requires n <= |actions|
  {
    if n == 0 then {}
    else
      var rest, before := Healed(w, s, actions, n - 1), Run(w, s, actions, n - 1);
      match actions[n - 1]
      case Install(j, now) =>
        if PublishRebuild(w, before, j, now).reply.JobDone? && j < |before.jobs| then rest + {before.jobs[j].city} else rest
      case _ => rest
  }

  /**
   Corrupt the live scores in any way and let everything else continue in any order:
   every city whose rebuild is installed along the way is trusted again from then on.
   */
  lemma {:induction false} HealingUnderConcurrency(w: World, s: Store, junk: map<DriverKey, Score>, actions: seq<Action>, n: nat)
    requires n <= |actions| && Structured(w, s) && SnapshotsUsable(w, s)
    ensures var s0 := s.(scores := junk);
            Consistent(w, Run(w, s0, actions, n), CitiesOf(junk) - Healed(w, s0, actions, n))
  {
    hide Structured, Consistent, Step, PublishRebuild, SnapshotsUsable;
    var s0 := s.(scores := junk);
    StructureIgnoresScores(w, s, junk);
    if n == 0 {
      CorruptionIsDistrusted(w, s, junk);
      assert CitiesOf(junk) - {} == CitiesOf(junk);
    } else {
      HealingUnderConcurrency(w, s, junk, actions, n - 1);
      RunKeepsStructure(w, s0, actions, n - 1, n - 1);
      var before, x := Run(w, s0, actions, n - 1), CitiesOf(junk) - Healed(w, s0, actions, n - 1);
      StepKeepsConsistency(w, before, actions[n - 1], x);
      if actions[n - 1].Install? && PublishRebuild(w, before, actions[n - 1].job, actions[n - 1].now).reply.JobDone? {
        var j, now := actions[n - 1].job, actions[n - 1].now;
        InstallHealsCity(w, before, j, now, x);
        assert x - {before.jobs[j].city} == CitiesOf(junk) - (Healed(w, s0, actions, n - 1) + {before.jobs[j].city});
        InstallStep(w, before, j, now);
      }
    }
  }

  lemma InstallStep(w: World, s: Store, j: JobId, now: Time)
    ensures Step(w, s, Install(j, now)) == PublishRebuild(w, s, j, now).store
  {
    hide PublishRebuild;
  }

  lemma CorruptionIsDistrusted(w: World, s: Store, junk: map<DriverKey, Score>)
    requires SnapshotsUsable(w, s)
    ensures Consistent(w, s.(scores := junk), CitiesOf(junk))
  {
    hide Aggregate, Exact, CandidateExact;
    var s0 := s.(scores := junk);
    assert forall k :: k in junk ==> k.city in CitiesOf(junk);
    forall j | 0 <= j < |s0.jobs| ensures SnapshotUsable(w, s0, s0.jobs[j]) {
      assert SnapshotUsable(w, s, s.jobs[j]);
      KeepsSnapshot(w, s, s0, s.jobs[j]);
    }
  }

  // ---------- quiescence ----------

  /** No unledgered event has failed for good or is waiting for its retry time. */
  ghost predicate NothingStuck(s: Store, at: Time) {
    forall e :: 0 <= e < |s.events| && e !in s.ledger ==>
      s.events[e].status != Failed && !(s.events[e].status == Pending && s.events[e].nextAttemptAt > at)
  }

  /**
   Once nothing is due any more, no unledgered event is stuck exactly when every event has
   its ledger row, and then every existing score row is exact.
   */
  lemma DrainedMeansExact(w: World, s: Store, at: Time)
    requires Structured(w, s) && Consistent(w, s, {})
    requires forall e :: 0 <= e < |s.events| ==> !Due(s.events[e], at)
    ensures NothingStuck(s, at) <==> forall e :: 0 <= e < |s.events| ==> e in s.ledger
    ensures NothingStuck(s, at) ==> forall k :: k in s.scores ==> Exact(w, s.reviews, k, s.scores[k])
  {
    hide Aggregate, Exact, SnapshotsUsable;
    assert ValidOutbox(w, s.events, s.ledger);
    forall e | 0 <= e < |s.events| && e !in s.ledger
      ensures s.events[e].status == Failed || (s.events[e].status == Pending && s.events[e].nextAttemptAt > at)
    {
      assert ValidEvent(w, s.events[e], false);
    }
    if NothingStuck(s, at) {
      forall k | k in s.scores ensures Exact(w, s.reviews, k, s.scores[k]) {
        assert ExactOrAwaiting(w, s, k);
        assert forall e: EventId :: !Unprocessed(s, e, k);
      }
    }
  }
}
