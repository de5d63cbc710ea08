/** Staged rebuilds: a snapshot taken once, compared, and later installed or dropped. */
module Rebuild {
  import opened Tables
  import opened Scoring
  import opened Leaderboard

  datatype JobReply = JobDone(job: JobId) | JobRefused(error: Error)

  datatype JobOutcome = JobOutcome(store: Store, reply: JobReply)

  function CandidateOf(w: World, rt: Reviews, k: DriverKey, at: Time): CandidateScore {
    var t := Aggregate(w, rt, k, at - WINDOW, at);
    CandidateScore(t.sum, t.count, t.count >= ELIGIBILITY_REVIEW_COUNT)
  }

  /** Scores of the first `n` listed drivers of the city, recomputed from the reviews. */
  function CandidateScores(w: World, rt: Reviews, c: CityId, ds: seq<DriverId>, at: Time): map<DriverId, CandidateScore> {
    map d | d in ds :: CandidateOf(w, rt, DriverKey(c, d), at)
  }

  predicate IsActive(j: Job) {
    j.status == Running || j.status == Ready
  }

  predicate HasActive(jobs: seq<Job>, c: CityId) {
    exists i :: 0 <= i < |jobs| && jobs[i].city == c && IsActive(jobs[i])
  }

  // ---------- comparison ----------

  function ByDriver(entries: seq<Entry>, n: nat): map<DriverId, Entry>
    requires n <= |entries|
  {
    if n == 0 then map[] else ByDriver(entries, n - 1)[entries[n - 1].driver := entries[n - 1]]
  }

  function Moved(base: map<DriverId, Entry>, candidate: map<DriverId, Entry>): set<DriverId> {
    set d | d in base && d in candidate && base[d].rank != candidate[d].rank
  }

  function Rescaled(base: map<DriverId, Entry>, candidate: map<DriverId, Entry>): set<DriverId> {
    set d | d in base && d in candidate
            && (base[d].sum != candidate[d].sum || base[d].count != candidate[d].count)
  }

  function Mismatched(live: map<DriverKey, Score>, candidates: map<DriverId, CandidateScore>, c: CityId): set<DriverId> {
    set d | d in candidates && Ranking3(live, DriverKey(c, d)) != Some(candidates[d])
  }

  function Compare(live: map<DriverKey, Score>, baseEntries: seq<Entry>, candidateEntries: seq<Entry>,
                   candidates: map<DriverId, CandidateScore>, c: CityId): Summary {
    var base, candidate := ByDriver(baseEntries, |baseEntries|), ByDriver(candidateEntries, |candidateEntries|);
    Summary(|candidate.Keys - base.Keys|, |base.Keys - candidate.Keys|,
            |Moved(base, candidate)|, |Rescaled(base, candidate)|,
            |Mismatched(live, candidates, c)|, |candidates|, |candidate|)
  }

  // ---------- start ----------

  function CandidateGeneration(w: World, gens: seq<Generation>, c: CityId, scores: map<DriverId, CandidateScore>, at: Time): Generation {
    Generation(c, MaxVersion(gens, c, |gens|) + 1, Candidate, CandidateBoard(w, scores), Some(at), None)
  }

  function NewJob(w: World, s: Store, c: CityId, base: GenerationId, at: Time, now: Time): Job
    requires base < |s.generations|
  {
    var scores := CandidateScores(w, s.reviews, c, CityDrivers(w, c), at);
    var candidate := CandidateGeneration(w, s.generations, c, scores, at);
    Job(c, Ready, at, base, Some(|s.generations|), scores,
        Some(Compare(s.scores, s.generations[base].entries, candidate.entries, scores, c)), Some(now))
  }

  function StartRebuild(w: World, s: Store, c: CityId, at: Time, now: Time): JobOutcome {
    if c !in w.cities then JobOutcome(s, JobRefused(CityNotFound))
    else match PublishedOf(s.generations, c)
      case None => JobOutcome(s, JobRefused(RebuildRefused))
      case Some(base) =>
        if HasActive(s.jobs, c) then JobOutcome(s, JobRefused(ConstraintViolation))
        else
          var job := NewJob(w, s, c, base, at, now);
          JobOutcome(s.(generations := s.generations + [CandidateGeneration(w, s.generations, c, job.scores, at)],
                        jobs := s.jobs + [job]),
                     JobDone(|s.jobs|))
  }

  // ---------- publish ----------

  function InstalledScore(c: CandidateScore, at: Time): Score {
    Score(c.sum, c.count, c.eligible, at - WINDOW, at)
  }

  function Installed(scores: map<DriverKey, Score>, job: Job): map<DriverKey, Score> {
    map k | k in WithoutCity(scores, job.city).Keys + KeyedBy(job.city, job.scores.Keys) ::
      if k.city == job.city then InstalledScore(job.scores[k.driver], job.calculatedAt) else scores[k]
  }

  function KeyedBy(c: CityId, ds: set<DriverId>): set<DriverKey> {
    set d | d in ds :: DriverKey(c, d)
  }

  /** The installing step of a job whose checks have passed. */
  function Promote(gens: seq<Generation>, current: GenerationId, candidate: GenerationId, now: Time): seq<Generation>
    requires current < |gens| && candidate < |gens|
  {
    gens[current := gens[current].(status := Superseded)]
        [candidate := gens[candidate].(status := Published, publishedAt := Some(now))]
  }

  function PublishRebuild(w: World, s: Store, j: JobId, now: Time): JobOutcome {
    if j >= |s.jobs| then JobOutcome(s, JobRefused(RebuildNotFound))
    else
      var job := s.jobs[j];
      if job.status != Ready then JobOutcome(s, JobRefused(RebuildRefused))
      else if job.city !in w.cities then JobOutcome(s, JobRefused(CityNotFound))
      else match PublishedOf(s.generations, job.city)
        case None => JobOutcome(s, JobRefused(LeaderboardNotFound))
        case Some(current) =>
          if current != job.base then JobOutcome(s, JobRefused(RebuildRefused))
          else if job.candidate.None? || job.candidate.value >= |s.generations|
                  || s.generations[job.candidate.value].status != Candidate
          then JobOutcome(s, JobRefused(RebuildRefused))
          else JobOutcome(s.(scores := Installed(s.scores, job),
                             generations := Promote(s.generations, current, job.candidate.value, now),
                             jobs := s.jobs[j := job.(status := JobStatus.Installed, completedAt := Some(now))]),
                          JobDone(j))
  }

  /** What a successful publication found and did. */
  lemma PublicationShape(w: World, s: Store, j: JobId, now: Time)
    requires PublishRebuild(w, s, j, now).reply.JobDone?
    ensures j < |s.jobs| && s.jobs[j].status == Ready
    ensures var job := s.jobs[j];
            && IsPublished(s.generations, job.base, job.city) && PublishedOf(s.generations, job.city) == Some(job.base)
            && job.candidate.Some? && job.candidate.value < |s.generations|
            && PublishRebuild(w, s, j, now).store ==
                 s.(scores := Installed(s.scores, job),
                    generations := Promote(s.generations, job.base, job.candidate.value, now),
                    jobs := s.jobs[j := job.(status := JobStatus.Installed, completedAt := Some(now))])
  {}

  // ---------- discard ----------

  function Drop(gens: seq<Generation>, candidate: Option<GenerationId>): seq<Generation> {
    if candidate.Some? && candidate.value < |gens|
    then gens[candidate.value := gens[candidate.value].(status := Discarded)] else gens
  }

  function DiscardRebuild(s: Store, j: JobId, now: Time): JobOutcome {
    if j >= |s.jobs| then JobOutcome(s, JobRefused(RebuildNotFound))
    else
      var job := s.jobs[j];
      if job.status != Ready then JobOutcome(s, JobRefused(RebuildRefused))
      else JobOutcome(s.(generations := Drop(s.generations, job.candidate),
                         jobs := s.jobs[j := job.(status := Dropped, completedAt := Some(now))]),
                      JobDone(j))
  }

  // ---------- what the comparison means ----------

  /** Ranks 1..n and no driver twice, as every built board has. */
  ghost predicate IsBoard(entries: seq<Entry>) {
    && (forall i :: 0 <= i < |entries| ==> entries[i].rank == i + 1)
    && (forall i, j :: 0 <= i < j < |entries| ==> entries[i].driver != entries[j].driver)
  }

  lemma {:induction false} ByDriverFinds(entries: seq<Entry>, n: nat)
    requires n <= |entries| && IsBoard(entries)
    ensures forall i :: 0 <= i < n ==> entries[i].driver in ByDriver(entries, n)
                                       && ByDriver(entries, n)[entries[i].driver] == entries[i]
    ensures forall d :: d in ByDriver(entries, n) ==> exists i :: 0 <= i < n && entries[i].driver == d
    ensures |ByDriver(entries, n)| == n
  {
    if n > 0 {
      ByDriverFinds(entries, n - 1);
    }
  }

  lemma SameIndexSameBoard(a: seq<Entry>, b: seq<Entry>)
    requires IsBoard(a) && IsBoard(b)
    requires ByDriver(a, |a|) == ByDriver(b, |b|)
    ensures a == b
  {
    hide ByDriver;
    ByDriverFinds(a, |a|);
    ByDriverFinds(b, |b|);
    forall i | 0 <= i < |a| ensures a[i] == b[i] {
      var j :| 0 <= j < |b| && b[j].driver == a[i].driver;
    }
  }

  /** The published board and the candidate are equal exactly when the comparison counts no change. */
  lemma NoChangesMeansSameBoard(live: map<DriverKey, Score>, a: seq<Entry>, b: seq<Entry>,
                                candidates: map<DriverId, CandidateScore>, c: CityId)
    requires IsBoard(a) && IsBoard(b)
    ensures var m := Compare(live, a, b, candidates, c);
            && (m.entriesAdded == m.entriesRemoved == m.rankChanges == m.scoreChanges == 0 <==> a == b)
            && |b| + m.entriesRemoved == |a| + m.entriesAdded
            && m.candidateEntries == |b|
  {
    hide IsBoard, ByDriver, Moved, Rescaled;
    var base, candidate := ByDriver(a, |a|), ByDriver(b, |b|);
    var m := Compare(live, a, b, candidates, c);
    BoardSize(a);
    BoardSize(b);
    SplitSizes(base, candidate);
    if m.entriesAdded == m.entriesRemoved == m.rankChanges == m.scoreChanges == 0 {
      assert candidate.Keys - base.Keys == {} && base.Keys - candidate.Keys == {};
      NoChangesMeansSameIndex(a, b);
      SameIndexSameBoard(a, b);
    }
    if a == b {
      assert candidate.Keys - base.Keys == {};
      NothingMoved(base);
    }
  }

  lemma BoardSize(a: seq<Entry>)
    requires IsBoard(a)
    ensures |ByDriver(a, |a|)| == |ByDriver(a, |a|).Keys| == |a|
  {
    ByDriverFinds(a, |a|);
  }

  lemma SplitSizes(base: map<DriverId, Entry>, candidate: map<DriverId, Entry>)
    ensures |base.Keys| + |candidate.Keys - base.Keys| == |candidate.Keys| + |base.Keys - candidate.Keys|
  {
    assert base.Keys == (base.Keys - candidate.Keys) + (base.Keys * candidate.Keys);
    assert candidate.Keys == (candidate.Keys - base.Keys) + (base.Keys * candidate.Keys);
  }

  lemma NothingMoved(base: map<DriverId, Entry>)
    ensures |Moved(base, base)| == 0 && |Rescaled(base, base)| == 0
  {
    assert Moved(base, base) == {} && Rescaled(base, base) == {};
  }

  lemma NoChangesMeansSameIndex(a: seq<Entry>, b: seq<Entry>)
    requires IsBoard(a) && IsBoard(b)
    requires ByDriver(a, |a|).Keys == ByDriver(b, |b|).Keys
    requires |Moved(ByDriver(a, |a|), ByDriver(b, |b|))| == 0
    requires |Rescaled(ByDriver(a, |a|), ByDriver(b, |b|))| == 0
    ensures ByDriver(a, |a|) == ByDriver(b, |b|)
  {
    var base, candidate := ByDriver(a, |a|), ByDriver(b, |b|);
    ByDriverFinds(a, |a|);
    ByDriverFinds(b, |b|);
    forall d | d in base ensures base[d] == candidate[d] {
      assert d !in Moved(base, candidate) && d !in Rescaled(base, candidate);
    }
  }

  /** No mismatch is counted exactly when every candidate equals the live row of its driver. */
  lemma NoMismatchMeansLiveAgrees(live: map<DriverKey, Score>, a: seq<Entry>, b: seq<Entry>,
                                  candidates: map<DriverId, CandidateScore>, c: CityId)
    ensures Compare(live, a, b, candidates, c).liveMismatches == 0
       <==> forall d :: d in candidates ==> Ranking3(live, DriverKey(c, d)) == Some(candidates[d])
  {
    var bad := Mismatched(live, candidates, c);
    if forall d :: d in candidates ==> Ranking3(live, DriverKey(c, d)) == Some(candidates[d]) {
      assert bad == {};
    } else {
      var d :| d in candidates && Ranking3(live, DriverKey(c, d)) != Some(candidates[d]);
      assert d in bad;
    }
  }

  function DriversOn(entries: seq<Entry>): set<DriverId> {
    set e | e in entries :: e.driver
  }

  /** The driver is on both boards, at different ranks. */
  ghost predicate ChangesRank(a: seq<Entry>, b: seq<Entry>, d: DriverId) {
    exists i, j :: 0 <= i < |a| && 0 <= j < |b| && a[i].driver == d && b[j].driver == d && a[i].rank != b[j].rank
  }

  /** The driver is on both boards, with a different sum or count. */
  ghost predicate ChangesScore(a: seq<Entry>, b: seq<Entry>, d: DriverId) {
    exists i, j :: 0 <= i < |a| && 0 <= j < |b| && a[i].driver == d && b[j].driver == d && (a[i].sum != b[j].sum || a[i].count != b[j].count)
  }

  lemma IndexDrivers(entries: seq<Entry>)
    requires IsBoard(entries)
    ensures ByDriver(entries, |entries|).Keys == DriversOn(entries)
    ensures forall i :: 0 <= i < |entries| ==> entries[i].driver in ByDriver(entries, |entries|)
                                               && ByDriver(entries, |entries|)[entries[i].driver] == entries[i]
  {
    ByDriverFinds(entries, |entries|);
    hide ByDriver;
    forall d | d in ByDriver(entries, |entries|) ensures d in DriversOn(entries) {
      var i :| 0 <= i < |entries| && entries[i].driver == d;
      assert entries[i] in entries;
    }
  }

  lemma MovedAreChanges(a: seq<Entry>, b: seq<Entry>, d: DriverId)
    requires IsBoard(a) && IsBoard(b)
    ensures var base, candidate := ByDriver(a, |a|), ByDriver(b, |b|);
            && (d in base && d in candidate && base[d].rank != candidate[d].rank <==> ChangesRank(a, b, d))
            && (d in base && d in candidate && (base[d].sum != candidate[d].sum || base[d].count != candidate[d].count) <==> ChangesScore(a, b, d))
  {
    hide ByDriver, ChangesRank, ChangesScore;
    IndexDrivers(a);
    IndexDrivers(b);
    if d in DriversOn(a) && d in DriversOn(b) {
      var i :| 0 <= i < |a| && a[i].driver == d;
      var j :| 0 <= j < |b| && b[j].driver == d;
      ChangesOf(a, b, d, i, j);
    } else {
      ChangesNothing(a, b, d);
    }
  }

  lemma ChangesOf(a: seq<Entry>, b: seq<Entry>, d: DriverId, i: nat, j: nat)
    requires IsBoard(a) && IsBoard(b) && i < |a| && j < |b| && a[i].driver == d && b[j].driver == d
    ensures ChangesRank(a, b, d) <==> a[i].rank != b[j].rank
    ensures ChangesScore(a, b, d) <==> a[i].sum != b[j].sum || a[i].count != b[j].count
  {}

  lemma ChangesNothing(a: seq<Entry>, b: seq<Entry>, d: DriverId)
    requires d !in DriversOn(a) || d !in DriversOn(b)
    ensures !ChangesRank(a, b, d) && !ChangesScore(a, b, d)
  {
    assert forall i :: 0 <= i < |a| ==> a[i] in a;
    assert forall i :: 0 <= i < |b| ==> b[i] in b;
  }

  /**
   The comparison, field by field, from the two boards, the candidates and the live rows:
   drivers who enter, leave, change rank, or change sum or count; candidates whose live row
   is missing or different; and the two sizes.
   */
  lemma SummaryCountsChanges(live: map<DriverKey, Score>, a: seq<Entry>, b: seq<Entry>, candidates: map<DriverId, CandidateScore>, c: CityId)
    requires IsBoard(a) && IsBoard(b)
    ensures var m := Compare(live, a, b, candidates, c);
            && m.entriesAdded == |DriversOn(b) - DriversOn(a)|
            && m.entriesRemoved == |DriversOn(a) - DriversOn(b)|
            && m.rankChanges == |set d | d in DriversOn(a) && ChangesRank(a, b, d)|
            && m.scoreChanges == |set d | d in DriversOn(a) && ChangesScore(a, b, d)|
            && m.liveMismatches == |set d | d in candidates && !LiveRowIs(live, DriverKey(c, d), candidates[d])|
            && m.candidateDrivers == |candidates.Keys|
            && m.candidateEntries == |b|
  {
    hide ByDriver, IsBoard, ChangesRank, ChangesScore;
    var base, candidate := ByDriver(a, |a|), ByDriver(b, |b|);
    IndexDrivers(a);
    IndexDrivers(b);
    BoardSize(b);
    forall d ensures d in Moved(base, candidate) <==> d in DriversOn(a) && ChangesRank(a, b, d)
      ensures d in Rescaled(base, candidate) <==> d in DriversOn(a) && ChangesScore(a, b, d)
    {
      MovedAreChanges(a, b, d);
    }
    assert Moved(base, candidate) == set d | d in DriversOn(a) && ChangesRank(a, b, d);
    assert Rescaled(base, candidate) == set d | d in DriversOn(a) && ChangesScore(a, b, d);
    assert Mismatched(live, candidates, c) == set d | d in candidates && !LiveRowIs(live, DriverKey(c, d), candidates[d]);
  }

  /** There is a live row with this sum, count and eligibility. */
  ghost predicate LiveRowIs(live: map<DriverKey, Score>, k: DriverKey, candidate: CandidateScore) {
    k in live && live[k].sum == candidate.sum && live[k].count == candidate.count && live[k].eligible == candidate.eligible
  }

  // ---------- generations under promotion ----------

  lemma StatusChangeKeepsVersions(gens: seq<Generation>, gens': seq<Generation>)
    requires VersionsCount(gens) && |gens'| == |gens|
    requires forall i :: 0 <= i < |gens| ==> gens'[i].city == gens[i].city && gens'[i].version == gens[i].version
    ensures VersionsCount(gens')
  {
    forall i | 0 <= i < |gens'| ensures gens'[i].version == CityCount(gens', gens'[i].city, i) + 1 {
      CityCountFrame(gens, gens', gens'[i].city, i);
    }
  }

  /** Promotion moves the city's publication to the candidate, which is newer than its base. */
  lemma PromoteIsSound(gens: seq<Generation>, current: GenerationId, candidate: GenerationId, c: CityId, now: Time)
    requires ValidGenerations(gens)
    requires IsPublished(gens, current, c)
    requires current < candidate < |gens| && gens[candidate].city == c && gens[candidate].status == Candidate
    ensures var gens' := Promote(gens, current, candidate, now);
            && ValidGenerations(gens') && AllEvolve(gens, gens')
            && PublishedOf(gens', c) == Some(candidate)
  {
    hide CityCount, VersionsCount, AllEvolve;
    var gens' := Promote(gens, current, candidate, now);
    StatusChangeKeepsVersions(gens, gens');
    PromoteEvolves(gens, current, candidate, c, now);
    PublishedIsUnique(gens', c, candidate);
  }

  /** Other cities keep their publication. */
  lemma PromoteFrame(gens: seq<Generation>, current: GenerationId, candidate: GenerationId, c: CityId, d: CityId, now: Time)
    requires current < |gens| && candidate < |gens| && gens[current].city == gens[candidate].city == c
    requires d != c
    ensures PublishedOf(Promote(gens, current, candidate, now), d) == PublishedOf(gens, d)
  {
    PublishedFrame(gens, Promote(gens, current, candidate, now), d, |gens|);
  }

  lemma PromoteEvolves(gens: seq<Generation>, current: GenerationId, candidate: GenerationId, c: CityId, now: Time)
    requires OnePublished(gens) && IsPublished(gens, current, c)
    requires current < candidate < |gens| && gens[candidate].city == c && gens[candidate].status == Candidate
    ensures OnePublished(Promote(gens, current, candidate, now))
    ensures AllEvolve(gens, Promote(gens, current, candidate, now))
  {
    var gens' := Promote(gens, current, candidate, now);
    forall i: nat, d | IsPublished(gens, i, d) ensures SomePublishedFrom(gens', i, d) {
      assert IsPublished(gens', if d == c then candidate else i, d);
    }
  }

  /** `gens'` has the same published rows as `gens`, and possibly more rows that are not published. */
  ghost predicate SamePublished(gens: seq<Generation>, gens': seq<Generation>) {
    && |gens| <= |gens'|
    && (forall i :: 0 <= i < |gens| ==> gens'[i].city == gens[i].city && (gens'[i].status == Published <==> gens[i].status == Published))
    && (forall i :: |gens| <= i < |gens'| ==> gens'[i].status != Published)
  }

  lemma SamePublishedFrame(gens: seq<Generation>, gens': seq<Generation>, c: CityId)
    requires SamePublished(gens, gens')
    ensures PublishedOf(gens', c) == PublishedOf(gens, c)
  {
    PublishedFrame(gens, gens', c, |gens|);
    SkipUnpublished(gens', c, |gens|, |gens'|);
  }

  lemma {:induction false} SkipUnpublished(gens: seq<Generation>, c: CityId, m: nat, n: nat)
    requires m <= n <= |gens|
    requires forall i :: m <= i < n ==> gens[i].status != Published
    ensures PublishedUpTo(gens, c, n) == PublishedUpTo(gens, c, m)
  {
    if m < n {
      SkipUnpublished(gens, c, m, n - 1);
    }
  }

  lemma SamePublishedEvolves(gens: seq<Generation>, gens': seq<Generation>)
    requires SamePublished(gens, gens')
    requires forall i :: 0 <= i < |gens| ==> Evolves(gens[i], gens'[i])
    ensures AllEvolve(gens, gens')
  {
    forall i: nat, d | IsPublished(gens, i, d) ensures SomePublishedFrom(gens', i, d) {
      assert IsPublished(gens', i, d);
    }
  }

  /** A candidate is appended with the next version and is not published. */
  lemma StagingIsSound(gens: seq<Generation>, g: Generation)
    requires ValidGenerations(gens)
    requires g.version == MaxVersion(gens, g.city, |gens|) + 1 && g.status == Candidate
    ensures ValidGenerations(gens + [g]) && AllEvolve(gens, gens + [g]) && SamePublished(gens, gens + [g])
  {
    hide CityCount, MaxVersion, VersionsCount;
    AppendKeepsVersions(gens, gens + [g], g);
    SamePublishedEvolves(gens, gens + [g]);
  }

  lemma DropIsSound(gens: seq<Generation>, candidate: Option<GenerationId>)
    requires ValidGenerations(gens)
    requires candidate.Some? && candidate.value < |gens| ==> gens[candidate.value].status == Candidate
    ensures ValidGenerations(Drop(gens, candidate)) && AllEvolve(gens, Drop(gens, candidate))
    ensures SamePublished(gens, Drop(gens, candidate))
  {
    hide CityCount, VersionsCount;
    StatusChangeKeepsVersions(gens, Drop(gens, candidate));
    SamePublishedEvolves(gens, Drop(gens, candidate));
  }
}
