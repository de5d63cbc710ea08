/** Versioned generations of a city's board. */
module Leaderboard {
  import opened Tables
  import opened Ranking

  // ---------- the ranking query over live scores ----------

  /** Eligible score rows of the city among the first `n` drivers. */
  function LiveRows(w: World, scores: map<DriverKey, Score>, c: CityId, n: nat): (rows: seq<Row>)
    requires n <= |w.drivers|
    ensures forall i :: 0 <= i < |rows| ==> rows[i].driver < n && rows[i].stableId == w.drivers[rows[i].driver].stableId
    ensures DistinctDrivers(rows)
  {
    if n == 0 then []
    else
      var rest, k := LiveRows(w, scores, c, n - 1), DriverKey(c, n - 1);
      if k in scores && scores[k].eligible
      then rest + [Row(n - 1, w.drivers[n - 1].stableId, scores[k].sum, scores[k].count)]
      else rest
  }

  function LiveBoard(w: World, scores: map<DriverKey, Score>, c: CityId): seq<Entry> {
    Board(LiveRows(w, scores, c, |w.drivers|))
  }

  // ---------- the ranking query over candidate scores ----------

  function CandidateRows(w: World, scores: map<DriverId, CandidateScore>, n: nat): (rows: seq<Row>)
    requires n <= |w.drivers|
    ensures forall i :: 0 <= i < |rows| ==> rows[i].driver < n && rows[i].stableId == w.drivers[rows[i].driver].stableId
    ensures DistinctDrivers(rows)
  {
    if n == 0 then []
    else
      var rest := CandidateRows(w, scores, n - 1);
      if n - 1 in scores && scores[n - 1].eligible
      then rest + [Row(n - 1, w.drivers[n - 1].stableId, scores[n - 1].sum, scores[n - 1].count)]
      else rest
  }

  function CandidateBoard(w: World, scores: map<DriverId, CandidateScore>): seq<Entry> {
    Board(CandidateRows(w, scores, |w.drivers|))
  }

  /** Sum, count and eligibility of a driver, as far as the score table has a row. */
  function Ranking3(scores: map<DriverKey, Score>, k: DriverKey): Option<CandidateScore> {
    if k in scores then Some(CandidateScore(scores[k].sum, scores[k].count, scores[k].eligible)) else None
  }

  /** A board depends on sums, counts and eligibility alone, and on its own city alone. */
  lemma {:induction false} LiveRowsFrame(w: World, scores: map<DriverKey, Score>, scores': map<DriverKey, Score>, c: CityId, n: nat)
    requires n <= |w.drivers|
    requires forall d: DriverId :: d < n ==> Ranking3(scores, DriverKey(c, d)) == Ranking3(scores', DriverKey(c, d))
    ensures LiveRows(w, scores, c, n) == LiveRows(w, scores', c, n)
  {
    if n > 0 {
      LiveRowsFrame(w, scores, scores', c, n - 1);
      assert Ranking3(scores, DriverKey(c, n - 1)) == Ranking3(scores', DriverKey(c, n - 1));
    }
  }

  /** The live and the rebuild ranking agree on equal scores. */
  lemma {:induction false} RankingsAgree(w: World, scores: map<DriverKey, Score>, candidates: map<DriverId, CandidateScore>, c: CityId, n: nat)
    requires n <= |w.drivers|
    requires forall d: DriverId :: d < n ==>
               Ranking3(scores, DriverKey(c, d)) == if d in candidates then Some(candidates[d]) else None
    ensures LiveRows(w, scores, c, n) == CandidateRows(w, candidates, n)
  {
    if n > 0 {
      RankingsAgree(w, scores, candidates, c, n - 1);
      assert Ranking3(scores, DriverKey(c, n - 1)) == if n - 1 in candidates then Some(candidates[n - 1]) else None;
    }
  }

  /** Every eligible driver of the city has a row in the ranking query, and nobody else has. */
  lemma {:induction false} LiveRowsAreEligible(w: World, scores: map<DriverKey, Score>, c: CityId, n: nat)
    requires n <= |w.drivers|
    ensures forall r :: r in LiveRows(w, scores, c, n) <==>
              && r.driver < n && DriverKey(c, r.driver) in scores
              && var s := scores[DriverKey(c, r.driver)];
                 s.eligible && r == Row(r.driver, w.drivers[r.driver].stableId, s.sum, s.count)
  {
    if n > 0 {
      LiveRowsAreEligible(w, scores, c, n - 1);
    }
  }

  // ---------- building and publishing ----------

  /** The largest version of the city among the first `n` generations; 0 if there is none. */
  function MaxVersion(gens: seq<Generation>, c: CityId, n: nat): nat
    requires n <= |gens|
  {
    if n == 0 then 0
    else
      var rest := MaxVersion(gens, c, n - 1);
      if gens[n - 1].city == c then Max(rest, gens[n - 1].version) else rest
  }

  /** The latest calculation time among the city's score rows of the first `n` drivers. */
  function LatestSource(w: World, scores: map<DriverKey, Score>, c: CityId, n: nat): Option<Time>
    requires n <= |w.drivers|
  {
    if n == 0 then None
    else
      var rest, k := LatestSource(w, scores, c, n - 1), DriverKey(c, n - 1);
      if k !in scores then rest
      else match rest
        case None => Some(scores[k].calculatedAt)
        case Some(t) => Some(Max(t, scores[k].calculatedAt))
  }

  /** It is the largest of those times, and missing exactly when there is no such row. */
  lemma {:induction false} LatestSourceIsMax(w: World, scores: map<DriverKey, Score>, c: CityId, n: nat)
    requires n <= |w.drivers|
    ensures var latest := LatestSource(w, scores, c, n);
            && (latest.Some? <==> exists d: DriverId :: d < n && DriverKey(c, d) in scores)
            && (forall d: DriverId :: d < n && DriverKey(c, d) in scores ==> scores[DriverKey(c, d)].calculatedAt <= latest.value)
            && (latest.Some? ==> exists d: DriverId :: d < n && DriverKey(c, d) in scores && scores[DriverKey(c, d)].calculatedAt == latest.value)
  {
    if n > 0 {
      LatestSourceIsMax(w, scores, c, n - 1);
      if DriverKey(c, n - 1) in scores {
        var d: DriverId := n - 1;
        assert d < n && DriverKey(c, d) in scores;
      }
    }
  }

  lemma {:induction false} LatestSourceFrame(w: World, scores: map<DriverKey, Score>, scores': map<DriverKey, Score>, c: CityId, n: nat)
    requires n <= |w.drivers|
    requires forall k: DriverKey :: k.city == c ==> (k in scores <==> k in scores')
    requires forall k: DriverKey :: k.city == c && k in scores ==> scores[k] == scores'[k]
    ensures LatestSource(w, scores, c, n) == LatestSource(w, scores', c, n)
  {
    if n > 0 {
      LatestSourceFrame(w, scores, scores', c, n - 1);
    }
  }

  function Retire(g: Generation, c: CityId): Generation {
    if g.city == c && g.status == Published then g.(status := Superseded) else g
  }

  function Retired(gens: seq<Generation>, c: CityId): seq<Generation> {
    seq(|gens|, i requires 0 <= i < |gens| => Retire(gens[i], c))
  }

  function NewGeneration(w: World, scores: map<DriverKey, Score>, gens: seq<Generation>, c: CityId, at: Time): Generation {
    Generation(c, MaxVersion(gens, c, |gens|) + 1, Published, LiveBoard(w, scores, c),
               LatestSource(w, scores, c, |w.drivers|), Some(at))
  }

  function Publish(w: World, scores: map<DriverKey, Score>, gens: seq<Generation>, c: CityId, at: Time): seq<Generation> {
    Retired(gens, c) + [NewGeneration(w, scores, gens, c, at)]
  }

  /** The published generation of the city, looking from the newest. */
  function PublishedUpTo(gens: seq<Generation>, c: CityId, n: nat): (g: Option<GenerationId>)
    requires n <= |gens|
    ensures g.Some? ==> g.value < n && gens[g.value].city == c && gens[g.value].status == Published
    ensures g.None? ==> forall i :: 0 <= i < n ==> !(gens[i].city == c && gens[i].status == Published)
  {
    if n == 0 then None
    else if gens[n - 1].city == c && gens[n - 1].status == Published then Some(n - 1)
    else PublishedUpTo(gens, c, n - 1)
  }

  function PublishedOf(gens: seq<Generation>, c: CityId): Option<GenerationId> {
    PublishedUpTo(gens, c, |gens|)
  }

  // ---------- what every generation table satisfies ----------

  function CityCount(gens: seq<Generation>, c: CityId, n: nat): nat
    requires n <= |gens|
  {
    if n == 0 then 0
    else CityCount(gens, c, n - 1) + if gens[n - 1].city == c then 1 else 0
  }

  /** Versions count the city's generations in creation order, without gaps. */
  ghost predicate VersionsCount(gens: seq<Generation>) {
    forall i :: 0 <= i < |gens| ==> gens[i].version == CityCount(gens, gens[i].city, i) + 1
  }

  ghost predicate OnePublished(gens: seq<Generation>) {
    forall i, j :: 0 <= i < j < |gens| && gens[i].status == Published && gens[j].status == Published
                   ==> gens[i].city != gens[j].city
  }

  ghost predicate Settled(gens: seq<Generation>) {
    forall i :: 0 <= i < |gens| ==>
      && gens[i].status != Building
      && (gens[i].status == Published || gens[i].status == Superseded ==> gens[i].publishedAt.Some?)
  }

  ghost predicate ValidGenerations(gens: seq<Generation>) {
    VersionsCount(gens) && OnePublished(gens) && Settled(gens)
  }

  /** The only status changes there are. Superseded and discarded generations stay so. */
  predicate CanBecome(a: GenerationStatus, b: GenerationStatus) {
    || a == b
    || (a == Candidate && (b == Published || b == Superseded || b == Discarded))
    || (a == Published && b == Superseded)
  }

  /** Content never changes once built; only the status moves on. */
  ghost predicate Evolves(g: Generation, g': Generation) {
    && g'.city == g.city && g'.version == g.version && g'.entries == g.entries && g'.sourceAt == g.sourceAt
    && CanBecome(g.status, g'.status)
    && (g.status != Candidate ==> g'.publishedAt == g.publishedAt)
  }

  ghost predicate IsPublished(gens: seq<Generation>, i: nat, c: CityId) {
    i < |gens| && gens[i].city == c && gens[i].status == Published
  }

  ghost predicate SomePublishedFrom(gens: seq<Generation>, i: nat, c: CityId) {
    exists j: nat :: i <= j && IsPublished(gens, j, c)
  }

  /** Later tables keep every generation, and a city's publication only ever moves to a newer one. */
  ghost predicate AllEvolve(gens: seq<Generation>, gens': seq<Generation>) {
    && |gens| <= |gens'|
    && (forall i :: 0 <= i < |gens| ==> Evolves(gens[i], gens'[i]))
    && (forall i: nat, c {:trigger IsPublished(gens, i, c)} :: IsPublished(gens, i, c) ==> SomePublishedFrom(gens', i, c))
  }

  lemma EvolutionIsTransitive(a: seq<Generation>, b: seq<Generation>, c: seq<Generation>)
    requires AllEvolve(a, b) && AllEvolve(b, c)
    ensures AllEvolve(a, c)
  {
    forall i: nat, city | IsPublished(a, i, city) ensures SomePublishedFrom(c, i, city) {
      var j: nat :| i <= j && IsPublished(b, j, city);
      var k: nat :| j <= k && IsPublished(c, k, city);
    }
    forall i | 0 <= i < |a| ensures Evolves(a[i], c[i]) {
      assert Evolves(a[i], b[i]) && Evolves(b[i], c[i]);
    }
  }

  lemma EvolutionIsReflexive(a: seq<Generation>)
    ensures AllEvolve(a, a)
  {}

  lemma {:induction false} CityCountFrame(gens: seq<Generation>, gens': seq<Generation>, c: CityId, n: nat)
    requires n <= |gens| && n <= |gens'|
    requires forall i :: 0 <= i < n ==> gens'[i].city == gens[i].city
    ensures CityCount(gens', c, n) == CityCount(gens, c, n)
  {
    if n > 0 {
      CityCountFrame(gens, gens', c, n - 1);
    }
  }

  lemma {:induction false} CityCountMonotone(gens: seq<Generation>, c: CityId, m: nat, n: nat)
    requires m <= n <= |gens|
    ensures CityCount(gens, c, m) <= CityCount(gens, c, n)
  {
    if m < n {
      CityCountMonotone(gens, c, m, n - 1);
    }
  }

  lemma {:induction false} MaxVersionIsCount(gens: seq<Generation>, c: CityId, n: nat)
    requires n <= |gens| && VersionsCount(gens)
    ensures MaxVersion(gens, c, n) == CityCount(gens, c, n)
  {
    if n > 0 {
      MaxVersionIsCount(gens, c, n - 1);
    }
  }

  /** Within a city, a later generation has a larger version. */
  lemma VersionsIncrease(gens: seq<Generation>, i: nat, j: nat)
    requires VersionsCount(gens)
    requires i < j < |gens| && gens[i].city == gens[j].city
    ensures gens[i].version < gens[j].version
  {
    CityCountMonotone(gens, gens[i].city, i + 1, j);
  }

  /** Every version from 1 to the largest is taken by a generation of the city. */
  lemma {:induction false} VersionsHaveNoGaps(gens: seq<Generation>, c: CityId, n: nat, v: nat)
    requires VersionsCount(gens) && n <= |gens|
    requires 1 <= v <= MaxVersion(gens, c, n)
    ensures exists i :: 0 <= i < n && gens[i].city == c && gens[i].version == v
  {
    MaxVersionIsCount(gens, c, n);
    MaxVersionIsCount(gens, c, n - 1);
    if gens[n - 1].city == c && gens[n - 1].version == v {
    } else {
      VersionsHaveNoGaps(gens, c, n - 1, v);
    }
  }

  lemma PublishedIsUnique(gens: seq<Generation>, c: CityId, i: nat)
    requires OnePublished(gens) && IsPublished(gens, i, c)
    ensures PublishedOf(gens, c) == Some(i)
  {}

  // ---------- appending and publishing ----------

  /** A new row with the next version keeps the numbering. */
  lemma AppendKeepsVersions(gens: seq<Generation>, gens': seq<Generation>, g: Generation)
    requires VersionsCount(gens)
    requires |gens'| == |gens| + 1 && gens'[|gens|] == g
    requires forall i :: 0 <= i < |gens| ==> gens'[i].city == gens[i].city && gens'[i].version == gens[i].version
    requires g.version == MaxVersion(gens, g.city, |gens|) + 1
    ensures VersionsCount(gens')
  {
    MaxVersionIsCount(gens, g.city, |gens|);
    forall i | 0 <= i < |gens'| ensures gens'[i].version == CityCount(gens', gens'[i].city, i) + 1 {
      CityCountFrame(gens, gens', gens'[i].city, i);
    }
  }

  lemma PublishKeepsValid(gens: seq<Generation>, c: CityId, g: Generation)
    requires ValidGenerations(gens)
    requires g.city == c && g.version == MaxVersion(gens, c, |gens|) + 1
    requires g.status == Published && g.publishedAt.Some?
    ensures ValidGenerations(Retired(gens, c) + [g])
  {
    hide CityCount, MaxVersion, VersionsCount;
    var gens' := Retired(gens, c) + [g];
    assert forall i :: 0 <= i < |gens| ==> gens'[i] == Retire(gens[i], c);
    AppendKeepsVersions(gens, gens', g);
  }

  lemma PublishEvolves(gens: seq<Generation>, c: CityId, g: Generation)
    requires g.city == c && g.status == Published
    ensures AllEvolve(gens, Retired(gens, c) + [g])
  {
    var gens' := Retired(gens, c) + [g];
    assert forall i :: 0 <= i < |gens| ==> gens'[i] == Retire(gens[i], c);
    forall i: nat, d | IsPublished(gens, i, d) ensures SomePublishedFrom(gens', i, d) {
      assert IsPublished(gens', if d == c then |gens| else i, d);
    }
  }

  /** Publication adds the city's next version, retires its predecessor and touches no other city. */
  lemma PublishIsSound(w: World, scores: map<DriverKey, Score>, gens: seq<Generation>, c: CityId, at: Time)
    requires ValidGenerations(gens)
    ensures var gens' := Publish(w, scores, gens, c, at);
            && ValidGenerations(gens')
            && AllEvolve(gens, gens')
            && |gens'| == |gens| + 1
            && PublishedOf(gens', c) == Some(|gens|)
            && gens'[|gens|].entries == LiveBoard(w, scores, c)
            && (forall i :: 0 <= i < |gens| ==> gens'[i] == Retire(gens[i], c))
  {
    hide LiveBoard, LatestSource, MaxVersion, ValidGenerations, AllEvolve;
    var g := NewGeneration(w, scores, gens, c, at);
    PublishKeepsValid(gens, c, g);
    PublishEvolves(gens, c, g);
  }

  /** Other cities keep their published generation. */
  lemma {:induction false} PublishedFrame(gens: seq<Generation>, gens': seq<Generation>, c: CityId, n: nat)
    requires n <= |gens| && |gens| <= |gens'|
    requires forall i :: 0 <= i < n ==> (gens'[i].city == c <==> gens[i].city == c)
    requires forall i :: 0 <= i < n && gens[i].city == c ==> (gens'[i].status == Published <==> gens[i].status == Published)
    ensures PublishedUpTo(gens', c, n) == PublishedUpTo(gens, c, n)
  {
    if n > 0 {
      PublishedFrame(gens, gens', c, n - 1);
    }
  }
}
