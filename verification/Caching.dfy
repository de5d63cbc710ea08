/**
 Cache-aside reads as a protocol: the database read and the later cache write of a reader
 or refresher are separate steps, any number may be under way at once, a cache write may
 fail, and an entry may vanish at any time.
 */
module Caching {
  import opened Tables
  import opened Leaderboard
  import opened System
  import opened Readable
  import opened Histories
  import opened Outbox

  datatype Fetch = Fetch(city: CityId, payload: Payload)

  datatype Site = Site(db: Store, cache: map<CityId, Payload>, inFlight: seq<Fetch>)

  datatype SiteStep =
    | Commit(action: Action)
    | ReadBoard(city: CityId)
    | WriteBack(fetch: nat, reachable: bool)
    | Evict(city: CityId)

  /** The authoritative read of a city's board. */
  function AuthoritativeBoard(w: World, db: Store, c: CityId): Option<Payload> {
    match PublishedOf(db.generations, c)
    case None => None
    case Some(g) => Some(Rendering(w, db.generations, g))
  }

  function SiteNext(w: World, s: Site, step: SiteStep): Site {
    match step
    case Commit(a) => s.(db := Step(w, s.db, a))
    case ReadBoard(c) =>
      (match AuthoritativeBoard(w, s.db, c)
       case None => s
       case Some(p) => s.(inFlight := s.inFlight + [Fetch(c, p)]))
    case WriteBack(i, reachable) =>
      if i >= |s.inFlight| then s
      else s.(inFlight := s.inFlight[..i] + s.inFlight[i + 1..],
              cache := if reachable then s.cache[s.inFlight[i].city := s.inFlight[i].payload] else s.cache)
    case Evict(c) => s.(cache := map k | k in s.cache && k != c :: s.cache[k])
  }

  function SiteAfter(w: World, db: Store, steps: seq<SiteStep>, n: nat): Site
    requires n <= |steps|
  {
    if n == 0 then Site(db, map[], []) else SiteNext(w, SiteAfter(w, db, steps, n - 1), steps[n - 1])
  }

  /**
   What a reader of a city gets: nothing if none of its generations is published, and
   otherwise that generation's number, version, times and entries, in the order of ranks.
   */
  lemma ReaderGetsPublished(w: World, db: Store, c: CityId)
    requires OnePublished(db.generations)
    ensures AuthoritativeBoard(w, db, c).None? <==> forall i: nat :: !IsPublished(db.generations, i, c)
    ensures forall i: nat :: IsPublished(db.generations, i, c) ==>
              var g, p := db.generations[i], AuthoritativeBoard(w, db, c);
              && p.Some? && p.value.city == c && p.value.generation == i && p.value.version == g.version
              && p.value.publishedAt == g.publishedAt && p.value.sourceAt == g.sourceAt
              && p.value.entries == ShownEntries(w, g.entries)
  {
    hide ShownEntries;
    if PublishedOf(db.generations, c).Some? {
      assert IsPublished(db.generations, PublishedOf(db.generations, c).value, c);
    }
    forall i: nat | IsPublished(db.generations, i, c) ensures PublishedOf(db.generations, c) == Some(i) {
      PublishedIsUnique(db.generations, c, i);
    }
  }

  /**
   The four kinds of step: a commit moves the database alone; a read of a published board
   starts a fetch of it; a fetch ends by replacing its city's entry, or in vain when the
   cache cannot be reached; and any entry may vanish.
   */
  lemma StepsOfTheCache(w: World, s: Site, step: SiteStep)
    ensures var s' := SiteNext(w, s, step);
            match step
            case Commit(a) => s' == Site(Step(w, s.db, a), s.cache, s.inFlight)
            case ReadBoard(c) =>
              && s'.db == s.db && s'.cache == s.cache
              && s'.inFlight == s.inFlight + (if AuthoritativeBoard(w, s.db, c).Some? then [Fetch(c, AuthoritativeBoard(w, s.db, c).value)] else [])
            case WriteBack(i, reachable) =>
              && s'.db == s.db
              && (i < |s.inFlight| ==>
                    && multiset(s'.inFlight) == multiset(s.inFlight) - multiset{s.inFlight[i]}
                    && (forall c :: c in s'.cache <==> c in s.cache || (reachable && c == s.inFlight[i].city))
                    && (forall c :: c in s'.cache ==> s'.cache[c] == if reachable && c == s.inFlight[i].city then s.inFlight[i].payload else s.cache[c]))
              && (i >= |s.inFlight| ==> s' == s)
            case Evict(c) => s'.db == s.db && s'.inFlight == s.inFlight && s'.cache == s.cache - {c}
  {
    hide Step, AuthoritativeBoard;
    if step.WriteBack? && step.fetch < |s.inFlight| {
      var i := step.fetch;
      assert s.inFlight == s.inFlight[..i] + [s.inFlight[i]] + s.inFlight[i + 1..];
    }
  }

  /** One database read followed at once by its cache write. */
  function Refreshed(w: World, db: Store, cache: map<CityId, Payload>, c: CityId, reachable: bool): Site {
    SiteNext(w, SiteNext(w, Site(db, cache, []), ReadBoard(c)), WriteBack(0, reachable))
  }

  /** The payload renders the generation that was the city's published one in this state. */
  ghost predicate PublishedIn(w: World, db: Store, c: CityId, p: Payload) {
    AuthoritativeBoard(w, db, c) == Some(p)
  }

  /** ... in one of the states up to the `n`-th. */
  ghost predicate WasPublished(w: World, db: Store, steps: seq<SiteStep>, n: nat, c: CityId, p: Payload)
    requires n <= |steps|
  {
    exists i: nat :: i <= n && PublishedIn(w, SiteAfter(w, db, steps, i).db, c, p)
  }

  lemma WasPublishedStays(w: World, db: Store, steps: seq<SiteStep>, n: nat, c: CityId, p: Payload)
    requires 0 < n <= |steps| && WasPublished(w, db, steps, n - 1, c, p)
    ensures WasPublished(w, db, steps, n, c, p)
  {
    hide PublishedIn, SiteNext;
    var i: nat :| i <= n - 1 && PublishedIn(w, SiteAfter(w, db, steps, i).db, c, p);
  }

  ghost predicate AllWerePublished(w: World, db: Store, steps: seq<SiteStep>, n: nat)
    requires n <= |steps|
  {
    var s := SiteAfter(w, db, steps, n);
    && (forall c :: c in s.cache ==> WasPublished(w, db, steps, n, c, s.cache[c]))
    && (forall f :: f in s.inFlight ==> WasPublished(w, db, steps, n, f.city, f.payload))
  }

  /** A step leaves every cached or carried payload where it was, or takes it from the database now. */
  lemma PayloadsComeFrom(w: World, s: Site, step: SiteStep)
    ensures var s' := SiteNext(w, s, step);
            && (forall c :: c in s'.cache ==> (c in s.cache && s'.cache[c] == s.cache[c]) || Fetch(c, s'.cache[c]) in s.inFlight)
            && (forall f :: f in s'.inFlight ==> f in s.inFlight || PublishedIn(w, s'.db, f.city, f.payload))
  {
    hide AuthoritativeBoard, Step;
    match step
    case Commit(a) =>
    case ReadBoard(c) =>
    case WriteBack(i, reachable) =>
      if i < |s.inFlight| {
        assert s.inFlight[i] in s.inFlight;
        assert Fetch(s.inFlight[i].city, s.inFlight[i].payload) == s.inFlight[i];
      }
    case Evict(c) =>
  }

  /** Every payload in the cache, or on its way there, was the published board of its city in some committed state. */
  lemma {:induction false} CacheHoldsPublishedBoards(w: World, db: Store, steps: seq<SiteStep>, n: nat)
    requires n <= |steps|
    ensures AllWerePublished(w, db, steps, n)
  {
    if n > 0 {
      hide WasPublished, SiteNext, PublishedIn;
      CacheHoldsPublishedBoards(w, db, steps, n - 1);
      var s, s' := SiteAfter(w, db, steps, n - 1), SiteAfter(w, db, steps, n);
      PayloadsComeFrom(w, s, steps[n - 1]);
      forall c | c in s'.cache ensures WasPublished(w, db, steps, n, c, s'.cache[c]) {
        if c in s.cache && s'.cache[c] == s.cache[c] {
          WasPublishedStays(w, db, steps, n, c, s'.cache[c]);
        } else {
          var f := Fetch(c, s'.cache[c]);
          assert f in s.inFlight;
          WasPublishedStays(w, db, steps, n, f.city, f.payload);
        }
      }
      forall f | f in s'.inFlight ensures WasPublished(w, db, steps, n, f.city, f.payload) {
        if f in s.inFlight {
          WasPublishedStays(w, db, steps, n, f.city, f.payload);
        } else {
          PublishedNow(w, db, steps, n, f.city, f.payload);
        }
      }
    }
  }

  lemma PublishedNow(w: World, db: Store, steps: seq<SiteStep>, n: nat, c: CityId, p: Payload)
    requires n <= |steps| && PublishedIn(w, SiteAfter(w, db, steps, n).db, c, p)
    ensures WasPublished(w, db, steps, n, c, p)
  {
    hide PublishedIn, SiteNext;
  }

  /** Cache traffic does not touch the database, and commits only move it on. */
  lemma {:induction false} DatabaseMovesOn(w: World, db: Store, steps: seq<SiteStep>, m: nat, n: nat)
    requires m <= n <= |steps| && Structured(w, db)
    ensures Structured(w, SiteAfter(w, db, steps, n).db)
    ensures Succeeds(SiteAfter(w, db, steps, m).db, SiteAfter(w, db, steps, n).db)
    decreases n
  {
    hide Structured, Succeeds, Step, AuthoritativeBoard;
    SucceedsIsReflexive(SiteAfter(w, db, steps, n).db);
    if n > 0 {
      DatabaseMovesOn(w, db, steps, if m < n then m else n - 1, n - 1);
      var before, after := SiteAfter(w, db, steps, n - 1).db, SiteAfter(w, db, steps, n).db;
      SucceedsIsReflexive(before);
      if steps[n - 1].Commit? {
        StepKeepsStructure(w, before, steps[n - 1].action);
      }
      if m < n {
        SucceedsIsTransitive(SiteAfter(w, db, steps, m).db, before, after);
      }
    }
  }

  /** A board once published keeps its rendering, is never newer than the current one, and was never a mere candidate. */
  lemma OldBoardIsNotNewer(w: World, past: Store, present: Store, c: CityId, p: Payload)
    requires PublishedIn(w, past, c, p) && Succeeds(past, present) && Structured(w, past) && Structured(w, present)
    ensures p.city == c
    ensures var g := p.generation;
            && g < |present.generations|
            && p == Rendering(w, present.generations, g)
            && (present.generations[g].status == Published || present.generations[g].status == Superseded)
    ensures exists current: nat :: IsPublished(present.generations, current, c) && p.version <= present.generations[current].version
  {
    hide Shown, ValidReviews, ValidOutbox, ValidJobs, ValidExpirations, AllExtend, AllEvolve, ShownEntries, VersionsCount;
    assert IsPublished(past.generations, p.generation, c);
    PublishedStaysGenuine(w, past.generations, present.generations, p.generation, c);
  }

  lemma PublishedStaysGenuine(w: World, gens: seq<Generation>, gens': seq<Generation>, g: GenerationId, c: CityId)
    requires IsPublished(gens, g, c) && AllEvolve(gens, gens') && VersionsCount(gens')
    ensures g < |gens'| && Rendering(w, gens, g) == Rendering(w, gens', g)
    ensures gens'[g].status == Published || gens'[g].status == Superseded
    ensures exists current: nat :: IsPublished(gens', current, c) && gens'[g].version <= gens'[current].version
  {
    hide ShownEntries, VersionsCount;
    assert Evolves(gens[g], gens'[g]);
    assert SomePublishedFrom(gens', g, c);
    var j: nat :| g <= j && IsPublished(gens', j, c);
    if g < j {
      VersionsIncrease(gens', g, j);
    }
  }

  /**
   With any number of readers and refreshers interleaved, and the cache failing or losing
   entries at any time: whatever the cache holds for a city renders a generation of that
   very city which is or was published, still has that content, and is not newer than the
   generation published now. Candidates and discarded generations never appear.
   */
  lemma CachedBoardIsGenuine(w: World, db: Store, steps: seq<SiteStep>, n: nat, c: CityId)
    requires n <= |steps| && Structured(w, db)
    requires c in SiteAfter(w, db, steps, n).cache
    ensures var s := SiteAfter(w, db, steps, n);
            var p := s.cache[c];
            && p.city == c && p.generation < |s.db.generations|
            && p == Rendering(w, s.db.generations, p.generation)
            && (s.db.generations[p.generation].status == Published || s.db.generations[p.generation].status == Superseded)
            && exists current: nat :: IsPublished(s.db.generations, current, c) && p.version <= s.db.generations[current].version
  {
    hide Structured, Succeeds, SiteNext, PublishedIn, Rendering;
    CacheHoldsPublishedBoards(w, db, steps, n);
    var p := SiteAfter(w, db, steps, n).cache[c];
    assert WasPublished(w, db, steps, n, c, p);
    var i: nat :| i <= n && PublishedIn(w, SiteAfter(w, db, steps, i).db, c, p);
    DatabaseMovesOn(w, db, steps, i, i);
    DatabaseMovesOn(w, db, steps, i, n);
    OldBoardIsNotNewer(w, SiteAfter(w, db, steps, i).db, SiteAfter(w, db, steps, n).db, c, p);
  }
}
