/** Moving a whole city's windows, and publishing only when an aggregate changed. */
module Expiration {
  import opened Tables
  import opened Scoring
  import opened Leaderboard

  datatype ExpirationReply = Ran(run: nat) | AlreadyRan(run: nat) | NotRun(error: Error)

  datatype ExpirationOutcome = ExpirationOutcome(store: Store, reply: ExpirationReply)

  /** The run of the city at this very time among the first `n`, if there is one. */
  function FindRun(runs: seq<ExpirationRun>, c: CityId, at: Time, n: nat): (r: Option<nat>)
    requires n <= |runs|
    ensures r.Some? ==> r.value < n && runs[r.value].city == c && runs[r.value].effectiveAt == at
    ensures r.None? ==> forall i :: 0 <= i < n ==> !(runs[i].city == c && runs[i].effectiveAt == at)
  {
    if n == 0 then None
    else if runs[n - 1].city == c && runs[n - 1].effectiveAt == at then Some(n - 1)
    else FindRun(runs, c, at, n - 1)
  }

  /** Drivers whose sum, count or eligibility differ between two score tables. */
  function ChangedKeys(before: map<DriverKey, Score>, after: map<DriverKey, Score>, keys: set<DriverKey>): set<DriverKey> {
    set k | k in keys && Ranking3(before, k) != Ranking3(after, k)
  }

  function RunExpiration(w: World, s: Store, c: CityId, at: Time): ExpirationOutcome {
    match FindRun(s.expirations, c, at, |s.expirations|)
    case Some(r) => ExpirationOutcome(s, AlreadyRan(r))
    case None =>
      if c !in w.cities then ExpirationOutcome(s, NotRun(CityNotFound))
      else
        var scores := Rescored(w, s.reviews, s.scores, CityKeys(w, c), at);
        var affected := |ChangedKeys(s.scores, scores, CityKeys(w, c))|;
        var gens := if affected > 0 then Publish(w, scores, s.generations, c, at) else s.generations;
        var run := ExpirationRun(c, at, affected, if affected > 0 then Some(|s.generations|) else None);
        ExpirationOutcome(s.(scores := scores, generations := gens, expirations := s.expirations + [run]),
                          Ran(|s.expirations|))
  }

  /** A run that finds no changed aggregate leaves the board of the city as it is. */
  lemma UnchangedAggregatesKeepBoard(w: World, s: Store, c: CityId, at: Time)
    requires var scores := Rescored(w, s.reviews, s.scores, CityKeys(w, c), at);
             |ChangedKeys(s.scores, scores, CityKeys(w, c))| == 0
    ensures LiveBoard(w, Rescored(w, s.reviews, s.scores, CityKeys(w, c), at), c) == LiveBoard(w, s.scores, c)
  {
    var scores := Rescored(w, s.reviews, s.scores, CityKeys(w, c), at);
    forall d: DriverId | d < |w.drivers| ensures Ranking3(s.scores, DriverKey(c, d)) == Ranking3(scores, DriverKey(c, d)) {
      var k := DriverKey(c, d);
      assert k !in ChangedKeys(s.scores, scores, CityKeys(w, c));
    }
    LiveRowsFrame(w, s.scores, scores, c, |w.drivers|);
  }

  /** A city with drivers and no scores yet always counts as changed. */
  lemma FirstScoresCountAsChanged(w: World, s: Store, c: CityId, at: Time)
    requires CityKeys(w, c) != {}
    requires forall k :: k in s.scores ==> k.city != c
    ensures |ChangedKeys(s.scores, Rescored(w, s.reviews, s.scores, CityKeys(w, c), at), CityKeys(w, c))| > 0
  {
    var scores := Rescored(w, s.reviews, s.scores, CityKeys(w, c), at);
    var k :| k in CityKeys(w, c);
    assert k in ChangedKeys(s.scores, scores, CityKeys(w, c));
  }
}
