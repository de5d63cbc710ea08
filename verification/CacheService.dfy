/** The cache in front of the published boards, and its counters. */
module CacheService {
  import opened Tables
  import opened Readable
  import opened Caching
  import opened Services

  datatype Counters = Counters(hits: nat, misses: nat, writes: nat, errors: nat)

  datatype RefreshReply = Wrote(written: bool) | Raised(error: Error)

  class Cache {
    const enabled: bool
    var entries: map<CityId, Payload>
    var counters: Counters

    constructor (enabled: bool)
      ensures this.enabled == enabled && entries == map[] && counters == Counters(0, 0, 0, 0)
    {
      this.enabled := enabled;
      entries := map[];
      counters := Counters(0, 0, 0, 0);
    }

    /** An enabled read counts exactly once: as an error, a miss or a hit. */
    method Read(c: CityId, reachable: bool) returns (payload: Option<Payload>)
      modifies this`counters
      ensures payload == if enabled && reachable && c in entries then Some(entries[c]) else None
      ensures counters == if !enabled then old(counters)
                          else if !reachable then old(counters).(errors := old(counters).errors + 1)
                          else if c in entries then old(counters).(hits := old(counters).hits + 1)
                          else old(counters).(misses := old(counters).misses + 1)
    {
      if !enabled {
        return None;
      }
      if !reachable {
        counters := counters.(errors := counters.errors + 1);
        return None;
      }
      if c !in entries {
        counters := counters.(misses := counters.misses + 1);
        return None;
      }
      counters := counters.(hits := counters.hits + 1);
      return Some(entries[c]);
    }

    method Write(c: CityId, payload: Payload, reachable: bool) returns (written: bool)
      modifies this
      ensures written == (enabled && reachable)
      ensures entries == if written then old(entries)[c := payload] else old(entries)
      ensures counters == if !enabled then old(counters)
                          else if reachable then old(counters).(writes := old(counters).writes + 1)
                          else old(counters).(errors := old(counters).errors + 1)
    {
      if !enabled {
        return false;
      }
      if !reachable {
        counters := counters.(errors := counters.errors + 1);
        return false;
      }
      entries := entries[c := payload];
      counters := counters.(writes := counters.writes + 1);
      return true;
    }

    /**
     A hit is answered from the cache alone. Otherwise the answer is the authoritative
     board, and the cache goes through the protocol's two steps, read and write back, with
     nothing in between.
     */
    method GetCachedOrAuthoritative(db: Database, c: CityId, readable: bool, writable: bool)
      returns (payload: Option<Payload>)
      modifies this
      // No payload stands for the exception that the city has no published board.
      ensures var hit := enabled && readable && c in old(entries);
              && (hit ==> payload == Some(old(entries)[c]) && entries == old(entries))
              && (!hit ==> payload == AuthoritativeBoard(db.world, db.Tables(), c)
                           && Site(db.Tables(), entries, []) == Refreshed(db.world, db.Tables(), old(entries), c, enabled && writable))
    {
      hide Rendering;
      var cached := Read(c, readable);
      if cached.Some? {
        return cached;
      }
      payload := db.GetPublishedLeaderboard(c);
      if payload.Some? {
        var written := Write(c, payload.value, writable);
      }
    }

    /**
     The refresh after a commit: the same two steps without looking at the cache first. It
     raises when the city has no published board.
     */
    method RefreshCity(db: Database, c: CityId, writable: bool) returns (reply: RefreshReply)
      modifies this
      ensures reply == if AuthoritativeBoard(db.world, db.Tables(), c).None? then Raised(LeaderboardNotFound)
                       else Wrote(enabled && writable)
      ensures Site(db.Tables(), entries, []) == Refreshed(db.world, db.Tables(), old(entries), c, enabled && writable)
    {
      hide Rendering;
      var payload := db.GetPublishedLeaderboard(c);
      if payload.None? {
        return Raised(LeaderboardNotFound);
      }
      var written := Write(c, payload.value, writable);
      return Wrote(written);
    }
  }
}
