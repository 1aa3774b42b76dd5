/** The module-level `stations` cache of `rnv_api` and the operations that
    fill it: `get_stations`, and the three finders and
    `get_hafasid_from_name`, which populate it on first use. */
module Directory {
  import opened Wrappers
  import opened Http
  import opened Stations

  /** What a finder searches: the cached list, or the freshly fetched one
      when the cache is still unpopulated. */
  function Load(cache: Option<seq<Station>>, reply: Reply<seq<Station>>): (r: Result<seq<Station>, Error>)
    ensures cache.Some? ==> r == Success(cache.value)
    ensures cache.None? ==> r == CheckStatus(reply)
  {
    if cache.Some? then Success(cache.value) else CheckStatus(reply)
  }

  /** The cache after a finder has run. */
  function CacheAfter(cache: Option<seq<Station>>, reply: Reply<seq<Station>>): (c: Option<seq<Station>>)
    ensures cache.Some? ==> c == cache
    ensures cache.None? && CheckStatus(reply).Success? ==> c == Some(reply.body)
    ensures cache.None? && CheckStatus(reply).Failure? ==> c == None
  {
    if cache.Some? then cache
    else match CheckStatus(reply)
      case Success(list) => Some(list)
      case Failure(_) => None
  }

  /** A finder searches exactly the list it leaves in the cache; when the
      fetch fails the cache stays unpopulated. */
  lemma LoadMatchesCache(cache: Option<seq<Station>>, reply: Reply<seq<Station>>)
    ensures Load(cache, reply).Success? <==> CacheAfter(cache, reply).Some?
    ensures Load(cache, reply).Success? ==> CacheAfter(cache, reply) == Some(Load(cache, reply).value)
    ensures Load(cache, reply).Failure? ==> CacheAfter(cache, reply) == cache
  {
  }

  /** Once populated, the cache ignores every later reply: whatever a second
      lookup's fetch would have returned, it searches the first list. */
  lemma PopulatedOnce(cache: Option<seq<Station>>, first: Reply<seq<Station>>, second: Reply<seq<Station>>)
    requires CacheAfter(cache, first).Some?
    ensures CacheAfter(CacheAfter(cache, first), second) == CacheAfter(cache, first)
    ensures Load(CacheAfter(cache, first), second) == Load(cache, first)
  {
  }

  /** `StopIteration` from the pure lookups becomes an error result. */
  function OrNotFound<T>(found: Option<T>): (r: Result<T, Error>)
    ensures found.Some? ==> r == Success(found.value)
    ensures found.None? ==> r == Failure(StationNotFound)
  {
    match found
    case Some(v) => Success(v)
    case None => Failure(StationNotFound)
  }

  /** The process-wide directory. `fetches` counts the calls of
      `get_stations`, i.e. the requests sent to the stations endpoint. */
  class StationDirectory {
    var stations: Option<seq<Station>>
    ghost var fetches: nat

    /** `stations = None` at import time. */
    constructor ()
      ensures stations == None && fetches == 0
    {
      stations := None;
      fetches := 0;
    }

    /** `get_stations`: fetch the list, overwrite the cache with it and
        return it; a failed fetch raises before the assignment. */
    method GetStations(reply: Reply<seq<Station>>) returns (r: Result<seq<Station>, Error>)
      modifies this
      ensures fetches == old(fetches) + 1
      ensures r == CheckStatus(reply)
      ensures r.Success? ==> stations == Some(r.value)
      ensures r.Failure? ==> stations == old(stations)
    {
      fetches := fetches + 1;
      r := CheckStatus(reply);
      if r.Success? {
        stations := Some(r.value);
      }
    }

    /** `if stations is None: get_stations()`, the prologue of each finder. */
    method EnsureLoaded(reply: Reply<seq<Station>>) returns (r: Result<seq<Station>, Error>)
      modifies this
      ensures r == Load(old(stations), reply)
      ensures stations == CacheAfter(old(stations), reply)
      ensures fetches == old(fetches) + (if old(stations).None? then 1 else 0)
    {
      if stations.None? {
        var fetched := GetStations(reply);
        if fetched.Failure? {
          return Failure(fetched.error);
        }
      }
      r := Success(stations.value);
    }

    /** `find_station_by_short_name` */
    method FindStationByShortName(name: string, reply: Reply<seq<Station>>) returns (r: Result<Station, Error>)
      modifies this
      ensures stations == CacheAfter(old(stations), reply)
      ensures fetches == old(fetches) + (if old(stations).None? then 1 else 0)
      ensures match Load(old(stations), reply)
        case Failure(e) => r == Failure(e)
        case Success(ss) => r == OrNotFound(FindByShortName(ss, name))
    {
      var loaded := EnsureLoaded(reply);
      if loaded.Failure? {
        return Failure(loaded.error);
      }
      r := OrNotFound(FindByShortName(loaded.value, name));
    }

    /** `find_station_by_long_name` */
    method FindStationByLongName(name: string, reply: Reply<seq<Station>>) returns (r: Result<Station, Error>)
      modifies this
      ensures stations == CacheAfter(old(stations), reply)
      ensures fetches == old(fetches) + (if old(stations).None? then 1 else 0)
      ensures match Load(old(stations), reply)
        case Failure(e) => r == Failure(e)
        case Success(ss) => r == OrNotFound(FindByLongName(ss, name))
    {
      var loaded := EnsureLoaded(reply);
      if loaded.Failure? {
        return Failure(loaded.error);
      }
      r := OrNotFound(FindByLongName(loaded.value, name));
    }

    /** `find_stations_by_long_name`; the generator is returned materialised. */
    method FindStationsByLongName(name: string, reply: Reply<seq<Station>>) returns (r: Result<seq<Station>, Error>)
      modifies this
      ensures stations == CacheAfter(old(stations), reply)
      ensures fetches == old(fetches) + (if old(stations).None? then 1 else 0)
      ensures match Load(old(stations), reply)
        case Failure(e) => r == Failure(e)
        case Success(ss) => r == Success(SearchByLongName(ss, name))
    {
      var loaded := EnsureLoaded(reply);
      if loaded.Failure? {
        return Failure(loaded.error);
      }
      r := Success(SearchByLongName(loaded.value, name));
    }

    /** `get_hafasid_from_name`: dispatch to one finder, return the id. */
    method GetHafasIdFromName(name: string, reply: Reply<seq<Station>>) returns (r: Result<string, Error>)
      modifies this
      ensures stations == CacheAfter(old(stations), reply)
      ensures fetches == old(fetches) + (if old(stations).None? then 1 else 0)
      ensures match Load(old(stations), reply)
        case Failure(e) => r == Failure(e)
        case Success(ss) => r == OrNotFound(HafasIdFromName(ss, name))
    {
      var found;
      if LooksLikeShortName(name) {
        found := FindStationByShortName(name, reply);
      } else {
        found := FindStationByLongName(name, reply);
      }
      if found.Failure? {
        return Failure(found.error);
      }
      r := Success(found.value.hafasID);
    }
  }

  /** Two lookups in a fresh process send one request to the stations
      endpoint when the first succeeds; the second reply is never used. */
  method TwoLookups(first: string, second: string, reply1: Reply<seq<Station>>, reply2: Reply<seq<Station>>)
    returns (dir: StationDirectory, id1: Result<string, Error>, id2: Result<string, Error>)
    requires CheckStatus(reply1).Success?
    ensures dir.fetches == 1
    ensures dir.stations == Some(reply1.body)
    ensures id1 == OrNotFound(HafasIdFromName(reply1.body, first))
    ensures id2 == OrNotFound(HafasIdFromName(reply1.body, second))
  {
    dir := new StationDirectory();
    id1 := dir.GetHafasIdFromName(first, reply1);
    id2 := dir.GetHafasIdFromName(second, reply2);
  }
}
