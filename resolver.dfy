/** The coordinate resolver as the source runs it: a cache dictionary that
    `get_coordinates` updates in place and writes to the cache file after
    every update, and a geocoder that is asked one query at a time. */
module Resolver {
  import opened CityKey
  import opened Geocoding

  class CoordinateResolver {
    /** `coord_cache`, in memory. */
    var cache: Cache
    /** The contents of `coord_cache.json`; `None` while the file does not
        exist. */
    var file: Option<Cache>
    /** Every query sent to the geocoder so far, in order. */
    var sent: seq<string>
    /** The geocoder (`Nominatim`) and the Unicode data the normaliser uses. */
    const geocoder: Geocoder
    const tables: UnicodeTables

    /** The file holds what is in memory; with no file, the cache is empty. */
    ghost predicate Valid()
      reads this
    {
      match file
      case Some(stored) => stored == cache
      case None => cache == map[]
    }

    /** Start-up: load the cache file if it exists, else start empty. */
    constructor (stored: Option<Cache>, geocoder: Geocoder, tables: UnicodeTables)
      ensures Valid()
      ensures cache == (if stored.Some? then stored.value else map[])
      ensures file == stored && sent == []
      ensures this.geocoder == geocoder && this.tables == tables
    {
      cache := if stored.Some? then stored.value else map[];
      file := stored;
      sent := [];
      this.geocoder := geocoder;
      this.tables := tables;
    }

    /** `save_cache`: rewrite the file with the whole cache. */
    method SaveCache()
      modifies this`file
      ensures file == Some(cache)
      ensures Valid()
    {
      file := Some(cache);
    }

    /** One call to the geocoder, remembered in `sent`. */
    method Ask(query: string) returns (answer: GeoAnswer)
      modifies this`sent
      ensures answer == geocoder(old(sent), query)
      ensures sent == old(sent) + [query]
    {
      answer := geocoder(sent, query);
      sent := sent + [query];
    }

    /** `get_coordinates(city, uf, retries)`: does what `Resolve` says, and
        whenever it writes the cache it saves it before returning. */
    method GetCoordinates(city: PyValue, uf: PyValue, retries: int) returns (r: Option<Coord>)
      requires Valid()
      modifies this`cache, this`file, this`sent
      ensures Valid()
      ensures var res := Resolve(old(cache), old(sent), city, uf, retries, geocoder, tables);
        r == res.result && cache == res.cache && sent == old(sent) + res.issued
      ensures cache == old(cache) ==> file == old(file)
      ensures cache != old(cache) ==> file == Some(cache)
    {
      var c := NormalizeCity(city, tables);
      var u := StateKey(uf, tables);
      var q := CacheKey(c, u);
      if OverrideKey(c, u) in Overrides {
        return Some(Overrides[OverrideKey(c, u)]);
      }
      if q in cache {
        return cache[q];
      }
      r := Fetch(c, u, retries);
    }

    /** The cache-miss path: the retry loop, then, if it found nothing, the
        city alone once; store and save what was found, or `None`. */
    method Fetch(c: string, u: string, retries: int) returns (r: Option<Coord>)
      requires Valid()
      requires CacheKey(c, u) !in cache
      modifies this`cache, this`file, this`sent
      ensures Valid() && file == Some(cache)
      ensures var res := Geocoding.Fetch(old(cache), old(sent), c, u, retries, geocoder);
        r == res.result && cache == res.cache && sent == old(sent) + res.issued
    {
      var q := CacheKey(c, u);
      r := RetryLoop(q, FullQuery(c, u), Rounds(retries));
      if r.Some? {
        return;
      }
      var answer := Ask(CityQuery(c));
      if answer.Found? {
        cache := cache[q := Some(answer.at)];
        SaveCache();
        return Some(answer.at);
      }
      cache := cache[q := None];
      SaveCache();
      return None;
    }

    /** The retry loop: ask `full` until the geocoder finds it; the
        first location found is stored under `q`, saved and returned. When
        nothing is found the cache and the file are left alone. */
    method RetryLoop(q: string, full: string, n: nat) returns (r: Option<Coord>)
      requires Valid()
      modifies this`cache, this`file, this`sent
      ensures Valid()
      ensures var a := Retry(geocoder, old(sent), full, n);
        r == a.found && sent == old(sent) + Repeat(full, a.calls)
      ensures r.Some? ==> cache == old(cache)[q := r] && file == Some(cache)
      ensures r.None? ==> cache == old(cache) && file == old(file)
    {
      ghost var sent0 := sent;
      ghost var whole := Retry(geocoder, sent0, full, n);
      var i := 0;
      while i < n
        invariant 0 <= i <= n
        invariant cache == old(cache) && file == old(file)
        invariant sent == sent0 + Repeat(full, i)
        invariant var rest := Retry(geocoder, sent, full, n - i);
          whole.found == rest.found && whole.calls == i + rest.calls
      {
        RetryStep(geocoder, sent, full, n - i);
        var answer := Ask(full);
        if answer.Found? {
          cache := cache[q := Some(answer.at)];
          SaveCache();
          return Some(answer.at);
        }
        i := i + 1;
      }
      return None;
    }
  }
}
