/** What `get_coordinates` computes, as functions of the cache, the queries
    already sent to the geocoder, and the inputs: the key formats, the fixed
    override table, the retry loop and its city-only fallback, and the entry
    written back to the cache. The class in resolver.dfy is proved to do
    exactly this. */
module Geocoding {
  import opened CityKey

  datatype Option<+T> = None | Some(value: T)

  /** A (latitude, longitude) pair in degrees. */
  datatype Coord = Coord(lat: real, lon: real)

  /** What one geocoder call gives: a location, nothing, or a timeout
      (`GeocoderTimedOut`, caught by the resolver). */
  datatype GeoAnswer = Found(at: Coord) | NotFound | Timeout

  /** The external geocoder, as an oracle: its answer to a query may depend
      on the query and on every query sent to it before. */
  type Geocoder = (seq<string>, string) -> GeoAnswer

  /** The cache: normalised key to a coordinate, or `None` for a place that
      could not be resolved. A key that is absent has never been looked up. */
  type Cache = map<string, Option<Coord>>

  /** `coordenadas_fixas`, keyed by "CITY, UF". */
  const Overrides: map<string, Coord> := map[
    "SAO PAULO, SP" := Coord(-23.5505, -46.6333),
    "CAMPINAS, SP" := Coord(-22.9056, -47.0608),
    "CURITIBA, PR" := Coord(-25.4284, -49.2733),
    "RIO DE JANEIRO, RJ" := Coord(-22.9068, -43.1729)]

  /** The override key: city, comma, space, state. It keeps the separator
      even when the state is empty. */
  function OverrideKey(city: string, uf: string): string
  {
    city + ", " + uf
  }

  /** The cache key: "CITY, UF", or just "CITY" when the state is empty.
      It coincides with the override key exactly when the state is not
      empty. */
  function CacheKey(city: string, uf: string): (k: string)
    ensures k == OverrideKey(city, uf) <==> uf != []
    ensures uf == [] ==> k == city
  {
    if uf != [] then OverrideKey(city, uf) else city
  }

  /** The geocoder query of the retry loop, "CITY, UF, Brazil". */
  function FullQuery(city: string, uf: string): string
  {
    city + ", " + uf + ", Brazil"
  }

  /** The query of the fallback, "CITY, Brazil". */
  function CityQuery(city: string): string
  {
    city + ", Brazil"
  }

  /** `k` copies of the query `q`: what `k` rounds of the retry loop send. */
  function Repeat(q: string, k: nat): (s: seq<string>)
    ensures |s| == k
    ensures forall i :: 0 <= i < k ==> s[i] == q
  {
    if k == 0 then [] else Repeat(q, k - 1) + [q]
  }

  /** Outcome of the retry loop: the coordinate found, if any, and the
      number of geocoder calls it made. */
  datatype Attempts = Attempts(found: Option<Coord>, calls: nat)

  /** The retry loop: ask `geo` for `q` until it finds it, at most `n`
      times. A miss and a timeout both mean "try again". */
  function Retry(geo: Geocoder, sent: seq<string>, q: string, n: nat): (a: Attempts)
    ensures a.calls <= n
    ensures a.found.None? ==> a.calls == n
    ensures a.found.Some? ==> a.calls >= 1
    decreases n
  {
    if n == 0 then Attempts(None, 0)
    else match geo(sent, q)
      case Found(c) => Attempts(Some(c), 1)
      case _ =>
        var rest := Retry(geo, sent + [q], q, n - 1);
        Attempts(rest.found, rest.calls + 1)
  }

  /** One round of the retry loop. */
  lemma RetryStep(geo: Geocoder, sent: seq<string>, q: string, n: nat)
    requires n > 0
    ensures var a := Retry(geo, sent, q, n);
      if geo(sent, q).Found? then a == Attempts(Some(geo(sent, q).at), 1)
      else a.found == Retry(geo, sent + [q], q, n - 1).found &&
           a.calls == Retry(geo, sent + [q], q, n - 1).calls + 1
  {
  }

  /** Every answer before the last was not a location; the result is the
      last answer when that was a location, and no answer was a location
      when the result is `None`. */
  lemma {:induction false} RetryFacts(geo: Geocoder, sent: seq<string>, q: string, n: nat)
    ensures var a := Retry(geo, sent, q, n);
      && (a.found.Some? ==> geo(sent + Repeat(q, a.calls - 1), q) == Found(a.found.value))
      && (forall i :: 0 <= i < a.calls && (a.found.None? || i < a.calls - 1) ==>
            !geo(sent + Repeat(q, i), q).Found?)
    decreases n
  {
    var a := Retry(geo, sent, q, n);
    if n == 0 {
    } else if geo(sent, q).Found? {
      assert sent + Repeat(q, 0) == sent;
    } else {
      var rest := Retry(geo, sent + [q], q, n - 1);
      RetryFacts(geo, sent + [q], q, n - 1);
      forall i | 0 <= i < a.calls && (a.found.None? || i < a.calls - 1)
        ensures !geo(sent + Repeat(q, i), q).Found?
      {
        if i == 0 {
          assert sent + Repeat(q, i) == sent;
        } else {
          assert sent + Repeat(q, i) == (sent + [q]) + Repeat(q, i - 1);
        }
      }
      if a.found.Some? {
        assert sent + Repeat(q, a.calls - 1) == (sent + [q]) + Repeat(q, rest.calls - 1);
      }
    }
  }

  /** The full outcome of one `get_coordinates` call. */
  datatype Resolution = Resolution(result: Option<Coord>, cache: Cache, issued: seq<string>)

  /** The number of rounds of the retry loop: `retries`, or none when it
      is not positive. */
  function Rounds(retries: int): nat
  {
    if retries > 0 then retries else 0
  }

  /** `get_coordinates(city, uf, retries)` on the given cache, after `sent`
      has already gone to the geocoder. */
  function Resolve(cache: Cache, sent: seq<string>, city: PyValue, uf: PyValue, retries: int,
                   geo: Geocoder, t: UnicodeTables): (res: Resolution)
    ensures |res.issued| <= Rounds(retries) + 1
    ensures var q := CacheKey(NormalizeCity(city, t), StateKey(uf, t));
      res.cache == cache || (q !in cache && res.cache == cache[q := res.result])
  {
    var c := NormalizeCity(city, t);
    var u := StateKey(uf, t);
    var q := CacheKey(c, u);
    if OverrideKey(c, u) in Overrides then Resolution(Some(Overrides[OverrideKey(c, u)]), cache, [])
    else if q in cache then Resolution(cache[q], cache, [])
    else Fetch(cache, sent, c, u, retries, geo)
  }

  /** The cache-miss path of `get_coordinates` for the normalised city `c`
      and state `u`: the retry loop, then the city-only fallback, and the
      outcome stored under the cache key. */
  function Fetch(cache: Cache, sent: seq<string>, c: string, u: string, retries: int, geo: Geocoder): (res: Resolution)
    ensures 1 <= |res.issued| <= Rounds(retries) + 1
    ensures res.result.None? ==> |res.issued| == Rounds(retries) + 1
    ensures res.cache == cache[CacheKey(c, u) := res.result]
  {
    var first := Retry(geo, sent, FullQuery(c, u), Rounds(retries));
    var tried := Repeat(FullQuery(c, u), first.calls);
    if first.found.Some? then Resolution(first.found, cache[CacheKey(c, u) := first.found], tried)
    else
      var last := geo(sent + tried, CityQuery(c));
      var r := if last.Found? then Some(last.at) else None;
      Resolution(r, cache[CacheKey(c, u) := r], tried + [CityQuery(c)])
  }

  /** A place in the override table is answered from it: no geocoder call,
      and the cache is neither read nor written. */
  lemma OverrideBypassesCache(cache: Cache, sent: seq<string>, city: PyValue, uf: PyValue, retries: int,
                              geo: Geocoder, t: UnicodeTables)
    requires OverrideKey(NormalizeCity(city, t), StateKey(uf, t)) in Overrides
    ensures var res := Resolve(cache, sent, city, uf, retries, geo, t);
      res.result == Some(Overrides[OverrideKey(NormalizeCity(city, t), StateKey(uf, t))]) &&
      res.cache == cache && res.issued == []
  {
  }

  /** With an empty state the override key ends in ", ", which no entry of
      the table does, so such a place always goes to the cache. */
  lemma NoOverrideWithoutState(city: string)
    ensures OverrideKey(city, []) !in Overrides
  {
    var k := OverrideKey(city, []);
    assert k[|k| - 1] == ' ';
    forall o | o in Overrides ensures o[|o| - 1] != ' ' {
    }
  }

  /** A cached entry, a coordinate or the `None` of an earlier failure, is
      returned as it is, with no geocoder call and the cache unchanged. */
  lemma CacheHitIsReturned(cache: Cache, sent: seq<string>, city: PyValue, uf: PyValue, retries: int,
                           geo: Geocoder, t: UnicodeTables)
    requires OverrideKey(NormalizeCity(city, t), StateKey(uf, t)) !in Overrides
    requires CacheKey(NormalizeCity(city, t), StateKey(uf, t)) in cache
    ensures var res := Resolve(cache, sent, city, uf, retries, geo, t);
      res.result == cache[CacheKey(NormalizeCity(city, t), StateKey(uf, t))] &&
      res.cache == cache && res.issued == []
  {
  }

  /** On a cache miss: every call but the last asked the full query and
      found nothing; the last call's answer is the result; the city-only
      fallback is asked once, and only after all `retries` rounds failed;
      a `None` result comes only after every round and the fallback were
      asked, and all of them failed; and the result is written under the
      cache key, the only entry that changes. */
  lemma {:induction false} CacheMiss(cache: Cache, sent: seq<string>, city: PyValue, uf: PyValue, retries: int,
                                     geo: Geocoder, t: UnicodeTables)
    requires OverrideKey(NormalizeCity(city, t), StateKey(uf, t)) !in Overrides
    requires CacheKey(NormalizeCity(city, t), StateKey(uf, t)) !in cache
    ensures var c, u := NormalizeCity(city, t), StateKey(uf, t);
      var res := Resolve(cache, sent, city, uf, retries, geo, t);
      var n := |res.issued|;
      && res.cache == cache[CacheKey(c, u) := res.result]
      && 1 <= n <= Rounds(retries) + 1
      && (forall i :: 0 <= i < n - 1 ==>
            res.issued[i] == FullQuery(c, u) && !geo(sent + res.issued[..i], FullQuery(c, u)).Found?)
      && (res.issued[n - 1] == CityQuery(c) <==> n == Rounds(retries) + 1)
      && (res.issued[n - 1] != CityQuery(c) ==> res.issued[n - 1] == FullQuery(c, u))
      && (res.result.Some? <==> geo(sent + res.issued[..n - 1], res.issued[n - 1]).Found?)
      && (res.result.Some? ==> res.result.value == geo(sent + res.issued[..n - 1], res.issued[n - 1]).at)
      && (res.result.None? ==> n == Rounds(retries) + 1)
  {
    var c, u := NormalizeCity(city, t), StateKey(uf, t);
    var full, short := FullQuery(c, u), CityQuery(c);
    assert |full| != |short|;
    var first := Retry(geo, sent, full, Rounds(retries));
    RetryFacts(geo, sent, full, Rounds(retries));
    var tried := Repeat(full, first.calls);
    var res := Resolve(cache, sent, city, uf, retries, geo, t);
    forall i | 0 <= i <= first.calls
      ensures tried[..i] == Repeat(full, i)
    {
    }
    if first.found.Some? {
      assert res.issued == tried;
    } else {
      assert res.issued == tried + [short];
      assert res.issued[..|res.issued| - 1] == tried;
      forall i | 0 <= i < |res.issued| - 1
        ensures res.issued[..i] == tried[..i]
      {
      }
    }
  }

  /** Asking again for the same place, with any geocoder, history or retry
      count, gives the first answer from the cache (or the override table)
      with no geocoder call and no cache change; in particular a place
      cached as unresolvable stays unresolved. */
  lemma ResolveAgain(cache: Cache, sent: seq<string>, city: PyValue, uf: PyValue, retries: int,
                     geo: Geocoder, t: UnicodeTables,
                     sent2: seq<string>, retries2: int, geo2: Geocoder)
    ensures var res := Resolve(cache, sent, city, uf, retries, geo, t);
      Resolve(res.cache, sent2, city, uf, retries2, geo2, t) == Resolution(res.result, res.cache, [])
  {
  }
}
