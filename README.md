# Saving calculator: a Dafny model

This project models the core of a shipment "saving" calculator written in
Python (`src/saving_calculator.py`). For each shipment row the calculator:

1. resolves the origin and destination cities to coordinates;
2. estimates the road distance between them;
3. derives the transit days at 650 km a day and the latest collection date;
4. counts how many days early the shipment was collected;
5. prices that earliness with the carrier's tariff: a storage saving from the
   per-pallet rate and the transshipment fee, plus a daily saving.

Coordinates come from three places, in order: a fixed override table, a
persistent cache, and an external geocoder. The geocoder is tried a bounded
number of times with the full "city, state" query, then once with the city
alone. The outcome is cached, including a `None` marker for a place that
could not be resolved, and the cache file is rewritten after every update.

The model has six modules:

- `CityKey` (normalize.dfy): city-name normalisation. The Unicode tables
  are parameters: decomposition, the Mn category test, the per-character
  upper-case mapping and the whitespace test.
- `Tariffs` (tariffs.dfy): the carrier table and the storage and daily
  savings. Money is in integer centavos; every tariff in the table is a
  whole number of reais.
- `Transit` (transit.dfy): transit days, the collection deadline and the
  days ahead. Dates are integer timestamps in seconds.
- `Geocoding` (geocoding.dfy): the key formats, the override table, and a
  pure specification of `get_coordinates` (`Resolve`), with lemmas for each
  path.
- `Resolver` (resolver.dfy): the resolver as a class. It holds the
  in-memory cache, the cache file's contents and the log of geocoder
  queries. Its methods update these in place and are proved to do what
  `Resolve` says.
- `Pipeline` (pipeline.dfy): `calcular_saving` over one row.

The geocoder is an oracle, a function from (queries already sent, query) to
`Found(coordinate) | NotFound | Timeout`. So the contracts can say how many
calls were made, with which queries, and which answer was used.

Three behaviours one might expect of the system are not what the code
does, and the model follows the code:

- A one-day minimum transit time: the code has no floor, so a zero
  distance gives zero transit days.
- A trailing ", " in every cache key: with an empty state the cache key is
  the bare city name; only the override key keeps the separator.
- Idempotent normalisation: the code does not guarantee it, because
  upper-casing runs after the combining marks are dropped, and the model
  does not claim it. `CityKey.NormalizeNotIdempotent` shows the failure for
  one invented set of tables. Whether real Unicode data ever triggers it is
  outside the model, which keeps the tables as parameters.

## Model

| member | source | states |
|---|---|---|
| CityKey.DropMarks | src/saving_calculator.py:38 | no character of the result is a combining mark (Mn); a character is in the result exactly when it is in the input and is not a mark |
| CityKey.DropMarksAppend | src/saving_calculator.py:38 | dropping marks distributes over concatenation and keeps a single character exactly when it is not a mark, so the result is all non-mark characters in order |
| CityKey.UpperAll | src/saving_calculator.py:38 | a character is in the upper-cased text exactly when it is in the upper-case mapping of some input character |
| CityKey.UpperAllAppend | src/saving_calculator.py:38 | upper-casing distributes over concatenation and maps one character to its own upper-case mapping, so the result is the mappings concatenated in input order |
| CityKey.Strip | src/saving_calculator.py:38 | the result is the slice of the input after its leading whitespace; everything after the slice is whitespace; neither end of the result is whitespace |
| CityKey.NormalizeCity | src/saving_calculator.py:35-38 | a non-string gives ""; a string gives its decomposed, mark-free, upper-cased text with exactly the surrounding whitespace removed: the result starts after the leading whitespace, only whitespace follows it, and neither end is whitespace |
| CityKey.NormalizeKeepsAll | src/saving_calculator.py:38 | when that text has no surrounding whitespace, the normalised name is all of it |
| CityKey.NormalizedFromUnmarked | src/saving_calculator.py:38 | every character of a normalised name is the upper case of a character of the decomposed input that was not a combining mark |
| CityKey.StateKey | src/saving_calculator.py:57 | a falsy state gives ""; a truthy one gives its normalised name, which is "" for a non-string such as a NaN cell |
| CityKey.CaronOnce | src/saving_calculator.py:38 | with the invented tables, normalising the letter keeps the caron that upper-casing adds |
| CityKey.CaronTwice | src/saving_calculator.py:38 | with the invented tables, normalising that result again drops the caron |
| CityKey.NormalizeNotIdempotent | src/saving_calculator.py:38 | for one invented set of tables (identity decomposition, an upper-case mapping that adds a caron), normalising twice differs from normalising once; the code does not guarantee idempotence |
| Tariffs.Lookup | src/saving_calculator.py:16-23 | every tariff looked up is non-negative; an unknown carrier gets the all-zero tariff |
| Tariffs.StorageSaving | src/saving_calculator.py:139-146 | for a non-negative tariff the four branches add up to the fee plus pallets times the per-pallet rate, which is never negative |
| Tariffs.DailySaving | src/saving_calculator.py:149 | never negative for a non-negative rate and days ahead; zero exactly when the rate or the days ahead are zero |
| Tariffs.DailyMonotone | src/saving_calculator.py:149 | with a non-negative daily rate, more days ahead never save less |
| Tariffs.TableStorage | src/saving_calculator.py:16-23 | the storage saving of each carrier in the table (A gives 2400 + 30 * 55 = 4050 reais) and carrier D's daily saving for 3 days (2700 reais) |
| Transit.TransitDays | src/saving_calculator.py:127 | the least whole number of 650 km days covering the distance: at least 1 for a positive distance, exactly 1 up to 650 km, at most 0 for a zero distance |
| Transit.Deadline | src/saving_calculator.py:128 | the deadline plus the transit days is the delivery date; it is never after delivery |
| Transit.DaysAhead | src/saving_calculator.py:130-131 | never negative; zero exactly when the collection is on or after the deadline; otherwise the gap rounded up to whole days |
| Transit.TransitBoundary | src/saving_calculator.py:127 | 650 km takes 1 day, 650.1 km takes 2, 0 km takes 0 |
| Transit.WholeDaysAhead | src/saving_calculator.py:130-131 | a collection exactly n days before the deadline is n days ahead |
| Geocoding.CacheKey | src/saving_calculator.py:58-61 | the cache key equals the override key exactly when the state is not empty; with an empty state it is the bare city |
| Geocoding.Retry | src/saving_calculator.py:69-79 | the retry loop makes at most n calls, exactly n when it finds nothing, at least one when it finds something |
| Geocoding.RetryFacts | src/saving_calculator.py:69-79 | every answer before the last was not a location; a found result is the last answer; a `None` result means no answer was a location |
| Geocoding.Resolve | src/saving_calculator.py:55-94 | at most `Rounds(retries)` + 1 geocoder calls, where `Rounds(retries)` is `retries`, or 0 when it is not positive; the cache is unchanged, or the cache key was absent and now holds the result |
| Geocoding.Fetch | src/saving_calculator.py:68-94 | the miss path makes between 1 and `Rounds(retries)` + 1 calls (`retries`, or 0 when not positive, plus the fallback), exactly that many when the result is `None`, and stores its result under the cache key |
| Geocoding.OverrideBypassesCache | src/saving_calculator.py:60-62 | a place in the override table gets the table's coordinate, with no geocoder call and the cache unchanged |
| Geocoding.NoOverrideWithoutState | src/saving_calculator.py:26-32 | with an empty state the override key never matches the table |
| Geocoding.CacheHitIsReturned | src/saving_calculator.py:64-66 | a cached entry, a coordinate or `None`, is returned as it is, with no geocoder call and the cache unchanged |
| Geocoding.CacheMiss | src/saving_calculator.py:68-94 | on a miss: all calls but the last asked the full query and found nothing; the fallback is asked once, only after every round; the result is the last answer; a `None` result comes only after every round and the fallback were asked; it is cached under the key and nothing else changes |
| Geocoding.ResolveAgain | src/saving_calculator.py:64-92 | asking again for the same place returns the first result with no geocoder call and no cache change, so a place cached as unresolvable stays unresolved |
| Resolver.CoordinateResolver.constructor | src/saving_calculator.py:43-49 | the cache starts as the file's contents, or empty when there is no file |
| Resolver.CoordinateResolver.SaveCache | src/saving_calculator.py:51-53 | the file now holds the whole in-memory cache |
| Resolver.CoordinateResolver.Ask | src/saving_calculator.py:71 | one geocoder call, appended to the query log |
| Resolver.CoordinateResolver.GetCoordinates | src/saving_calculator.py:55-94 | the result, new cache and queries sent are those of `Resolve`; whenever the cache changes the file is rewritten to match it, otherwise the file is untouched |
| Resolver.CoordinateResolver.Fetch | src/saving_calculator.py:68-94 | the miss path does what `Geocoding.Fetch` says and leaves the file equal to the cache |
| Resolver.CoordinateResolver.RetryLoop | src/saving_calculator.py:69-79 | the loop does what `Geocoding.Retry` says; the first location found is cached and saved; if none is found, cache and file are untouched |
| Pipeline.RowSavings | src/saving_calculator.py:127-151 | total = storage + daily; transit days are the ceiling of distance / 650; the deadline is delivery less the transit days; days ahead are zero exactly when the collection is not before the deadline and otherwise the gap rounded up to whole days; storage and daily savings follow the carrier's tariff; all savings are non-negative; an unknown carrier saves nothing |
| Pipeline.CalcularSaving | src/saving_calculator.py:105-161 | both endpoints are resolved, origin first; every field is absent exactly when either endpoint is unresolved; otherwise the fields are `RowSavings` of the distance between the two |
| Pipeline.ShortTripDailyCarrier | src/saving_calculator.py:127-151 | a trip of at most 650 km with carrier D, collected 3 days before the deadline, gives transit 1, days ahead 3 and 2700 reais, all daily |
| Pipeline.UnknownCarrierSavesNothing | src/saving_calculator.py:134 | any carrier not in the table has zero storage, daily and total saving, whatever the distance and dates |

## Left out

- The haversine distance and the 1.15 road factor (floating-point trigonometry). `CalcularSaving` takes the road distance as a function of the two coordinates.
- Rounding the distance to two decimals and formatting the deadline as day/month/year on output.
- Date parsing by pandas, and the not-a-time values it yields for unparseable dates. Dates are integer timestamps in whole seconds, so sub-second times and floating-point rounding of the day count are not modelled.
- Money is exact integer centavos, not floating point.
- The network call itself, the pauses between calls, and any geocoder exception other than a timeout. The geocoder is an oracle.
- JSON serialisation of the cache file, the SSL setting, and reading and writing the spreadsheets in the main block. The file is a field holding the cache it contains.
- The real Unicode decomposition, category, upper-case and whitespace tables. They are parameters; no idempotence is claimed.
- Tariffs.StorageSaving: its contract gives the result only for non-negative tariffs, the only kind the table holds (`Tariffs.Lookup` guarantees it); the body still follows all four branches for any tariff.
