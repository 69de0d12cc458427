/** `calcular_saving`: one shipment row in, seven result fields out. Both
    endpoints are resolved first; if either is unresolved every field is
    absent, otherwise the road distance drives the transit days, the
    collection deadline and the days ahead, and the carrier's tariff gives
    the savings. */
module Pipeline {
  import opened CityKey
  import opened Geocoding
  import opened Resolver
  import opened Tariffs
  import opened Transit

  /** One spreadsheet row, with its dates as timestamps in seconds. */
  datatype ShipmentRow = ShipmentRow(
    originCity: PyValue, originUf: PyValue,
    destCity: PyValue, destUf: PyValue,
    carrier: string,
    collection: int, delivery: int)

  /** The seven result fields, or all of them absent. */
  datatype RowResult =
    | AllAbsent
    | Computed(distanceKm: real, transitDays: int, deadline: int, daysAhead: int,
               dailySaving: int, storageSaving: int, totalSaving: int)

  /** The number of retries `calcular_saving` leaves at its default. */
  const DefaultRetries := 3

  /** The computation for a row whose endpoints are resolved, given the road
      distance between them. */
  function RowSavings(dist: real, carrier: string, collection: int, delivery: int): (r: RowResult)
    ensures r.Computed? && r.distanceKm == dist
    ensures r.totalSaving == r.storageSaving + r.dailySaving
    ensures r.deadline + r.transitDays * SecondsPerDay == delivery
    ensures ((r.transitDays - 1) as real) * KmPerDay < dist <= (r.transitDays as real) * KmPerDay
    ensures dist > 0.0 ==> r.transitDays >= 1
    ensures r.daysAhead >= 0 && (r.daysAhead == 0 <==> collection >= r.deadline)
    ensures r.daysAhead > 0 ==>
      (r.daysAhead - 1) * SecondsPerDay < r.deadline - collection <= r.daysAhead * SecondsPerDay
    ensures r.dailySaving >= 0 && r.storageSaving >= 0 && r.totalSaving >= 0
    ensures carrier !in Carriers ==> r.totalSaving == 0
    ensures r.storageSaving == Lookup(carrier).transshipment + Pallets * Lookup(carrier).perPallet
    ensures r.dailySaving == Lookup(carrier).daily * r.daysAhead
  {
    var transit := TransitDays(dist);
    var deadline := Deadline(delivery, transit);
    var ahead := DaysAhead(deadline, collection);
    var tariff := Lookup(carrier);
    var storage := StorageSaving(tariff, Pallets);
    var daily := DailySaving(tariff, ahead);
    Computed(dist, transit, deadline, ahead, daily, storage, storage + daily)
  }

  /** `calcular_saving(row)`: resolve the origin, then the destination
      (both always), then either give up with every field absent or compute
      the fields from the road distance `distance` between the two. */
  method CalcularSaving(res: CoordinateResolver, row: ShipmentRow, distance: (Coord, Coord) -> real)
    returns (r: RowResult)
    requires res.Valid()
    modifies res`cache, res`file, res`sent
    ensures res.Valid()
    ensures var o := Resolve(old(res.cache), old(res.sent), row.originCity, row.originUf,
                             DefaultRetries, res.geocoder, res.tables);
      var d := Resolve(o.cache, old(res.sent) + o.issued, row.destCity, row.destUf,
                       DefaultRetries, res.geocoder, res.tables);
      && res.cache == d.cache
      && res.sent == old(res.sent) + o.issued + d.issued
      && (r.AllAbsent? <==> o.result.None? || d.result.None?)
      && (r.Computed? ==> r == RowSavings(distance(o.result.value, d.result.value),
                                         row.carrier, row.collection, row.delivery))
  {
    var origin := res.GetCoordinates(row.originCity, row.originUf, DefaultRetries);
    var destination := res.GetCoordinates(row.destCity, row.destUf, DefaultRetries);
    if origin.None? || destination.None? {
      return AllAbsent;
    }
    r := RowSavings(distance(origin.value, destination.value), row.carrier, row.collection, row.delivery);
  }

  /** A carrier with a daily rate of 900 reais, a short trip (one day) and a
      collection three days before the deadline: 2700 reais, all of it
      daily saving. */
  lemma ShortTripDailyCarrier(dist: real, delivery: int)
    requires 0.0 < dist <= KmPerDay
    ensures RowSavings(dist, "TRANSPORTADORA_D", delivery - 4 * SecondsPerDay, delivery)
         == Computed(dist, 1, delivery - SecondsPerDay, 3, 270000, 0, 270000)
  {
  }

  /** A carrier that is not in the table saves nothing, however early the
      collection. */
  lemma UnknownCarrierSavesNothing(dist: real, carrier: string, collection: int, delivery: int)
    requires carrier !in Carriers
    ensures var r := RowSavings(dist, carrier, collection, delivery);
      r.storageSaving == 0 && r.dailySaving == 0 && r.totalSaving == 0
  {
  }
}
