/** Transit scheduling: transit days from the road distance at 650 km a day,
    the latest collection date, and the days a shipment was collected ahead
    of it. Dates are integer timestamps in seconds. */
module Transit {

  const KmPerDay: real := 650.0
  const SecondsPerDay: int := 86400

  /** The least whole number of 650 km days that covers the distance (the
      ceiling of `dist / 650`). No floor of one day is applied. */
  function TransitDays(dist: real): (d: int)
    ensures ((d - 1) as real) * KmPerDay < dist <= (d as real) * KmPerDay
    ensures dist > 0.0 ==> d >= 1
    ensures dist <= 0.0 ==> d <= 0
    ensures 0.0 < dist <= KmPerDay ==> d == 1
  {
    -((-dist / KmPerDay).Floor)
  }

  /** The latest collection date: the delivery date less the transit days. */
  function Deadline(delivery: int, transitDays: int): (t: int)
    ensures transitDays >= 0 ==> t <= delivery
    ensures t + transitDays * SecondsPerDay == delivery
  {
    delivery - transitDays * SecondsPerDay
  }

  /** The whole days, rounded up, by which the collection precedes the
      deadline; zero when it is on or after the deadline. */
  function DaysAhead(deadline: int, collection: int): (n: int)
    ensures n >= 0
    ensures n == 0 <==> collection >= deadline
    ensures n > 0 ==> (n - 1) * SecondsPerDay < deadline - collection <= n * SecondsPerDay
  {
    var delta := deadline - collection;
    var days := -((-delta) / SecondsPerDay);
    if days > 0 then days else 0
  }

  /** The two boundary distances: 650 km is one day, 650.1 km is two. */
  lemma TransitBoundary()
    ensures TransitDays(650.0) == 1
    ensures TransitDays(650.1) == 2
    ensures TransitDays(0.0) == 0
  {
  }

  /** A shipment collected a whole number of days before the deadline is
      that many days ahead. */
  lemma WholeDaysAhead(deadline: int, days: nat)
    ensures DaysAhead(deadline, deadline - days * SecondsPerDay) == days
  {
  }
}
