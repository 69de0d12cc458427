/** The carrier tariff table (`valores_transportadoras`) and the two savings
    it drives: storage (per-pallet cost and transshipment fee) and daily
    holding. Money is in integer centavos: every tariff in the table is a
    whole number of reais. */
module Tariffs {

  /** Per-carrier costs, in centavos. */
  datatype Tariff = Tariff(perPallet: int, transshipment: int, daily: int)

  predicate NonNegative(t: Tariff)
  {
    t.perPallet >= 0 && t.transshipment >= 0 && t.daily >= 0
  }

  /** The tariff of a carrier that is not in the table. */
  const Zero := Tariff(0, 0, 0)

  /** Pallets per shipment (`qtd_paletes`). */
  const Pallets := 30

  const Carriers: map<string, Tariff> := map[
    "TRANSPORTADORA_A" := Tariff(5500, 240000, 0),
    "TRANSPORTADORA_B" := Tariff(3300, 190000, 0),
    "TRANSPORTADORA_C" := Tariff(3200, 0, 0),
    "TRANSPORTADORA_D" := Tariff(0, 0, 90000),
    "TRANSPORTADORA_E" := Tariff(0, 0, 75000),
    "TRANSPORTADORA_F" := Tariff(8000, 0, 0)]

  /** The carrier's tariff: every tariff it yields is non-negative, and a
      carrier that is not in the table gets the zero one. */
  function Lookup(carrier: string): (t: Tariff)
    ensures NonNegative(t)
    ensures carrier !in Carriers ==> t == Zero
    ensures t != Zero ==> carrier in Carriers
  {
    if carrier in Carriers then Carriers[carrier] else Zero
  }

  /** Storage saving, the four-way branch on the per-pallet rate and the
      transshipment fee. For a non-negative tariff the branches add up to
      one formula: the fee plus the pallets' cost. */
  function StorageSaving(t: Tariff, pallets: int): (r: int)
    ensures NonNegative(t) ==> r == t.transshipment + pallets * t.perPallet
    ensures NonNegative(t) && pallets >= 0 ==> r >= 0
  {
    if t.perPallet > 0 && t.transshipment > 0 then t.transshipment + pallets * t.perPallet
    else if t.perPallet > 0 && t.transshipment == 0 then pallets * t.perPallet
    else if t.perPallet == 0 && t.transshipment > 0 then t.transshipment
    else 0
  }

  /** Daily saving: the daily rate times the days collected ahead. */
  function DailySaving(t: Tariff, daysAhead: int): (r: int)
    ensures NonNegative(t) && daysAhead >= 0 ==> r >= 0
    ensures r == 0 <==> t.daily == 0 || daysAhead == 0
  {
    t.daily * daysAhead
  }

  /** With a non-negative daily rate, collecting earlier never saves less. */
  lemma DailyMonotone(t: Tariff, d1: int, d2: int)
    requires NonNegative(t) && d1 <= d2
    ensures DailySaving(t, d1) <= DailySaving(t, d2)
  {
    assert t.daily * d2 - t.daily * d1 == t.daily * (d2 - d1);
  }

  /** Every tariff in the table, with the storage saving it yields. */
  lemma TableStorage()
    ensures StorageSaving(Lookup("TRANSPORTADORA_A"), Pallets) == 405000
    ensures StorageSaving(Lookup("TRANSPORTADORA_B"), Pallets) == 289000
    ensures StorageSaving(Lookup("TRANSPORTADORA_C"), Pallets) == 96000
    ensures StorageSaving(Lookup("TRANSPORTADORA_D"), Pallets) == 0
    ensures StorageSaving(Lookup("TRANSPORTADORA_E"), Pallets) == 0
    ensures StorageSaving(Lookup("TRANSPORTADORA_F"), Pallets) == 240000
    ensures DailySaving(Lookup("TRANSPORTADORA_D"), 3) == 270000
  {
  }
}
