/** The stateless unit conversions and cost formulas of the energy calculator. */
module Calculator {

  /** Kilowatt-hours in one megawatt-hour. */
  const KwhPerMwh: real := 1000.0

  /** The default conversion efficiency of a solar installation. */
  const DefaultSolarEfficiency: real := 0.85

  /** Converts kilowatt-hours to megawatt-hours: the result, scaled back up, is the input. */
  function KwhToMwh(kwh: real): (mwh: real)
    ensures mwh * KwhPerMwh == kwh
    ensures kwh >= 0.0 ==> 0.0 <= mwh <= kwh
  {
    kwh / KwhPerMwh
  }

  /** Converts megawatt-hours to kilowatt-hours: the result, scaled back down, is the input. */
  function MwhToKwh(mwh: real): (kwh: real)
    ensures kwh / KwhPerMwh == mwh
    ensures mwh >= 0.0 ==> kwh >= mwh
  {
    mwh * KwhPerMwh
  }

  /** The two conversions are inverse to each other, in both orders. */
  lemma ConversionRoundTrip(x: real)
    ensures KwhToMwh(MwhToKwh(x)) == x
    ensures MwhToKwh(KwhToMwh(x)) == x
  {
  }

  /** The price of `kwh` kilowatt-hours at `ratePerKwh` per kilowatt-hour. */
  function CalculateCost(kwh: real, ratePerKwh: real): (cost: real)
    ensures kwh == 0.0 || ratePerKwh == 0.0 ==> cost == 0.0
    ensures kwh >= 0.0 && ratePerKwh >= 0.0 ==> cost >= 0.0
  {
    kwh * ratePerKwh
  }

  /** Splitting an amount of energy into two parts does not change its price. */
  lemma CostAdditive(kwh1: real, kwh2: real, ratePerKwh: real)
    ensures CalculateCost(kwh1 + kwh2, ratePerKwh)
         == CalculateCost(kwh1, ratePerKwh) + CalculateCost(kwh2, ratePerKwh)
  {
  }

  /** The energy used straight from one's own generation: the smaller of the two. */
  function SelfConsumed(generated: real, consumed: real): (kwh: real)
    ensures kwh <= generated && kwh <= consumed
    ensures kwh == generated || kwh == consumed
  {
    if generated <= consumed then generated else consumed
  }

  /**
   * What self-consumption saves at the grid's rate: the price of the energy
   * that did not have to be bought, which is the smaller of what was
   * generated and what was consumed.
   */
  function CalculateSavings(generated: real, consumed: real, gridRate: real): (savings: real)
    ensures savings == CalculateCost(generated, gridRate) || savings == CalculateCost(consumed, gridRate)
    ensures gridRate >= 0.0 ==> savings <= CalculateCost(generated, gridRate)
    ensures gridRate >= 0.0 ==> savings <= CalculateCost(consumed, gridRate)
    ensures gridRate <= 0.0 ==> savings >= CalculateCost(generated, gridRate)
    ensures gridRate <= 0.0 ==> savings >= CalculateCost(consumed, gridRate)
  {
    SelfConsumed(generated, consumed) * gridRate
  }

  /** A worked example: 50 kWh generated, 80 kWh consumed, grid rate 0.2, saves 10. */
  lemma SavingsExample()
    ensures CalculateSavings(50.0, 80.0, 0.2) == 10.0
  {
  }

  /**
   * Estimated output of a solar installation: capacity times sunshine hours
   * times efficiency. With an efficiency between 0 and 1 the estimate never
   * exceeds what the panels would give at full efficiency.
   */
  function EstimateSolarGeneration(panelCapacityKw: real, hoursSun: real,
                                   efficiency: real := DefaultSolarEfficiency): (kwh: real)
    ensures panelCapacityKw >= 0.0 && hoursSun >= 0.0 && 0.0 <= efficiency <= 1.0
            ==> 0.0 <= kwh <= panelCapacityKw * hoursSun
    ensures hoursSun == 0.0 || panelCapacityKw == 0.0 ==> kwh == 0.0
  {
    var full := panelCapacityKw * hoursSun;
    assert full >= 0.0 && 0.0 <= efficiency <= 1.0 ==> 0.0 <= full * efficiency <= full;
    full * efficiency
  }
}
