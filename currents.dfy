/** Three-phase direct measurement (Scripts/corrientes.js, `calcularPorCorrientes`):
    apparent power from the line voltage and current of phases R, S and T, a fixed
    power factor of 0.9, Variant B for demand and capacity, and consumption over
    the configured hours per month. */
module Currents {
  import opened Wrappers
  import opened Common
  import opened Demand

  /** The six form fields as parsed numbers (or blank / not a number). */
  datatype PhaseReadings = PhaseReadings(
    voltageR: Field<real>, voltageS: Field<real>, voltageT: Field<real>,
    currentR: Field<real>, currentS: Field<real>, currentT: Field<real>)

  /** The power factor this path assumes. */
  const AssumedPowerFactor: real := 0.9

  /** `parseFloat(x) || 0`: a blank or non-numeric field counts as 0. */
  function ReadingOrZero(f: Field<real>): (v: real)
    ensures f.Parsed? ==> v == f.value
    ensures !f.Parsed? ==> v == 0.0
  {
    RealOr(f, 0.0)
  }

  /** Apparent power in kVA: the sum of V times I over the three phases, over 1000. */
  function ApparentKva(p: PhaseReadings): (kva: real)
    ensures kva * 1000.0 == ReadingOrZero(p.voltageR) * ReadingOrZero(p.currentR)
      + ReadingOrZero(p.voltageS) * ReadingOrZero(p.currentS)
      + ReadingOrZero(p.voltageT) * ReadingOrZero(p.currentT)
    ensures NonNegativeReadings(p) ==> kva >= 0.0
    ensures ((NoReading(p.voltageR) || NoReading(p.currentR))
             && (NoReading(p.voltageS) || NoReading(p.currentS))
             && (NoReading(p.voltageT) || NoReading(p.currentT))) ==> kva == 0.0
  {
    PhaseNonNegative(p.voltageR, p.currentR);
    PhaseNonNegative(p.voltageS, p.currentS);
    PhaseNonNegative(p.voltageT, p.currentT);
    (ReadingOrZero(p.voltageR) * ReadingOrZero(p.currentR)
     + ReadingOrZero(p.voltageS) * ReadingOrZero(p.currentS)
     + ReadingOrZero(p.voltageT) * ReadingOrZero(p.currentT)) / 1000.0
  }

  /** `calcularPorCorrientes`. The commercial tariff is taken from DAC (not CTC) and
      the monthly consumption from the active power before its 1 kVA floor. */
  function CalculateByCurrents(p: PhaseReadings, cfg: RateConfig): (r: BillingResult)
    requires UsableConfig(cfg)
    ensures r.apparentKva == ApparentKva(p)
    ensures r.activePower == AssumedPowerFactor * r.apparentKva
    ensures r.dac >= 1.0 && r.dac >= r.activePower && r.ctc >= r.dac
    ensures r.dac > 5.0 ==> r.ctc == 2.5 * r.dac
    ensures r.dac == MaxReal(r.activePower, 1.0) && r.ctc == CapacityFromDemand(r.dac)
    ensures r.monthlyKwh == r.activePower * cfg.hoursPerMonth
    ensures r.dailyKwh * cfg.daysPerMonth == r.monthlyKwh
    ensures r.residential == ResidentialTariff(r.monthlyKwh)
    ensures r.commercial == CommercialTariff(r.dac)
    ensures r.costs == CostsFor(r.monthlyKwh, r.dac, cfg)
  {
    var apparent := ApparentKva(p);
    var active := apparent * AssumedPowerFactor;
    var policy := DirectPolicy(active);
    var monthly := active * cfg.hoursPerMonth;
    var daily := monthly / cfg.daysPerMonth;
    BillingResult(apparent, active, policy.ctc, policy.dac, monthly, daily,
                  ResidentialTariff(monthly), CommercialTariff(policy.dac),
                  CostsFor(monthly, policy.dac, cfg))
  }

  /** Every reading that was entered is 0 or more. */
  predicate NonNegativeReadings(p: PhaseReadings)
  {
    && ReadingOrZero(p.voltageR) >= 0.0 && ReadingOrZero(p.voltageS) >= 0.0 && ReadingOrZero(p.voltageT) >= 0.0
    && ReadingOrZero(p.currentR) >= 0.0 && ReadingOrZero(p.currentS) >= 0.0 && ReadingOrZero(p.currentT) >= 0.0
  }

  /** One phase's V times I is 0 or more when both readings are, and 0 when either is missing or 0. */
  lemma PhaseNonNegative(v: Field<real>, i: Field<real>)
    ensures ReadingOrZero(v) >= 0.0 && ReadingOrZero(i) >= 0.0 ==> ReadingOrZero(v) * ReadingOrZero(i) >= 0.0
    ensures NoReading(v) || NoReading(i) ==> ReadingOrZero(v) * ReadingOrZero(i) == 0.0
  {
    if ReadingOrZero(v) >= 0.0 && ReadingOrZero(i) >= 0.0 {
      MulNonNegative(ReadingOrZero(v), ReadingOrZero(i));
    }
  }

  /** A reading that contributes nothing: blank, not a number, or 0. */
  predicate NoReading(f: Field<real>)
  {
    !f.Parsed? || f.value == 0.0
  }

  /** All-blank or all-zero readings are accepted and give zero power and zero
      consumption, while the 1 kVA floor still makes DAC and CTC equal to 1. */
  lemma NoReadingsGiveFloor(p: PhaseReadings, cfg: RateConfig)
    requires UsableConfig(cfg)
    requires NoReading(p.voltageR) && NoReading(p.voltageS) && NoReading(p.voltageT)
    requires NoReading(p.currentR) && NoReading(p.currentS) && NoReading(p.currentT)
    ensures var r := CalculateByCurrents(p, cfg);
      && r.apparentKva == 0.0 && r.activePower == 0.0
      && r.monthlyKwh == 0.0 && r.dailyKwh == 0.0
      && r.dac == 1.0 && r.ctc == 1.0
      && r.residential == TR1 && r.commercial == G01
  {
    assert ReadingOrZero(p.voltageR) == 0.0 && ReadingOrZero(p.voltageS) == 0.0 && ReadingOrZero(p.voltageT) == 0.0;
  }

  /** Only the readings enter the result through V times I: one phase at 120 V and
      50 A is 6 kVA apparent, 5.4 kW active, so DAC 5.4 and CTC 13.5. */
  lemma SinglePhaseExample(cfg: RateConfig)
    requires UsableConfig(cfg)
    ensures var r := CalculateByCurrents(
      PhaseReadings(Parsed(120.0), Blank, Blank, Parsed(50.0), Blank, Malformed), cfg);
      r.apparentKva == 6.0 && r.activePower == 5.4 && r.dac == 5.4 && r.ctc == 13.5
  {
  }
}
