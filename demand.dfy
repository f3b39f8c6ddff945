/** The capacity (CTC) and demand (DAC) rules. Each estimation path has its own
    rule, written out separately in its source file; they are kept here as three
    distinct named policies and are deliberately not unified. */
module Demand {
  import opened Wrappers

  /** A capacity / demand pair, both in kVA. */
  datatype CapacityDemand = CapacityDemand(ctc: real, dac: real)

  /** The CTC-to-DAC branch shared by the appliance path and the declared-CTC path:
      up to 5 kVA the demand is the whole capacity, above it 40 % of the capacity
      but never less than 5 kVA. */
  function DemandFromCapacity(ctc: real): (dac: real)
    ensures ctc <= 5.0 ==> dac == ctc
    ensures ctc > 5.0 ==> dac >= 5.0 && dac >= 0.4 * ctc && (dac == 5.0 || dac == 0.4 * ctc)
    ensures ctc > 0.0 ==> 0.0 < dac <= ctc
  {
    if ctc <= 5.0 then ctc else MaxReal(ctc * 0.4, 5.0)
  }

  /** The DAC-to-CTC branch shared by the three-phase path and the meter path:
      up to 5 kVA the capacity is the demand, above it the demand divided by 0.4. */
  function CapacityFromDemand(dac: real): (ctc: real)
    ensures dac <= 5.0 ==> ctc == dac
    ensures dac > 5.0 ==> ctc == 2.5 * dac
    ensures dac >= 0.0 ==> ctc >= dac
  {
    if dac <= 5.0 then dac else dac / 0.4
  }

  /** Variant A, the appliance path: CTC is the apparent power with a 1 kVA floor,
      and DAC follows from CTC. */
  function AggregationPolicy(totalKva: real): (r: CapacityDemand)
    ensures r.ctc >= 1.0 && r.ctc >= totalKva && (r.ctc == totalKva || r.ctc == 1.0)
    ensures 1.0 <= r.dac <= r.ctc
    ensures r.ctc <= 5.0 ==> r.dac == r.ctc
    ensures r.ctc > 5.0 ==> r.dac >= 5.0
    ensures r.ctc == MaxReal(totalKva, 1.0) && r.dac == DemandFromCapacity(r.ctc)
  {
    var ctc := MaxReal(totalKva, 1.0);
    CapacityDemand(ctc, DemandFromCapacity(ctc))
  }

  /** Variant B, the three-phase path: DAC is the active power with a 1 kVA floor,
      and CTC follows from DAC. */
  function DirectPolicy(activeKw: real): (r: CapacityDemand)
    ensures r.dac >= 1.0 && r.dac >= activeKw && (r.dac == activeKw || r.dac == 1.0)
    ensures r.ctc >= r.dac
    ensures r.dac <= 5.0 ==> r.ctc == r.dac
    ensures r.dac > 5.0 ==> r.ctc == 2.5 * r.dac
    ensures r.dac == MaxReal(activeKw, 1.0) && r.ctc == CapacityFromDemand(r.dac)
  {
    var dac := MaxReal(activeKw, 1.0);
    CapacityDemand(CapacityFromDemand(dac), dac)
  }

  /** The fixed divisor that turns a monthly consumption into a demand in the meter
      path, and back in the declared-CTC path. */
  const KwhPerKva: real := 300.0

  /** Variant C, the meter path: DAC is the monthly consumption over 300, with no
      floor, and CTC follows from DAC. */
  function MeterPolicy(monthlyKwh: real): (r: CapacityDemand)
    ensures r.dac * KwhPerKva == monthlyKwh
    ensures monthlyKwh >= 0.0 ==> r.ctc >= r.dac >= 0.0
    ensures r.dac <= 5.0 ==> r.ctc == r.dac
    ensures r.dac > 5.0 ==> r.ctc == 2.5 * r.dac
    ensures r.ctc == CapacityFromDemand(r.dac)
  {
    var dac := monthlyKwh / KwhPerKva;
    CapacityDemand(CapacityFromDemand(dac), dac)
  }

  /** The declared-CTC path's monthly consumption: the demand times 300. */
  function DeclaredMonthlyKwh(dac: real): (monthlyKwh: real)
    ensures MeterPolicy(monthlyKwh).dac == dac
  {
    dac * KwhPerKva
  }

  /** Round trip: the declared-CTC path's `monthly = 300 * dac` and the meter path's
      `dac = monthly / 300` are inverse to each other in both directions. */
  lemma MonthlyDemandRoundTrip(monthlyKwh: real, dac: real)
    ensures DeclaredMonthlyKwh(MeterPolicy(monthlyKwh).dac) == monthlyKwh
    ensures MeterPolicy(DeclaredMonthlyKwh(dac)).dac == dac
  {
  }

  /** Capacity to demand (Variant A's branch) and demand back to capacity (Variants B
      and C) are not inverse: they agree for a capacity up to 5 or above 12.5 kVA,
      but between those the 5 kVA floor makes the way back land on 5 kVA. */
  lemma CapacityDemandAsymmetry(ctc: real)
    ensures ctc <= 5.0 || ctc > 12.5 ==> CapacityFromDemand(DemandFromCapacity(ctc)) == ctc
    ensures 5.0 < ctc <= 12.5 ==> CapacityFromDemand(DemandFromCapacity(ctc)) == 5.0 < ctc
  {
    if ctc > 12.5 {
      assert DemandFromCapacity(ctc) == 0.4 * ctc;
      assert 0.4 * ctc / 0.4 == ctc;
    } else if ctc > 5.0 {
      assert DemandFromCapacity(ctc) == 5.0;
    }
  }

  /** A concrete instance of the asymmetry: 10 kVA declared gives 5 kVA of demand,
      which the other paths would read back as 5 kVA of capacity. */
  lemma AsymmetryExample()
    ensures DemandFromCapacity(10.0) == 5.0 && CapacityFromDemand(5.0) == 5.0
  {
  }
}
