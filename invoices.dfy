/** The two billing paths of Scripts/facturas.js: a declared connected load (CTC)
    and two dated meter readings. Dates are integer milliseconds; "today" and the
    rate configuration are parameters, and the user's answer to the high-consumption
    confirmation dialog is the parameter `accepted`. */
module Invoices {
  import opened Wrappers
  import opened Common
  import opened Demand

  // ---------------------------------------------------------------------------
  // Declared connected load

  /** The messages of the CTC button, in the order they are checked. */
  datatype CtcError = CtcMissing | CtcNotANumber | CtcNotPositive | CtcTooLow | CtcTooHigh

  const MinCtc: real := 0.1
  const MaxCtc: real := 5000.0

  /** The validation of the CTC button: empty, then not a number, then not
      positive, then below 0.1, then above 5000; the first failing check decides. */
  function ValidateCtcInput(input: Field<real>): (r: Result<real, CtcError>)
    ensures r.Success? <==> input.Parsed? && MinCtc <= input.value <= MaxCtc
    ensures r.Success? ==> r.value == input.value
    ensures r == Failure(CtcMissing) <==> input.Blank?
    ensures r == Failure(CtcNotANumber) <==> input.Malformed?
    ensures r == Failure(CtcNotPositive) <==> input.Parsed? && input.value <= 0.0
    ensures r == Failure(CtcTooLow) <==> input.Parsed? && 0.0 < input.value < MinCtc
    ensures r == Failure(CtcTooHigh) <==> input.Parsed? && input.value > MaxCtc
  {
    match input
    case Blank => Failure(CtcMissing)
    case Malformed => Failure(CtcNotANumber)
    case Parsed(ctc) =>
      if ctc <= 0.0 then Failure(CtcNotPositive)
      else if ctc < MinCtc then Failure(CtcTooLow)
      else if ctc > MaxCtc then Failure(CtcTooHigh)
      else Success(ctc)
  }

  /** `calcularPorCargaTotalConectada`: it checks the field once more (empty, not a
      number or not positive gives its own message, here `None`), then derives DAC
      from CTC with Variant A's branch, the monthly consumption as 300 times DAC,
      the apparent power as DAC / 0.9, and both tariffs. The commercial tariff uses
      the CTC that was entered. */
  function CalculateByDeclaredCapacity(input: Field<real>, cfg: RateConfig): (r: Option<BillingResult>)
    requires UsableConfig(cfg)
    ensures r.Some? <==> input.Parsed? && input.value > 0.0
    ensures r.Some? ==> var b := r.value;
      && b.ctc == input.value
      && b.dac == DemandFromCapacity(b.ctc)
      && 0.0 < b.dac <= b.ctc
      && MeterPolicy(b.monthlyKwh).dac == b.dac
      && b.apparentKva * 0.9 == b.dac && b.activePower == b.dac
      && b.dailyKwh * cfg.daysPerMonth == b.monthlyKwh
      && b.residential == ResidentialTariff(b.monthlyKwh)
      && b.commercial == CommercialTariff(b.ctc)
      && b.costs == CostsFor(b.monthlyKwh, b.dac, cfg)
  {
    if !input.Parsed? || input.value <= 0.0 then None
    else
      var ctc := input.value;
      var dac := DemandFromCapacity(ctc);
      var monthly := DeclaredMonthlyKwh(dac);
      var apparent := dac / 0.9;
      var daily := monthly / cfg.daysPerMonth;
      Some(BillingResult(apparent, dac, ctc, dac, monthly, daily,
                         ResidentialTariff(monthly), CommercialTariff(ctc),
                         CostsFor(monthly, dac, cfg)))
  }

  /** The CTC button: validation, then the derivation. A field that passes the
      validation always passes the derivation's own check. */
  function CtcButton(input: Field<real>, cfg: RateConfig): (r: Result<BillingResult, CtcError>)
    requires UsableConfig(cfg)
    ensures r.Failure? <==> ValidateCtcInput(input).Failure?
    ensures r.Failure? ==> r.error == ValidateCtcInput(input).error
    ensures r.Success? ==> Some(r.value) == CalculateByDeclaredCapacity(input, cfg)
  {
    match ValidateCtcInput(input)
    case Failure(e) => Failure(e)
    case Success(_) => Success(CalculateByDeclaredCapacity(input, cfg).value)
  }

  /** 20 kVA declared: DAC = max(8, 5) = 8, 2400 kWh a month, 80 kWh a day over 30 days. */
  lemma DeclaredCapacityExample(cfg: RateConfig)
    requires cfg.daysPerMonth == 30.0
    ensures var r := CtcButton(Parsed(20.0), cfg);
      r.Success? && r.value.dac == 8.0 && r.value.monthlyKwh == 2400.0 && r.value.dailyKwh == 80.0
      && r.value.commercial == G02 && r.value.residential == TR3
  {
  }

  // ---------------------------------------------------------------------------
  // Meter readings

  /** The four fields of the installation-date form. */
  datatype MeterForm = MeterForm(
    installDate: Field<int>,      // ms
    currentDate: Field<int>,      // ms
    installReading: Field<real>,  // kWh
    currentReading: Field<real>)  // kWh

  /** The messages of the installation-date button, in the order they are checked,
      and the cancellation after a declined confirmation. */
  datatype MeterError =
    | MissingField | InvalidDate | EqualDates | InstallAfterCurrent | FutureDate | SpanTooLong
    | BadInstallReading | BadCurrentReading | NonIncreasingReading | Cancelled

  const MsPerDay: int := 86_400_000
  /** Five years of 365 days, in milliseconds. */
  const MaxSpanMs: int := 5 * 365 * MsPerDay
  /** The daily consumption above which the user is asked to confirm. */
  const MaxDailyKwh: real := 500.0

  /** `Math.ceil(ms / 86400000)` for a positive number of milliseconds. */
  function DaySpan(ms: int): (days: int)
    requires ms > 0
    ensures (days - 1) * MsPerDay < ms <= days * MsPerDay
    ensures 1 <= days
    ensures ms <= MaxSpanMs ==> days <= 5 * 365
  {
    (ms + MsPerDay - 1) / MsPerDay
  }

  // The stages of the validation chain; each assumes the ones before it passed.

  predicate FieldsPresent(f: MeterForm)
  {
    !f.installDate.Blank? && !f.currentDate.Blank? && !f.installReading.Blank? && !f.currentReading.Blank?
  }

  predicate DatesParsed(f: MeterForm)
  {
    FieldsPresent(f) && f.installDate.Parsed? && f.currentDate.Parsed?
  }

  /** Distinct dates, in order, the later one not after today, at most five years apart. */
  predicate DatesConsistent(f: MeterForm, today: int)
  {
    && DatesParsed(f)
    && f.installDate.value < f.currentDate.value <= today
    && f.currentDate.value - f.installDate.value <= MaxSpanMs
  }

  /** A non-negative installation reading and a larger, positive current reading. */
  predicate ReadingsConsistent(f: MeterForm)
  {
    && f.installReading.Parsed? && f.installReading.value >= 0.0
    && f.currentReading.Parsed? && f.currentReading.value > 0.0
    && f.currentReading.value > f.installReading.value
  }

  /** The figures the validated readings give: whole days elapsed (rounded up) and kWh per day. */
  datatype MeterRate = MeterRate(days: int, dailyKwh: real)

  /** The validation chain of the installation-date button, then the daily rate. */
  function ValidateMeterForm(f: MeterForm, today: int): (r: Result<MeterRate, MeterError>)
    ensures r.Success? <==> DatesConsistent(f, today) && ReadingsConsistent(f)
    ensures r == Failure(MissingField) <==> !FieldsPresent(f)
    ensures r == Failure(InvalidDate) <==> FieldsPresent(f) && !DatesParsed(f)
    ensures r == Failure(EqualDates) <==> DatesParsed(f) && f.installDate.value == f.currentDate.value
    ensures r == Failure(InstallAfterCurrent) <==> DatesParsed(f) && f.installDate.value > f.currentDate.value
    ensures r == Failure(FutureDate) <==>
      DatesParsed(f) && f.installDate.value < f.currentDate.value && f.currentDate.value > today
    ensures r == Failure(SpanTooLong) <==>
      DatesParsed(f) && f.installDate.value < f.currentDate.value <= today
      && f.currentDate.value - f.installDate.value > MaxSpanMs
    ensures r == Failure(BadInstallReading) <==>
      DatesConsistent(f, today) && !(f.installReading.Parsed? && f.installReading.value >= 0.0)
    ensures r == Failure(BadCurrentReading) <==>
      DatesConsistent(f, today) && f.installReading.Parsed? && f.installReading.value >= 0.0
      && !(f.currentReading.Parsed? && f.currentReading.value > 0.0)
    ensures r == Failure(NonIncreasingReading) <==>
      DatesConsistent(f, today) && f.installReading.Parsed? && f.installReading.value >= 0.0
      && f.currentReading.Parsed? && f.currentReading.value > 0.0
      && f.currentReading.value <= f.installReading.value
    ensures r != Failure(Cancelled)
    ensures r.Success? ==>
      && 1 <= r.value.days <= 5 * 365
      && r.value.days == DaySpan(f.currentDate.value - f.installDate.value)
      && r.value.dailyKwh > 0.0
      && r.value.dailyKwh * (r.value.days as real) == f.currentReading.value - f.installReading.value
  {
    if !FieldsPresent(f) then Failure(MissingField)
    else if !f.installDate.Parsed? || !f.currentDate.Parsed? then Failure(InvalidDate)
    else
      var installDate, currentDate := f.installDate.value, f.currentDate.value;
      if installDate == currentDate then Failure(EqualDates)
      else if installDate > currentDate then Failure(InstallAfterCurrent)
      else if currentDate > today then Failure(FutureDate)
      else if currentDate - installDate > MaxSpanMs then Failure(SpanTooLong)
      else if !f.installReading.Parsed? || f.installReading.value < 0.0 then Failure(BadInstallReading)
      else if !f.currentReading.Parsed? || f.currentReading.value <= 0.0 then Failure(BadCurrentReading)
      else
        var installReading, currentReading := f.installReading.value, f.currentReading.value;
        if currentReading <= installReading then Failure(NonIncreasingReading)
        else
          var days := DaySpan(currentDate - installDate);
          var daily := (currentReading - installReading) / (days as real);
          Success(MeterRate(days, daily))
  }

  /** The user is asked to confirm exactly when the form is valid and the daily
      consumption exceeds 500 kWh, that is, when the readings grew by more than
      500 kWh for each day elapsed. */
  function AsksConfirmation(f: MeterForm, today: int): (asks: bool)
    ensures asks <==>
      && DatesConsistent(f, today) && ReadingsConsistent(f)
      && f.currentReading.value - f.installReading.value
         > MaxDailyKwh * (DaySpan(f.currentDate.value - f.installDate.value) as real)
  {
    var v := ValidateMeterForm(f, today);
    if v.Success? then
      var days := v.value.days as real;
      var grown := f.currentReading.value - f.installReading.value;
      assert v.value.dailyKwh > MaxDailyKwh <==> grown > MaxDailyKwh * days by {
        assert v.value.dailyKwh * days == grown && days > 0.0;
        var excess := v.value.dailyKwh - MaxDailyKwh;
        assert excess * days == grown - MaxDailyKwh * days;
        if excess > 0.0 {
          assert excess * days > 0.0;
        } else {
          MulNonNegative(-excess, days);
        }
      }
      v.value.dailyKwh > MaxDailyKwh
    else false
  }

  /** The installation-date button, with `accepted` the answer the user would give
      if asked. After validation: the monthly consumption is the daily one times
      the days per month, Variant C gives DAC and CTC, the apparent power is
      DAC / 0.9, the residential tariff uses the monthly consumption and the
      commercial tariff uses CTC. */
  function CalculateByInstallationDate(f: MeterForm, today: int, cfg: RateConfig, accepted: bool)
    : (r: Result<BillingResult, MeterError>)
    ensures ValidateMeterForm(f, today).Failure? ==> r == Failure(ValidateMeterForm(f, today).error)
    ensures r == Failure(Cancelled) <==> AsksConfirmation(f, today) && !accepted
    ensures r.Success? <==> ValidateMeterForm(f, today).Success? && (!AsksConfirmation(f, today) || accepted)
    ensures r.Success? ==> var b := r.value; var rate := ValidateMeterForm(f, today).value;
      && b.monthlyKwh == rate.dailyKwh * cfg.daysPerMonth
      && b.dailyKwh == rate.dailyKwh
      && b.dac * KwhPerKva == b.monthlyKwh
      && b.activePower == b.dac
      && (cfg.daysPerMonth >= 0.0 ==> b.ctc >= b.dac)
      && (b.dac > 5.0 ==> b.ctc == 2.5 * b.dac)
      && b.ctc == CapacityFromDemand(b.dac)
      && b.apparentKva * 0.9 == b.dac
      && b.residential == ResidentialTariff(b.monthlyKwh)
      && b.commercial == CommercialTariff(b.ctc)
      && b.costs == CostsFor(b.monthlyKwh, b.dac, cfg)
  {
    match ValidateMeterForm(f, today)
    case Failure(e) => Failure(e)
    case Success(rate) =>
      if rate.dailyKwh > MaxDailyKwh && !accepted then Failure(Cancelled)
      else
        var monthly := rate.dailyKwh * cfg.daysPerMonth;
        var policy := MeterPolicy(monthly);
        assert cfg.daysPerMonth >= 0.0 ==> monthly >= 0.0 by {
          if cfg.daysPerMonth >= 0.0 { MulNonNegative(rate.dailyKwh, cfg.daysPerMonth); }
        }
        var apparent := policy.dac / 0.9;
        Success(BillingResult(apparent, policy.dac, policy.ctc, policy.dac, monthly, rate.dailyKwh,
                              ResidentialTariff(monthly), CommercialTariff(policy.ctc),
                              CostsFor(monthly, policy.dac, cfg)))
  }

  /** The answer to the dialog only matters when the dialog is shown. */
  lemma AnswerIgnoredWithoutConfirmation(f: MeterForm, today: int, cfg: RateConfig)
    requires !AsksConfirmation(f, today)
    ensures CalculateByInstallationDate(f, today, cfg, true) == CalculateByInstallationDate(f, today, cfg, false)
  {
  }

  /** The meter path has no demand floor: 30 kWh over 30 days gives a DAC of 0.1 kVA. */
  lemma MeterDemandHasNoFloor(cfg: RateConfig)
    requires cfg.daysPerMonth == 30.0
    ensures var r := CalculateByInstallationDate(
      MeterForm(Parsed(0), Parsed(30 * MsPerDay), Parsed(0.0), Parsed(30.0)), 30 * MsPerDay, cfg, false);
      r.Success? && r.value.dac == 0.1 && r.value.ctc == 0.1
  {
    var f := MeterForm(Parsed(0), Parsed(30 * MsPerDay), Parsed(0.0), Parsed(30.0));
    assert DaySpan(30 * MsPerDay) == 30;
    assert ValidateMeterForm(f, 30 * MsPerDay).value.dailyKwh == 1.0;
  }

  /** Readings 100 and 400 kWh thirty days apart, 30 days per month: 10 kWh a day,
      300 kWh a month, DAC = CTC = 1. */
  lemma MeterExample(cfg: RateConfig)
    requires cfg.daysPerMonth == 30.0
    ensures var r := CalculateByInstallationDate(
      MeterForm(Parsed(0), Parsed(30 * MsPerDay), Parsed(100.0), Parsed(400.0)), 30 * MsPerDay, cfg, false);
      r.Success? && r.value.dailyKwh == 10.0 && r.value.monthlyKwh == 300.0
      && r.value.dac == 1.0 && r.value.ctc == 1.0
  {
    var f := MeterForm(Parsed(0), Parsed(30 * MsPerDay), Parsed(100.0), Parsed(400.0));
    assert DaySpan(30 * MsPerDay) == 30;
    assert ValidateMeterForm(f, 30 * MsPerDay).value.dailyKwh == 10.0;
  }
}
