/** The shared calculators every estimation path calls (Scripts/common.js):
    the rate configuration, the two tariff classifiers, the cost breakdown,
    the result record and the per-module permission decision. */
module Common {
  import opened Wrappers

  /** The global `appConfig`, passed to every calculation as a value. */
  datatype RateConfig = RateConfig(
    daysPerMonth: real,   // diasMes
    costPerKva: real,     // costoKva, USD per kVA of demand
    taxPercent: real,     // ivaPorcentaje, IVA in percent
    exchangeRate: real,   // valorDolar, bolivars per USD
    costPerKwh: real,     // costoKwh, USD per kWh
    hoursPerMonth: real)  // horasMes, used by the three-phase path only

  /** The configuration the application starts with. */
  const DefaultConfig := RateConfig(30.0, 1.30, 16.0, 65.0, 0.01, 300.0)

  /** Every path divides by the days per month; the stored value is never 0
      (saving the form replaces 0 by 30). */
  predicate UsableConfig(cfg: RateConfig)
  {
    cfg.daysPerMonth != 0.0
  }

  /** All rates non-negative, as a configuration that makes sense for billing. */
  predicate NonNegativeRates(cfg: RateConfig)
  {
    cfg.costPerKva >= 0.0 && cfg.taxPercent >= 0.0 && cfg.exchangeRate >= 0.0 && cfg.costPerKwh >= 0.0
  }

  lemma DefaultConfigUsable()
    ensures UsableConfig(DefaultConfig) && NonNegativeRates(DefaultConfig)
  {
  }

  /** The six fields of the configuration form, as `parseFloat` reads them. */
  datatype ConfigForm = ConfigForm(
    hoursPerMonth: Field<real>, daysPerMonth: Field<real>, costPerKva: Field<real>,
    taxPercent: Field<real>, exchangeRate: Field<real>, costPerKwh: Field<real>)

  /** `guardarConfiguracion`: each field's number, or the default when the field is
      blank, not a number or 0; the stored configuration is therefore usable. */
  function SaveConfiguration(form: ConfigForm): (cfg: RateConfig)
    ensures UsableConfig(cfg)
    ensures cfg.daysPerMonth == (if form.daysPerMonth.Parsed? && form.daysPerMonth.value != 0.0
                                 then form.daysPerMonth.value else DefaultConfig.daysPerMonth)
    ensures cfg.hoursPerMonth == (if form.hoursPerMonth.Parsed? && form.hoursPerMonth.value != 0.0
                                  then form.hoursPerMonth.value else DefaultConfig.hoursPerMonth)
    ensures cfg.costPerKva == (if form.costPerKva.Parsed? && form.costPerKva.value != 0.0
                               then form.costPerKva.value else DefaultConfig.costPerKva)
    ensures cfg.taxPercent == (if form.taxPercent.Parsed? && form.taxPercent.value != 0.0
                               then form.taxPercent.value else DefaultConfig.taxPercent)
    ensures cfg.exchangeRate == (if form.exchangeRate.Parsed? && form.exchangeRate.value != 0.0
                                 then form.exchangeRate.value else DefaultConfig.exchangeRate)
    ensures cfg.costPerKwh == (if form.costPerKwh.Parsed? && form.costPerKwh.value != 0.0
                               then form.costPerKwh.value else DefaultConfig.costPerKwh)
  {
    RateConfig(RealOr(form.daysPerMonth, 30.0), RealOr(form.costPerKva, 1.30),
               RealOr(form.taxPercent, 16.0), RealOr(form.exchangeRate, 65.0),
               RealOr(form.costPerKwh, 0.01), RealOr(form.hoursPerMonth, 300.0))
  }

  /** Saving an empty form stores the defaults. */
  lemma EmptyFormSavesDefaults()
    ensures SaveConfiguration(ConfigForm(Blank, Blank, Blank, Blank, Blank, Blank)) == DefaultConfig
  {
  }

  // ---------------------------------------------------------------------------
  // Tariff classifiers

  /** The residential tier labels 'TR1', 'TR2', 'TR3'. */
  datatype ResidentialTier = TR1 | TR2 | TR3

  /** The commercial tier labels 'G01', 'G02', 'G03'. */
  datatype CommercialTier = G01 | G02 | G03

  function ResidentialRank(t: ResidentialTier): nat
  {
    match t
    case TR1 => 0
    case TR2 => 1
    case TR3 => 2
  }

  function CommercialRank(t: CommercialTier): nat
  {
    match t
    case G01 => 0
    case G02 => 1
    case G03 => 2
  }

  /** `calcularTarifaResidencial`: the tier of a monthly consumption in kWh.
      200 already belongs to TR2 and 500 to TR3. */
  function ResidentialTariff(monthlyKwh: real): (t: ResidentialTier)
    ensures t == TR1 <==> monthlyKwh < 200.0
    ensures t == TR2 <==> 200.0 <= monthlyKwh < 500.0
    ensures t == TR3 <==> 500.0 <= monthlyKwh
  {
    if monthlyKwh < 200.0 then TR1
    else if monthlyKwh >= 200.0 && monthlyKwh < 500.0 then TR2
    else TR3
  }

  /** `calcularTarifaComercial`: the tier of a load in kVA.
      10 still belongs to G01 and 30 already to G03. */
  function CommercialTariff(kva: real): (t: CommercialTier)
    ensures t == G01 <==> kva <= 10.0
    ensures t == G02 <==> 10.0 < kva < 30.0
    ensures t == G03 <==> 30.0 <= kva
  {
    if kva <= 10.0 then G01
    else if kva > 10.0 && kva < 30.0 then G02
    else G03
  }

  /** A larger consumption never yields a lower residential tier. */
  lemma ResidentialTariffMonotone(a: real, b: real)
    requires a <= b
    ensures ResidentialRank(ResidentialTariff(a)) <= ResidentialRank(ResidentialTariff(b))
  {
  }

  /** A larger load never yields a lower commercial tier. */
  lemma CommercialTariffMonotone(a: real, b: real)
    requires a <= b
    ensures CommercialRank(CommercialTariff(a)) <= CommercialRank(CommercialTariff(b))
  {
  }

  // ---------------------------------------------------------------------------
  // Cost calculator

  /** The five figures of `calcularCostos`, at full precision (the source rounds
      each to two decimals only when it turns them into text). */
  datatype Costs = Costs(
    energy: real,      // consumoBase
    tax: real,         // ivaTotal
    demand: real,      // demanda
    totalUsd: real,    // totalUSD
    totalLocal: real)  // totalBS

  /** `calcularCostos`: energy cost, IVA on the energy cost only, demand cost,
      their sum in USD and that sum converted to bolivars. */
  function CalculateCosts(monthlyKwh: real, dac: real, costPerKwh: real, costPerKva: real,
                          taxPercent: real, exchangeRate: real): (c: Costs)
    ensures c.energy == monthlyKwh * costPerKwh && c.demand == dac * costPerKva
    ensures c.tax * 100.0 == c.energy * taxPercent
    ensures c.totalUsd == c.energy + c.tax + c.demand
    ensures c.totalLocal == c.totalUsd * exchangeRate
  {
    var energy := monthlyKwh * costPerKwh;
    var tax := energy * (taxPercent / 100.0);
    var demand := dac * costPerKva;
    var totalUsd := energy + tax + demand;
    Costs(energy, tax, demand, totalUsd, totalUsd * exchangeRate)
  }

  /** The call every estimation path makes, with the rates read from the configuration. */
  function CostsFor(monthlyKwh: real, dac: real, cfg: RateConfig): Costs
  {
    CalculateCosts(monthlyKwh, dac, cfg.costPerKwh, cfg.costPerKva, cfg.taxPercent, cfg.exchangeRate)
  }

  /** IVA is charged on energy only: it does not depend on the demand or its price,
      and the USD total is energy with IVA plus untaxed demand. */
  lemma TaxOnEnergyOnly(monthlyKwh: real, dac1: real, dac2: real, costPerKwh: real,
                        kva1: real, kva2: real, taxPercent: real, rate1: real, rate2: real)
    ensures CalculateCosts(monthlyKwh, dac1, costPerKwh, kva1, taxPercent, rate1).tax
         == CalculateCosts(monthlyKwh, dac2, costPerKwh, kva2, taxPercent, rate2).tax
    ensures CalculateCosts(monthlyKwh, dac1, costPerKwh, kva1, taxPercent, rate1).totalUsd
         == monthlyKwh * costPerKwh * (1.0 + taxPercent / 100.0) + dac1 * kva1
  {
  }

  /** With non-negative inputs every figure of the breakdown is non-negative. */
  lemma CostsNonNegative(monthlyKwh: real, dac: real, costPerKwh: real, costPerKva: real,
                         taxPercent: real, exchangeRate: real)
    requires monthlyKwh >= 0.0 && dac >= 0.0 && costPerKwh >= 0.0 && costPerKva >= 0.0
    requires taxPercent >= 0.0 && exchangeRate >= 0.0
    ensures var c := CalculateCosts(monthlyKwh, dac, costPerKwh, costPerKva, taxPercent, exchangeRate);
      c.energy >= 0.0 && c.tax >= 0.0 && c.demand >= 0.0 && c.totalUsd >= 0.0 && c.totalLocal >= 0.0
  {
    var c := CalculateCosts(monthlyKwh, dac, costPerKwh, costPerKva, taxPercent, exchangeRate);
    MulNonNegative(monthlyKwh, costPerKwh);
    MulNonNegative(c.energy, taxPercent / 100.0);
    MulNonNegative(dac, costPerKva);
    MulNonNegative(c.totalUsd, exchangeRate);
  }

  lemma MulNonNegative(a: real, b: real)
    requires a >= 0.0 && b >= 0.0
    ensures a * b >= 0.0
  {
  }

  // ---------------------------------------------------------------------------
  // The result every estimation path produces

  /** What an estimation path shows: power, capacity (CTC) and demand (DAC),
      consumption, tariffs and costs. */
  datatype BillingResult = BillingResult(
    apparentKva: real,
    activePower: real,    // W in the appliance path, kW in the others
    ctc: real,
    dac: real,
    monthlyKwh: real,
    dailyKwh: real,
    residential: ResidentialTier,
    commercial: CommercialTier,
    costs: Costs)

  // ---------------------------------------------------------------------------
  // Module permissions

  /** The logged-in user record: a name and a flag per module. A module missing
      from `permissions` reads as not granted. */
  datatype User = User(username: string, permissions: map<string, bool>)

  /** `isAdmin`. */
  predicate IsAdmin(currentUser: Option<User>)
  {
    currentUser.Some? && currentUser.value.username == "admin"
  }

  /** `checkModulePermission`, with the stored current user passed in. */
  function CheckModulePermission(currentUser: Option<User>, moduleId: string): (allowed: bool)
    ensures currentUser.None? ==> !allowed
    ensures IsAdmin(currentUser) ==> allowed
    ensures currentUser.Some? && !IsAdmin(currentUser) && moduleId == "configuracion" ==> !allowed
    ensures currentUser.Some? && !IsAdmin(currentUser) && moduleId != "configuracion" ==>
      (allowed <==> moduleId in currentUser.value.permissions && currentUser.value.permissions[moduleId])
  {
    match currentUser
    case None => false
    case Some(user) =>
      if user.username == "admin" then true
      else if moduleId == "configuracion" then user.username == "admin"
      else moduleId in user.permissions && user.permissions[moduleId]
  }

  /** Only the administrator reaches the configuration module, whatever flags a user holds. */
  lemma ConfigurationIsAdminOnly(currentUser: Option<User>)
    ensures CheckModulePermission(currentUser, "configuracion") <==> IsAdmin(currentUser)
  {
  }
}
