# Energy estimator billing core, in Dafny

This project models the calculation core of *estimadorenergia*, a browser tool that
estimates an electricity bill in four ways. Every path ends in the same record:
- the connected load (CTC) and the contracted demand (DAC), both in kVA;
- monthly and daily kWh;
- a residential tariff (TR1/TR2/TR3) and a commercial tariff (G01/G02/G03);
- a cost breakdown (energy, IVA on energy, demand, a USD total and a bolivar total).

The four paths are:

- **Appliance census** (`Scripts/cnosumo.js`). The user picks devices from a
  spreadsheet or from the catalog and adjusts quantities and hours. `calcularConsumo`
  sums watts, kWh and VA over the selection. The selection is the class
  `Consumption.Selection`, and its handlers are methods that change it in place.
  `CalculateConsumption` is the accumulation loop, proved equal to the
  specification function `Consumption.Aggregate`.
- **Three-phase currents** (`Scripts/corrientes.js`). The input is the voltage and
  current of phases R, S and T, with a fixed power factor of 0.9.
- **Declared CTC** and **meter readings** (`Scripts/facturas.js`). Each has its
  own chain of input checks and its own error cases, modelled as `Result` values.
  The meter path has a confirmation dialog for very high daily consumption.
- **Appliance catalog** (`Scripts/artefactos.js`). This is the in-memory catalog
  array behind `ArtifactsAPI`. It is the class `Artifacts.Catalog`, whose
  invariant is: names distinct ignoring case, ids distinct, and a non-zero power
  factor.

The three CTC/DAC rules differ between the paths and are kept apart in `Demand`:
- Variant A (appliances): CTC has a floor of 1 kVA, and DAC follows from CTC.
- Variant B (currents): DAC has a floor of 1 kVA, and CTC = DAC / 0.4 above 5.
- Variant C (meter): DAC = monthly kWh / 300, with no floor.

Modules:
- `Wrappers`: option, result and form-field types.
- `Text`: `trim`, title-casing and lower-casing.
- `Common`: configuration, tariffs, costs, permissions.
- `Demand`: the three CTC/DAC rules.
- `Currents`: the three-phase path.
- `Invoices`: the declared-CTC and meter paths.
- `Consumption`: the appliance selection and the spreadsheet import.
- `Artifacts`: the catalog.

Some things the program reads or produces are parameters of the model:
- form fields, as a `Field` (blank, not a number, or a number);
- dates, as integer milliseconds;
- "today", new ids and timestamps;
- the rate configuration;
- the user's answer to the confirmation dialog.

The 1 kVA floors of Variants A and B mean that an empty selection and blank or
all-zero three-phase readings give CTC = DAC = 1 kVA, with zero power and zero
consumption.

Where the code and its comment disagree, the model follows the code: the
spreadsheet voltage is read from column G (index 6), although the comment at that
line says column F.

## Model

| member | source | states |
|---|---|---|
| Wrappers.RealOr | Scripts/common.js:133-138 | `parseFloat(x) \|\| d`: the number when it is a non-zero number, otherwise the default |
| Wrappers.IntOr | Scripts/artefactos.js:48-49 | `parseInt(x, 10) \|\| d`: the integer when it is non-zero, otherwise the default |
| Text.Trim | Scripts/artefactos.js:44 | the result has no whitespace at either end; it is empty exactly when the input is all whitespace; an already trimmed string is unchanged |
| Text.TrimIsInfix | Scripts/artefactos.js:44 | the result is the slice of the input that starts after the leading whitespace, and only whitespace follows it |
| Text.TitleCase | Scripts/artefactos.js:44 | same length; a `\w` character stays a `\w` character; a lower-case ASCII letter that starts a word becomes its capital (code − 32), and every other character is unchanged |
| Text.LowerChar | Scripts/artefactos.js:62 | a capital (A–Z, Latin-1 À–Þ except ×) becomes its small letter (code + 32); anything else is unchanged; the result is never a capital |
| Text.Lower | Scripts/artefactos.js:62 | same length, each character lower-cased; the result contains no capital |
| Text.LowerIdempotent | Scripts/artefactos.js:62 | lower-casing twice is lower-casing once |
| Text.SameKeyIgnoringCase | Scripts/artefactos.js:62 | two names that differ only in the case of their letters have the same key, so they clash |
| Text.SameKeyExample | Scripts/artefactos.js:62 | "Bomba De Agua" and "BOMBA de agua" have the same key |
| Text.TitleCaseKeepsKey | Scripts/artefactos.js:44 | title-casing does not change the lower-case key, so title-casing never changes which names a name clashes with; only the trim does |
| Text.TitleCaseIdempotent | Scripts/artefactos.js:44 | title-casing twice is title-casing once |
| Text.TitleCaseKeepsTrimmed | Scripts/artefactos.js:44 | title-casing a trimmed name leaves it trimmed |
| Text.TitleCaseCharWhitespace | Scripts/artefactos.js:44 | title-casing makes no character whitespace and changes no whitespace character |
| Text.TitleCaseAfterAccent | Scripts/artefactos.js:44 | `\b` treats a non-ASCII letter as a word break: "canción" becomes "CancióN" |
| Common.DefaultConfigUsable | Scripts/common.js:3-10 | the starting configuration has a non-zero day count and non-negative rates |
| Common.SaveConfiguration | Scripts/common.js:132-140 | every field that is blank, not a number or 0 falls back to its default, so the stored day count is never 0 |
| Common.EmptyFormSavesDefaults | Scripts/common.js:132-140 | saving an empty configuration form stores the defaults |
| Common.ResidentialTariff | Scripts/common.js:87-91 | TR1 iff under 200 kWh, TR2 iff in [200, 500), TR3 iff at least 500 |
| Common.CommercialTariff | Scripts/common.js:94-98 | G01 iff at most 10 kVA, G02 iff in (10, 30), G03 iff at least 30 |
| Common.ResidentialTariffMonotone | Scripts/common.js:87-91 | more kWh never gives a lower residential tier |
| Common.CommercialTariffMonotone | Scripts/common.js:94-98 | more kVA never gives a lower commercial tier |
| Common.CalculateCosts | Scripts/common.js:101-106 | energy = kWh·price; demand = DAC·price; IVA·100 = energy·tax percent; USD total = energy + IVA + demand; bolivar total = USD total times the exchange rate |
| Common.TaxOnEnergyOnly | Scripts/common.js:103-105 | IVA does not depend on the demand or its price; USD total = energy·(1 + tax/100) + demand |
| Common.CostsNonNegative | Scripts/common.js:101-106 | non-negative inputs give non-negative figures |
| Common.CheckModulePermission | Scripts/common.js:54-75 | no user: denied; admin: allowed; `configuracion` for anyone else: denied; otherwise the user's flag for the module, missing flags denied |
| Common.ConfigurationIsAdminOnly | Scripts/common.js:68-71 | the configuration module is allowed exactly for the administrator |
| Demand.DemandFromCapacity | Scripts/cnosumo.js:337 | up to 5 kVA DAC = CTC; above, DAC is 5 or 0.4·CTC, whichever is larger; a positive CTC gives 0 < DAC ≤ CTC |
| Demand.CapacityFromDemand | Scripts/corrientes.js:51 | up to 5 kVA CTC = DAC; above, CTC = 2.5·DAC; never below a non-negative DAC |
| Demand.AggregationPolicy | Scripts/cnosumo.js:335-337 | Variant A: CTC = max(apparent kVA, 1); DAC = `DemandFromCapacity(CTC)`, so 1 ≤ DAC ≤ CTC and DAC ≥ 5 above 5 kVA |
| Demand.DirectPolicy | Scripts/corrientes.js:50-51 | Variant B: DAC = max(active power, 1); CTC = `CapacityFromDemand(DAC)`: CTC ≥ DAC, equal up to 5, 2.5·DAC above |
| Demand.MeterPolicy | Scripts/facturas.js:224-225 | Variant C: DAC·300 = monthly kWh with no floor; CTC = `CapacityFromDemand(DAC)` as in Variant B |
| Demand.DeclaredMonthlyKwh | Scripts/facturas.js:363 | the declared-CTC path's monthly kWh gives back its DAC under the meter path's rule |
| Demand.MonthlyDemandRoundTrip | Scripts/facturas.js:360-363 | `monthly = 300·dac` and `dac = monthly/300` are inverse in both directions |
| Demand.CapacityDemandAsymmetry | Scripts/cnosumo.js:337 | CTC→DAC→CTC gives CTC back when CTC ≤ 5 or > 12.5, and gives 5 when 5 < CTC ≤ 12.5 |
| Demand.AsymmetryExample | Scripts/facturas.js:358 | 10 kVA declared gives 5 kVA of demand, which reads back as 5 kVA of capacity |
| Currents.ReadingOrZero | Scripts/corrientes.js:31-36 | a blank or non-numeric reading counts as 0 |
| Currents.ApparentKva | Scripts/corrientes.js:48 | kVA·1000 = the sum of V·I over the three phases; non-negative readings give a non-negative kVA; 0 when every phase lacks a voltage or a current |
| Currents.PhaseNonNegative | Scripts/corrientes.js:48 | one phase's V·I is non-negative for non-negative readings and 0 when either reading is missing or 0 |
| Currents.CalculateByCurrents | Scripts/corrientes.js:29-67 | active = 0.9·apparent; DAC = max(active, 1) and CTC = `CapacityFromDemand(DAC)` (Variant B); monthly = active·hours; daily·days = monthly; commercial tariff from DAC; costs on DAC |
| Currents.NoReadingsGiveFloor | Scripts/corrientes.js:48-57 | blank or zero readings give zero power and kWh but DAC = CTC = 1, TR1, G01 |
| Currents.SinglePhaseExample | Scripts/corrientes.js:48-51 | 120 V × 50 A on one phase: 6 kVA, 5.4 kW, DAC 5.4, CTC 13.5 |
| Invoices.ValidateCtcInput | Scripts/facturas.js:115-141 | each error iff its own condition, in checking order (empty, not a number, ≤ 0, < 0.1, > 5000); success iff 0.1 ≤ CTC ≤ 5000, returning the number |
| Invoices.CalculateByDeclaredCapacity | Scripts/facturas.js:340-389 | computes a result iff the field is a positive number; DAC from CTC by Variant A's branch; monthly = 300·DAC; apparent·0.9 = DAC; commercial tariff from the entered CTC |
| Invoices.CtcButton | Scripts/facturas.js:112-145 | fails with exactly the validation's error; otherwise the derivation's result, which always exists after validation |
| Invoices.DeclaredCapacityExample | Scripts/facturas.js:358-369 | 20 kVA: DAC 8, 2400 kWh a month, 80 a day, G02, TR3 |
| Invoices.DaySpan | Scripts/facturas.js:209 | `Math.ceil(ms / 86400000)`: (days−1)·day < ms ≤ days·day; at least 1; at most 1825 within five years |
| Invoices.ValidateMeterForm | Scripts/facturas.js:158-210 | each error iff the earlier checks pass and its own fails (missing, invalid date, equal, reversed, future, over five years, install reading, current reading, not increasing); on success 1 ≤ days ≤ 1825 and daily·days = reading difference > 0 |
| Invoices.CalculateByInstallationDate | Scripts/facturas.js:158-236 | validation errors pass through; Cancelled iff the dialog is shown and declined; on success monthly = daily·days per month, DAC·300 = monthly, CTC = `CapacityFromDemand(DAC)` (Variant C), commercial tariff from CTC |
| Invoices.AsksConfirmation | Scripts/facturas.js:209-213 | the dialog is shown iff the form is valid and the readings grew by more than 500 kWh per elapsed day |
| Invoices.AnswerIgnoredWithoutConfirmation | Scripts/facturas.js:211-220 | without the dialog, the user's answer does not change the outcome |
| Invoices.MeterDemandHasNoFloor | Scripts/facturas.js:223-225 | 30 kWh over 30 days gives DAC = CTC = 0.1 kVA, below the other paths' 1 kVA floor |
| Invoices.MeterExample | Scripts/facturas.js:209-225 | 100→400 kWh over 30 days: 10 kWh a day, 300 a month, DAC = CTC = 1 |
| Consumption.LoadMonthlyKwh | Scripts/cnosumo.js:256-258 | a row's monthly kWh times its power factor times 1000 is its watts times its daily hours times the days per month; non-negative for non-negative inputs and a positive power factor |
| Consumption.Aggregate | Scripts/cnosumo.js:313-359 | totals of watts, kWh and VA over the rows; CTC = max(apparent kVA, 1) and DAC = `DemandFromCapacity(CTC)` (Variant A); daily·days = monthly; tariffs from monthly kWh and CTC; costs on DAC |
| Consumption.EmptySelection | Scripts/cnosumo.js:322-337 | an empty selection gives zero power and kWh but CTC = DAC = 1, TR1, G01 |
| Consumption.LoopTermIsRowKwh | Scripts/cnosumo.js:326-330 | the loop's kWh term equals the per-row monthly figure the list and the report show (lines 24 and 256-258) |
| Consumption.DailyColumnTotal | Scripts/cnosumo.js:22-25 | the report's daily column adds up to the total monthly kWh over the days per month |
| Consumption.TotalWattsReplace | Scripts/cnosumo.js:329 | replacing one row changes the total power by exactly that row's difference |
| Consumption.EditedQuantity | Scripts/cnosumo.js:291 | the stored quantity is at least 1: a positive integer is kept, anything else gives 1 |
| Consumption.EditedHours | Scripts/cnosumo.js:297-298 | the stored hours are at least 0: a non-negative number is kept, anything else gives 0 |
| Wrappers.FirstIndex | Scripts/artefactos.js:79 | `findIndex`: the first position whose element satisfies the test, or −1 when none does |
| Consumption.NameIndex | Scripts/cnosumo.js:230 | the first entry with that name, or −1 when there is none |
| Consumption.Selection.constructor | Scripts/cnosumo.js:4 | an empty, well-formed selection |
| Consumption.Selection.Clear | Scripts/cnosumo.js:240-241 | the selection becomes empty |
| Consumption.Selection.AddDevice | Scripts/cnosumo.js:229-235 | an entry with the same name gets one more, and nothing else changes; otherwise a new entry with quantity 1 is appended; names stay unique |
| Consumption.Selection.SetQuantity | Scripts/cnosumo.js:289-293 | only that row's quantity changes, to the edited value |
| Consumption.Selection.SetHours | Scripts/cnosumo.js:295-300 | only that row's hours change, to the edited value |
| Consumption.Selection.RemoveAt | Scripts/cnosumo.js:302-306 | that row is removed, and the others keep their order |
| Consumption.Selection.CalculateConsumption | Scripts/cnosumo.js:313-351 | the one-pass accumulation equals `Aggregate` of the selection |
| Consumption.AddRaisesPowerByOneUnit | Scripts/cnosumo.js:229-235 | adding a device raises the total power by one unit of the entry it lands on |
| Consumption.DeviceOfRow | Scripts/cnosumo.js:174-180 | name trimmed (empty when the cell is missing); watts, hours and voltage (column G) the number or 0; power factor the non-zero number or 0.8, so never 0; phase the non-zero integer or 1 |
| Consumption.DevicesFromSheet | Scripts/cnosumo.js:174-181 | at most one device per row, and every imported device has a name, positive watts and a non-zero power factor |
| Consumption.SheetImportKeepsExactly | Scripts/cnosumo.js:174-181 | a row is imported iff it has a name and positive watts: every such row gives a device in the list, and every device comes from such a row |
| Consumption.DevicesFromSheetConcat | Scripts/cnosumo.js:174-181 | the import keeps sheet order: two blocks of rows give the first block's devices followed by the second's |
| Consumption.DevicesFromCatalog | Scripts/cnosumo.js:189-197 | one device per catalog entry, in catalog order |
| Consumption.CatalogDevicesSelectable | Scripts/artefactos.js:100-111 | devices from a valid catalog have distinct names and a non-zero power factor |
| Artifacts.Normalize | Scripts/artefactos.js:42-51 | trimmed, title-cased name; WATT 0, FP 0.8, H_D 0, FASE 1, VOLTAJE 120 when the field is not a non-zero number; FP never 0 |
| Artifacts.NormalizedNameIsStable | Scripts/artefactos.js:44 | normalising a normalised name changes nothing |
| Artifacts.NormalizedNameClash | Scripts/artefactos.js:61-62 | a normalised name clashes (with any entry, or with an entry of another id) exactly when its trimmed form does |
| Artifacts.TrimChangesClash | Scripts/artefactos.js:61-62 | the trim does change clashes: " tv" does not clash with a stored "Tv", its normalised form does |
| Artifacts.IdIndex | Scripts/artefactos.js:79 | the first entry with that id, or −1 when there is none |
| Artifacts.WithoutId | Scripts/artefactos.js:95 | exactly the entries with another id are kept; an unknown id changes nothing |
| Artifacts.WithoutIdConcat | Scripts/artefactos.js:95 | the filter keeps the order of the survivors |
| Artifacts.TailWellFormed | Scripts/artefactos.js:95 | a catalog without its first entry is still valid |
| Artifacts.ConsWellFormed | Scripts/artefactos.js:95 | an entry with a new name and id can be put in front of a valid catalog |
| Artifacts.WithoutIdWellFormed | Scripts/artefactos.js:94-95 | removing keeps names and ids distinct |
| Artifacts.AppendWellFormed | Scripts/artefactos.js:62-72 | appending an entry whose name is not taken, with a fresh id, keeps the catalog valid |
| Artifacts.ReplaceWellFormed | Scripts/artefactos.js:83-88 | renaming an entry to a name no other id holds keeps the catalog valid |
| Artifacts.Catalog.constructor | Scripts/artefactos.js:9 | an empty, valid catalog |
| Artifacts.SeedCatalog | Scripts/artefactos.js:19-23 | the three entries a first start stores form a valid catalog: distinct names and ids, non-zero power factors |
| Artifacts.Catalog.List | Scripts/artefactos.js:56-58 | the entries, in order |
| Artifacts.Catalog.Create | Scripts/artefactos.js:60-76 | a name taken ignoring case: nothing changes and the result is null; otherwise the normalised entry with the new id and both timestamps `now` is appended and returned |
| Artifacts.Catalog.Update | Scripts/artefactos.js:78-92 | unknown id, or a name held by another id: nothing changes; otherwise only that entry changes, with the normalised fields, the same id and creation time, and `updatedAt = now` |
| Artifacts.Catalog.Remove | Scripts/artefactos.js:94-98 | the catalog becomes the filter of the old one by id |
| Artifacts.ValidateForm | Scripts/artefactos.js:167-194 | valid iff the trimmed name is non-empty and each non-empty field is a number in range (WATT > 0, 0.1 ≤ FP ≤ 1, 0 ≤ H_D ≤ 24) |
| Artifacts.ValidatedFormNormalizes | Scripts/artefactos.js:167-194 | a validated form stores a non-empty name, FP in [0.1, 1], H_D in [0, 24] and WATT ≥ 0 (> 0 unless left blank) |
| Artifacts.BlankWattStoredAsZero | Scripts/artefactos.js:45 | a blank WATT passes validation and is stored as 0 watts |
| Artifacts.VoltageForPhase | Scripts/artefactos.js:196-204 | 120 V exactly for phase "1", 240 V for any other phase |

## Left out

- Rendering: the DOM, HTML, jQuery and the result boxes. Every result is a value instead.
- `toFixed`, `toLocaleString` and IEEE-754 rounding: arithmetic is exact over `real`.
- Persistence: loading and saving the configuration, the users and the catalog
  through `localStorage`. The catalog's `saveArtifacts` and `loadArtifacts` are
  not part of this model.
- Login, the user list and passwords: only the permission decision is modelled.
- Reading files: the spreadsheet reader (`XLSX`) is replaced by rows of parsed
  cells. PDF output (`exportarAPDF`) is left out; its per-row and daily figures
  are modelled by `LoadMonthlyKwh` and `DailyColumnTotal`.
- Consumption lookup: the name-to-device map `aparatosMap` (the last device with
  a name wins) and the autocomplete widget.
- Date parsing: dates are integer milliseconds, and an unparseable date is a
  `Malformed` field.
- `new Date()`, `Date.now()` and `crypto.randomUUID()` are parameters. Where the
  source reads the clock several times in one operation (the two reads in `create`,
  the six in the first-start seed), the model takes one instant, so it fixes
  `createdAt == updatedAt` there, which the source does not guarantee.
- Artifacts.Catalog.Create: it takes a fresh id as a precondition, because
  `randomUUID` is assumed not to collide.
- The asynchronous dialog is the boolean `accepted`.
- Text.Lower: it maps A–Z and the Latin-1 capitals only, not the full Unicode
  `toLowerCase`.
- Text.TitleCase: it treats `\w` as ASCII, like the regular expression, so no
  other Unicode is involved.
- Consumption.Selection.SetQuantity, SetHours and RemoveAt: an index out of range
  is excluded by precondition. The source takes the index from a row it has
  just rendered, so it is always in range.
- Consumption.Selection.AddDevice: it requires a non-zero power factor. Every
  device source (the spreadsheet and the catalog) provides one; this is proved
  by `DeviceOfRow` and `CatalogDevicesSelectable`.
- Consumption.Aggregate: `activePower` holds the total in watts, as the source
  shows it. The other paths hold kW.
