/** Appliance aggregation (Scripts/cnosumo.js): the list of selected appliances
    that the page edits in place, the loop of `calcularConsumo` that totals it,
    and the mapping of spreadsheet rows to devices. */
module Consumption {
  import opened Wrappers
  import opened Text
  import opened Common
  import opened Demand
  import opened Artifacts

  /** A device the user can pick (one spreadsheet row or catalog entry). */
  datatype Device = Device(
    name: string, watts: real, powerFactor: real, dailyHours: real, phase: int, voltage: real)

  /** An entry of the selection: the device's fields plus a quantity. */
  datatype SelectedLoad = SelectedLoad(
    name: string, watts: real, powerFactor: real, dailyHours: real, phase: int, voltage: real,
    quantity: int)

  /** `{ ...dispositivo, cantidad: 1 }`. */
  function Selected(d: Device): SelectedLoad
  {
    SelectedLoad(d.name, d.watts, d.powerFactor, d.dailyHours, d.phase, d.voltage, 1)
  }

  // ---------------------------------------------------------------------------
  // Per-row formulas and the totals they add up to

  /** Power of one row: rated watts times quantity. */
  function LoadWatts(a: SelectedLoad): real
  {
    a.watts * (a.quantity as real)
  }

  /** Monthly kWh of one row, as the list and the PDF report show it. */
  function LoadMonthlyKwh(a: SelectedLoad, daysPerMonth: real): (kwh: real)
    requires a.powerFactor != 0.0
    ensures kwh * a.powerFactor * 1000.0 == LoadWatts(a) * a.dailyHours * daysPerMonth
    ensures a.powerFactor > 0.0 && LoadWatts(a) >= 0.0 && a.dailyHours >= 0.0 && daysPerMonth >= 0.0 ==> kwh >= 0.0
  {
    (a.watts * (a.quantity as real) * a.dailyHours * daysPerMonth) / a.powerFactor / 1000.0
  }

  /** Apparent power of one row in VA. */
  function LoadVa(a: SelectedLoad): real
    requires a.powerFactor != 0.0
  {
    LoadWatts(a) / a.powerFactor
  }

  predicate PowerFactorsNonZero(s: seq<SelectedLoad>)
  {
    forall i :: 0 <= i < |s| ==> s[i].powerFactor != 0.0
  }

  /** Total watts of the rows, summed in list order. */
  function TotalWatts(s: seq<SelectedLoad>): real
  {
    if s == [] then 0.0 else TotalWatts(s[..|s| - 1]) + LoadWatts(s[|s| - 1])
  }

  /** Total monthly kWh of the rows, summed in list order. */
  function TotalMonthlyKwh(s: seq<SelectedLoad>, daysPerMonth: real): real
    requires PowerFactorsNonZero(s)
  {
    if s == [] then 0.0
    else TotalMonthlyKwh(s[..|s| - 1], daysPerMonth) + LoadMonthlyKwh(s[|s| - 1], daysPerMonth)
  }

  /** Total apparent power of the rows in VA, summed in list order. */
  function TotalVa(s: seq<SelectedLoad>): real
    requires PowerFactorsNonZero(s)
  {
    if s == [] then 0.0 else TotalVa(s[..|s| - 1]) + LoadVa(s[|s| - 1])
  }

  /** The result of `calcularConsumo` for a selection: the totals, Variant A on the
      total apparent kVA, the daily consumption, both tariffs (commercial from CTC)
      and the costs. */
  function Aggregate(s: seq<SelectedLoad>, cfg: RateConfig): (r: BillingResult)
    requires PowerFactorsNonZero(s) && UsableConfig(cfg)
    ensures r.activePower == TotalWatts(s)
    ensures r.monthlyKwh == TotalMonthlyKwh(s, cfg.daysPerMonth)
    ensures r.apparentKva * 1000.0 == TotalVa(s)
    ensures r.ctc >= 1.0 && r.ctc >= r.apparentKva
    ensures 1.0 <= r.dac <= r.ctc
    ensures r.ctc <= 5.0 ==> r.dac == r.ctc
    ensures r.ctc > 5.0 ==> r.dac >= 5.0
    ensures r.ctc == MaxReal(r.apparentKva, 1.0) && r.dac == DemandFromCapacity(r.ctc)
    ensures r.dailyKwh * cfg.daysPerMonth == r.monthlyKwh
    ensures r.residential == ResidentialTariff(r.monthlyKwh)
    ensures r.commercial == CommercialTariff(r.ctc)
    ensures r.costs == CostsFor(r.monthlyKwh, r.dac, cfg)
  {
    var kva := TotalVa(s) / 1000.0;
    var policy := AggregationPolicy(kva);
    var monthly := TotalMonthlyKwh(s, cfg.daysPerMonth);
    BillingResult(kva, TotalWatts(s), policy.ctc, policy.dac, monthly, monthly / cfg.daysPerMonth,
                  ResidentialTariff(monthly), CommercialTariff(policy.ctc),
                  CostsFor(monthly, policy.dac, cfg))
  }

  /** An empty selection gives zero power and consumption, yet CTC and DAC are 1 kVA. */
  lemma EmptySelection(cfg: RateConfig)
    requires UsableConfig(cfg)
    ensures var r := Aggregate([], cfg);
      && r.activePower == 0.0 && r.apparentKva == 0.0
      && r.monthlyKwh == 0.0 && r.dailyKwh == 0.0
      && r.ctc == 1.0 && r.dac == 1.0
      && r.residential == TR1 && r.commercial == G01
  {
  }

  /** The loop accumulates `(watts * hours) / 1000 / fp` with `watts = W * qty` and
      `hours = h * days`; that is the per-row figure the list and the PDF show. */
  lemma LoopTermIsRowKwh(a: SelectedLoad, daysPerMonth: real)
    requires a.powerFactor != 0.0
    ensures (a.watts * (a.quantity as real)) * (a.dailyHours * daysPerMonth) / 1000.0 / a.powerFactor
         == LoadMonthlyKwh(a, daysPerMonth)
  {
    var x := a.watts * (a.quantity as real) * a.dailyHours * daysPerMonth;
    assert (a.watts * (a.quantity as real)) * (a.dailyHours * daysPerMonth) == x;
    assert x / 1000.0 / a.powerFactor == x / (1000.0 * a.powerFactor);
    assert x / a.powerFactor / 1000.0 == x / (a.powerFactor * 1000.0);
  }

  /** The PDF report's daily column: each row's monthly kWh over the days per month.
      Its footer equals the result's daily consumption. */
  function DailyColumnTotal(s: seq<SelectedLoad>, daysPerMonth: real): (total: real)
    requires PowerFactorsNonZero(s) && daysPerMonth != 0.0
    ensures total == TotalMonthlyKwh(s, daysPerMonth) / daysPerMonth
  {
    if s == [] then 0.0
    else
      var init := DailyColumnTotal(s[..|s| - 1], daysPerMonth);
      var row := LoadMonthlyKwh(s[|s| - 1], daysPerMonth);
      assert TotalMonthlyKwh(s[..|s| - 1], daysPerMonth) / daysPerMonth + row / daysPerMonth
          == (TotalMonthlyKwh(s[..|s| - 1], daysPerMonth) + row) / daysPerMonth;
      init + row / daysPerMonth
  }

  /** Replacing one row changes the total power by the difference of that row. */
  lemma {:induction false} TotalWattsReplace(s: seq<SelectedLoad>, k: int, x: SelectedLoad)
    requires 0 <= k < |s|
    ensures TotalWatts(s[k := x]) == TotalWatts(s) - LoadWatts(s[k]) + LoadWatts(x)
  {
    var n := |s| - 1;
    if k == n {
      assert s[k := x][..n] == s[..n];
    } else {
      TotalWattsReplace(s[..n], k, x);
      assert s[k := x][..n] == s[..n][k := x];
    }
  }

  // ---------------------------------------------------------------------------
  // The editing rules for one row

  /** `Math.max(parseInt(v) || 1, 1)`: a positive integer is kept, anything else gives 1. */
  function EditedQuantity(input: Field<int>): (q: int)
    ensures q >= 1
    ensures input.Parsed? && input.value >= 1 ==> q == input.value
    ensures !(input.Parsed? && input.value >= 1) ==> q == 1
  {
    var q := IntOr(input, 1);
    if q >= 1 then q else 1
  }

  /** `Math.max(parseFloat(v) || 0, 0)`: a non-negative number is kept, anything else gives 0. */
  function EditedHours(input: Field<real>): (h: real)
    ensures h >= 0.0
    ensures input.Parsed? && input.value >= 0.0 ==> h == input.value
    ensures !(input.Parsed? && input.value >= 0.0) ==> h == 0.0
  {
    MaxReal(RealOr(input, 0.0), 0.0)
  }

  /** `aparatosSeleccionados.find(a => a.nombre === name)`, as an index (-1 when absent). */
  function NameIndex(s: seq<SelectedLoad>, name: string): (k: int)
    ensures -1 <= k < |s|
    ensures k >= 0 ==> s[k].name == name && forall j :: 0 <= j < k ==> s[j].name != name
    ensures k < 0 ==> forall j :: 0 <= j < |s| ==> s[j].name != name
  {
    FirstIndex(s, (a: SelectedLoad) => a.name == name)
  }

  /** No two entries share a name. */
  predicate UniqueNames(s: seq<SelectedLoad>)
  {
    forall i, j :: 0 <= i < j < |s| ==> s[i].name != s[j].name
  }

  /** What every entry of the selection satisfies: unique names, a power factor
      that can be divided by, and a quantity of at least 1. */
  predicate WellFormedSelection(s: seq<SelectedLoad>)
  {
    && UniqueNames(s)
    && PowerFactorsNonZero(s)
    && forall i :: 0 <= i < |s| ==> s[i].quantity >= 1
  }

  /** The selection `aparatosSeleccionados` and the handlers that change it. */
  class Selection {
    var items: seq<SelectedLoad>

    ghost predicate Valid()
      reads this
    {
      WellFormedSelection(items)
    }

    constructor ()
      ensures Valid() && items == []
    {
      items := [];
    }

    /** `limpiarTodo`. */
    method Clear()
      modifies this
      ensures Valid() && items == []
    {
      items := [];
    }

    /** `agregarDispositivo`: one more of an entry that has the device's name, or a
        new entry with quantity 1 at the end. */
    method AddDevice(d: Device)
      requires Valid() && d.powerFactor != 0.0
      modifies this
      ensures Valid()
      ensures var k := NameIndex(old(items), d.name);
        k >= 0 ==>
          && |items| == |old(items)|
          && items[k] == old(items)[k].(quantity := old(items)[k].quantity + 1)
          && forall j :: 0 <= j < |items| && j != k ==> items[j] == old(items)[j]
      ensures NameIndex(old(items), d.name) < 0 ==> items == old(items) + [Selected(d)]
    {
      var k := NameIndex(items, d.name);
      if k >= 0 {
        items := items[k := items[k].(quantity := items[k].quantity + 1)];
      } else {
        items := items + [Selected(d)];
      }
    }

    /** The quantity field's change handler for the row at `index`. */
    method SetQuantity(index: int, input: Field<int>)
      requires Valid() && 0 <= index < |items|
      modifies this
      ensures Valid()
      ensures items == old(items)[index := old(items)[index].(quantity := EditedQuantity(input))]
    {
      items := items[index := items[index].(quantity := EditedQuantity(input))];
    }

    /** The hours field's change handler for the row at `index`. */
    method SetHours(index: int, input: Field<real>)
      requires Valid() && 0 <= index < |items|
      modifies this
      ensures Valid()
      ensures items == old(items)[index := old(items)[index].(dailyHours := EditedHours(input))]
    {
      items := items[index := items[index].(dailyHours := EditedHours(input))];
    }

    /** The remove button of the row at `index`: `splice(index, 1)`. */
    method RemoveAt(index: int)
      requires Valid() && 0 <= index < |items|
      modifies this
      ensures Valid()
      ensures |items| == |old(items)| - 1
      ensures forall j :: 0 <= j < index ==> items[j] == old(items)[j]
      ensures forall j :: index <= j < |items| ==> items[j] == old(items)[j + 1]
    {
      items := items[..index] + items[index + 1..];
    }

    /** `calcularConsumo`: one pass over the selection accumulating watts, kWh and
        VA, then the result of the appliance path. */
    method CalculateConsumption(cfg: RateConfig) returns (r: BillingResult)
      requires Valid() && UsableConfig(cfg)
      ensures r == Aggregate(items, cfg)
    {
      var totalW, totalKwh, totalVa := 0.0, 0.0, 0.0;
      var i := 0;
      while i < |items|
        invariant 0 <= i <= |items|
        invariant totalW == TotalWatts(items[..i])
        invariant totalKwh == TotalMonthlyKwh(items[..i], cfg.daysPerMonth)
        invariant totalVa == TotalVa(items[..i])
      {
        var a := items[i];
        var watts := a.watts * (a.quantity as real);
        var hours := a.dailyHours * cfg.daysPerMonth;
        LoopTermIsRowKwh(a, cfg.daysPerMonth);
        totalW := totalW + watts;
        totalKwh := totalKwh + (watts * hours) / 1000.0 / a.powerFactor;
        totalVa := totalVa + watts / a.powerFactor;
        assert items[..i + 1][..i] == items[..i];
        i := i + 1;
      }
      assert items[..i] == items;
      var totalKva := totalVa / 1000.0;
      var policy := AggregationPolicy(totalKva);
      r := BillingResult(totalKva, totalW, policy.ctc, policy.dac, totalKwh, totalKwh / cfg.daysPerMonth,
                         ResidentialTariff(totalKwh), CommercialTariff(policy.ctc),
                         CostsFor(totalKwh, policy.dac, cfg));
    }
  }

  /** Adding a device raises the total power by one unit of the entry it lands on:
      the existing entry of that name, or the new one. */
  lemma AddRaisesPowerByOneUnit(s: seq<SelectedLoad>, d: Device)
    ensures var k := NameIndex(s, d.name);
      k >= 0 ==> TotalWatts(s[k := s[k].(quantity := s[k].quantity + 1)]) == TotalWatts(s) + s[k].watts
    ensures NameIndex(s, d.name) < 0 ==> TotalWatts(s + [Selected(d)]) == TotalWatts(s) + d.watts
  {
    var k := NameIndex(s, d.name);
    if k >= 0 {
      TotalWattsReplace(s, k, s[k].(quantity := s[k].quantity + 1));
    } else {
      assert (s + [Selected(d)])[..|s|] == s;
    }
  }

  // ---------------------------------------------------------------------------
  // Spreadsheet rows

  /** The cells of one spreadsheet row that the import reads: columns A to E and G. */
  datatype SheetRow = SheetRow(
    name: Option<string>,    // column A, missing when the cell is empty
    watts: Field<real>,      // column B
    powerFactor: Field<real>,// column C
    dailyHours: Field<real>, // column D
    phase: Field<int>,       // column E
    voltage: Field<real>)    // column G (index 6)

  /** The mapping of one row, with the `|| default` fallbacks. */
  function DeviceOfRow(row: SheetRow): (d: Device)
    ensures d.name == (if row.name.Some? then Trim(row.name.value) else [])
    ensures d.watts == (if row.watts.Parsed? then row.watts.value else 0.0)
    ensures d.powerFactor == (if row.powerFactor.Parsed? && row.powerFactor.value != 0.0 then row.powerFactor.value else 0.8)
    ensures d.dailyHours == (if row.dailyHours.Parsed? then row.dailyHours.value else 0.0)
    ensures d.phase == (if row.phase.Parsed? && row.phase.value != 0 then row.phase.value else 1)
    ensures d.voltage == (if row.voltage.Parsed? then row.voltage.value else 0.0)
    ensures d.powerFactor != 0.0
  {
    Device(if row.name.Some? then Trim(row.name.value) else [],
           RealOr(row.watts, 0.0), RealOr(row.powerFactor, 0.8), RealOr(row.dailyHours, 0.0),
           IntOr(row.phase, 1), RealOr(row.voltage, 0.0))
  }

  /** The import keeps a row with a non-empty name and positive watts. */
  predicate KeepsRow(row: SheetRow)
  {
    var d := DeviceOfRow(row);
    d.name != [] && d.watts > 0.0
  }

  /** The devices of a sheet: the kept rows, mapped, in sheet order. */
  function DevicesFromSheet(rows: seq<SheetRow>): (ds: seq<Device>)
    ensures |ds| <= |rows|
    ensures forall i :: 0 <= i < |ds| ==> ds[i].name != [] && ds[i].watts > 0.0 && ds[i].powerFactor != 0.0
  {
    if rows == [] then []
    else
      var rest := DevicesFromSheet(rows[1..]);
      if KeepsRow(rows[0]) then [DeviceOfRow(rows[0])] + rest else rest
  }

  /** The import keeps exactly the rows with a name and positive watts: every such
      row's device is in the list, and every device in the list comes from one. */
  lemma {:induction false} SheetImportKeepsExactly(rows: seq<SheetRow>)
    ensures forall row :: row in rows && KeepsRow(row) ==> DeviceOfRow(row) in DevicesFromSheet(rows)
    ensures forall d :: d in DevicesFromSheet(rows) ==>
      exists row :: row in rows && KeepsRow(row) && d == DeviceOfRow(row)
  {
    if rows != [] {
      var tail := rows[1..];
      SheetImportKeepsExactly(tail);
      var rest := DevicesFromSheet(tail);
      var ds := DevicesFromSheet(rows);
      assert forall d :: d in rest ==> d in ds;
      forall row | row in rows && KeepsRow(row)
        ensures DeviceOfRow(row) in ds
      {
        if row != rows[0] {
          assert row in tail;
        }
      }
      forall d | d in ds
        ensures exists row :: row in rows && KeepsRow(row) && d == DeviceOfRow(row)
      {
        if d in rest {
          var row :| row in tail && KeepsRow(row) && d == DeviceOfRow(row);
          assert row in rows;
        } else {
          assert rows[0] in rows;
        }
      }
    }
  }

  /** The import keeps sheet order: the devices of two consecutive blocks of rows
      are the first block's devices followed by the second block's. */
  lemma {:induction false} DevicesFromSheetConcat(a: seq<SheetRow>, b: seq<SheetRow>)
    ensures DevicesFromSheet(a + b) == DevicesFromSheet(a) + DevicesFromSheet(b)
  {
    if a != [] {
      assert (a + b)[1..] == a[1..] + b;
      DevicesFromSheetConcat(a[1..], b);
    } else {
      assert a + b == b;
    }
  }

  // ---------------------------------------------------------------------------
  // Catalog entries

  /** The device a catalog entry offers (`syncWithAutocomplete` followed by
      `refreshAutocompleteFromArtifacts`). */
  function DeviceOfArtifact(a: Artifact): Device
  {
    Device(a.data.name, a.data.watt, a.data.fp, a.data.hd, a.data.phase, a.data.voltage as real)
  }

  /** The device list rebuilt from the catalog, one device per entry, in catalog order. */
  function DevicesFromCatalog(s: seq<Artifact>): (ds: seq<Device>)
    ensures |ds| == |s|
    ensures forall i :: 0 <= i < |s| ==> ds[i] == DeviceOfArtifact(s[i])
  {
    seq(|s|, i requires 0 <= i < |s| => DeviceOfArtifact(s[i]))
  }

  /** Devices taken from a well-formed catalog have distinct names, so the lookup
      by name finds exactly one, and a power factor the apparent-power sum can divide by. */
  lemma CatalogDevicesSelectable(s: seq<Artifact>)
    requires WellFormedCatalog(s)
    ensures var ds := DevicesFromCatalog(s);
      && (forall i, j :: 0 <= i < j < |ds| ==> ds[i].name != ds[j].name)
      && (forall i :: 0 <= i < |ds| ==> Selected(ds[i]).powerFactor != 0.0)
  {
  }
}
