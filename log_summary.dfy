/**
 * The log summary page of one vehicle: the three log lists filtered by an
 * inclusive date range and sorted newest first, the mileage figures computed
 * from the filtered fuel entries, and the cost totals.
 */
module LogSummary {
  import opened JsValues
  import opened Seqs
  import opened LocalStorage
  import opened LogOrder
  import opened FuelLogs
  import opened MaintenanceLogs
  import opened InsuranceLogs

  // ---------------------------------------------------------------------------
  // Date-range filter

  /** The two date inputs; '' means no bound. */
  datatype DateRange = DateRange(startDate: string, endDate: string)

  predicate HasBound(range: DateRange)
  {
    range.startDate != "" || range.endDate != ""
  }

  /** Midnight of the start date, in milliseconds (None for an Invalid Date). */
  function StartMs(range: DateRange): Option<int>
  {
    match DayOf(Some(Str(range.startDate)))
    case Some(d) => Some(d * MsPerDay)
    case None => None
  }

  /** The last millisecond of the end date. */
  function EndMs(range: DateRange): Option<int>
  {
    match DayOf(Some(Str(range.endDate)))
    case Some(d) => Some(d * MsPerDay + MsPerDay - 1)
    case None => None
  }

  /** Midnight of the entry's date, in milliseconds. */
  function LogMs(log: Value, field: string): Option<int>
  {
    match DayOf(Prop(log, field))
    case Some(d) => Some(d * MsPerDay)
    case None => None
  }

  /** The filter callback: the entry has a date and lies within every bound that is set. */
  predicate InRange(log: Value, field: string, range: DateRange)
  {
    var logMs, startMs, endMs := LogMs(log, field), StartMs(range), EndMs(range);
    && Truthy(Prop(log, field))
    && (range.startDate != "" ==> logMs.Some? && startMs.Some? && logMs.value >= startMs.value)
    && (range.endDate != "" ==> logMs.Some? && endMs.Some? && logMs.value <= endMs.value)
  }

  /** `filterLogsByDate(logs, field)`: the list itself when no bound is set. */
  function FilterByDate(logs: seq<Value>, field: string, range: DateRange): (r: seq<Value>)
    ensures !HasBound(range) ==> r == logs
    ensures |r| <= |logs|
  {
    if !HasBound(range) then logs else Filter(logs, l => InRange(l, field, range))
  }

  /**
   * The filter at day granularity: with a bound set, an entry is kept exactly when
   * it has a date and its day lies between the start day and the end day, both
   * inclusive.
   */
  lemma InRangeByDay(log: Value, field: string, range: DateRange)
    requires HasBound(range)
    ensures InRange(log, field, range) <==>
      && Truthy(Prop(log, field))
      && DayOf(Prop(log, field)).Some?
      && (range.startDate != "" ==>
            (DayOf(Some(Str(range.startDate))).Some?
             && DayOf(Prop(log, field)).value >= DayOf(Some(Str(range.startDate))).value))
      && (range.endDate != "" ==>
            (DayOf(Some(Str(range.endDate))).Some?
             && DayOf(Prop(log, field)).value <= DayOf(Some(Str(range.endDate))).value))
  {
    var day := DayOf(Prop(log, field));
    var endDay := DayOf(Some(Str(range.endDate)));
    if day.Some? && endDay.Some? {
      var x, e := day.value, endDay.value;
      assert x * MsPerDay <= e * MsPerDay + MsPerDay - 1 <==> x <= e;
    }
  }

  /** An entry without a date is dropped as soon as a bound is set. */
  lemma UndatedDropped(logs: seq<Value>, field: string, range: DateRange, log: Value)
    requires HasBound(range) && !Truthy(Prop(log, field))
    ensures log !in FilterByDate(logs, field, range)
  {
    FilterMembers(logs, l => InRange(l, field, range));
  }

  /** The list shown: filtered, then sorted newest first by field. */
  function FilteredSorted(logs: seq<Value>, field: string, range: DateRange): seq<Value>
  {
    NewestFirst(FilterByDate(logs, field, range), field)
  }

  /**
   * The list shown holds, each as often, exactly the entries the filter keeps, in
   * newest-first order when a bound is set (every kept entry then has a valid date).
   */
  lemma FilteredSortedSpec(logs: seq<Value>, field: string, range: DateRange)
    ensures multiset(FilteredSorted(logs, field, range)) == multiset(FilterByDate(logs, field, range))
    ensures multiset(FilteredSorted(logs, field, range)) <= multiset(logs)
    ensures HasBound(range) ==> IsNewestFirst(FilteredSorted(logs, field, range), field)
  {
    var p := l => InRange(l, field, range);
    var kept := FilterByDate(logs, field, range);
    NewestFirstPermutation(kept, field);
    if HasBound(range) {
      forall x ensures multiset(kept)[x] <= multiset(logs)[x] {
        FilterCount(logs, p, x);
      }
      FilterMembers(logs, p);
      forall i | 0 <= i < |kept| ensures DateKey(kept[i], field).Some? {
        assert kept[i] in kept;
        assert LogMs(kept[i], field).Some?;
      }
      NewestFirstOrdered(kept, field);
    }
  }

  // ---------------------------------------------------------------------------
  // Mileage

  const NoFuelLogs := "No fuel logs available. Please add fuel logs first."
  const ZeroFuel := "Total fuel consumed is zero. Please check your fuel log entries."
  const TooFewReadings := "Need at least 2 fuel log entries with odometer readings to calculate mileage."
  const BadReadings := "Invalid odometer readings. Please ensure odometer values are correct."

  /** The figures `calculateMileage` stores; `costToTravel` None is `null`. */
  datatype Mileage = Mileage(
    totalFuel: real,
    totalKilometers: real,
    fuelMileage: real,
    costPerKilometer: real,
    totalFuelCost: real,
    costToTravel: Option<real>,
    minOdometer: real,
    maxOdometer: real,
    averageFuelPrice: real)

  datatype MileageOutcome = Failed(error: string) | Computed(mileage: Mileage)

  /** `Number(log.liters) || 0` and friends. */
  function Liters(log: Value): real { NumOrZero(Prop(log, "liters")) }
  function Price(log: Value): real { NumOrZero(Prop(log, "price")) }
  function OdometerOf(log: Value): real { NumOrZero(Prop(log, "odometer")) }

  /** The positive odometer readings of the entries, in entry order. */
  function Readings(fuel: seq<Value>): (r: seq<real>)
    ensures forall i :: 0 <= i < |r| ==> r[i] > 0.0
  {
    var all := MapSeq(fuel, OdometerOf);
    var r := Filter(all, x => x > 0.0);
    FilterMembers(all, x => x > 0.0);
    assert forall i :: 0 <= i < |r| ==> r[i] in r;
    r
  }

  /** `Math.min(...xs)` of a non-empty list. */
  function SeqMin(xs: seq<real>): (m: real)
    requires |xs| > 0
    ensures m in xs
    ensures forall i :: 0 <= i < |xs| ==> m <= xs[i]
  {
    if |xs| == 1 then xs[0]
    else
      var rest := SeqMin(xs[1..]);
      assert forall i :: 1 <= i < |xs| ==> xs[i] == xs[1..][i - 1];
      if xs[0] <= rest then xs[0] else rest
  }

  /** `Math.max(...xs)` of a non-empty list. */
  function SeqMax(xs: seq<real>): (m: real)
    requires |xs| > 0
    ensures m in xs
    ensures forall i :: 0 <= i < |xs| ==> xs[i] <= m
  {
    if |xs| == 1 then xs[0]
    else
      var rest := SeqMax(xs[1..]);
      assert forall i :: 1 <= i < |xs| ==> xs[i] == xs[1..][i - 1];
      if xs[0] >= rest then xs[0] else rest
  }

  /** The figures from the totals and the odometer extremes (fuel and distance positive). */
  function Figures(totalFuel: real, totalFuelCost: real, minOdometer: real, maxOdometer: real,
                   averageFuelPrice: real): Mileage
    requires totalFuel > 0.0 && maxOdometer > minOdometer
  {
    var totalKilometers := maxOdometer - minOdometer;
    var fuelMileage := totalKilometers / totalFuel;
    var costToTravel :=
      if averageFuelPrice > 0.0 then Some(totalKilometers / fuelMileage * averageFuelPrice) else None;
    Mileage(totalFuel, totalKilometers, fuelMileage, totalFuelCost / totalKilometers,
            totalFuelCost, costToTravel, minOdometer, maxOdometer, averageFuelPrice)
  }

  /**
   * `calculateMileage(averageFuelPrice)` on the filtered fuel entries: the first
   * failing check in the order (no entries, no fuel, fewer than two positive
   * readings, no distance) names the error; otherwise the figures.
   */
  function MileageOf(fuel: seq<Value>, averageFuelPrice: real): (r: MileageOutcome)
    ensures r.Failed? ==> r.error in {NoFuelLogs, ZeroFuel, TooFewReadings, BadReadings}
    ensures r.Failed? && r.error == NoFuelLogs <==> |fuel| == 0
    ensures r.Computed? ==> |fuel| > 0 && r.mileage.totalFuel > 0.0 && r.mileage.totalKilometers > 0.0
  {
    if |fuel| == 0 then Failed(NoFuelLogs)
    else
      var totalFuel := Sum(fuel, Liters);
      if totalFuel <= 0.0 then Failed(ZeroFuel)
      else
        var readings := Readings(fuel);
        if |readings| < 2 then Failed(TooFewReadings)
        else
          var minOdometer, maxOdometer := SeqMin(readings), SeqMax(readings);
          var totalKilometers := maxOdometer - minOdometer;
          if totalKilometers <= 0.0 then Failed(BadReadings)
          else
            Computed(Figures(totalFuel, Sum(fuel, Price), minOdometer, maxOdometer, averageFuelPrice))
  }

  /** The error chain, in order: each error is reported exactly when the earlier checks pass and its own fails. */
  lemma MileageErrors(fuel: seq<Value>, averageFuelPrice: real)
    ensures var r := MileageOf(fuel, averageFuelPrice);
      && (r == Failed(ZeroFuel) <==> |fuel| > 0 && Sum(fuel, Liters) <= 0.0)
      && (r == Failed(TooFewReadings) <==> |fuel| > 0 && Sum(fuel, Liters) > 0.0 && |Readings(fuel)| < 2)
      && (r == Failed(BadReadings) <==>
            (|fuel| > 0 && Sum(fuel, Liters) > 0.0 && |Readings(fuel)| >= 2
             && forall i, j :: 0 <= i < j < |Readings(fuel)| ==> Readings(fuel)[i] == Readings(fuel)[j]))
  {
    var readings := Readings(fuel);
    if |fuel| > 0 && Sum(fuel, Liters) > 0.0 && |readings| >= 2 {
      var lo, hi := SeqMin(readings), SeqMax(readings);
      if hi - lo <= 0.0 {
        forall i, j | 0 <= i < j < |readings| ensures readings[i] == readings[j] {
          assert lo <= readings[i] <= hi && lo <= readings[j] <= hi;
        }
      } else {
        var a :| 0 <= a < |readings| && readings[a] == lo;
        var b :| 0 <= b < |readings| && readings[b] == hi;
        if a < b {
          assert readings[a] != readings[b];
        } else {
          assert readings[b] != readings[a];
        }
      }
    }
  }

  /**
   * On success: the figures come from the fuel and price totals and from the
   * lowest and highest positive readings, which bound every positive reading and
   * differ.
   */
  lemma MileageFigures(fuel: seq<Value>, averageFuelPrice: real)
    requires MileageOf(fuel, averageFuelPrice).Computed?
    ensures var m := MileageOf(fuel, averageFuelPrice).mileage;
      && m.minOdometer in Readings(fuel) && m.maxOdometer in Readings(fuel)
      && (forall i :: 0 <= i < |Readings(fuel)| ==> m.minOdometer <= Readings(fuel)[i] <= m.maxOdometer)
      && 0.0 < m.minOdometer < m.maxOdometer
      && Sum(fuel, Liters) > 0.0
      && m == Figures(Sum(fuel, Liters), Sum(fuel, Price), m.minOdometer, m.maxOdometer, averageFuelPrice)
  {
    var readings := Readings(fuel);
    assert SeqMin(readings) in readings;
  }

  /**
   * The figures agree with each other: fuel times mileage is the distance, cost
   * per kilometre times distance is the fuel cost, and the cost to travel is the
   * fuel used at the average price (null without a positive price).
   */
  lemma FiguresRatios(totalFuel: real, totalFuelCost: real, minOdometer: real, maxOdometer: real,
                      averageFuelPrice: real)
    requires totalFuel > 0.0 && maxOdometer > minOdometer
    ensures var m := Figures(totalFuel, totalFuelCost, minOdometer, maxOdometer, averageFuelPrice);
      && m.totalKilometers == maxOdometer - minOdometer
      && m.fuelMileage * totalFuel == m.totalKilometers
      && m.costPerKilometer * m.totalKilometers == totalFuelCost
      && (averageFuelPrice > 0.0 ==> m.costToTravel == Some(totalFuel * averageFuelPrice))
      && (averageFuelPrice <= 0.0 ==> m.costToTravel.None?)
  {
    var m := Figures(totalFuel, totalFuelCost, minOdometer, maxOdometer, averageFuelPrice);
    var km, mileage := m.totalKilometers, m.fuelMileage;
    assert mileage * totalFuel == km;
    assert mileage > 0.0;
    assert km / mileage == totalFuel;
    if averageFuelPrice > 0.0 {
      var c := m.costToTravel.value;
      assert c == km / mileage * averageFuelPrice;
      assert c == totalFuel * averageFuelPrice;
    }
  }

  // ---------------------------------------------------------------------------
  // Summary totals

  /** `log.field || 0` on stored entries, whose amounts are numbers or null. */
  function AmountOr0(log: Value, field: string): real
  {
    match Prop(log, field)
    case Some(Num(n)) => n
    case _ => 0.0
  }

  function FuelCost(log: Value): real { AmountOr0(log, "price") }
  function FuelLiters(log: Value): real { AmountOr0(log, "liters") }
  function Cost(log: Value): real { AmountOr0(log, "cost") }

  /** The figures `calculateSummary` returns; `averageFuelPrice` None is NaN or Infinity. */
  datatype Summary = Summary(
    totalFuelCost: real,
    totalFuelLiters: real,
    averageFuelPrice: Option<real>,
    totalMaintenanceCost: real,
    totalInsuranceCost: real,
    totalCost: real,
    fuelCount: nat,
    maintenanceCount: nat,
    insuranceCount: nat)

  function CalculateSummary(fuel: seq<Value>, maintenance: seq<Value>, insurance: seq<Value>): (s: Summary)
    ensures s.totalCost == s.totalFuelCost + s.totalMaintenanceCost + s.totalInsuranceCost
    ensures s.fuelCount == |fuel| && s.maintenanceCount == |maintenance| && s.insuranceCount == |insurance|
    ensures |fuel| == 0 ==> s.averageFuelPrice == Some(0.0) && s.totalFuelCost == 0.0
    ensures s.averageFuelPrice.Some? && |fuel| > 0 ==> s.averageFuelPrice.value * s.totalFuelLiters == s.totalFuelCost
  {
    var totalFuelCost := Sum(fuel, FuelCost);
    var totalFuelLiters := Sum(fuel, FuelLiters);
    var averageFuelPrice :=
      if |fuel| == 0 then Some(0.0)
      else if totalFuelLiters == 0.0 then None
      else Some(totalFuelCost / totalFuelLiters);
    var totalMaintenanceCost := Sum(maintenance, Cost);
    var totalInsuranceCost := Sum(insurance, Cost);
    Summary(totalFuelCost, totalFuelLiters, averageFuelPrice, totalMaintenanceCost, totalInsuranceCost,
            totalFuelCost + totalMaintenanceCost + totalInsuranceCost, |fuel|, |maintenance|, |insurance|)
  }

  /** The totals do not depend on the order of the lists, so sorting them changes nothing. */
  lemma SummaryIgnoresOrder(fuel: seq<Value>, maintenance: seq<Value>, insurance: seq<Value>,
                            fuel2: seq<Value>, maintenance2: seq<Value>, insurance2: seq<Value>)
    requires multiset(fuel) == multiset(fuel2)
    requires multiset(maintenance) == multiset(maintenance2)
    requires multiset(insurance) == multiset(insurance2)
    ensures CalculateSummary(fuel, maintenance, insurance) == CalculateSummary(fuel2, maintenance2, insurance2)
  {
    SumPermutation(fuel, fuel2, FuelCost);
    SumPermutation(fuel, fuel2, FuelLiters);
    SumPermutation(maintenance, maintenance2, Cost);
    SumPermutation(insurance, insurance2, Cost);
    assert |fuel| == |multiset(fuel)| == |fuel2|;
    assert |maintenance| == |multiset(maintenance)| == |maintenance2|;
    assert |insurance| == |multiset(insurance)| == |insurance2|;
  }

  /** With non-negative amounts, narrowing the date range never raises the maintenance or insurance total. */
  lemma FilteredCostAtMost(logs: seq<Value>, field: string, range: DateRange)
    requires forall i :: 0 <= i < |logs| ==> Cost(logs[i]) >= 0.0
    ensures Sum(FilteredSorted(logs, field, range), Cost) <= Sum(logs, Cost)
  {
    var kept := FilterByDate(logs, field, range);
    NewestFirstPermutation(kept, field);
    SumPermutation(FilteredSorted(logs, field, range), kept, Cost);
    if HasBound(range) {
      SumFilterAtMost(logs, l => InRange(l, field, range), Cost);
    }
  }

  // ---------------------------------------------------------------------------
  // Page state

  class SummaryView {
    var fuelLogs: seq<Value>
    var maintenanceLogs: seq<Value>
    var insuranceLogs: seq<Value>
    var dateRange: DateRange
    var filteredFuel: seq<Value>
    var filteredMaintenance: seq<Value>
    var filteredInsurance: seq<Value>
    var mileage: Option<Mileage>
    var calculationError: string

    /** Mounting with a vehicle id loads its three stored lists; nothing is filtered yet. */
    constructor(vehicleId: string, items: map<string, Stored>)
      ensures vehicleId != "" ==>
        (fuelLogs == GetFuelLogs(items, vehicleId)
         && maintenanceLogs == GetMaintenanceLogs(items, vehicleId)
         && insuranceLogs == GetInsuranceLogs(items, vehicleId))
      ensures vehicleId == "" ==> fuelLogs == [] && maintenanceLogs == [] && insuranceLogs == []
      ensures dateRange == DateRange("", "")
      ensures filteredFuel == [] && filteredMaintenance == [] && filteredInsurance == []
      ensures mileage == None && calculationError == ""
    {
      if vehicleId != "" {
        fuelLogs := GetFuelLogs(items, vehicleId);
        maintenanceLogs := GetMaintenanceLogs(items, vehicleId);
        insuranceLogs := GetInsuranceLogs(items, vehicleId);
      } else {
        fuelLogs, maintenanceLogs, insuranceLogs := [], [], [];
      }
      dateRange := DateRange("", "");
      filteredFuel, filteredMaintenance, filteredInsurance := [], [], [];
      mileage := None;
      calculationError := "";
    }

    /** The filtering effect: each list filtered by the range and sorted newest first by its date field. */
    method ApplyFilter()
      modifies this
      ensures filteredFuel == FilteredSorted(fuelLogs, "date", dateRange)
      ensures filteredMaintenance == FilteredSorted(maintenanceLogs, "date", dateRange)
      ensures filteredInsurance == FilteredSorted(insuranceLogs, "startDate", dateRange)
      ensures fuelLogs == old(fuelLogs) && maintenanceLogs == old(maintenanceLogs)
      ensures insuranceLogs == old(insuranceLogs) && dateRange == old(dateRange)
      ensures mileage == old(mileage) && calculationError == old(calculationError)
    {
      filteredFuel := FilteredSorted(fuelLogs, "date", dateRange);
      filteredMaintenance := FilteredSorted(maintenanceLogs, "date", dateRange);
      filteredInsurance := FilteredSorted(insuranceLogs, "startDate", dateRange);
    }

    /** `calculateMileage(averageFuelPrice)`: clear the error, then store the figures or the first error. */
    method CalculateMileage(averageFuelPrice: real)
      modifies this
      ensures MileageOf(filteredFuel, averageFuelPrice).Failed? ==>
        calculationError == MileageOf(filteredFuel, averageFuelPrice).error && mileage == None
      ensures MileageOf(filteredFuel, averageFuelPrice).Computed? ==>
        calculationError == "" && mileage == Some(MileageOf(filteredFuel, averageFuelPrice).mileage)
      ensures filteredFuel == old(filteredFuel) && filteredMaintenance == old(filteredMaintenance)
      ensures filteredInsurance == old(filteredInsurance)
      ensures fuelLogs == old(fuelLogs) && maintenanceLogs == old(maintenanceLogs)
      ensures insuranceLogs == old(insuranceLogs) && dateRange == old(dateRange)
    {
      calculationError := "";
      match MileageOf(filteredFuel, averageFuelPrice) {
        case Failed(error) =>
          calculationError := error;
          mileage := None;
        case Computed(m) =>
          mileage := Some(m);
      }
    }

    /**
     * The auto-calculation effect: with filtered fuel entries and a positive
     * average price it runs the calculation; with none it clears both the figures
     * and the error; otherwise it leaves them as they were.
     */
    method AutoCalculate()
      modifies this
      ensures |filteredFuel| == 0 ==> mileage == None && calculationError == ""
      ensures |filteredFuel| > 0 && AveragePrice(filteredFuel) > 0.0 ==>
        (var r := MileageOf(filteredFuel, AveragePrice(filteredFuel));
         && (r.Failed? ==> calculationError == r.error && mileage == None)
         && (r.Computed? ==> calculationError == "" && mileage == Some(r.mileage)))
      ensures |filteredFuel| > 0 && AveragePrice(filteredFuel) <= 0.0 ==>
        mileage == old(mileage) && calculationError == old(calculationError)
      ensures (calculationError != NoFuelLogs && calculationError != ZeroFuel) || calculationError == old(calculationError)
      ensures filteredFuel == old(filteredFuel) && filteredMaintenance == old(filteredMaintenance)
      ensures filteredInsurance == old(filteredInsurance)
      ensures fuelLogs == old(fuelLogs) && maintenanceLogs == old(maintenanceLogs)
      ensures insuranceLogs == old(insuranceLogs) && dateRange == old(dateRange)
    {
      if |filteredFuel| > 0 {
        var averageFuelPrice := AveragePrice(filteredFuel);
        if averageFuelPrice > 0.0 {
          AutoCalcSkipsEarlyErrors(filteredFuel);
          CalculateMileage(averageFuelPrice);
        }
      } else {
        mileage := None;
        calculationError := "";
      }
    }

    /** `calculateSummary()` over the filtered lists. */
    function Summary(): Summary
      reads this
    {
      CalculateSummary(filteredFuel, filteredMaintenance, filteredInsurance)
    }
  }

  /** The average price the auto-calculation uses: fuel cost over litres, 0 without litres. */
  function AveragePrice(fuel: seq<Value>): real
  {
    var cost, liters := Sum(fuel, Price), Sum(fuel, Liters);
    if liters > 0.0 then cost / liters else 0.0
  }

  /**
   * When the auto-calculation runs the calculation, it can fail only on the
   * odometer checks: a positive average price needs entries and a positive total of litres.
   */
  lemma AutoCalcSkipsEarlyErrors(fuel: seq<Value>)
    requires |fuel| > 0 && AveragePrice(fuel) > 0.0
    ensures MileageOf(fuel, AveragePrice(fuel)).Failed? ==>
      MileageOf(fuel, AveragePrice(fuel)).error in {TooFewReadings, BadReadings}
  {
    assert Sum(fuel, Liters) > 0.0;
  }
}
