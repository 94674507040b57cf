/** The fuel log page of one vehicle: its list of fuel entries and the add-entry form. */
module FuelLogsPage {
  import opened JsValues
  import opened LocalStorage
  import opened LogOrder
  import opened LogStore
  import opened FuelLogs

  /** The form's text fields. */
  datatype FuelForm = FuelForm(date: string, liters: string, price: string, odometer: string)

  const EmptyForm := FuelForm("", "", "", "")

  /**
   * The entry a submit creates: the date text as typed, `Number(...)` of the three
   * numeric fields, the clock reading `now` as id and `createdAt` as its ISO time.
   */
  function NewFuelLog(form: FuelForm, now: int, createdAt: string): (log: Value)
    ensures log.Obj? && log.fields.Keys == {"id", "date", "liters", "price", "odometer", "createdAt"}
    ensures log.fields["date"] == Str(form.date)
    ensures log.fields["liters"] == NumberValue(ToNumber(form.liters))
    ensures log.fields["price"] == NumberValue(ToNumber(form.price))
    ensures log.fields["odometer"] == NumberValue(ToNumber(form.odometer))
    ensures log.fields["id"] == Num(now as real) && log.fields["createdAt"] == Str(createdAt)
  {
    Obj(map[
      "id" := Num(now as real),
      "date" := Str(form.date),
      "liters" := NumberValue(ToNumber(form.liters)),
      "price" := NumberValue(ToNumber(form.price)),
      "odometer" := NumberValue(ToNumber(form.odometer)),
      "createdAt" := Str(createdAt)])
  }

  /** The new entry survives JSON exactly when none of its three numbers is NaN. */
  lemma NewFuelLogJsonSafe(form: FuelForm, now: int, createdAt: string)
    ensures JsonSafe(NewFuelLog(form, now, createdAt)) <==>
      ToNumber(form.liters).Some? && ToNumber(form.price).Some? && ToNumber(form.odometer).Some?
  {
    var log := NewFuelLog(form, now, createdAt);
    if !ToNumber(form.liters).Some? {
      assert !JsonSafe(log.fields["liters"]);
    } else if !ToNumber(form.price).Some? {
      assert !JsonSafe(log.fields["price"]);
    } else if !ToNumber(form.odometer).Some? {
      assert !JsonSafe(log.fields["odometer"]);
    }
  }

  class FuelLogsPage {
    const vehicleId: string
    var fuelLogs: seq<Value>
    var form: FuelForm

    /** Mounting the page loads the stored entries of a non-empty vehicle id. */
    constructor(vehicleId: string, st: Storage)
      ensures this.vehicleId == vehicleId
      ensures fuelLogs == (if vehicleId != "" then GetFuelLogs(st.items, vehicleId) else [])
      ensures form == EmptyForm
    {
      this.vehicleId := vehicleId;
      fuelLogs := if vehicleId != "" then GetFuelLogs(st.items, vehicleId) else [];
      form := EmptyForm;
    }

    /**
     * `handleAddLog`: with a vehicle id, the new entry is prepended, the list is
     * sorted newest first, shown, saved under `fuelLogs:<id>`, and the form is cleared.
     */
    method HandleAddLog(st: Storage, now: int, createdAt: string)
      modifies this, st
      ensures vehicleId == "" ==> fuelLogs == old(fuelLogs) && form == old(form) && st.items == old(st.items)
      ensures vehicleId != "" ==>
        fuelLogs == NewestFirst([NewFuelLog(old(form), now, createdAt)] + old(fuelLogs), "date")
      ensures vehicleId != "" ==> |fuelLogs| == |old(fuelLogs)| + 1
      ensures vehicleId != "" ==> st.items == old(st.items)["fuelLogs:" + vehicleId := Parsed(JsonCopy(Arr(fuelLogs)))]
      ensures vehicleId != "" ==> form == EmptyForm
    {
      if vehicleId == "" {
        return;
      }
      var newLog := NewFuelLog(form, now, createdAt);
      var updated := NewestFirst([newLog] + fuelLogs, SortField);
      fuelLogs := updated;
      SaveFuelLogs(st, vehicleId, updated);
      form := EmptyForm;
    }
  }

  /**
   * After a submit whose numbers all parse, over a list read from storage, the
   * stored list reads back as the list on screen.
   */
  lemma SubmitReadsBack(form: FuelForm, now: int, createdAt: string, shown: seq<Value>)
    requires ToNumber(form.liters).Some? && ToNumber(form.price).Some? && ToNumber(form.odometer).Some?
    requires AllJsonSafe(shown)
    ensures var updated := NewestFirst([NewFuelLog(form, now, createdAt)] + shown, "date");
      JsonCopy(Arr(updated)).items == updated
  {
    NewFuelLogJsonSafe(form, now, createdAt);
    AddedListReadsBack(NewFuelLog(form, now, createdAt), shown, "date");
  }
}
