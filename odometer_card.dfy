/**
 * The odometer card: shows a vehicle's latest odometer record and lets the
 * user type a new reading and date, validating them before they are stored.
 */
module OdometerCard {
  import opened JsValues
  import opened LocalStorage
  import opened Odometer

  /** The two text fields of the edit form. */
  datatype OdometerForm = OdometerForm(reading: string, date: string)

  datatype FormField = ReadingField | DateField

  /** The banner: its kind ('', 'error' or 'success') and text. */
  datatype Message = Message(kind: string, text: string)

  const NoMessage := Message("", "")
  const FillInAll := "Please fill in all fields."
  const InvalidReading := "Please enter a valid odometer reading."
  const UpdatedText := "Odometer reading updated successfully!"

  /** The outcome of the checks at the top of `handleSubmit`. */
  datatype Validation = Rejected(error: string) | Accepted(reading: real)

  /**
   * Both fields must be filled in; then `Number(reading)` must be a number and
   * not negative.
   */
  function Validate(form: OdometerForm): (v: Validation)
    ensures form.reading == "" || form.date == "" ==> v == Rejected(FillInAll)
    ensures v.Rejected? && v.error != FillInAll ==> v.error == InvalidReading
    ensures v.Accepted? <==> (form.reading != "" && form.date != ""
                              && ToNumber(form.reading).Some? && ToNumber(form.reading).value >= 0.0)
    ensures v.Accepted? ==> v.reading == ToNumber(form.reading).value && v.reading >= 0.0
  {
    if form.reading == "" || form.date == "" then Rejected(FillInAll)
    else
      match ToNumber(form.reading)
      case None => Rejected(InvalidReading)
      case Some(x) => if x < 0.0 then Rejected(InvalidReading) else Accepted(x)
  }

  /** Any whole, non-negative reading typed in with a date is accepted as exactly that number. */
  lemma WholeReadingAccepted(n: nat, date: string)
    requires date != ""
    ensures Validate(OdometerForm(IntText(n), date)) == Accepted(n as real)
  {
    IntTextRoundTrip(n);
  }

  /** Any negative whole reading is refused with the invalid-reading message. */
  lemma NegativeReadingRejected(n: int, date: string)
    requires n < 0 && date != ""
    ensures Validate(OdometerForm(IntText(n), date)) == Rejected(InvalidReading)
  {
    IntTextRoundTrip(n);
  }

  /** `odometerData && reading < odometerData.reading`: the new reading is below the stored one. */
  predicate NeedsConfirm(reading: real, odometerData: Value)
  {
    var previous := NumberOf(Prop(odometerData, "reading"));
    Truthy(Some(odometerData)) && previous.Some? && reading < previous.value
  }

  /**
   * The form `handleCancel` restores from a stored record: the reading as text
   * and the date (or '' when it is falsy). None when `reading` is undefined or
   * null, where `toString()` throws.
   */
  function RestoredForm(data: Value): (f: Option<OdometerForm>)
    ensures f.Some? <==> Prop(data, "reading").Some? && Prop(data, "reading").value != Null
    ensures f.Some? && !Truthy(Prop(data, "date")) ==> f.value.date == ""
  {
    match Prop(data, "reading")
    case None => None
    case Some(reading) =>
      if reading == Null then None
      else
        var date := Prop(data, "date");
        Some(OdometerForm(DisplayText(reading), if Truthy(date) then DisplayText(date.value) else ""))
  }

  /**
   * Round trip: after a whole reading n is saved with date d, cancelling restores
   * exactly the texts n and d, and they pass validation again as n.
   */
  lemma CancelRestoresSaved(n: nat, d: string, todayIso: string, lastUpdated: string)
    requires d != ""
    ensures RestoredForm(OdometerRecord(Num(n as real), Str(d), todayIso, lastUpdated))
      == Some(OdometerForm(IntText(n), d))
    ensures Validate(OdometerForm(IntText(n), d)) == Accepted(n as real)
  {
    var rec := OdometerRecord(Num(n as real), Str(d), todayIso, lastUpdated);
    assert Prop(rec, "reading") == Some(Num(n as real));
    assert (n as real).Floor == n;
    assert DisplayText(Num(n as real)) == NatText(n);
    WholeReadingAccepted(n, d);
  }

  class OdometerCard {
    const vehicleId: string
    var odometerData: Value
    var isEditing: bool
    var form: OdometerForm
    var message: Message

    constructor(vehicleId: string, odometerData: Value, form: OdometerForm)
      ensures this.vehicleId == vehicleId && this.odometerData == odometerData && this.form == form
      ensures !isEditing && message == NoMessage
    {
      this.vehicleId := vehicleId;
      this.odometerData := odometerData;
      this.form := form;
      isEditing := false;
      message := NoMessage;
    }

    /** `handleChange`: one field takes the typed text and the banner is cleared. */
    method HandleChange(field: FormField, value: string)
      modifies this
      ensures field == ReadingField ==> form == OdometerForm(value, old(form).date)
      ensures field == DateField ==> form == OdometerForm(old(form).reading, value)
      ensures message == NoMessage
      ensures odometerData == old(odometerData) && isEditing == old(isEditing)
    {
      match field {
        case ReadingField => form := form.(reading := value);
        case DateField => form := form.(date := value);
      }
      message := NoMessage;
    }

    /**
     * `handleSubmit`. `confirmed` is the user's answer to the lower-reading prompt;
     * `asked` says whether the prompt was shown. `todayIso` and `lastUpdated` are
     * the clock readings `updateOdometer` takes.
     */
    method HandleSubmit(st: Storage, confirmed: bool, todayIso: string, lastUpdated: string)
      returns (asked: bool)
      modifies this, st
      ensures form == old(form)
      ensures Validate(old(form)).Rejected? ==>
        && !asked
        && message == Message("error", Validate(old(form)).error)
        && st.items == old(st.items)
        && odometerData == old(odometerData) && isEditing == old(isEditing)
      ensures Validate(old(form)).Accepted? ==>
        asked == NeedsConfirm(Validate(old(form)).reading, old(odometerData))
      ensures Validate(old(form)).Accepted? && asked && !confirmed ==>
        && st.items == old(st.items)
        && odometerData == old(odometerData) && isEditing == old(isEditing) && message == old(message)
      ensures Validate(old(form)).Accepted? && (!asked || confirmed) ==>
        var rec := OdometerRecord(Num(Validate(old(form)).reading), Str(old(form).date), todayIso, lastUpdated);
        && !isEditing
        && message == Message("success", UpdatedText)
        && (vehicleId == "" ==> odometerData == Null && st.items == old(st.items))
        && (vehicleId != "" ==>
              && odometerData == rec
              && st.items == old(st.items)["odometer:" + vehicleId := Parsed(JsonCopy(rec))]
              && GetOdometer(st.items, vehicleId) == odometerData)
    {
      asked := false;
      match Validate(form)
      case Rejected(error) =>
        message := Message("error", error);
      case Accepted(reading) =>
        if NeedsConfirm(reading, odometerData) {
          asked := true;
          if !confirmed {
            return;
          }
        }
        SaveReading(st, reading, todayIso, lastUpdated);
    }

    /** The write of an accepted (and, where asked, confirmed) reading, then the success banner. */
    method SaveReading(st: Storage, reading: real, todayIso: string, lastUpdated: string)
      modifies this, st
      ensures form == old(form)
      ensures var rec := OdometerRecord(Num(reading), Str(form.date), todayIso, lastUpdated);
        && !isEditing
        && message == Message("success", UpdatedText)
        && (vehicleId == "" ==> odometerData == Null && st.items == old(st.items))
        && (vehicleId != "" ==>
              && odometerData == rec
              && st.items == old(st.items)["odometer:" + vehicleId := Parsed(JsonCopy(rec))]
              && GetOdometer(st.items, vehicleId) == odometerData)
    {
      var updated := UpdateOdometer(st, vehicleId, Num(reading), Str(form.date), todayIso, lastUpdated);
      if vehicleId != "" {
        UpdateThenGet(old(st.items), vehicleId, vehicleId + "-", Num(reading), Str(form.date), todayIso, lastUpdated);
      }
      odometerData := updated;
      isEditing := false;
      message := Message("success", UpdatedText);
    }

    /**
     * `handleCancel`: restores the form from the record shown (if any), ends
     * editing and clears the banner; never writes storage. `threw` is the
     * TypeError case of a record without a reading, which changes nothing.
     */
    method HandleCancel() returns (threw: bool)
      modifies this
      ensures threw <==> Truthy(Some(old(odometerData))) && RestoredForm(old(odometerData)).None?
      ensures threw ==> form == old(form) && isEditing == old(isEditing) && message == old(message)
      ensures !threw ==> !isEditing && message == NoMessage
      ensures !threw && Truthy(Some(old(odometerData))) ==> form == RestoredForm(old(odometerData)).value
      ensures !threw && !Truthy(Some(old(odometerData))) ==> form == old(form)
      ensures odometerData == old(odometerData)
    {
      threw := false;
      if Truthy(Some(odometerData)) {
        match RestoredForm(odometerData)
        case None =>
          threw := true;
          return;
        case Some(restored) =>
          form := restored;
      }
      isEditing := false;
      message := NoMessage;
    }
  }
}
