/**
 * The maintenance log page of one vehicle: its service entries, the add-entry
 * form with its optional follow-up reminder, and the list of due reminders.
 */
module MaintenanceLogsPage {
  import opened JsValues
  import opened LocalStorage
  import opened LogOrder
  import opened LogStore
  import opened MaintenanceLogs
  import opened Reminders
  import opened Odometer

  /** The entry form's text fields. */
  datatype MaintenanceForm = MaintenanceForm(date: string, serviceType: string, cost: string, odometer: string)

  const EmptyForm := MaintenanceForm("", "", "", "")

  /** The entry a submit creates: date and type as typed, `Number(...)` of cost and odometer. */
  function NewMaintenanceLog(form: MaintenanceForm, now: int, createdAt: string): (log: Value)
    ensures log.Obj? && log.fields.Keys == {"id", "date", "type", "cost", "odometer", "createdAt"}
    ensures log.fields["date"] == Str(form.date) && log.fields["type"] == Str(form.serviceType)
    ensures log.fields["cost"] == NumberValue(ToNumber(form.cost))
    ensures log.fields["odometer"] == NumberValue(ToNumber(form.odometer))
    ensures log.fields["id"] == Num(now as real) && log.fields["createdAt"] == Str(createdAt)
  {
    Obj(map[
      "id" := Num(now as real),
      "date" := Str(form.date),
      "type" := Str(form.serviceType),
      "cost" := NumberValue(ToNumber(form.cost)),
      "odometer" := NumberValue(ToNumber(form.odometer)),
      "createdAt" := Str(createdAt)])
  }

  /**
   * The reminder a submit asks for (when reminders are enabled): a `date` reminder
   * needs a non-empty date, an `odometer` reminder a non-empty reading; any other
   * combination asks for none.
   */
  function ReminderRequest(form: MaintenanceForm, reminderType: string, reminderDate: string,
                           reminderOdometer: string, logId: Value): (r: Option<Value>)
    ensures r.Some? <==> (reminderType == "date" && reminderDate != "")
                         || (reminderType == "odometer" && reminderOdometer != "")
    ensures r.Some? ==> r.value.Obj?
  {
    var common := map[
      "logType" := Str(form.serviceType),
      "logId" := logId,
      "description" := Str("Next " + form.serviceType),
      "category" := Str("maintenance")];
    if reminderType == "date" && reminderDate != "" then
      Some(Obj(common["type" := Str("date")]["reminderDate" := Str(reminderDate)]))
    else if reminderType == "odometer" && reminderOdometer != "" then
      Some(Obj(common["type" := Str("odometer")]["reminderOdometer" := NumberValue(ToNumber(reminderOdometer))]))
    else None
  }

  /**
   * The fields of a requested reminder: its type, the log it follows, the
   * `maintenance` category, a description and log type from the service type,
   * and the date text or the target reading (`Number(...)` of the typed text).
   */
  lemma ReminderRequestFields(form: MaintenanceForm, reminderType: string, reminderDate: string,
                              reminderOdometer: string, logId: Value)
    requires ReminderRequest(form, reminderType, reminderDate, reminderOdometer, logId).Some?
    ensures var q := ReminderRequest(form, reminderType, reminderDate, reminderOdometer, logId).value;
      && Prop(q, "type") == Some(Str(reminderType))
      && Prop(q, "logId") == Some(logId)
      && Prop(q, "category") == Some(Str("maintenance"))
      && Prop(q, "description") == Some(Str("Next " + form.serviceType))
      && Prop(q, "logType") == Some(Str(form.serviceType))
      && (reminderType == "date" ==>
            && Prop(q, "reminderDate") == Some(Str(reminderDate))
            && q.fields.Keys == {"logType", "logId", "description", "category", "type", "reminderDate"})
      && (reminderType == "odometer" ==>
            && Prop(q, "reminderOdometer") == Some(NumberValue(ToNumber(reminderOdometer)))
            && q.fields.Keys == {"logType", "logId", "description", "category", "type", "reminderOdometer"})
  {
  }

  /** The due reminders the page shows, as read from storage with the stored odometer record. */
  function ShownReminders(items: map<string, Stored>, vid: string, today: int): seq<Value>
  {
    GetActiveReminders(items, vid, today, GetOdometer(items, vid))
  }

  lemma KeysDiffer(vid: string)
    ensures "reminders:" + vid != "maintenanceLogs:" + vid
  {
    assert ("reminders:" + vid)[0] != ("maintenanceLogs:" + vid)[0];
  }

  /**
   * Storage after a submit: the sorted entries under `maintenanceLogs:<vid>` and,
   * when a reminder was requested, the new reminder in front of the stored ones.
   */
  function SubmittedItems(items: map<string, Stored>, vid: string, logs: seq<Value>, request: Option<Value>,
                          reminderNow: int, reminderCreatedAt: string): map<string, Stored>
  {
    var afterLogs := items["maintenanceLogs:" + vid := Parsed(JsonCopy(Arr(logs)))];
    match request
    case None => afterLogs
    case Some(req) =>
      afterLogs["reminders:" + vid :=
        Parsed(JsonCopy(Arr([NewReminder(req, reminderNow, reminderCreatedAt)] + GetReminders(items, vid))))]
  }

  class MaintenanceLogsPage {
    const vehicleId: string
    var maintenanceLogs: seq<Value>
    var form: MaintenanceForm
    var enableReminder: bool
    var reminderType: string
    var reminderDate: string
    var reminderOdometer: string
    var activeReminders: seq<Value>

    /** Mounting the page loads the stored entries and the reminders due `today`. */
    constructor(vehicleId: string, st: Storage, today: int)
      ensures this.vehicleId == vehicleId
      ensures vehicleId != "" ==> maintenanceLogs == GetMaintenanceLogs(st.items, vehicleId)
      ensures vehicleId != "" ==> activeReminders == ShownReminders(st.items, vehicleId, today)
      ensures vehicleId == "" ==> maintenanceLogs == [] && activeReminders == []
      ensures form == EmptyForm && !enableReminder && reminderType == "date"
      ensures reminderDate == "" && reminderOdometer == ""
    {
      this.vehicleId := vehicleId;
      form := EmptyForm;
      enableReminder := false;
      reminderType := "date";
      reminderDate := "";
      reminderOdometer := "";
      if vehicleId != "" {
        maintenanceLogs := GetMaintenanceLogs(st.items, vehicleId);
        activeReminders := ShownReminders(st.items, vehicleId, today);
      } else {
        maintenanceLogs := [];
        activeReminders := [];
      }
    }

    /**
     * `handleAddLog`. `now`/`createdAt` are the clock readings for the entry,
     * `reminderNow`/`reminderCreatedAt` those taken inside `addReminder`, and
     * `today` the day number the due check runs on.
     */
    method HandleAddLog(st: Storage, now: int, createdAt: string, reminderNow: int, reminderCreatedAt: string,
                        today: int)
      modifies this, st
      ensures vehicleId == "" ==> st.items == old(st.items)
      ensures vehicleId == "" ==> (maintenanceLogs == old(maintenanceLogs) && form == old(form)
        && enableReminder == old(enableReminder) && reminderType == old(reminderType)
        && reminderDate == old(reminderDate) && reminderOdometer == old(reminderOdometer)
        && activeReminders == old(activeReminders))
      ensures vehicleId != "" ==> (maintenanceLogs ==
        NewestFirst([NewMaintenanceLog(old(form), now, createdAt)] + old(maintenanceLogs), "date"))
      ensures vehicleId != "" ==>
        st.items == SubmittedItems(old(st.items), vehicleId, maintenanceLogs,
          if old(enableReminder) then ReminderRequest(old(form), old(reminderType), old(reminderDate),
                                                      old(reminderOdometer), Num(now as real))
          else None,
          reminderNow, reminderCreatedAt)
      ensures vehicleId != "" && old(enableReminder) ==> activeReminders == ShownReminders(st.items, vehicleId, today)
      ensures vehicleId != "" && !old(enableReminder) ==> activeReminders == old(activeReminders)
      ensures vehicleId != "" ==> (form == EmptyForm && !enableReminder && reminderType == "date"
        && reminderDate == "" && reminderOdometer == "")
    {
      if vehicleId == "" {
        return;
      }
      Submit(st, now, createdAt, reminderNow, reminderCreatedAt, today);
    }

    /** A submit for a vehicle: save the entry, add the requested reminder when enabled, reset the form. */
    method Submit(st: Storage, now: int, createdAt: string, reminderNow: int, reminderCreatedAt: string,
                  today: int)
      requires vehicleId != ""
      modifies this, st
      ensures maintenanceLogs == NewestFirst([NewMaintenanceLog(old(form), now, createdAt)] + old(maintenanceLogs), "date")
      ensures st.items == SubmittedItems(old(st.items), vehicleId, maintenanceLogs,
          if old(enableReminder) then ReminderRequest(old(form), old(reminderType), old(reminderDate),
                                                      old(reminderOdometer), Num(now as real))
          else None,
          reminderNow, reminderCreatedAt)
      ensures old(enableReminder) ==> activeReminders == ShownReminders(st.items, vehicleId, today)
      ensures !old(enableReminder) ==> activeReminders == old(activeReminders)
      ensures form == EmptyForm && !enableReminder && reminderType == "date"
      ensures reminderDate == "" && reminderOdometer == ""
    {
      ghost var before := st.items;
      var request := if enableReminder
        then ReminderRequest(form, reminderType, reminderDate, reminderOdometer, Num(now as real))
        else None;
      SaveNewLog(st, now, createdAt);
      FinishSubmit(st, request, reminderNow, reminderCreatedAt, today, before);
    }

    /** After the entry is saved: the requested reminder, the refreshed due list when enabled, the reset form. */
    method FinishSubmit(st: Storage, request: Option<Value>, reminderNow: int, reminderCreatedAt: string,
                        today: int, ghost before: map<string, Stored>)
      requires vehicleId != ""
      requires st.items == before["maintenanceLogs:" + vehicleId := Parsed(JsonCopy(Arr(maintenanceLogs)))]
      modifies this, st
      ensures st.items == SubmittedItems(before, vehicleId, maintenanceLogs, request, reminderNow, reminderCreatedAt)
      ensures old(enableReminder) ==> activeReminders == ShownReminders(st.items, vehicleId, today)
      ensures !old(enableReminder) ==> activeReminders == old(activeReminders)
      ensures maintenanceLogs == old(maintenanceLogs)
      ensures form == EmptyForm && !enableReminder && reminderType == "date"
      ensures reminderDate == "" && reminderOdometer == ""
    {
      AddRequestedReminder(st, request, reminderNow, reminderCreatedAt, before);
      if enableReminder {
        activeReminders := ShownReminders(st.items, vehicleId, today);
      }
      ResetForm();
    }

    /** The first half of a submit: the new entry is prepended, sorted, shown and saved. */
    method SaveNewLog(st: Storage, now: int, createdAt: string)
      requires vehicleId != ""
      modifies this, st
      ensures maintenanceLogs == NewestFirst([NewMaintenanceLog(old(form), now, createdAt)] + old(maintenanceLogs), "date")
      ensures st.items == old(st.items)["maintenanceLogs:" + vehicleId := Parsed(JsonCopy(Arr(maintenanceLogs)))]
      ensures form == old(form) && enableReminder == old(enableReminder) && reminderType == old(reminderType)
      ensures reminderDate == old(reminderDate) && reminderOdometer == old(reminderOdometer)
      ensures activeReminders == old(activeReminders)
    {
      var newLog := NewMaintenanceLog(form, now, createdAt);
      var updated := NewestFirst([newLog] + maintenanceLogs, SortField);
      maintenanceLogs := updated;
      SaveMaintenanceLogs(st, vehicleId, updated);
    }

    /** The reminder half of a submit with reminders enabled: add the requested one, if any. */
    method AddRequestedReminder(st: Storage, request: Option<Value>, reminderNow: int, reminderCreatedAt: string,
                                ghost before: map<string, Stored>)
      requires vehicleId != ""
      requires st.items == before["maintenanceLogs:" + vehicleId := Parsed(JsonCopy(Arr(maintenanceLogs)))]
      modifies st
      ensures st.items == SubmittedItems(before, vehicleId, maintenanceLogs, request, reminderNow, reminderCreatedAt)
    {
      if request.Some? {
        KeysDiffer(vehicleId);
        assert GetReminders(st.items, vehicleId) == GetReminders(before, vehicleId);
        var _ := AddReminder(st, vehicleId, request.value, reminderNow, reminderCreatedAt);
      }
    }

    /** The form reset at the end of a submit. */
    method ResetForm()
      modifies this
      ensures form == EmptyForm && !enableReminder && reminderType == "date"
      ensures reminderDate == "" && reminderOdometer == ""
      ensures maintenanceLogs == old(maintenanceLogs) && activeReminders == old(activeReminders)
    {
      form := EmptyForm;
      enableReminder := false;
      reminderType := "date";
      reminderDate := "";
      reminderOdometer := "";
    }

    /** `handleDismissReminder`: delete that reminder, then recompute the due list. */
    method HandleDismissReminder(st: Storage, rid: Option<Value>, today: int)
      modifies this, st
      ensures vehicleId == "" ==> st.items == old(st.items)
      ensures vehicleId != "" ==> st.items == old(st.items)["reminders:" + vehicleId :=
        Parsed(JsonCopy(Arr(WithoutReminder(GetReminders(old(st.items), vehicleId), rid))))]
      ensures activeReminders == ShownReminders(st.items, vehicleId, today)
      ensures maintenanceLogs == old(maintenanceLogs) && form == old(form)
      ensures enableReminder == old(enableReminder) && reminderType == old(reminderType)
      ensures reminderDate == old(reminderDate) && reminderOdometer == old(reminderOdometer)
    {
      var _ := DeleteReminder(st, vehicleId, rid);
      activeReminders := ShownReminders(st.items, vehicleId, today);
    }
  }

  /** A `YYYY-MM-DD` text, read as a date, is the day it names. */
  lemma IsoDayOf(text: string, d: int)
    requires ParseIsoDay(text) == Some(d)
    ensures DayOf(Some(Str(text))) == Some(d)
  {
    assert TimeValue(Some(Str(text))) == Some(d * MsPerDay);
  }

  /** What a date reminder created from the form carries into the due check. */
  lemma CreatedDateReminder(form: MaintenanceForm, reminderDate: string, reminderOdometer: string,
                            logId: Value, now: int, createdAt: string)
    requires reminderDate != ""
    ensures var r := NewReminder(ReminderRequest(form, "date", reminderDate, reminderOdometer, logId).value,
                                 now, createdAt);
      && IsActive(r) && HasType(r, "date")
      && Prop(r, "reminderDate") == Some(Str(reminderDate))
      && DueMessage(r) == "Reminder: " + ("Next " + form.serviceType) + " is due!"
  {
    var q := ReminderRequest(form, "date", reminderDate, reminderOdometer, logId).value;
    ReminderRequestFields(form, "date", reminderDate, reminderOdometer, logId);
    var r := NewReminder(q, now, createdAt);
    NewReminderKeeps(q, now, createdAt, "reminderDate");
    NewReminderKeeps(q, now, createdAt, "type");
    NewReminderKeeps(q, now, createdAt, "description");
    DescribedMessage(r, "Next " + form.serviceType);
  }

  /** A reminder with a non-empty description is announced by that description. */
  lemma DescribedMessage(r: Value, description: string)
    requires Prop(r, "description") == Some(Str(description)) && description != ""
    ensures DueMessage(r) == "Reminder: " + description + " is due!"
  {
    assert Label(r) == description;
  }

  /**
   * A date reminder created from the form is due exactly from the chosen day on,
   * with the message naming the service type.
   */
  lemma CreatedDateReminderDue(form: MaintenanceForm, reminderDate: string, reminderOdometer: string,
                               logId: Value, now: int, createdAt: string, today: int, currentOdometer: Value, d: int)
    requires ParseIsoDay(reminderDate) == Some(d)
    ensures var request := ReminderRequest(form, "date", reminderDate, reminderOdometer, logId);
      var check := CheckReminder(NewReminder(request.value, now, createdAt), today, currentOdometer);
      && (check.ShouldAlert() <==> today >= d)
      && (check.ShouldAlert() ==> check == DateDue("Reminder: " + ("Next " + form.serviceType) + " is due!", today - d))
  {
    assert reminderDate != "";
    var r := NewReminder(ReminderRequest(form, "date", reminderDate, reminderOdometer, logId).value, now, createdAt);
    CreatedDateReminder(form, reminderDate, reminderOdometer, logId, now, createdAt);
    IsoDayOf(reminderDate, d);
    DateRule(r, today, currentOdometer, d);
  }

  /**
   * An odometer reminder created from the form is due exactly when the stored
   * reading reaches the typed target; if the target text is not a number it is never due.
   */
  lemma CreatedOdometerReminderDue(form: MaintenanceForm, reminderDate: string, reminderOdometer: string,
                                   logId: Value, now: int, createdAt: string, today: int, reading: real)
    requires reminderOdometer != ""
    ensures var request := ReminderRequest(form, "odometer", reminderDate, reminderOdometer, logId);
      var check := CheckReminder(NewReminder(request.value, now, createdAt), today, Obj(map["reading" := Num(reading)]));
      check.ShouldAlert() <==> ToNumber(reminderOdometer).Some? && reading >= ToNumber(reminderOdometer).value
  {
    var request := ReminderRequest(form, "odometer", reminderDate, reminderOdometer, logId);
    ReminderRequestFields(form, "odometer", reminderDate, reminderOdometer, logId);
    var q := request.value;
    NewReminderKeeps(q, now, createdAt, "reminderOdometer");
    NewReminderKeeps(q, now, createdAt, "type");
    OdometerTargetRule(NewReminder(q, now, createdAt), today, reading, ToNumber(reminderOdometer));
  }

  /** An active odometer reminder with a numeric (or NaN) target is due once a reading reaches it. */
  lemma OdometerTargetRule(r: Value, today: int, reading: real, target: Option<real>)
    requires IsActive(r) && Prop(r, "type") == Some(Str("odometer"))
    requires Prop(r, "reminderOdometer") == Some(NumberValue(target))
    ensures CheckReminder(r, today, Obj(map["reading" := Num(reading)])).ShouldAlert() <==>
      target.Some? && reading >= target.value
  {
    var record := Obj(map["reading" := Num(reading)]);
    assert HasType(r, "odometer");
    assert Prop(record, "reading") == Some(Num(reading));
    OdometerRule(r, today, record);
    ReadingAtLeastTarget(reading, target);
  }

  /** A numeric reading reaches a target typed as text exactly when the text is a number it reaches. */
  lemma ReadingAtLeastTarget(reading: real, target: Option<real>)
    ensures AtLeast(Some(Num(reading)), Some(NumberValue(target))) <==> target.Some? && reading >= target.value
  {
  }
}
