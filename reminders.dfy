/**
 * Per-vehicle service reminders, stored newest first under `reminders:<vid>`,
 * and the rule that decides whether a reminder is due: by calendar day for a
 * `date` reminder, by odometer reading for an `odometer` reminder.
 */
module Reminders {
  import opened JsValues
  import opened LocalStorage
  import opened Seqs

  const Prefix := "reminders:"

  /** `getReminders(vid)`: [] for an empty id, a missing key, bad text or a non-array. */
  function GetReminders(items: map<string, Stored>, vid: string): (r: seq<Value>)
    ensures vid == "" ==> r == []
    ensures vid != "" ==> r == ArrayAt(items, "reminders:" + vid)
  {
    if vid == "" then [] else ArrayAt(items, Prefix + vid)
  }

  /** `saveReminders(vid, reminders)`. */
  method SaveReminders(st: Storage, vid: string, reminders: seq<Value>)
    modifies st
    ensures vid == "" ==> st.items == old(st.items)
    ensures vid != "" ==> st.items == old(st.items)["reminders:" + vid := Parsed(JsonCopy(Arr(reminders)))]
  {
    if vid == "" {
      return;
    }
    st.SetJson(Prefix + vid, Arr(reminders));
  }

  /**
   * The reminder `addReminder` stores: an `id` from the clock unless the input
   * brings one, every input field, then a fresh `createdAt` and `isActive: true`
   * that override whatever the input carried.
   */
  function NewReminder(reminder: Value, now: int, createdAt: string): (r: Value)
    ensures r.Obj?
    ensures r.fields.Keys == Spread(reminder).Keys + {"id", "createdAt", "isActive"}
    ensures r.fields["isActive"] == Bool(true)
    ensures r.fields["createdAt"] == Str(createdAt)
    ensures "id" !in Spread(reminder) ==> r.fields["id"] == Num(now as real)
    ensures forall k :: k in Spread(reminder) && k != "createdAt" && k != "isActive" ==>
                r.fields[k] == Spread(reminder)[k]
  {
    Obj(map["id" := Num(now as real)] + Spread(reminder)
        + map["createdAt" := Str(createdAt), "isActive" := Bool(true)])
  }

  /**
   * `addReminder(vid, reminder)`: null and no write for an empty id; otherwise the
   * new reminder goes in front of the stored ones. `now` and `createdAt` are the
   * clock readings (`Date.now()`, `new Date().toISOString()`).
   */
  method AddReminder(st: Storage, vid: string, reminder: Value, now: int, createdAt: string)
    returns (r: Value)
    modifies st
    ensures vid == "" ==> r == Null && st.items == old(st.items)
    ensures vid != "" ==> r == NewReminder(reminder, now, createdAt)
    ensures vid != "" ==> st.items == old(st.items)["reminders:" + vid :=
      Parsed(JsonCopy(Arr([r] + GetReminders(old(st.items), vid))))]
  {
    if vid == "" {
      return Null;
    }
    var current := GetReminders(st.items, vid);
    r := NewReminder(reminder, now, createdAt);
    SaveReminders(st, vid, [r] + current);
  }

  /** A new reminder is active and keeps every field of its input other than `createdAt` and `isActive`. */
  lemma NewReminderKeeps(reminder: Value, now: int, createdAt: string, k: string)
    requires k != "createdAt" && k != "isActive" && Prop(reminder, k).Some?
    ensures Prop(NewReminder(reminder, now, createdAt), k) == Prop(reminder, k)
    ensures IsActive(NewReminder(reminder, now, createdAt))
  {
  }

  /** A new reminder built from a JSON value survives JSON unchanged. */
  lemma NewReminderJsonSafe(reminder: Value, now: int, createdAt: string)
    requires JsonSafe(reminder)
    ensures JsonSafe(NewReminder(reminder, now, createdAt))
  {
    var r := NewReminder(reminder, now, createdAt);
    forall k | k in r.fields ensures JsonSafe(r.fields[k]) {
      if k in Spread(reminder) && k != "createdAt" && k != "isActive" {
        assert JsonSafe(reminder.fields[k]);
      }
    }
  }

  /**
   * After adding to a stored list read from JSON, reading back gives the new,
   * active reminder first and the old ones after it, in order.
   */
  lemma AddedInFront(current: seq<Value>, reminder: Value, now: int, createdAt: string)
    requires JsonSafe(reminder)
    requires forall i :: 0 <= i < |current| ==> JsonSafe(current[i])
    ensures var r := NewReminder(reminder, now, createdAt);
      var after := JsonCopy(Arr([r] + current)).items;
      && after[0] == r && after[1..] == current
      && Prop(after[0], "isActive") == Some(Bool(true))
      && Prop(after[0], "createdAt") == Some(Str(createdAt))
  {
    var r := NewReminder(reminder, now, createdAt);
    NewReminderJsonSafe(reminder, now, createdAt);
    var list := [r] + current;
    forall i | 0 <= i < |list| ensures JsonSafe(list[i]) {
      if i > 0 {
        assert list[i] == current[i - 1];
      }
    }
    JsonCopyOfSafeList(list);
  }

  // ---------------------------------------------------------------------------
  // Delete and toggle

  /** `r.id === reminderId`. */
  predicate Matches(r: Value, rid: Option<Value>)
  {
    StrictEquals(Prop(r, "id"), rid)
  }

  /** `reminders.filter(r => r.id !== reminderId)`. */
  function WithoutReminder(rs: seq<Value>, rid: Option<Value>): (r: seq<Value>)
    ensures |r| <= |rs|
  {
    Filter(rs, x => !Matches(x, rid))
  }

  /** `deleteReminder(vid, reminderId)`: [] and no write for an empty id. */
  method DeleteReminder(st: Storage, vid: string, rid: Option<Value>) returns (updated: seq<Value>)
    modifies st
    ensures vid == "" ==> updated == [] && st.items == old(st.items)
    ensures vid != "" ==> updated == WithoutReminder(GetReminders(old(st.items), vid), rid)
    ensures vid != "" ==> st.items == old(st.items)["reminders:" + vid := Parsed(JsonCopy(Arr(updated)))]
  {
    if vid == "" {
      return [];
    }
    var current := GetReminders(st.items, vid);
    updated := WithoutReminder(current, rid);
    SaveReminders(st, vid, updated);
  }

  /** Deleting removes exactly the matching entries, every occurrence of them, and keeps all others. */
  lemma DeleteRemovesExactly(rs: seq<Value>, rid: Option<Value>, x: Value)
    ensures multiset(WithoutReminder(rs, rid))[x] == if Matches(x, rid) then 0 else multiset(rs)[x]
  {
    FilterCount(rs, x => !Matches(x, rid), x);
  }

  /** Deleting keeps order: deleting from a concatenation concatenates the results. */
  lemma DeleteKeepsOrder(a: seq<Value>, b: seq<Value>, rid: Option<Value>)
    ensures WithoutReminder(a + b, rid) == WithoutReminder(a, rid) + WithoutReminder(b, rid)
  {
    FilterAppend(a, b, x => !Matches(x, rid));
  }

  /** Deleting the same id twice is deleting it once. */
  lemma DeleteIdempotent(rs: seq<Value>, rid: Option<Value>)
    ensures WithoutReminder(WithoutReminder(rs, rid), rid) == WithoutReminder(rs, rid)
  {
    FilterIdempotent(rs, x => !Matches(x, rid));
  }

  /** `r.id === reminderId ? { ...r, isActive } : r` for every entry. */
  function WithStatus(rs: seq<Value>, rid: Option<Value>, isActive: Value): (r: seq<Value>)
    ensures |r| == |rs|
    ensures forall i :: 0 <= i < |rs| && !Matches(rs[i], rid) ==> r[i] == rs[i]
    ensures forall i :: 0 <= i < |rs| && Matches(rs[i], rid) ==>
      r[i].Obj? && Prop(r[i], "isActive") == Some(isActive)
    ensures forall i, k :: 0 <= i < |rs| && k != "isActive" ==> Prop(r[i], k) == Prop(rs[i], k)
  {
    MapSeq(rs, x => if Matches(x, rid) then Obj(Spread(x)["isActive" := isActive]) else x)
  }

  /** `updateReminderStatus(vid, reminderId, isActive)`: [] and no write for an empty id. */
  method UpdateReminderStatus(st: Storage, vid: string, rid: Option<Value>, isActive: Value)
    returns (updated: seq<Value>)
    modifies st
    ensures vid == "" ==> updated == [] && st.items == old(st.items)
    ensures vid != "" ==> updated == WithStatus(GetReminders(old(st.items), vid), rid, isActive)
    ensures vid != "" ==> st.items == old(st.items)["reminders:" + vid := Parsed(JsonCopy(Arr(updated)))]
  {
    if vid == "" {
      return [];
    }
    var current := GetReminders(st.items, vid);
    updated := WithStatus(current, rid, isActive);
    SaveReminders(st, vid, updated);
  }

  // ---------------------------------------------------------------------------
  // Due check

  /** The result of `checkReminder`; every variant but the two `Due` ones has `shouldAlert: false`. */
  datatype Check =
    | Quiet
    | DateDue(message: string, daysOverdue: int)
    | DateAhead(daysUntil: Option<int>)
    | OdometerDue(message: string, kmOverdue: Option<real>)
    | OdometerAhead(kmRemaining: Option<real>)
  {
    predicate ShouldAlert()
    {
      DateDue? || OdometerDue?
    }
  }

  /** `reminder.description || reminder.logType || 'Action'`, as text. */
  function Label(reminder: Value): string
  {
    var description, logType := Prop(reminder, "description"), Prop(reminder, "logType");
    if Truthy(description) then DisplayText(description.value)
    else if Truthy(logType) then DisplayText(logType.value)
    else "Action"
  }

  function DueMessage(reminder: Value): string
  {
    "Reminder: " + Label(reminder) + " is due!"
  }

  predicate IsActive(reminder: Value)
  {
    Truthy(Prop(reminder, "isActive"))
  }

  predicate HasType(reminder: Value, t: string)
  {
    StrictEquals(Prop(reminder, "type"), Some(Str(t)))
  }

  /**
   * `checkReminder(reminder, currentOdometer)` on the day numbered `today`
   * (midnight-normalised as the source does).
   */
  function CheckReminder(reminder: Value, today: int, currentOdometer: Value): (c: Check)
    ensures !IsActive(reminder) ==> c == Quiet
    ensures c.ShouldAlert() ==> IsActive(reminder)
    ensures c.DateDue? ==> c.daysOverdue >= 0
    ensures c.DateAhead? && c.daysUntil.Some? ==> c.daysUntil.value > 0
  {
    if !IsActive(reminder) then Quiet
    else if HasType(reminder, "date") then
      match DayOf(Prop(reminder, "reminderDate"))
      case Some(due) =>
        if today >= due then DateDue(DueMessage(reminder), today - due) else DateAhead(Some(due - today))
      case None => DateAhead(None)
    else if HasType(reminder, "odometer") then
      var reading, target := Prop(currentOdometer, "reading"), Prop(reminder, "reminderOdometer");
      if Truthy(Some(currentOdometer)) && AtLeast(reading, target) then
        OdometerDue(DueMessage(reminder), Minus(reading, target))
      else if Truthy(Some(currentOdometer)) then
        OdometerAhead(Minus(target, reading))
      else Quiet
    else Quiet
  }

  /** The check result as the object the page receives. */
  function CheckValue(c: Check): (v: Value)
    ensures v.Obj? && "shouldAlert" in v.fields && v.fields["shouldAlert"] == Bool(c.ShouldAlert())
  {
    match c
    case Quiet => Obj(map["shouldAlert" := Bool(false)])
    case DateDue(m, d) =>
      Obj(map["shouldAlert" := Bool(true), "message" := Str(m), "daysOverdue" := Num(d as real)])
    case DateAhead(u) =>
      Obj(map["shouldAlert" := Bool(false),
              "daysUntil" := NumberValue(if u.Some? then Some(u.value as real) else None)])
    case OdometerDue(m, k) =>
      Obj(map["shouldAlert" := Bool(true), "message" := Str(m), "kmOverdue" := NumberValue(k)])
    case OdometerAhead(k) =>
      Obj(map["shouldAlert" := Bool(false), "kmRemaining" := NumberValue(k)])
  }

  /** An active `date` reminder is due exactly from its day on; before that, the days left are positive. */
  lemma DateRule(reminder: Value, today: int, currentOdometer: Value, due: int)
    requires IsActive(reminder) && HasType(reminder, "date")
    requires DayOf(Prop(reminder, "reminderDate")) == Some(due)
    ensures CheckReminder(reminder, today, currentOdometer).ShouldAlert() <==> today >= due
    ensures today >= due ==>
      CheckReminder(reminder, today, currentOdometer) == DateDue(DueMessage(reminder), today - due)
    ensures today < due ==> CheckReminder(reminder, today, currentOdometer) == DateAhead(Some(due - today))
  {
  }

  /**
   * An active `odometer` reminder is due exactly when there is an odometer record
   * whose reading is at least the target, with the excess as `kmOverdue`;
   * with no record it stays quiet.
   */
  lemma OdometerRule(reminder: Value, today: int, currentOdometer: Value)
    requires IsActive(reminder) && HasType(reminder, "odometer")
    ensures var reading, target := Prop(currentOdometer, "reading"), Prop(reminder, "reminderOdometer");
      && (CheckReminder(reminder, today, currentOdometer).ShouldAlert()
          <==> Truthy(Some(currentOdometer)) && AtLeast(reading, target))
      && (CheckReminder(reminder, today, currentOdometer).ShouldAlert() ==>
          CheckReminder(reminder, today, currentOdometer) == OdometerDue(DueMessage(reminder), Minus(reading, target)))
      && (!Truthy(Some(currentOdometer)) ==> CheckReminder(reminder, today, currentOdometer) == Quiet)
  {
    assert !HasType(reminder, "date");
  }

  /** A reminder of any other type never alerts. */
  lemma OtherTypeQuiet(reminder: Value, today: int, currentOdometer: Value)
    requires !HasType(reminder, "date") && !HasType(reminder, "odometer")
    ensures CheckReminder(reminder, today, currentOdometer) == Quiet
  {
  }

  /** Once a date reminder is due it stays due on every later day. */
  lemma DateDueStaysDue(reminder: Value, today: int, later: int, currentOdometer: Value)
    requires HasType(reminder, "date")
    requires CheckReminder(reminder, today, currentOdometer).ShouldAlert()
    requires later >= today
    ensures CheckReminder(reminder, later, currentOdometer).ShouldAlert()
  {
  }

  /** An odometer reminder due at one numeric reading is due at every higher numeric reading. */
  lemma OdometerDueStaysDue(reminder: Value, today: int, x: real, y: real)
    requires HasType(reminder, "odometer")
    requires CheckReminder(reminder, today, Obj(map["reading" := Num(x)])).ShouldAlert()
    requires y >= x
    ensures CheckReminder(reminder, today, Obj(map["reading" := Num(y)])).ShouldAlert()
  {
    var target := Prop(reminder, "reminderOdometer");
    assert Prop(Obj(map["reading" := Num(x)]), "reading") == Some(Num(x));
    assert Prop(Obj(map["reading" := Num(y)]), "reading") == Some(Num(y));
    assert !HasType(reminder, "date");
    assert AtLeast(Some(Num(x)), target);
  }

  // ---------------------------------------------------------------------------
  // Active reminders

  function Alerts(today: int, currentOdometer: Value): Value -> bool
  {
    r => CheckReminder(r, today, currentOdometer).ShouldAlert()
  }

  /** `{ ...reminder, alert: check }`. */
  function WithAlert(reminder: Value, today: int, currentOdometer: Value): Value
  {
    Obj(Spread(reminder)["alert" := CheckValue(CheckReminder(reminder, today, currentOdometer))])
  }

  /** The alerting reminders of a list, in list order, each carrying its check result. */
  function ActiveAmong(rs: seq<Value>, today: int, currentOdometer: Value): (r: seq<Value>)
    ensures |r| <= |rs|
  {
    MapSeq(Filter(rs, Alerts(today, currentOdometer)), x => WithAlert(x, today, currentOdometer))
  }

  /** `getActiveReminders(vid, currentOdometer)`. */
  function GetActiveReminders(items: map<string, Stored>, vid: string, today: int, currentOdometer: Value)
    : (r: seq<Value>)
    ensures vid == "" ==> r == []
  {
    ActiveAmong(GetReminders(items, vid), today, currentOdometer)
  }

  /** Exactly the alerting reminders appear, each extended with `alert` set to its check result. */
  lemma ActiveExactly(rs: seq<Value>, today: int, currentOdometer: Value, y: Value)
    ensures y in ActiveAmong(rs, today, currentOdometer) <==>
      exists x :: x in rs && CheckReminder(x, today, currentOdometer).ShouldAlert()
                 && y == WithAlert(x, today, currentOdometer)
  {
    var p := Alerts(today, currentOdometer);
    var f := x => WithAlert(x, today, currentOdometer);
    var kept := Filter(rs, p);
    FilterMembers(rs, p);
    MapSeqMembers(kept, f, y);
    if y in ActiveAmong(rs, today, currentOdometer) {
      var x :| x in kept && y == f(x);
      assert x in rs && p(x);
    }
    if exists x :: x in rs && CheckReminder(x, today, currentOdometer).ShouldAlert()
                   && y == WithAlert(x, today, currentOdometer) {
      var x :| x in rs && CheckReminder(x, today, currentOdometer).ShouldAlert()
               && y == WithAlert(x, today, currentOdometer);
      assert p(x) && x in kept && y == f(x);
    }
  }

  /** Every returned reminder carries an alert whose `shouldAlert` is true. */
  lemma ActiveCarryAlert(rs: seq<Value>, today: int, currentOdometer: Value, y: Value)
    requires y in ActiveAmong(rs, today, currentOdometer)
    ensures Prop(y, "alert").Some? && Prop(y, "alert").value.Obj?
    ensures Prop(Prop(y, "alert").value, "shouldAlert") == Some(Bool(true))
  {
    ActiveExactly(rs, today, currentOdometer, y);
  }

  /** Stored order is kept: the active reminders of a concatenation are concatenated. */
  lemma ActiveKeepsOrder(a: seq<Value>, b: seq<Value>, today: int, currentOdometer: Value)
    ensures ActiveAmong(a + b, today, currentOdometer)
      == ActiveAmong(a, today, currentOdometer) + ActiveAmong(b, today, currentOdometer)
  {
    var p := Alerts(today, currentOdometer);
    FilterAppend(a, b, p);
    MapSeqAppend(Filter(a, p), Filter(b, p), x => WithAlert(x, today, currentOdometer));
  }
}
