/** The single latest odometer record of each vehicle, under `odometer:<vid>`. */
module Odometer {
  import opened JsValues
  import opened LocalStorage

  const Prefix := "odometer:"

  /**
   * `getOdometer(vid)`: null for an empty vehicle id, a missing key or text that
   * is empty or does not parse; otherwise the parsed value, whatever its shape.
   */
  function GetOdometer(items: map<string, Stored>, vid: string): (r: Value)
    ensures vid == "" ==> r == Null
    ensures vid != "" && "odometer:" + vid in items && items["odometer:" + vid].Parsed?
      ==> r == items["odometer:" + vid].value
    ensures vid != "" && !("odometer:" + vid in items && items["odometer:" + vid].Parsed?) ==> r == Null
  {
    if vid == "" then Null
    else if Prefix + vid in items && items[Prefix + vid].Parsed? then items[Prefix + vid].value
    else Null
  }

  /** `saveOdometer(vid, data)`. */
  method SaveOdometer(st: Storage, vid: string, data: Value)
    modifies st
    ensures vid == "" ==> st.items == old(st.items)
    ensures vid != "" ==> st.items == old(st.items)["odometer:" + vid := Parsed(JsonCopy(data))]
  {
    if vid == "" {
      return;
    }
    st.SetJson(Prefix + vid, data);
  }

  /**
   * The record `updateOdometer` builds: `Number(reading)`, the given date or
   * today's `YYYY-MM-DD` when it is falsy, and the update's timestamp.
   */
  function OdometerRecord(reading: Value, date: Value, todayIso: string, lastUpdated: string): (r: Value)
    ensures r.Obj? && r.fields.Keys == {"reading", "date", "lastUpdated"}
    ensures r.fields["reading"] == NumberValue(NumberOf(Some(reading)))
    ensures Truthy(Some(date)) ==> r.fields["date"] == date
    ensures !Truthy(Some(date)) ==> r.fields["date"] == Str(todayIso)
    ensures r.fields["lastUpdated"] == Str(lastUpdated)
  {
    Obj(map[
      "reading" := NumberValue(NumberOf(Some(reading))),
      "date" := if Truthy(Some(date)) then date else Str(todayIso),
      "lastUpdated" := Str(lastUpdated)])
  }

  /**
   * `updateOdometer(vid, reading, date)`: null and no write for an empty vehicle id;
   * otherwise the new record replaces the old one and is returned.
   * `todayIso` and `lastUpdated` are the clock readings the source takes.
   */
  method UpdateOdometer(st: Storage, vid: string, reading: Value, date: Value, todayIso: string, lastUpdated: string)
    returns (r: Value)
    modifies st
    ensures vid == "" ==> r == Null && st.items == old(st.items)
    ensures vid != "" ==> r == OdometerRecord(reading, date, todayIso, lastUpdated)
    ensures vid != "" ==> st.items == old(st.items)["odometer:" + vid := Parsed(JsonCopy(r))]
  {
    if vid == "" {
      return Null;
    }
    r := OdometerRecord(reading, date, todayIso, lastUpdated);
    SaveOdometer(st, vid, r);
  }

  /** The reading `Number(reading)` is not NaN, and the date survives JSON. */
  predicate StorableUpdate(reading: Value, date: Value)
  {
    NumberOf(Some(reading)).Some? && JsonSafe(date)
  }

  /**
   * Reading back right after an update yields the record that was returned; the
   * whole previous record is gone, and other vehicles' records are untouched.
   */
  lemma UpdateThenGet(items: map<string, Stored>, vid: string, other: string,
                      reading: Value, date: Value, todayIso: string, lastUpdated: string)
    requires vid != "" && other != vid
    requires StorableUpdate(reading, date)
    ensures var rec := OdometerRecord(reading, date, todayIso, lastUpdated);
      var after := items["odometer:" + vid := Parsed(JsonCopy(rec))];
      && GetOdometer(after, vid) == rec
      && GetOdometer(after, other) == GetOdometer(items, other)
  {
    var rec := OdometerRecord(reading, date, todayIso, lastUpdated);
    assert JsonSafe(rec);
    JsonCopyOfSafe(rec);
    assert "odometer:" + other != "odometer:" + vid by {
      assert ("odometer:" + other)[9..] == other;
      assert ("odometer:" + vid)[9..] == vid;
    }
  }

  /** Only the latest update is kept: a second update hides the first completely. */
  lemma LatestUpdateWins(items: map<string, Stored>, vid: string,
                         r1: Value, d1: Value, r2: Value, d2: Value,
                         todayIso: string, t1: string, t2: string)
    requires vid != ""
    requires StorableUpdate(r2, d2)
    ensures var k := "odometer:" + vid;
      var once := items[k := Parsed(JsonCopy(OdometerRecord(r1, d1, todayIso, t1)))];
      var twice := once[k := Parsed(JsonCopy(OdometerRecord(r2, d2, todayIso, t2)))];
      GetOdometer(twice, vid) == OdometerRecord(r2, d2, todayIso, t2)
  {
    var rec := OdometerRecord(r2, d2, todayIso, t2);
    assert JsonSafe(rec);
    JsonCopyOfSafe(rec);
  }
}
