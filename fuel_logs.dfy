/** The fuel log store of one vehicle, kept newest first by `date`. */
module FuelLogs {
  import opened JsValues
  import opened LocalStorage
  import opened LogOrder
  import opened LogStore

  const Prefix := "fuelLogs:"
  const SortField := "date"

  /** `getFuelLogs(vid)`. */
  function GetFuelLogs(items: map<string, Stored>, vid: string): (r: seq<Value>)
    ensures vid == "" ==> r == []
    ensures vid != "" ==> r == ArrayAt(items, "fuelLogs:" + vid)
  {
    StoredLogs(items, Prefix, vid)
  }

  /** `saveFuelLogs(vid, logs)`. */
  method SaveFuelLogs(st: Storage, vid: string, logs: seq<Value>)
    modifies st
    ensures vid == "" ==> st.items == old(st.items)
    ensures vid != "" ==> st.items == old(st.items)["fuelLogs:" + vid := Parsed(JsonCopy(Arr(logs)))]
    ensures vid != "" ==> GetFuelLogs(st.items, vid) == JsonCopy(Arr(logs)).items
  {
    SaveLogs(st, Prefix, vid, logs);
  }

  /** `addFuelLog(vid, log)`. */
  method AddFuelLog(st: Storage, vid: string, log: Value) returns (next: seq<Value>)
    modifies st
    ensures vid == "" ==> next == [] && st.items == old(st.items)
    ensures vid != "" ==> next == NewestFirst([log] + GetFuelLogs(old(st.items), vid), "date")
    ensures vid != "" ==> st.items == old(st.items)["fuelLogs:" + vid := Parsed(JsonCopy(Arr(next)))]
  {
    next := AddLog(st, Prefix, SortField, vid, log);
  }
}
