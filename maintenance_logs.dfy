/** The maintenance log store of one vehicle, kept newest first by `date`. */
module MaintenanceLogs {
  import opened JsValues
  import opened LocalStorage
  import opened LogOrder
  import opened LogStore

  const Prefix := "maintenanceLogs:"
  const SortField := "date"

  /** `getMaintenanceLogs(vid)`. */
  function GetMaintenanceLogs(items: map<string, Stored>, vid: string): (r: seq<Value>)
    ensures vid == "" ==> r == []
    ensures vid != "" ==> r == ArrayAt(items, "maintenanceLogs:" + vid)
  {
    StoredLogs(items, Prefix, vid)
  }

  /** `saveMaintenanceLogs(vid, logs)`. */
  method SaveMaintenanceLogs(st: Storage, vid: string, logs: seq<Value>)
    modifies st
    ensures vid == "" ==> st.items == old(st.items)
    ensures vid != "" ==> st.items == old(st.items)["maintenanceLogs:" + vid := Parsed(JsonCopy(Arr(logs)))]
    ensures vid != "" ==> GetMaintenanceLogs(st.items, vid) == JsonCopy(Arr(logs)).items
  {
    SaveLogs(st, Prefix, vid, logs);
  }

  /** `addMaintenanceLog(vid, log)`. */
  method AddMaintenanceLog(st: Storage, vid: string, log: Value) returns (next: seq<Value>)
    modifies st
    ensures vid == "" ==> next == [] && st.items == old(st.items)
    ensures vid != "" ==> next == NewestFirst([log] + GetMaintenanceLogs(old(st.items), vid), "date")
    ensures vid != "" ==> st.items == old(st.items)["maintenanceLogs:" + vid := Parsed(JsonCopy(Arr(next)))]
  {
    next := AddLog(st, Prefix, SortField, vid, log);
  }
}
