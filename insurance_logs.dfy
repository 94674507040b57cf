/** The insurance log store of one vehicle, kept newest first by `startDate`. */
module InsuranceLogs {
  import opened JsValues
  import opened LocalStorage
  import opened LogOrder
  import opened LogStore

  const Prefix := "insuranceLogs:"
  const SortField := "startDate"

  /** `getInsuranceLogs(vid)`. */
  function GetInsuranceLogs(items: map<string, Stored>, vid: string): (r: seq<Value>)
    ensures vid == "" ==> r == []
    ensures vid != "" ==> r == ArrayAt(items, "insuranceLogs:" + vid)
  {
    StoredLogs(items, Prefix, vid)
  }

  /** `saveInsuranceLogs(vid, logs)`. */
  method SaveInsuranceLogs(st: Storage, vid: string, logs: seq<Value>)
    modifies st
    ensures vid == "" ==> st.items == old(st.items)
    ensures vid != "" ==> st.items == old(st.items)["insuranceLogs:" + vid := Parsed(JsonCopy(Arr(logs)))]
    ensures vid != "" ==> GetInsuranceLogs(st.items, vid) == JsonCopy(Arr(logs)).items
  {
    SaveLogs(st, Prefix, vid, logs);
  }

  /** `addInsuranceLog(vid, log)`. */
  method AddInsuranceLog(st: Storage, vid: string, log: Value) returns (next: seq<Value>)
    modifies st
    ensures vid == "" ==> next == [] && st.items == old(st.items)
    ensures vid != "" ==> next == NewestFirst([log] + GetInsuranceLogs(old(st.items), vid), "startDate")
    ensures vid != "" ==> st.items == old(st.items)["insuranceLogs:" + vid := Parsed(JsonCopy(Arr(next)))]
  {
    next := AddLog(st, Prefix, SortField, vid, log);
  }
}
