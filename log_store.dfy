/**
 * The shape shared by the three per-vehicle log stores (fuel, maintenance,
 * insurance): the list for vehicle `vid` lives under `prefix + vid` as JSON,
 * reads fall back to [] and every write is guarded by a non-empty vehicle id.
 */
module LogStore {
  import opened JsValues
  import opened LocalStorage
  import opened LogOrder

  /** The getter: [] for an empty vehicle id, otherwise the array stored under prefix + vid. */
  function StoredLogs(items: map<string, Stored>, prefix: string, vid: string): (r: seq<Value>)
    ensures vid == "" ==> r == []
    ensures vid != "" ==> r == ArrayAt(items, prefix + vid)
  {
    if vid == "" then [] else ArrayAt(items, prefix + vid)
  }

  /** The saver: writes `JSON.stringify(logs)` under prefix + vid, nothing for an empty id. */
  method SaveLogs(st: Storage, prefix: string, vid: string, logs: seq<Value>)
    modifies st
    ensures vid == "" ==> st.items == old(st.items)
    ensures vid != "" ==> st.items == old(st.items)[prefix + vid := Parsed(JsonCopy(Arr(logs)))]
  {
    if vid == "" {
      return;
    }
    st.SetJson(prefix + vid, Arr(logs));
  }

  /** The adder: prepend, sort newest first by field, save, return the sorted list. */
  method AddLog(st: Storage, prefix: string, field: string, vid: string, log: Value)
    returns (next: seq<Value>)
    modifies st
    ensures vid == "" ==> next == [] && st.items == old(st.items)
    ensures vid != "" ==> next == NewestFirst([log] + StoredLogs(old(st.items), prefix, vid), field)
    ensures vid != "" ==> st.items == old(st.items)[prefix + vid := Parsed(JsonCopy(Arr(next)))]
  {
    if vid == "" {
      return [];
    }
    var current := StoredLogs(st.items, prefix, vid);
    next := NewestFirst([log] + current, field);
    SaveLogs(st, prefix, vid, next);
  }

  /**
   * Round trip: after a save, the getter returns the JSON copy of the saved list,
   * which is the list itself when no entry holds a NaN; every other key reads as before.
   */
  lemma SaveThenGet(items: map<string, Stored>, prefix: string, vid: string, logs: seq<Value>,
                    otherPrefix: string, otherVid: string)
    requires vid != ""
    requires otherPrefix + otherVid != prefix + vid
    ensures var after := items[prefix + vid := Parsed(JsonCopy(Arr(logs)))];
      && StoredLogs(after, prefix, vid) == JsonCopy(Arr(logs)).items
      && ((forall i :: 0 <= i < |logs| ==> JsonSafe(logs[i])) ==> StoredLogs(after, prefix, vid) == logs)
      && StoredLogs(after, otherPrefix, otherVid) == StoredLogs(items, otherPrefix, otherVid)
  {
    if forall i :: 0 <= i < |logs| ==> JsonSafe(logs[i]) {
      JsonCopyOfSafeList(logs);
    }
  }

  /**
   * What adding returns: one entry longer, a permutation of the new entry and the
   * current list, newest first when every entry is dated, and the new entry placed
   * before every older entry that shares its date.
   */
  lemma AddedList(log: Value, current: seq<Value>, field: string) returns (i: nat)
    ensures var next := NewestFirst([log] + current, field);
      && |next| == |current| + 1
      && multiset(next) == multiset([log] + current)
      && (Dated([log] + current, field) ==> IsNewestFirst(next, field))
      && i <= |current| && next[i] == log
      && (forall j :: 0 <= j < i ==> Later(next[j], log, field))
      && (Dated(current, field) ==> forall j :: i < j < |next| ==> !Later(next[j], log, field))
  {
    var s := NewestFirst(current, field);
    var next := NewestFirst([log] + current, field);
    NewestFirstPermutation([log] + current, field);
    i := PrependedFirstAmongEqual(log, current, field);
    if Dated([log] + current, field) {
      NewestFirstOrdered([log] + current, field);
    }
    forall j | 0 <= j < i ensures Later(next[j], log, field) {
      assert next[j] == s[j];
    }
    if Dated(current, field) {
      forall j | i < j < |next| ensures !Later(next[j], log, field) {
        assert next[j] == s[j - 1];
      }
    }
  }

  /** Every entry survives JSON unchanged. */
  predicate AllJsonSafe(logs: seq<Value>)
  {
    forall i :: 0 <= i < |logs| ==> JsonSafe(logs[i])
  }

  /**
   * When the new entry and the current entries are NaN-free, the list written to
   * storage reads back as exactly the sorted list the caller keeps.
   */
  lemma AddedListReadsBack(log: Value, current: seq<Value>, field: string)
    requires JsonSafe(log) && AllJsonSafe(current)
    ensures JsonCopy(Arr(NewestFirst([log] + current, field))).items == NewestFirst([log] + current, field)
  {
    var all := [log] + current;
    var next := NewestFirst(all, field);
    NewestFirstPermutation(all, field);
    forall i | 0 <= i < |next| ensures JsonSafe(next[i]) {
      assert next[i] in multiset(all);
      var j :| 0 <= j < |all| && all[j] == next[i];
      if j > 0 {
        assert all[j] == current[j - 1];
      }
    }
    JsonCopyOfSafeList(next);
  }
}
