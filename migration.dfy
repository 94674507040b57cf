/**
 * The console helpers that move the app's data between browser origins: a
 * read-only check, a restore from a key/value object and an export of the
 * app's keys. A key belongs to the app when it starts with one of the five
 * store prefixes.
 */
module Migration {
  import opened JsValues
  import opened LocalStorage
  import FuelLogs
  import MaintenanceLogs
  import InsuranceLogs
  import Odometer
  import Reminders

  const Prefixes: seq<string> := ["fuelLogs:", "maintenanceLogs:", "insuranceLogs:", "odometer:", "reminders:"]

  /** `prefixes.some(prefix => key.startsWith(prefix))`. */
  predicate Migratable(key: string)
  {
    SomePrefix(Prefixes, key)
  }

  predicate SomePrefix(prefixes: seq<string>, key: string)
  {
    prefixes != [] && (prefixes[0] <= key || SomePrefix(prefixes[1..], key))
  }

  /** Each of the prefixes makes the key match. */
  lemma {:induction false} SomePrefixAt(prefixes: seq<string>, i: nat, key: string)
    requires i < |prefixes| && prefixes[i] <= key
    ensures SomePrefix(prefixes, key)
  {
    if i > 0 {
      SomePrefixAt(prefixes[1..], i - 1, key);
    }
  }

  /** A key matches only through one of the prefixes. */
  lemma {:induction false} SomePrefixWitness(prefixes: seq<string>, key: string)
    requires SomePrefix(prefixes, key)
    ensures exists j :: 0 <= j < |prefixes| && prefixes[j] <= key
  {
    if !(prefixes[0] <= key) {
      SomePrefixWitness(prefixes[1..], key);
      var j :| 0 <= j < |prefixes[1..]| && prefixes[1..][j] <= key;
      assert prefixes[j + 1] <= key;
    }
  }

  /** Every key the stores write is one the helpers move. */
  lemma StoreKeysMigratable(vehicleId: string)
    ensures Migratable(FuelLogs.Prefix + vehicleId)
    ensures Migratable(MaintenanceLogs.Prefix + vehicleId)
    ensures Migratable(InsuranceLogs.Prefix + vehicleId)
    ensures Migratable(Odometer.Prefix + vehicleId)
    ensures Migratable(Reminders.Prefix + vehicleId)
  {
    SomePrefixAt(Prefixes, 0, FuelLogs.Prefix + vehicleId);
    SomePrefixAt(Prefixes, 1, MaintenanceLogs.Prefix + vehicleId);
    SomePrefixAt(Prefixes, 2, InsuranceLogs.Prefix + vehicleId);
    SomePrefixAt(Prefixes, 3, Odometer.Prefix + vehicleId);
    SomePrefixAt(Prefixes, 4, Reminders.Prefix + vehicleId);
  }

  /** A key without one of the prefixes, such as an array index, is never moved. */
  lemma DigitKeysNotMigratable(key: string)
    requires key != [] && IsDigit(key[0])
    ensures !Migratable(key)
  {
    if Migratable(key) {
      SomePrefixWitness(Prefixes, key);
      assert false;
    }
  }

  // ---------------------------------------------------------------------------
  // migrateLocalStorageData

  datatype CheckResult = CheckResult(migrated: nat, skipped: nat, message: string)

  const AlreadyThere := "Data already exists"
  const ManualRequired := "Manual migration required"

  /** The app keys present in storage. */
  function AppKeys(items: map<string, Stored>): set<string>
  {
    set k | k in items && Migratable(k)
  }

  /** `migrateLocalStorageData()`: reports, never moves anything and never writes. */
  function MigrateCheck(items: map<string, Stored>): (r: CheckResult)
    ensures r.migrated == 0 && r.skipped == 0
    ensures r.message == AlreadyThere <==> exists k :: k in items && Migratable(k)
    ensures r.message == ManualRequired <==> forall k :: k in items ==> !Migratable(k)
  {
    if AppKeys(items) != {} then CheckResult(0, 0, AlreadyThere)
    else
      assert forall k :: k in items ==> (Migratable(k) ==> k in AppKeys(items));
      CheckResult(0, 0, ManualRequired)
  }

  // ---------------------------------------------------------------------------
  // restoreFromJSON

  datatype RestoreResult = InvalidFormat | Restored(migrated: nat, skipped: nat)

  /** `!data || typeof data !== 'object'`: arrays are objects, null is not truthy. */
  predicate ValidData(data: Value)
  {
    Truthy(Some(data)) && (data.Obj? || data.Arr?)
  }

  /**
   * What is stored for one value: a string verbatim (so it is what `parse`, the
   * stored text's `JSON.parse`, makes of it), anything else JSON-stringified.
   */
  function StoredFor(v: Value, parse: string -> Stored): Stored
  {
    if v.Str? then parse(v.s) else Parsed(JsonCopy(v))
  }

  /** The entries a restore writes. */
  function RestoredItems(fields: map<string, Value>, parse: string -> Stored): (r: map<string, Stored>)
    ensures r.Keys == set k | k in fields && Migratable(k)
  {
    map k | k in fields && Migratable(k) :: StoredFor(fields[k], parse)
  }

  /**
   * `restoreFromJSON(data)`: rejects what is not an object, writes the app keys of
   * an object (an array's index keys are all skipped) and counts the rest as
   * skipped. `setItem` is taken never to fail.
   */
  method RestoreFromJson(st: Storage, data: Value, parse: string -> Stored) returns (r: RestoreResult)
    modifies st
    ensures r == InvalidFormat <==> !ValidData(data)
    ensures !data.Obj? ==> st.items == old(st.items)
    ensures data.Arr? && ValidData(data) ==> r == Restored(0, |data.items|)
    ensures data.Obj? ==> st.items == old(st.items) + RestoredItems(data.fields, parse)
    ensures data.Obj? ==> (r.Restored? && r.migrated == |RestoredItems(data.fields, parse)|
                           && r.migrated + r.skipped == |data.fields|)
  {
    if !ValidData(data) {
      return InvalidFormat;
    }
    if data.Arr? {
      return Restored(0, |data.items|);
    }
    var migrated, skipped := RestoreFields(st, data.fields, parse);
    return Restored(migrated, skipped);
  }

  /** The `forEach` over an object's keys. */
  method RestoreFields(st: Storage, fields: map<string, Value>, parse: string -> Stored)
    returns (migrated: nat, skipped: nat)
    modifies st
    ensures st.items == old(st.items) + RestoredItems(fields, parse)
    ensures migrated == |RestoredItems(fields, parse)| && migrated + skipped == |fields|
  {
    migrated, skipped := 0, 0;
    var remaining := fields.Keys;
    ghost var done: set<string> := {};
    ghost var base := st.items;
    assert RestoredAmong(fields, done, parse) == map[];
    assert base + map[] == base;
    while remaining != {}
      invariant done <= fields.Keys && remaining == fields.Keys - done
      invariant st.items == base + RestoredAmong(fields, done, parse)
      invariant migrated == |Moved(done)| && migrated + skipped == |done|
      decreases remaining
    {
      var key :| key in remaining;
      migrated, skipped := RestoreKey(st, fields, key, parse, base, done, migrated, skipped);
      DoneStep(fields.Keys, done, remaining, key);
      remaining := remaining - {key};
      done := done + {key};
    }
    RestoredAll(fields, done, parse);
  }

  /** Visiting one more key keeps the visited and remaining keys apart and together whole. */
  lemma DoneStep(keys: set<string>, done: set<string>, remaining: set<string>, key: string)
    requires done <= keys && remaining == keys - done && key in remaining
    ensures done + {key} <= keys && remaining - {key} == keys - (done + {key})
  {
  }

  /** Once every key is visited, the restore has written all its entries. */
  lemma RestoredAll(fields: map<string, Value>, done: set<string>, parse: string -> Stored)
    requires done <= fields.Keys && fields.Keys - done == {}
    ensures RestoredAmong(fields, done, parse) == RestoredItems(fields, parse)
    ensures Moved(done) == RestoredItems(fields, parse).Keys
  {
    forall k | k in fields.Keys ensures k in done {
      assert k !in fields.Keys - done;
    }
    assert done == fields.Keys;
  }

  /** One key of the `forEach`: written and counted as migrated when it carries an app prefix, else counted as skipped. */
  method RestoreKey(st: Storage, fields: map<string, Value>, key: string, parse: string -> Stored,
                    ghost base: map<string, Stored>, ghost done: set<string>, migrated: nat, skipped: nat)
    returns (migrated': nat, skipped': nat)
    requires key in fields && key !in done
    requires st.items == base + RestoredAmong(fields, done, parse)
    requires migrated == |Moved(done)| && migrated + skipped == |done|
    modifies st
    ensures st.items == base + RestoredAmong(fields, done + {key}, parse)
    ensures migrated' == |Moved(done + {key})| && migrated' + skipped' == |done + {key}|
  {
    RestoredStep(fields, done, key, parse);
    MovedStep(done, key);
    if Migratable(key) {
      UnionUpdate(base, RestoredAmong(fields, done, parse), key, StoredFor(fields[key], parse));
      st.SetItem(key, StoredFor(fields[key], parse));
      migrated', skipped' := migrated + 1, skipped;
    } else {
      migrated', skipped' := migrated, skipped + 1;
    }
  }

  /** The entries a restore has written once it has visited the keys in done. */
  function RestoredAmong(fields: map<string, Value>, done: set<string>, parse: string -> Stored): map<string, Stored>
  {
    map k | k in fields && k in done && Migratable(k) :: StoredFor(fields[k], parse)
  }

  function Moved(done: set<string>): set<string>
  {
    set k | k in done && Migratable(k)
  }

  lemma MovedStep(done: set<string>, key: string)
    requires key !in done
    ensures |done + {key}| == |done| + 1
    ensures Migratable(key) ==> Moved(done + {key}) == Moved(done) + {key} && key !in Moved(done)
    ensures !Migratable(key) ==> Moved(done + {key}) == Moved(done)
  {
  }

  lemma UnionUpdate<K, V>(m: map<K, V>, a: map<K, V>, k: K, v: V)
    ensures (m + a)[k := v] == m + a[k := v]
  {
  }

  lemma RestoredStep(fields: map<string, Value>, done: set<string>, key: string, parse: string -> Stored)
    requires key in fields
    ensures Migratable(key) ==>
      RestoredAmong(fields, done + {key}, parse) == RestoredAmong(fields, done, parse)[key := StoredFor(fields[key], parse)]
    ensures !Migratable(key) ==> RestoredAmong(fields, done + {key}, parse) == RestoredAmong(fields, done, parse)
  {
  }

  /** The index keys of an array, which a restore skips, never carry an app prefix. */
  lemma ArrayKeysSkipped(items: seq<Value>)
    ensures forall i :: 0 <= i < |items| ==> !Migratable(NatText(i))
  {
    forall i | 0 <= i < |items| ensures !Migratable(NatText(i)) {
      DigitKeysNotMigratable(NatText(i));
    }
  }

  // ---------------------------------------------------------------------------
  // exportLocalStorageData

  /** The backup object: exactly the app keys, each with what is stored under it. */
  function Exported(items: map<string, Stored>): (r: map<string, Stored>)
    ensures r.Keys == AppKeys(items)
    ensures forall k :: k in r ==> r[k] == items[k]
  {
    map k | k in items && Migratable(k) :: items[k]
  }

  /** The key-collecting loop of `exportLocalStorageData()`; it writes nothing. */
  method ExportData(st: Storage) returns (data: map<string, Stored>)
    ensures data == Exported(st.items)
  {
    data := map[];
    var remaining := st.items.Keys;
    while remaining != {}
      invariant remaining <= st.items.Keys
      invariant data == map k | k in st.items && k !in remaining && Migratable(k) :: st.items[k]
      decreases |remaining|
    {
      var key :| key in remaining;
      if Migratable(key) {
        data := data[key := st.items[key]];
      }
      remaining := remaining - {key};
    }
  }

  /**
   * Restoring a backup brings back what was exported: when the backup holds each
   * exported key's stored text (whose parse is what was stored), the restore
   * writes exactly the exported entries, so storage without app data ends with
   * the app data it was exported from.
   */
  lemma RestoreExported(items: map<string, Stored>, texts: map<string, string>, parse: string -> Stored)
    requires texts.Keys == Exported(items).Keys
    requires forall k :: k in texts ==> parse(texts[k]) == items[k]
    ensures RestoredItems(map k | k in texts :: Str(texts[k]), parse) == Exported(items)
  {
    var fields := map k | k in texts :: Str(texts[k]);
    var r := RestoredItems(fields, parse);
    assert r.Keys == Exported(items).Keys;
    forall k | k in r ensures r[k] == Exported(items)[k] {
      assert StoredFor(fields[k], parse) == parse(texts[k]);
    }
  }
}
