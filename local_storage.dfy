/**
 * The browser's `localStorage` as the front end uses it: a map from key to
 * stored text. A stored text is represented by what `JSON.parse` makes of it;
 * text that is empty or does not parse is `Corrupt`, and the readers treat
 * both the same way (as if nothing were stored).
 */
module LocalStorage {
  import opened JsValues

  datatype Stored = Corrupt | Parsed(value: Value)

  class Storage {
    var items: map<string, Stored>

    constructor(initial: map<string, Stored>)
      ensures items == initial
    {
      items := initial;
    }

    /** `localStorage.getItem(key)`; None is `null` (no such key). */
    function GetItem(key: string): (r: Option<Stored>)
      reads this
      ensures r.Some? <==> key in items
      ensures r.Some? ==> r.value == items[key]
    {
      if key in items then Some(items[key]) else None
    }

    /** `localStorage.setItem(key, text)`. */
    method SetItem(key: string, text: Stored)
      modifies this
      ensures items == old(items)[key := text]
    {
      items := items[key := text];
    }

    /** `localStorage.setItem(key, JSON.stringify(v))`. */
    method SetJson(key: string, v: Value)
      modifies this
      ensures items == old(items)[key := Parsed(JsonCopy(v))]
    {
      SetItem(key, Parsed(JsonCopy(v)));
    }
  }

  /**
   * The array stored under key, or [] when the key is absent, its text is empty
   * or unparsable, or it parses to something other than an array.
   */
  function ArrayAt(items: map<string, Stored>, key: string): (r: seq<Value>)
    ensures key in items && items[key].Parsed? && items[key].value.Arr? ==> r == items[key].value.items
    ensures !(key in items && items[key].Parsed? && items[key].value.Arr?) ==> r == []
  {
    if key in items && items[key].Parsed? && items[key].value.Arr? then items[key].value.items else []
  }

  /** For NaN-free entries, JSON writes and reads back the list itself. */
  lemma {:induction false} JsonCopyOfSafeList(logs: seq<Value>)
    requires forall i :: 0 <= i < |logs| ==> JsonSafe(logs[i])
    ensures JsonCopy(Arr(logs)).items == logs
  {
    assert JsonSafe(Arr(logs));
    JsonCopyOfSafe(Arr(logs));
  }
}
