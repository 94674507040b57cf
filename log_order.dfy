/**
 * The order every log list is kept in: `list.sort((a, b) => new Date(b[field]) - new Date(a[field]))`,
 * newest first. `Array.prototype.sort` is stable, so it is modelled as a stable
 * insertion sort; entries whose date does not parse make the comparator NaN,
 * which the sort treats as "equal".
 */
module LogOrder {
  import opened JsValues
  import opened Seqs

  /** `new Date(v[field]).getTime()`, None when it is an Invalid Date. */
  function DateKey(v: Value, field: string): Option<int>
  {
    TimeValue(Prop(v, field))
  }

  /** The comparator puts b before a: both dates are valid and b's is strictly later. */
  predicate Later(b: Value, a: Value, field: string)
  {
    DateKey(b, field).Some? && DateKey(a, field).Some? && DateKey(b, field).value > DateKey(a, field).value
  }

  /** Every entry carries a valid date in field. */
  predicate Dated(s: seq<Value>, field: string)
  {
    forall i :: 0 <= i < |s| ==> DateKey(s[i], field).Some?
  }

  /** No entry is strictly later than one before it. */
  predicate IsNewestFirst(s: seq<Value>, field: string)
  {
    forall i, j :: 0 <= i < j < |s| ==> !Later(s[j], s[i], field)
  }

  /** x goes in front of the first entry of s that is not strictly later than it. */
  function Insert(x: Value, s: seq<Value>, field: string): (r: seq<Value>)
    ensures |r| == |s| + 1
    ensures multiset(r) == multiset{x} + multiset(s)
  {
    if s == [] || !Later(s[0], x, field) then [x] + s
    else
      assert s == [s[0]] + s[1..];
      [s[0]] + Insert(x, s[1..], field)
  }

  /** The stable sort, newest first. */
  function NewestFirst(xs: seq<Value>, field: string): (r: seq<Value>)
    ensures |r| == |xs|
  {
    if xs == [] then [] else Insert(xs[0], NewestFirst(xs[1..], field), field)
  }

  /** The sort permutes its input. */
  lemma {:induction false} NewestFirstPermutation(xs: seq<Value>, field: string)
    ensures multiset(NewestFirst(xs, field)) == multiset(xs)
  {
    if xs != [] {
      NewestFirstPermutation(xs[1..], field);
      assert xs == [xs[0]] + xs[1..];
    }
  }

  /** Insert past a head strictly later than x keeps that head in front. */
  lemma InsertPastHead(x: Value, s: seq<Value>, field: string)
    requires s != [] && Later(s[0], x, field)
    ensures Insert(x, s, field) == [s[0]] + Insert(x, s[1..], field)
  {
  }

  /** Putting a head in front of a splice of t at k is the splice of the longer list at k + 1. */
  lemma ConsSplice<T>(a: T, t: seq<T>, k: nat, x: T)
    requires k <= |t|
    ensures [a] + (t[..k] + [x] + t[k..]) == ([a] + t)[..k + 1] + [x] + ([a] + t)[k + 1..]
  {
    assert ([a] + t)[..k + 1] == [a] + t[..k];
    assert ([a] + t)[k + 1..] == t[k..];
  }

  /** Where Insert puts x: after exactly the entries that are strictly later than it. */
  lemma {:induction false} InsertPosition(x: Value, s: seq<Value>, field: string) returns (i: nat)
    ensures i <= |s|
    ensures Insert(x, s, field) == s[..i] + [x] + s[i..]
    ensures forall j :: 0 <= j < i ==> Later(s[j], x, field)
    ensures i < |s| ==> !Later(s[i], x, field)
  {
    if s == [] || !Later(s[0], x, field) {
      i := 0;
    } else {
      var t := s[1..];
      var k := InsertPosition(x, t, field);
      i := k + 1;
      InsertPastHead(x, s, field);
      ConsSplice(s[0], t, k, x);
      assert [s[0]] + t == s;
      forall j | 1 <= j < i ensures Later(s[j], x, field) {
        assert s[j] == t[j - 1];
      }
    }
  }

  /** A head that no entry of a newest-first list is later than keeps it newest first. */
  lemma ConsNewestFirst(h: Value, u: seq<Value>, field: string)
    requires IsNewestFirst(u, field)
    requires forall j :: 0 <= j < |u| ==> !Later(u[j], h, field)
    ensures IsNewestFirst([h] + u, field)
  {
    var r := [h] + u;
    forall i, j | 0 <= i < j < |r| ensures !Later(r[j], r[i], field) {
      assert r[j] == u[j - 1];
      if i > 0 {
        assert r[i] == u[i - 1];
      }
    }
  }

  lemma {:induction false} InsertNewestFirst(x: Value, s: seq<Value>, field: string)
    requires Dated(s, field) && DateKey(x, field).Some?
    requires IsNewestFirst(s, field)
    ensures IsNewestFirst(Insert(x, s, field), field)
  {
    if s == [] || !Later(s[0], x, field) {
      forall j | 0 <= j < |s| ensures !Later(s[j], x, field) {
        if j > 0 {
          assert !Later(s[j], s[0], field);
        }
      }
      ConsNewestFirst(x, s, field);
    } else {
      var t := s[1..];
      assert IsNewestFirst(t, field) by {
        forall i, j | 0 <= i < j < |t| ensures !Later(t[j], t[i], field) {
          assert t[i] == s[i + 1] && t[j] == s[j + 1];
        }
      }
      InsertNewestFirst(x, t, field);
      var u := Insert(x, t, field);
      forall j | 0 <= j < |u| ensures !Later(u[j], s[0], field) {
        assert u[j] in multiset(u);
        if u[j] != x {
          assert u[j] in multiset(t);
          var m :| 0 <= m < |t| && t[m] == u[j];
          assert s[m + 1] == u[j];
        }
      }
      InsertPastHead(x, s, field);
      ConsNewestFirst(s[0], u, field);
    }
  }

  /** When every entry is dated, the sort's output is in newest-first order. */
  lemma {:induction false} NewestFirstOrdered(xs: seq<Value>, field: string)
    requires Dated(xs, field)
    ensures IsNewestFirst(NewestFirst(xs, field), field)
    ensures Dated(NewestFirst(xs, field), field)
  {
    if xs != [] {
      var rest := NewestFirst(xs[1..], field);
      NewestFirstOrdered(xs[1..], field);
      InsertNewestFirst(xs[0], rest, field);
      var r := NewestFirst(xs, field);
      NewestFirstPermutation(xs, field);
      forall i | 0 <= i < |r| ensures DateKey(r[i], field).Some? {
        assert r[i] in multiset(xs);
      }
    }
  }

  /** Entries whose date is k (or which have no valid date, when k is None). */
  function SameDate(field: string, k: Option<int>): Value -> bool
  {
    v => DateKey(v, field) == k
  }

  /** The entries Insert passes over have a later date than x, so none shares it. */
  lemma PassedOverNotSameDate(x: Value, a: seq<Value>, field: string)
    requires forall j :: 0 <= j < |a| ==> Later(a[j], x, field)
    ensures Filter(a, SameDate(field, DateKey(x, field))) == []
  {
    var p := SameDate(field, DateKey(x, field));
    forall j | 0 <= j < |a| ensures !p(a[j]) {
      assert Later(a[j], x, field);
    }
    FilterNonePass(a, p);
  }

  lemma InsertStable(x: Value, s: seq<Value>, field: string, k: Option<int>)
    ensures Filter(Insert(x, s, field), SameDate(field, k)) == Filter([x] + s, SameDate(field, k))
  {
    var p := SameDate(field, k);
    var i := InsertPosition(x, s, field);
    var a, b := s[..i], s[i..];
    assert s == a + b;
    if p(x) {
      PassedOverNotSameDate(x, a, field);
    }
    FilterSpliceSame(a, x, b, p);
  }

  /**
   * The sort is stable: the entries sharing any one date, and the undated ones,
   * keep their original relative order.
   */
  lemma {:induction false} NewestFirstStable(xs: seq<Value>, field: string, k: Option<int>)
    ensures Filter(NewestFirst(xs, field), SameDate(field, k)) == Filter(xs, SameDate(field, k))
  {
    if xs != [] {
      var p := SameDate(field, k);
      NewestFirstStable(xs[1..], field, k);
      InsertStable(xs[0], NewestFirst(xs[1..], field), field, k);
      FilterAppend([xs[0]], NewestFirst(xs[1..], field), p);
      FilterAppend([xs[0]], xs[1..], p);
      assert xs == [xs[0]] + xs[1..];
    }
  }

  /**
   * Sorting a list with x prepended places x after exactly the entries strictly
   * later than it, so x precedes every other entry with the same date.
   */
  lemma PrependedFirstAmongEqual(x: Value, current: seq<Value>, field: string) returns (i: nat)
    ensures i <= |current|
    ensures NewestFirst([x] + current, field)
      == NewestFirst(current, field)[..i] + [x] + NewestFirst(current, field)[i..]
    ensures forall j :: 0 <= j < i ==> Later(NewestFirst(current, field)[j], x, field)
    ensures Dated(current, field) ==>
      forall j :: i <= j < |current| ==> !Later(NewestFirst(current, field)[j], x, field)
  {
    assert ([x] + current)[1..] == current;
    var s := NewestFirst(current, field);
    i := InsertPosition(x, s, field);
    if Dated(current, field) && i < |current| {
      NewestFirstOrdered(current, field);
      forall j | i <= j < |current| ensures !Later(s[j], x, field) {
        if j > i {
          assert !Later(s[j], s[i], field);
        }
      }
    }
  }
}
