/**
 * The JavaScript values the app keeps in browser storage and React state,
 * with the conversions its code relies on: truthiness, `Number(...)`,
 * strict equality, object spread and `new Date(...)` on ISO date strings.
 */
module JsValues {

  datatype Option<+T> = None | Some(value: T)

  /** A JSON value, plus NaN (which `Number(...)` can produce in memory). */
  datatype Value =
    | Null
    | Bool(b: bool)
    | Num(n: real)
    | NaN
    | Str(s: string)
    | Arr(items: seq<Value>)
    | Obj(fields: map<string, Value>)

  /** `v[key]`; None stands for `undefined`. Non-objects have no own fields here. */
  function Prop(v: Value, key: string): (r: Option<Value>)
    ensures r.Some? <==> v.Obj? && key in v.fields
    ensures r.Some? ==> r.value == v.fields[key]
  {
    if v.Obj? && key in v.fields then Some(v.fields[key]) else None
  }

  /** `!!v`, with None as `undefined`. */
  predicate Truthy(v: Option<Value>)
  {
    match v
    case None => false
    case Some(Null) => false
    case Some(Bool(b)) => b
    case Some(Num(n)) => n != 0.0
    case Some(NaN) => false
    case Some(Str(s)) => s != ""
    case Some(Arr(_)) => true
    case Some(Obj(_)) => true
  }

  /** `a === b` on primitives; two objects read from storage are never the same reference. */
  predicate StrictEquals(a: Option<Value>, b: Option<Value>)
  {
    match (a, b)
    case (None, None) => true
    case (Some(Null), Some(Null)) => true
    case (Some(Bool(x)), Some(Bool(y))) => x == y
    case (Some(Num(x)), Some(Num(y))) => x == y
    case (Some(Str(x)), Some(Str(y))) => x == y
    case _ => false
  }

  /** The own fields that `{...v}` copies; a non-object contributes none. */
  function Spread(v: Value): map<string, Value>
  {
    if v.Obj? then v.fields else map[]
  }

  // ---------------------------------------------------------------------------
  // JSON.stringify followed by JSON.parse

  /** A value JSON can carry unchanged: no NaN anywhere inside it. */
  predicate JsonSafe(v: Value)
  {
    match v
    case NaN => false
    case Arr(items) => forall i :: 0 <= i < |items| ==> JsonSafe(items[i])
    case Obj(fields) => forall k :: k in fields ==> JsonSafe(fields[k])
    case _ => true
  }

  /** `JSON.parse(JSON.stringify(v))`: NaN is written as `null`, everything else survives. */
  function JsonCopy(v: Value): (r: Value)
    ensures JsonSafe(r)
    ensures v.Arr? <==> r.Arr?
    ensures v.Arr? ==> |r.items| == |v.items|
    ensures v.Obj? <==> r.Obj?
    ensures v.Obj? ==> r.fields.Keys == v.fields.Keys
  {
    match v
    case NaN => Null
    case Arr(items) => Arr(seq(|items|, i requires 0 <= i < |items| => JsonCopy(items[i])))
    case Obj(fields) => Obj(map k | k in fields :: JsonCopy(fields[k]))
    case _ => v
  }

  /** Storing a NaN-free value as JSON and reading it back gives the value itself. */
  lemma {:induction false} JsonCopyOfSafe(v: Value)
    requires JsonSafe(v)
    ensures JsonCopy(v) == v
  {
    match v
    case Arr(items) =>
      forall i | 0 <= i < |items| ensures JsonCopy(items[i]) == items[i] {
        JsonCopyOfSafe(items[i]);
      }
      assert JsonCopy(v).items == items;
    case Obj(fields) =>
      forall k | k in fields ensures JsonCopy(fields[k]) == fields[k] {
        JsonCopyOfSafe(fields[k]);
      }
      assert JsonCopy(v).fields == fields;
    case _ =>
  }

  /** A second JSON round trip changes nothing. */
  lemma JsonCopyIdempotent(v: Value)
    ensures JsonCopy(JsonCopy(v)) == JsonCopy(v)
  {
    JsonCopyOfSafe(JsonCopy(v));
  }

  // ---------------------------------------------------------------------------
  // Number(...)

  predicate IsDigit(c: char) { '0' <= c <= '9' }

  predicate AllDigits(s: string) { forall i :: 0 <= i < |s| ==> IsDigit(s[i]) }

  function DigitValue(c: char): nat
    requires IsDigit(c)
  {
    (c as int - '0' as int) as nat
  }

  function DigitsValue(s: string): nat
    requires AllDigits(s)
  {
    if s == [] then 0 else DigitsValue(s[..|s| - 1]) * 10 + DigitValue(s[|s| - 1])
  }

  function Pow10(k: nat): (r: nat)
    ensures r >= 1
  {
    if k == 0 then 1 else 10 * Pow10(k - 1)
  }

  /** The index of the first '.' in s, or |s| when there is none. */
  function DotIndex(s: string): (i: nat)
    ensures i <= |s|
    ensures forall j :: 0 <= j < i ==> s[j] != '.'
    ensures i < |s| ==> s[i] == '.'
  {
    if s == [] then 0 else if s[0] == '.' then 0 else 1 + DotIndex(s[1..])
  }

  /** An unsigned decimal `ddd`, `ddd.`, `.ddd` or `ddd.ddd`. */
  function UnsignedDecimal(s: string): (r: Option<real>)
    ensures r.Some? ==> r.value >= 0.0
  {
    var i := DotIndex(s);
    var whole := s[..i];
    var frac := if i < |s| then s[i + 1..] else "";
    if AllDigits(whole) && AllDigits(frac) && |whole| + |frac| > 0 then
      Some(DigitsValue(whole) as real + DigitsValue(frac) as real / Pow10(|frac|) as real)
    else
      None
  }

  /**
   * `Number(s)` for the text of a form field; None is NaN. The empty text is 0,
   * an optional sign may precede a decimal; anything else is NaN.
   */
  function ToNumber(s: string): (r: Option<real>)
    ensures s == "" ==> r == Some(0.0)
    ensures r.Some? && s != "" && s[0] != '-' ==> r.value >= 0.0
  {
    if s == "" then Some(0.0)
    else if s[0] == '-' then
      match UnsignedDecimal(s[1..])
      case Some(x) => Some(-x)
      case None => None
    else if s[0] == '+' then UnsignedDecimal(s[1..])
    else UnsignedDecimal(s)
  }

  /** The JavaScript number that Some(x) / None (NaN) stands for. */
  function NumberValue(n: Option<real>): (v: Value)
    ensures n.Some? ==> v == Num(n.value)
    ensures n.None? ==> v == NaN
  {
    match n
    case Some(x) => Num(x)
    case None => NaN
  }

  /** `Number(v)` for a value; None is NaN. */
  function NumberOf(v: Option<Value>): Option<real>
  {
    match v
    case None => None
    case Some(Null) => Some(0.0)
    case Some(Bool(b)) => Some(if b then 1.0 else 0.0)
    case Some(Num(n)) => Some(n)
    case Some(NaN) => None
    case Some(Str(s)) => ToNumber(s)
    case Some(Arr(_)) => None
    case Some(Obj(_)) => None
  }

  /** `Number(v) || 0`: NaN and non-numeric values count as 0. */
  function NumOrZero(v: Option<Value>): (r: real)
    ensures NumberOf(v).Some? ==> r == NumberOf(v).value
    ensures NumberOf(v).None? ==> r == 0.0
  {
    match NumberOf(v)
    case Some(x) => x
    case None => 0.0
  }

  /** `x < y` on two strings: code unit by code unit, a proper prefix first. */
  predicate StringLess(x: string, y: string)
  {
    if y == [] then false
    else if x == [] then true
    else if x[0] != y[0] then x[0] < y[0]
    else StringLess(x[1..], y[1..])
  }

  /**
   * `a >= b`: two strings compare as text; otherwise both sides become numbers
   * and a NaN on either side makes the comparison false.
   */
  predicate AtLeast(a: Option<Value>, b: Option<Value>)
  {
    if a.Some? && a.value.Str? && b.Some? && b.value.Str? then !StringLess(a.value.s, b.value.s)
    else
      var x, y := NumberOf(a), NumberOf(b);
      x.Some? && y.Some? && x.value >= y.value
  }

  /** `a - b` on two values; None is NaN. */
  function Minus(a: Option<Value>, b: Option<Value>): (r: Option<real>)
    ensures r.Some? <==> NumberOf(a).Some? && NumberOf(b).Some?
    ensures r.Some? ==> r.value == NumberOf(a).value - NumberOf(b).value
  {
    var x, y := NumberOf(a), NumberOf(b);
    if x.Some? && y.Some? then Some(x.value - y.value) else None
  }

  // ---------------------------------------------------------------------------
  // Number-to-text (`String(n)`), exact for whole numbers

  function DigitChar(d: nat): char
    requires d < 10
  {
    ('0' as int + d) as char
  }

  function NatText(n: nat): (s: string)
    ensures |s| > 0 && AllDigits(s)
  {
    if n < 10 then [DigitChar(n)] else NatText(n / 10) + [DigitChar(n % 10)]
  }

  function IntText(n: int): (s: string)
    ensures |s| > 0
  {
    if n < 0 then "-" + NatText(-n) else NatText(n)
  }

  /** Up to k digits of a fraction 0 <= f < 1, stopping once nothing is left. */
  function FractionDigits(f: real, k: nat): string
    requires 0.0 <= f < 1.0
    decreases k
  {
    if k == 0 || f == 0.0 then ""
    else
      var d := (f * 10.0).Floor;
      assert 0 <= d < 10;
      [DigitChar(d as nat)] + FractionDigits(f * 10.0 - d as real, k - 1)
  }

  function UnsignedNumberText(x: real): string
    requires x >= 0.0
  {
    if x == x.Floor as real then NatText(x.Floor as nat)
    else NatText(x.Floor as nat) + "." + FractionDigits(x - x.Floor as real, 17)
  }

  /** `String(x)`: whole numbers exactly; other numbers with at most 17 decimals. */
  function NumberText(x: real): string
  {
    if x < 0.0 then "-" + UnsignedNumberText(-x) else UnsignedNumberText(x)
  }

  /** `String(v)` as a template literal shows it. */
  function DisplayText(v: Value): string
  {
    match v
    case Null => "null"
    case Bool(b) => if b then "true" else "false"
    case Num(n) => NumberText(n)
    case NaN => "NaN"
    case Str(s) => s
    case Arr(_) => ""
    case Obj(_) => "[object Object]"
  }

  lemma {:induction false} NatTextValue(n: nat)
    ensures DigitsValue(NatText(n)) == n
  {
    if n >= 10 {
      var s := NatText(n);
      NatTextValue(n / 10);
      assert s[..|s| - 1] == NatText(n / 10);
    }
  }

  /** Showing a whole number and reading it back with `Number(...)` gives the number. */
  lemma {:induction false} IntTextRoundTrip(n: int)
    ensures ToNumber(IntText(n)) == Some(n as real)
  {
    var m: nat := if n < 0 then -n else n;
    var s := NatText(m);
    NatTextReads(m);
    if n < 0 {
      assert IntText(n)[1..] == s;
    } else {
      assert IsDigit(s[0]);
    }
  }

  /** The digits of a whole number read back, as an unsigned decimal, as that number. */
  lemma NatTextReads(m: nat)
    ensures UnsignedDecimal(NatText(m)) == Some(m as real)
  {
    NatTextValue(m);
    var s := NatText(m);
    assert s[..|s|] == s;
  }

  // ---------------------------------------------------------------------------
  // Dates

  const MsPerDay: int := 86400000

  function IsLeapYear(y: int): bool
  {
    y % 4 == 0 && (y % 100 != 0 || y % 400 == 0)
  }

  function DaysInMonth(y: int, m: int): int
    requires 1 <= m <= 12
  {
    if m == 2 then (if IsLeapYear(y) then 29 else 28)
    else if m == 4 || m == 6 || m == 9 || m == 11 then 30
    else 31
  }

  /** Days since 1970-01-01 of a proleptic Gregorian date. */
  function DaysFromCivil(y: int, m: int, d: int): int
    requires 1 <= m <= 12
  {
    var y1 := if m <= 2 then y - 1 else y;
    var era := y1 / 400;
    var yoe := y1 - era * 400;
    var mp := if m > 2 then m - 3 else m + 9;
    var doy := (153 * mp + 2) / 5 + d - 1;
    var doe := yoe * 365 + yoe / 4 - yoe / 100 + doy;
    era * 146097 + doe - 719468
  }

  /** The day number of a `YYYY-MM-DD` text, as `<input type="date">` produces it. */
  function ParseIsoDay(s: string): Option<int>
  {
    if |s| == 10 && s[4] == '-' && s[7] == '-'
       && AllDigits(s[..4]) && AllDigits(s[5..7]) && AllDigits(s[8..])
    then
      var y, m, d := DigitsValue(s[..4]), DigitsValue(s[5..7]), DigitsValue(s[8..]);
      if 1 <= m <= 12 && 1 <= d <= DaysInMonth(y, m) then Some(DaysFromCivil(y, m, d)) else None
    else
      None
  }

  /** `new Date(v).getTime()` in milliseconds; None is NaN (an Invalid Date). */
  function TimeValue(v: Option<Value>): Option<int>
  {
    match v
    case None => None
    case Some(Null) => Some(0)
    case Some(Bool(b)) => Some(if b then 1 else 0)
    case Some(Num(n)) => Some(if n < 0.0 then -((-n).Floor) else n.Floor)
    case Some(NaN) => None
    case Some(Str(s)) =>
      (match ParseIsoDay(s)
       case Some(day) => Some(day * MsPerDay)
       case None => None)
    case Some(Arr(_)) => None
    case Some(Obj(_)) => None
  }

  /** `new Date(v)` after `setHours(0, 0, 0, 0)`, as a day number. */
  function DayOf(v: Option<Value>): (r: Option<int>)
    ensures r.Some? <==> TimeValue(v).Some?
    ensures r.Some? ==> r.value * MsPerDay <= TimeValue(v).value < (r.value + 1) * MsPerDay
  {
    match TimeValue(v)
    case Some(t) => Some(t / MsPerDay)
    case None => None
  }
}
