/**
 * The vehicle document schema as a record validator: how a request body's
 * values are cast to the schema's types, which paths are required, which are
 * trimmed and which take defaults. Registration-number uniqueness is a
 * property of the collection and is stated here for the controller to keep.
 */
module VehicleModel {
  import opened JsValues

  // ---------------------------------------------------------------------------
  // String.prototype.trim

  /** JavaScript white space and line terminators. */
  predicate IsSpace(c: char)
  {
    c in Spaces
  }

  const Spaces: set<char> :=
    {' ', '\t', '\n', '\r', '\U{B}', '\U{C}', '\U{A0}', '\U{1680}',
     '\U{2000}', '\U{2001}', '\U{2002}', '\U{2003}', '\U{2004}', '\U{2005}', '\U{2006}',
     '\U{2007}', '\U{2008}', '\U{2009}', '\U{200A}',
     '\U{2028}', '\U{2029}', '\U{202F}', '\U{205F}', '\U{3000}', '\U{FEFF}'}

  /** Neither end is white space. */
  predicate Trimmed(s: string)
  {
    s == [] || (!IsSpace(s[0]) && !IsSpace(s[|s| - 1]))
  }

  function TrimStart(s: string): (r: string)
    ensures |r| <= |s| && r == s[|s| - |r|..]
    ensures r == [] || !IsSpace(r[0])
    ensures forall i :: 0 <= i < |s| - |r| ==> IsSpace(s[i])
  {
    if s == [] || !IsSpace(s[0]) then s
    else
      var r := TrimStart(s[1..]);
      assert forall i :: 1 <= i < |s| - |r| ==> s[i] == s[1..][i - 1];
      r
  }

  function TrimEnd(s: string): (r: string)
    ensures |r| <= |s| && r == s[..|r|]
    ensures r == [] || !IsSpace(r[|r| - 1])
    ensures forall i :: |r| <= i < |s| ==> IsSpace(s[i])
  {
    if s == [] || !IsSpace(s[|s| - 1]) then s
    else TrimEnd(s[..|s| - 1])
  }

  /** How many white-space characters `s` starts with. */
  function Lead(s: string): nat
  {
    |s| - |TrimStart(s)|
  }

  /** `s.trim()`: the slice of s after its leading white space, with no white space at either end. */
  function Trim(s: string): (r: string)
    ensures Trimmed(r)
    ensures Lead(s) + |r| <= |s| && r == s[Lead(s)..Lead(s) + |r|]
  {
    TrimEnd(TrimStart(s))
  }

  /** Everything the trim cuts off is white space. */
  lemma TrimCutsOnlySpace(s: string)
    ensures forall k :: 0 <= k < Lead(s) ==> IsSpace(s[k])
    ensures forall k :: Lead(s) + |Trim(s)| <= k < |s| ==> IsSpace(s[k])
  {
    var t := TrimStart(s);
    var r := TrimEnd(t);
    var i := |s| - |t|;
    assert Lead(s) == i && Trim(s) == r;
    assert forall k :: 0 <= k < i ==> IsSpace(s[k]);
    assert forall k :: |r| <= k < |t| ==> IsSpace(t[k]);
    forall k | i + |r| <= k < |s| ensures IsSpace(s[k]) {
      assert s[k] == t[k - i];
    }
  }

  /** A trimmed string is its own trim, so trimming twice is trimming once. */
  lemma TrimOfTrimmed(s: string)
    requires Trimmed(s)
    ensures Trim(s) == s
  {
  }

  lemma TrimIdempotent(s: string)
    ensures Trim(Trim(s)) == Trim(s)
  {
    TrimOfTrimmed(Trim(s));
  }

  /** A value made only of white space trims to '', so a required path rejects it. */
  lemma BlankTrimsToEmpty(s: string)
    requires forall k :: 0 <= k < |s| ==> IsSpace(s[k])
    ensures Trim(s) == ""
  {
  }

  // ---------------------------------------------------------------------------
  // Casting request values to the schema's types

  /** A path's value after casting; Absent is `undefined`, CastNull is `null`. */
  datatype Cast<T> = Absent | CastNull | Cast(value: T) | CastFailed

  /** A String path; trimming paths trim the cast text. */
  function CastString(v: Option<Value>, trim: bool): (r: Cast<string>)
    ensures trim && r.Cast? ==> Trimmed(r.value)
    ensures v.Some? && v.value.Str? ==> r == Cast(if trim then Trim(v.value.s) else v.value.s)
  {
    match v
    case None => Absent
    case Some(Null) => CastNull
    case Some(Str(s)) => Cast(if trim then Trim(s) else s)
    case Some(Num(n)) => var t := NumberText(n); Cast(if trim then Trim(t) else t)
    case Some(Bool(b)) => var t := if b then "true" else "false"; Cast(if trim then Trim(t) else t)
    case Some(_) => CastFailed
  }

  /** A Number path: '' is null, other strings go through `Number(...)`. */
  function CastNumber(v: Option<Value>): (r: Cast<real>)
    ensures v.Some? && v.value.Num? ==> r == Cast(v.value.n)
    ensures v.Some? && v.value.Str? && v.value.s != "" ==>
      (r.Cast? <==> ToNumber(v.value.s).Some?) && (r.Cast? ==> Some(r.value) == ToNumber(v.value.s))
    ensures v == Some(Str("")) ==> r == CastNull
  {
    match v
    case None => Absent
    case Some(Null) => CastNull
    case Some(Num(n)) => Cast(n)
    case Some(Str(s)) =>
      if s == "" then CastNull
      else (match ToNumber(s) case Some(x) => Cast(x) case None => CastFailed)
    case Some(Bool(b)) => Cast(if b then 1.0 else 0.0)
    case Some(_) => CastFailed
  }

  /** A Boolean path: the accepted spellings of true and false. */
  function CastBoolean(v: Option<Value>): (r: Cast<bool>)
    ensures v.Some? && v.value.Bool? ==> r == Cast(v.value.b)
  {
    match v
    case None => Absent
    case Some(Null) => CastNull
    case Some(Bool(b)) => Cast(b)
    case Some(Num(n)) => if n == 1.0 then Cast(true) else if n == 0.0 then Cast(false) else CastFailed
    case Some(Str(s)) =>
      if s in {"true", "1", "yes"} then Cast(true)
      else if s in {"false", "0", "no"} then Cast(false)
      else CastFailed
    case Some(_) => CastFailed
  }

  /** `required` on a String path: a non-empty string. */
  predicate RequiredString(c: Cast<string>)
  {
    c.Cast? && c.value != ""
  }

  /** `required` on a Number path: any number. */
  predicate RequiredNumber(c: Cast<real>)
  {
    c.Cast?
  }

  // ---------------------------------------------------------------------------
  // Documents

  /** A stored vehicle; `imageUrl` and `isFavorited` None is `null`. `user` is the owner's id. */
  datatype Vehicle = Vehicle(
    name: string,
    year: real,
    location: string,
    imageUrl: Option<string>,
    isFavorited: Option<bool>,
    fuelType: string,
    registeredName: string,
    transmissionType: string,
    registrationNo: string,
    user: string)

  /** What every stored vehicle satisfies: required strings present and trimmed. */
  predicate WellFormed(v: Vehicle)
  {
    && v.name != "" && Trimmed(v.name)
    && v.location != "" && Trimmed(v.location)
    && v.fuelType != "" && Trimmed(v.fuelType)
    && v.registeredName != "" && Trimmed(v.registeredName)
    && v.transmissionType != "" && Trimmed(v.transmissionType)
    && v.registrationNo != "" && Trimmed(v.registrationNo)
  }

  datatype Validation = Valid(vehicle: Vehicle) | Invalid(paths: seq<string>)

  function Field(fields: map<string, Value>, path: string): Option<Value>
  {
    if path in fields then Some(fields[path]) else None
  }

  function FailIf(failed: bool, path: string): seq<string>
  {
    if failed then [path] else []
  }

  /** The paths a new document fails on, in schema order. */
  function CreateFailures(fields: map<string, Value>): seq<string>
  {
    FailIf(!RequiredString(CastString(Field(fields, "name"), true)), "name")
    + FailIf(!RequiredNumber(CastNumber(Field(fields, "year"))), "year")
    + FailIf(!RequiredString(CastString(Field(fields, "location"), true)), "location")
    + FailIf(CastString(Field(fields, "imageUrl"), false).CastFailed?, "imageUrl")
    + FailIf(CastBoolean(Field(fields, "isFavorited")).CastFailed?, "isFavorited")
    + FailIf(!RequiredString(CastString(Field(fields, "fuelType"), true)), "fuelType")
    + FailIf(!RequiredString(CastString(Field(fields, "registeredName"), true)), "registeredName")
    + FailIf(!RequiredString(CastString(Field(fields, "transmissionType"), true)), "transmissionType")
    + FailIf(!RequiredString(CastString(Field(fields, "registrationNo"), true)), "registrationNo")
  }

  function StringOr(c: Cast<string>, default: Option<string>): Option<string>
  {
    match c
    case Cast(s) => Some(s)
    case CastNull => None
    case _ => default
  }

  function BoolOr(c: Cast<bool>, default: Option<bool>): Option<bool>
  {
    match c
    case Cast(b) => Some(b)
    case CastNull => None
    case _ => default
  }

  /**
   * `new Vehicle({...fields, user: owner})` validated: the document when no path
   * fails, with required strings trimmed and the defaults '' and false for an
   * absent image and favourite flag; otherwise the failing paths.
   */
  function Build(fields: map<string, Value>, owner: string): (r: Validation)
    ensures r.Invalid? <==> CreateFailures(fields) != []
    ensures r.Valid? ==> WellFormed(r.vehicle) && r.vehicle.user == owner
    ensures r.Valid? && "imageUrl" !in fields ==> r.vehicle.imageUrl == Some("")
    ensures r.Valid? && "isFavorited" !in fields ==> r.vehicle.isFavorited == Some(false)
  {
    if CreateFailures(fields) != [] then Invalid(CreateFailures(fields))
    else
      Valid(Vehicle(
        CastString(Field(fields, "name"), true).value,
        CastNumber(Field(fields, "year")).value,
        CastString(Field(fields, "location"), true).value,
        StringOr(CastString(Field(fields, "imageUrl"), false), Some("")),
        BoolOr(CastBoolean(Field(fields, "isFavorited")), Some(false)),
        CastString(Field(fields, "fuelType"), true).value,
        CastString(Field(fields, "registeredName"), true).value,
        CastString(Field(fields, "transmissionType"), true).value,
        CastString(Field(fields, "registrationNo"), true).value,
        owner))
  }

  /** A document missing any required path is rejected, and the path is named. */
  lemma MissingRequiredRejected(fields: map<string, Value>, owner: string, path: string)
    requires path in {"name", "year", "location", "fuelType", "registeredName", "transmissionType", "registrationNo"}
    requires path !in fields
    ensures Build(fields, owner).Invalid? && path in Build(fields, owner).paths
  {
  }

  /** Stored strings are the trimmed inputs: surrounding white space never reaches the store. */
  lemma BuildTrims(fields: map<string, Value>, owner: string, s: string)
    requires Build(fields, owner).Valid?
    requires Field(fields, "registrationNo") == Some(Str(s))
    ensures Build(fields, owner).vehicle.registrationNo == Trim(s)
  {
    assert CastString(Field(fields, "registrationNo"), true) == Cast(Trim(s));
  }

  /** No failing path: every required path casts, and the optional ones do not fail. */
  lemma CreatePasses(fields: map<string, Value>)
    requires CreateFailures(fields) == []
    ensures && RequiredString(CastString(Field(fields, "name"), true))
            && RequiredNumber(CastNumber(Field(fields, "year")))
            && RequiredString(CastString(Field(fields, "location"), true))
            && !CastString(Field(fields, "imageUrl"), false).CastFailed?
            && !CastBoolean(Field(fields, "isFavorited")).CastFailed?
            && RequiredString(CastString(Field(fields, "fuelType"), true))
            && RequiredString(CastString(Field(fields, "registeredName"), true))
            && RequiredString(CastString(Field(fields, "transmissionType"), true))
            && RequiredString(CastString(Field(fields, "registrationNo"), true))
  {
    assert |CreateFailures(fields)| == 0;
  }

  /** A String path that passes `required` is present in the body. */
  lemma RequiredPresent(fields: map<string, Value>, p: string)
    requires RequiredString(CastString(Field(fields, p), true))
    ensures p in fields && CastString(Some(fields[p]), true).Cast?
  {
  }

  /** The required String paths, each of which the schema trims. */
  datatype TrimmedPath = NamePath | LocationPath | FuelTypePath | RegisteredNamePath | TransmissionTypePath | RegistrationNoPath

  function PathKey(p: TrimmedPath): string
  {
    match p
    case NamePath => "name"
    case LocationPath => "location"
    case FuelTypePath => "fuelType"
    case RegisteredNamePath => "registeredName"
    case TransmissionTypePath => "transmissionType"
    case RegistrationNoPath => "registrationNo"
  }

  /** The value a document holds at a trimmed String path. */
  function StringAt(v: Vehicle, p: TrimmedPath): string
  {
    match p
    case NamePath => v.name
    case LocationPath => v.location
    case FuelTypePath => v.fuelType
    case RegisteredNamePath => v.registeredName
    case TransmissionTypePath => v.transmissionType
    case RegistrationNoPath => v.registrationNo
  }

  /** Each required String path of a new document holds the body's value cast to text, and a string trimmed. */
  lemma BuildStoresString(fields: map<string, Value>, owner: string, p: TrimmedPath)
    requires Build(fields, owner).Valid?
    ensures PathKey(p) in fields
    ensures Cast(StringAt(Build(fields, owner).vehicle, p)) == CastString(Some(fields[PathKey(p)]), true)
    ensures fields[PathKey(p)].Str? ==> StringAt(Build(fields, owner).vehicle, p) == Trim(fields[PathKey(p)].s)
  {
    CreatePasses(fields);
    RequiredPresent(fields, PathKey(p));
  }

  /** A new document's year is the body's year: a number as it is, a string through `Number(...)`. */
  lemma BuildStoresYear(fields: map<string, Value>, owner: string)
    requires Build(fields, owner).Valid?
    ensures "year" in fields && Cast(Build(fields, owner).vehicle.year) == CastNumber(Some(fields["year"]))
    ensures fields["year"].Num? ==> Build(fields, owner).vehicle.year == fields["year"].n
    ensures fields["year"].Str? ==> Some(Build(fields, owner).vehicle.year) == ToNumber(fields["year"].s)
  {
    CreatePasses(fields);
    assert Field(fields, "year") == Some(fields["year"]);
  }

  /** A given imageUrl and isFavorited are stored as given, and null as None. */
  lemma BuildStoresOptional(fields: map<string, Value>, owner: string)
    requires Build(fields, owner).Valid?
    ensures var v := Build(fields, owner).vehicle;
      && ("imageUrl" in fields && fields["imageUrl"].Str? ==> v.imageUrl == Some(fields["imageUrl"].s))
      && ("imageUrl" in fields && fields["imageUrl"].Null? ==> v.imageUrl == None)
      && ("isFavorited" in fields && fields["isFavorited"].Bool? ==> v.isFavorited == Some(fields["isFavorited"].b))
      && ("isFavorited" in fields && fields["isFavorited"].Null? ==> v.isFavorited == None)
  {
  }

  // ---------------------------------------------------------------------------
  // Updates

  /** The schema paths an update may set; any other key of the body is ignored. */
  const UpdatablePaths: set<string> :=
    {"name", "year", "location", "imageUrl", "isFavorited", "fuelType", "registeredName",
     "transmissionType", "registrationNo", "user"}

  /** A present path fails when its value does not cast, or is null or '' on a required path. */
  function UpdateFailures(body: map<string, Value>): seq<string>
  {
    FailIf("name" in body && !RequiredString(CastString(Field(body, "name"), true)), "name")
    + FailIf("year" in body && !RequiredNumber(CastNumber(Field(body, "year"))), "year")
    + FailIf("location" in body && !RequiredString(CastString(Field(body, "location"), true)), "location")
    + FailIf(CastString(Field(body, "imageUrl"), false).CastFailed?, "imageUrl")
    + FailIf(CastBoolean(Field(body, "isFavorited")).CastFailed?, "isFavorited")
    + FailIf("fuelType" in body && !RequiredString(CastString(Field(body, "fuelType"), true)), "fuelType")
    + FailIf("registeredName" in body
             && !RequiredString(CastString(Field(body, "registeredName"), true)), "registeredName")
    + FailIf("transmissionType" in body
             && !RequiredString(CastString(Field(body, "transmissionType"), true)), "transmissionType")
    + FailIf("registrationNo" in body
             && !RequiredString(CastString(Field(body, "registrationNo"), true)), "registrationNo")
    + FailIf("user" in body && !(body["user"].Str? && body["user"].s != ""), "user")
  }

  function StringUpdate(current: string, c: Cast<string>): string
  {
    if c.Cast? then c.value else current
  }

  /**
   * `findByIdAndUpdate(id, body, { new: true, runValidators: true })` on one
   * document: the schema paths present in the body are set (cast, trimmed where
   * the schema trims), every other path keeps its value.
   */
  function ApplyUpdate(v: Vehicle, body: map<string, Value>): (r: Validation)
    ensures r.Invalid? <==> UpdateFailures(body) != []
    ensures r.Valid? && WellFormed(v) ==> WellFormed(r.vehicle)
    ensures r.Valid? && "user" !in body ==> r.vehicle.user == v.user
    ensures r.Valid? && (forall p :: p in body ==> p !in UpdatablePaths) ==> r.vehicle == v
  {
    if UpdateFailures(body) != [] then Invalid(UpdateFailures(body))
    else
      Valid(Vehicle(
        StringUpdate(v.name, CastString(Field(body, "name"), true)),
        (var c := CastNumber(Field(body, "year")); if c.Cast? then c.value else v.year),
        StringUpdate(v.location, CastString(Field(body, "location"), true)),
        StringOr(CastString(Field(body, "imageUrl"), false), v.imageUrl),
        BoolOr(CastBoolean(Field(body, "isFavorited")), v.isFavorited),
        StringUpdate(v.fuelType, CastString(Field(body, "fuelType"), true)),
        StringUpdate(v.registeredName, CastString(Field(body, "registeredName"), true)),
        StringUpdate(v.transmissionType, CastString(Field(body, "transmissionType"), true)),
        StringUpdate(v.registrationNo, CastString(Field(body, "registrationNo"), true)),
        if "user" in body then body["user"].s else v.user))
  }

  /**
   * The merge `findByIdAndUpdate` performs on a trimmed String path: present in
   * the body, it takes the value cast to text (a string trimmed); absent, it
   * keeps the document's value.
   */
  lemma UpdateString(v: Vehicle, body: map<string, Value>, p: TrimmedPath)
    requires ApplyUpdate(v, body).Valid?
    ensures PathKey(p) in body ==>
      && Cast(StringAt(ApplyUpdate(v, body).vehicle, p)) == CastString(Some(body[PathKey(p)]), true)
      && (body[PathKey(p)].Str? ==> StringAt(ApplyUpdate(v, body).vehicle, p) == Trim(body[PathKey(p)].s))
    ensures PathKey(p) !in body ==> StringAt(ApplyUpdate(v, body).vehicle, p) == StringAt(v, p)
  {
    if PathKey(p) in body {
      UpdatePasses(body);
      assert Field(body, PathKey(p)) == Some(body[PathKey(p)]);
      RequiredPresent(body, PathKey(p));
    }
  }

  /** The other paths merge the same way: set when present (null as None), kept when absent. */
  lemma UpdateOthers(v: Vehicle, body: map<string, Value>)
    requires ApplyUpdate(v, body).Valid?
    ensures var r := ApplyUpdate(v, body).vehicle;
      && ("year" in body ==> Cast(r.year) == CastNumber(Some(body["year"])))
      && ("year" in body && body["year"].Num? ==> r.year == body["year"].n)
      && ("year" !in body ==> r.year == v.year)
      && ("imageUrl" in body && body["imageUrl"].Str? ==> r.imageUrl == Some(body["imageUrl"].s))
      && ("imageUrl" in body && body["imageUrl"].Null? ==> r.imageUrl == None)
      && ("imageUrl" !in body ==> r.imageUrl == v.imageUrl)
      && ("isFavorited" in body && body["isFavorited"].Bool? ==> r.isFavorited == Some(body["isFavorited"].b))
      && ("isFavorited" in body && body["isFavorited"].Null? ==> r.isFavorited == None)
      && ("isFavorited" !in body ==> r.isFavorited == v.isFavorited)
      && ("user" in body ==> r.user == body["user"].s)
      && ("user" !in body ==> r.user == v.user)
  {
    UpdatePasses(body);
    if "year" in body {
      assert Field(body, "year") == Some(body["year"]);
    }
  }

  /** No failing path in an update: every present required path casts. */
  lemma UpdatePasses(body: map<string, Value>)
    requires UpdateFailures(body) == []
    ensures "name" in body ==> RequiredString(CastString(Field(body, "name"), true))
    ensures "year" in body ==> RequiredNumber(CastNumber(Field(body, "year")))
    ensures "location" in body ==> RequiredString(CastString(Field(body, "location"), true))
    ensures "fuelType" in body ==> RequiredString(CastString(Field(body, "fuelType"), true))
    ensures "registeredName" in body ==> RequiredString(CastString(Field(body, "registeredName"), true))
    ensures "transmissionType" in body ==> RequiredString(CastString(Field(body, "transmissionType"), true))
    ensures "registrationNo" in body ==> RequiredString(CastString(Field(body, "registrationNo"), true))
  {
    assert |UpdateFailures(body)| == 0;
  }

  // ---------------------------------------------------------------------------
  // The collection

  /** The unique index on `registrationNo`. */
  predicate UniqueRegistrations(vehicles: map<string, Vehicle>)
  {
    forall a, b :: a in vehicles && b in vehicles && a != b ==>
      vehicles[a].registrationNo != vehicles[b].registrationNo
  }

  /** Whether some vehicle other than `self` already uses the number. */
  predicate RegistrationTaken(vehicles: map<string, Vehicle>, self: string, registrationNo: string)
  {
    exists id :: id in vehicles && id != self && vehicles[id].registrationNo == registrationNo
  }

  /** Writing a vehicle whose number no other vehicle uses keeps the index unique. */
  lemma WriteKeepsUnique(vehicles: map<string, Vehicle>, id: string, v: Vehicle)
    requires UniqueRegistrations(vehicles)
    requires !RegistrationTaken(vehicles, id, v.registrationNo)
    ensures UniqueRegistrations(vehicles[id := v])
  {
    var next := vehicles[id := v];
    forall a, b | a in next && b in next && a != b
      ensures next[a].registrationNo != next[b].registrationNo
    {
      if a == id {
        assert !(b in vehicles && b != id && vehicles[b].registrationNo == v.registrationNo);
      } else if b == id {
        assert !(a in vehicles && a != id && vehicles[a].registrationNo == v.registrationNo);
      }
    }
  }
}
