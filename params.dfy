/** The legality rules of the five validated search parameters and what an
    assignment to each property stores or raises. Each `...Update` function
    says, for a value assigned to the property, either the value the setter
    stores or the error it raises before storing anything. */
module SearchParams {
  import opened PyRuntime

  /** The open interval the latitude setter checks. */
  predicate InLatitudeBounds(x: real) { -90.0 < x < 90.0 }

  /** The open interval the longitude setter checks. */
  predicate InLongitudeBounds(x: real) { -180.0 < x < 180.0 }

  /** The radius setter's check: strictly positive (miles). */
  predicate PositiveRadius(x: real) { x > 0.0 }

  /** The count setter's check, `value > 0 and value < 101 and value == int(value)`:
      exactly the whole numbers 1 to 100. */
  function IsCount(x: real): (b: bool)
    ensures b <==> x == x.Floor as real && 1 <= x.Floor <= 100
  {
    TruncFixesWholeNumbers(x);
    x > 0.0 && x < 101.0 && x == Trunc(x) as real
  }

  /** The result type setter's check: one of three exact, case-sensitive strings. */
  function IsResultType(v: Value): (b: bool)
    ensures b <==> v.Str? && v.s in {"mixed", "popular", "recent"}
  {
    v == Str("mixed") || v == Str("popular") || v == Str("recent")
  }

  // What each property holds after the defaults or any accepted assignment.

  predicate LatitudeHolds(v: Value) { NumberOf(v).Some? && InLatitudeBounds(NumberOf(v).value) }

  predicate LongitudeHolds(v: Value) { NumberOf(v).Some? && InLongitudeBounds(NumberOf(v).value) }

  predicate RadiusHolds(v: Value) { NumberOf(v).Some? && PositiveRadius(NumberOf(v).value) }

  /** A number stored as count is a whole number from 1 to 100. A string is
      never stored (the setter converts it to a float first), but an object that
      is neither a number nor a string skips the check and is stored as it is. */
  predicate CountHolds(v: Value): (b: bool)
    ensures b <==> (v.Int? && 1 <= v.i <= 100) ||
                   (v.Float? && v.x == v.x.Floor as real && 1 <= v.x.Floor <= 100) ||
                   v.Object?
  {
    match v
    case Int(_) => IsCount(NumberOf(v).value)
    case Float(_) => IsCount(NumberOf(v).value)
    case Str(_) => false
    case Object(_) => true
  }

  /** The shared shape of the latitude, longitude and radius setters: reject the
      empty string, convert with `float()`, check `accept`, store the float. */
  function RequiredFloat(v: Value, parse: string -> Option<real>, accept: real -> bool): (r: Result<Value, SetError>)
    ensures v == Str("") ==> r == Failure(EmptyValue)
    ensures v != Str("") && ToFloat(v, parse).Failure? ==> r == Failure(ToFloat(v, parse).error)
    ensures r.Success? <==> v != Str("") && ToFloat(v, parse).Success? && accept(ToFloat(v, parse).value)
    ensures r.Success? ==> r.value == Float(ToFloat(v, parse).value)
    ensures r.Failure? && v != Str("") && ToFloat(v, parse).Success? ==> r.error == OutOfBounds
  {
    if v == Str("") then Failure(EmptyValue)
    else
      match ToFloat(v, parse)
      case Failure(e) => Failure(e)
      case Success(x) => if accept(x) then Success(Float(x)) else Failure(OutOfBounds)
  }

  /** `latitude = v`: stores `float(v)` iff it lies strictly between -90 and 90. */
  function LatitudeUpdate(v: Value, parse: string -> Option<real>): (r: Result<Value, SetError>)
    ensures r.Success? ==> r.value.Float? && LatitudeHolds(r.value)
  {
    RequiredFloat(v, parse, InLatitudeBounds)
  }

  /** `longitude = v`: stores `float(v)` iff it lies strictly between -180 and 180. */
  function LongitudeUpdate(v: Value, parse: string -> Option<real>): (r: Result<Value, SetError>)
    ensures r.Success? ==> r.value.Float? && LongitudeHolds(r.value)
  {
    RequiredFloat(v, parse, InLongitudeBounds)
  }

  /** `radius = v`: stores `float(v)` iff it is strictly positive. */
  function RadiusUpdate(v: Value, parse: string -> Option<real>): (r: Result<Value, SetError>)
    ensures r.Success? ==> r.value.Float? && RadiusHolds(r.value)
  {
    RequiredFloat(v, parse, PositiveRadius)
  }

  /** `count = v`: a string is first converted with `float()`; a number (the
      converted string included) must pass `IsCount` and is stored as it is;
      anything else is stored unchecked. */
  function CountUpdate(v: Value, parse: string -> Option<real>): (r: Result<Value, SetError>)
    ensures r.Success? ==> CountHolds(r.value)
  {
    var w := if v.Str? then (match ToFloat(v, parse) case Success(x) => Success(Float(x)) case Failure(e) => Failure(e))
             else Success(v);
    match w
    case Failure(e) => Failure(e)
    case Success(u) =>
      if NumberOf(u).Some? && !IsCount(NumberOf(u).value) then Failure(OutOfBounds) else Success(u)
  }

  /** `result_type = v`: stored unchanged iff it is one of the three literals. */
  function ResultTypeUpdate(v: Value): (r: Result<Value, SetError>)
    ensures r.Success? <==> IsResultType(v)
    ensures r.Success? ==> r.value == v
    ensures r.Failure? ==> r.error == OutOfBounds
  {
    if IsResultType(v) then Success(v)
    else Failure(OutOfBounds)
  }

  /** Which values the count setter accepts, and what it stores for each. */
  lemma CountStoredIff(v: Value, parse: string -> Option<real>)
    ensures v.Int? ==> (CountUpdate(v, parse).Success? <==> 1 <= v.i <= 100)
    ensures v.Float? ==> (CountUpdate(v, parse).Success? <==> v.x == v.x.Floor as real && 1 <= v.x.Floor <= 100)
    ensures v.Str? ==> (CountUpdate(v, parse).Success? <==>
                          parse(v.s).Some? && IsCount(parse(v.s).value))
    ensures v.Str? && CountUpdate(v, parse).Success? ==> CountUpdate(v, parse).value == Float(parse(v.s).value)
    ensures v.Object? ==> CountUpdate(v, parse) == Success(v)
    ensures !v.Str? && CountUpdate(v, parse).Success? ==> CountUpdate(v, parse).value == v
  {
  }

  // The defaults installed by `use_default_params`.

  const DefaultResultType: Value := Str("mixed")
  const DefaultCount: Value := Int(15)
  const DefaultLatitude: Value := Float(37.7821)
  const DefaultLongitude: Value := Float(-122.4093)
  const DefaultRadius: Value := Int(3)

  /** Every default passes its setter's check; assigning a default back through
      its setter stores it unchanged, except the radius, which comes back as
      the float 3.0 rather than the int 3. */
  lemma DefaultsAreAccepted(parse: string -> Option<real>)
    ensures LatitudeHolds(DefaultLatitude) && LongitudeHolds(DefaultLongitude) && RadiusHolds(DefaultRadius)
    ensures CountHolds(DefaultCount) && IsResultType(DefaultResultType)
    ensures LatitudeUpdate(DefaultLatitude, parse) == Success(DefaultLatitude)
    ensures LongitudeUpdate(DefaultLongitude, parse) == Success(DefaultLongitude)
    ensures RadiusUpdate(DefaultRadius, parse) == Success(Float(3.0))
    ensures CountUpdate(DefaultCount, parse) == Success(DefaultCount)
    ensures ResultTypeUpdate(DefaultResultType) == Success(DefaultResultType)
  {
  }

  /** The count test vector [1, 35, 101, -1, 3.5, "hello", "15"]. */
  lemma CountTestVector(parse: string -> Option<real>)
    requires parse("hello") == None && parse("15") == Some(15.0)
    ensures CountUpdate(Int(1), parse) == Success(Int(1))
    ensures CountUpdate(Int(35), parse) == Success(Int(35))
    ensures CountUpdate(Int(101), parse) == Failure(OutOfBounds)
    ensures CountUpdate(Int(-1), parse) == Failure(OutOfBounds)
    ensures CountUpdate(Float(3.5), parse) == Failure(OutOfBounds)
    ensures CountUpdate(Str("hello"), parse) == Failure(NotANumber)
    ensures CountUpdate(Str("15"), parse) == Success(Float(15.0))
  {
  }

  /** The result type test vector ["mixed", "popular", "recent", "other", 15, " mIxEd"]. */
  lemma ResultTypeTestVector()
    ensures ResultTypeUpdate(Str("mixed")).Success?
    ensures ResultTypeUpdate(Str("popular")).Success?
    ensures ResultTypeUpdate(Str("recent")).Success?
    ensures ResultTypeUpdate(Str("other")) == Failure(OutOfBounds)
    ensures ResultTypeUpdate(Int(15)) == Failure(OutOfBounds)
    ensures ResultTypeUpdate(Str(" mIxEd")) == Failure(OutOfBounds)
    ensures ResultTypeUpdate(Str("MIXED")) == Failure(OutOfBounds)
  {
  }

  /** The latitude test vector [0, -90, 90, 300, "-50", "hello", 1.3]. */
  lemma LatitudeTestVector(parse: string -> Option<real>)
    requires parse("-50") == Some(-50.0) && parse("hello") == None
    ensures LatitudeUpdate(Int(0), parse) == Success(Float(0.0))
    ensures LatitudeUpdate(Int(-90), parse) == Failure(OutOfBounds)
    ensures LatitudeUpdate(Int(90), parse) == Failure(OutOfBounds)
    ensures LatitudeUpdate(Int(300), parse) == Failure(OutOfBounds)
    ensures LatitudeUpdate(Str("-50"), parse) == Success(Float(-50.0))
    ensures LatitudeUpdate(Str("hello"), parse) == Failure(NotANumber)
    ensures LatitudeUpdate(Float(1.3), parse) == Success(Float(1.3))
    ensures LatitudeUpdate(Str(""), parse) == Failure(EmptyValue)
  {
  }

  /** The longitude test vector [0, -180, 180, 300, "-100", "hello", 1.3]. */
  lemma LongitudeTestVector(parse: string -> Option<real>)
    requires parse("-100") == Some(-100.0) && parse("hello") == None
    ensures LongitudeUpdate(Int(0), parse) == Success(Float(0.0))
    ensures LongitudeUpdate(Int(-180), parse) == Failure(OutOfBounds)
    ensures LongitudeUpdate(Int(180), parse) == Failure(OutOfBounds)
    ensures LongitudeUpdate(Int(300), parse) == Failure(OutOfBounds)
    ensures LongitudeUpdate(Str("-100"), parse) == Success(Float(-100.0))
    ensures LongitudeUpdate(Str("hello"), parse) == Failure(NotANumber)
    ensures LongitudeUpdate(Float(1.3), parse) == Success(Float(1.3))
  {
  }

  /** The radius test vector [0, -1, 10, 100, 1000]. */
  lemma RadiusTestVector(parse: string -> Option<real>)
    ensures RadiusUpdate(Int(0), parse) == Failure(OutOfBounds)
    ensures RadiusUpdate(Int(-1), parse) == Failure(OutOfBounds)
    ensures RadiusUpdate(Int(10), parse) == Success(Float(10.0))
    ensures RadiusUpdate(Int(100), parse) == Success(Float(100.0))
    ensures RadiusUpdate(Int(1000), parse) == Success(Float(1000.0))
  {
  }
}
