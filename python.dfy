/** The few pieces of the Python runtime that the search parameters rely on:
    the values a caller may assign to a property, the built-in `float()`
    conversion and the built-in `int()` truncation of a float. */
module PyRuntime {

  datatype Option<+T> = None | Some(value: T)

  datatype Result<+T, +E> = Success(value: T) | Failure(error: E)

  /** The outcome of a statement that returns nothing or raises. */
  datatype Outcome<+E> = Pass | Fail(error: E)

  /** A value assigned to a property. Python's `bool` is a subclass of `int`
      and behaves as `Int` here; `None`, lists, dicts and every other object
      that is neither a number nor a string are `Object`, told apart by `id`. */
  datatype Value =
    | Int(i: int)
    | Float(x: real)
    | Str(s: string)
    | Object(id: nat)

  /** Why an assignment to a validated property raised. */
  datatype SetError =
    | EmptyValue     // ValueError("You must put in a value")
    | NotANumber     // ValueError raised by float() on a string it cannot read
    | NotConvertible // TypeError raised by float() on a non-number, non-string
    | OutOfBounds    // ValueError raised by the property's own range or enumeration check

  /** The numeric value of a number, None for strings and other objects. */
  function NumberOf(v: Value): (r: Option<real>)
    ensures r.Some? <==> v.Int? || v.Float?
  {
    match v
    case Int(i) => Some(i as real)
    case Float(x) => Some(x)
    case _ => None
  }

  /** Python's `float(v)`. `parse` is the interpreter's reading of a numeric
      string: Some(x) when `float(s)` returns the finite value x, None when it
      raises ValueError. */
  function ToFloat(v: Value, parse: string -> Option<real>): (r: Result<real, SetError>)
    ensures r.Success? <==> NumberOf(v).Some? || (v.Str? && parse(v.s).Some?)
    ensures NumberOf(v).Some? ==> r == Success(NumberOf(v).value)
    ensures v.Str? && parse(v.s).Some? ==> r == Success(parse(v.s).value)
    ensures r.Failure? ==> r.error == (if v.Str? then NotANumber else NotConvertible)
  {
    match v
    case Int(i) => Success(i as real)
    case Float(x) => Success(x)
    case Str(s) => if parse(s).Some? then Success(parse(s).value) else Failure(NotANumber)
    case Object(_) => Failure(NotConvertible)
  }

  /** Python's `int(x)` on a float: truncation toward zero. */
  function Trunc(x: real): (n: int)
    ensures 0.0 <= x ==> n as real <= x < n as real + 1.0
    ensures x < 0.0 ==> n as real - 1.0 < x <= n as real
  {
    if x >= 0.0 then x.Floor else -((-x).Floor)
  }

  /** A float equals its own truncation exactly when it is a whole number. */
  lemma TruncFixesWholeNumbers(x: real)
    ensures x == Trunc(x) as real <==> x == x.Floor as real
  {
    if x < 0.0 && x == x.Floor as real {
      assert -x == (-x.Floor) as real;
      assert (-x).Floor == -x.Floor;
    }
  }
}
