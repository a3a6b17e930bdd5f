/** Python values as the metric dictionaries hold them, the exceptions the
    modelled code raises or lets through, and the wrappers for results that
    may fail. Python floats are modelled as reals. */
module Values {

  datatype Option<+T> = None | Some(value: T)

  /** A computation that either returns a value or raises an exception. */
  datatype Result<+T> = Ok(value: T) | Err(error: Error)

  /** The exceptions of the modelled code, and those an endpoint call may raise. */
  datatype Error =
    | KeyError(arg: string)
    | ValueError(message: string)
    | ArgumentTypeError(message: string)
    | ZeroDivisionError
    | IndexError(message: string)
    | OverflowError
    | AttributeError(attribute: string)
      /** httpx.HTTPStatusError: carries the HTTP response */
    | HttpStatusError(status: int)
      /** an openai APIError that carries an HTTP response (APIStatusError) */
    | ApiStatusError(status: int)
      /** an openai APIError raised before any HTTP response (connection, timeout) */
    | ApiConnectionError
      /** any other subclass of Exception */
    | OtherException
      /** asyncio.CancelledError, a BaseException and not an Exception */
    | CancelledError

  /** The KeyError both metric trackers raise for a name they do not hold. */
  function NoSuchMetric(name: string): Error {
    KeyError("Metric " + name + " does not exist.")
  }

  /** `except Exception` catches everything but cancellation. */
  predicate IsException(e: Error) {
    !e.CancelledError?
  }

  /** The exception classes that have a `.response` attribute. */
  predicate HasResponse(e: Error) {
    e.HttpStatusError? || e.ApiStatusError?
  }

  /** An int, a float or a bool (Python's bool is a subclass of int). */
  datatype Value = Int(i: int) | Float(x: real) | Bool(b: bool)

  /** The number Python's arithmetic sees in a value. */
  function Num(v: Value): real {
    match v
    case Int(i) => i as real
    case Float(x) => x
    case Bool(b) => if b then 1.0 else 0.0
  }

  /** The integer an int or a bool stands for. */
  function IntOf(v: Value): (n: int)
    requires !v.Float?
    ensures n as real == Num(v)
  {
    match v
    case Int(i) => i
    case Bool(b) => if b then 1 else 0
  }

  /** `a + b`: a float if either operand is one, an int otherwise (bool + bool is an int). */
  function Add(a: Value, b: Value): (r: Value)
    ensures Num(r) == Num(a) + Num(b)
    ensures r.Float? <==> a.Float? || b.Float?
    ensures !r.Bool?
  {
    if a.Float? || b.Float? then Float(Num(a) + Num(b)) else Int(IntOf(a) + IntOf(b))
  }

  /** `a * b`, with the same promotion rule as `+`. */
  function Mul(a: Value, b: Value): (r: Value)
    ensures Num(r) == Num(a) * Num(b)
    ensures r.Float? <==> a.Float? || b.Float?
    ensures !r.Bool?
  {
    if a.Float? || b.Float? then Float(Num(a) * Num(b)) else Int(IntOf(a) * IntOf(b))
  }

  /** `a / b`: always a float; a zero divisor raises ZeroDivisionError. */
  function TrueDiv(a: Value, b: Value): (r: Result<Value>)
    ensures r.Err? <==> Num(b) == 0.0
    ensures r.Err? ==> r.error == ZeroDivisionError
    ensures r.Ok? ==> r.value.Float? && Num(r.value) * Num(b) == Num(a)
  {
    if Num(b) == 0.0 then Err(ZeroDivisionError) else Ok(Float(Num(a) / Num(b)))
  }

  /** Python's `max(a, b)`: the first argument unless the second is strictly larger. */
  function Max(a: Value, b: Value): (r: Value)
    ensures r == a || r == b
    ensures Num(r) >= Num(a) && Num(r) >= Num(b)
    ensures Num(b) <= Num(a) ==> r == a
  {
    if Num(b) > Num(a) then b else a
  }

  /** Python truthiness of a value. */
  predicate Truthy(v: Value) {
    Num(v) != 0.0
  }
}
