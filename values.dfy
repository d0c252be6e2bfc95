/** Header values, the typed results translators produce, the errors
    they raise, and the Python conversions applied to header values. */
module Values {
  import opened Wrappers
  import opened Text

  /** A scalar stored in a header: text, a Python int, a finite float,
      a float NaN, a bool or None. */
  datatype Value = Str(s: string) | Int(i: int) | Num(r: real) | NaN | Bool(b: bool) | Null

  /** A header is a flat map from card name to value. */
  type Header = map<string, Value>

  /** The physical units attached to quantities. */
  datatype Unit = Second | Kelvin | Celsius | HectoPascal | Pascal | MillimetreOfMercury | Degree | HourAngle

  /** A translated property.  Apart from `Scalar`, the constructors stand
      for the objects the astropy library builds from their arguments;
      the model records the arguments and does not compute with them. */
  datatype Datum =
    | Scalar(v: Value)
    | Quantity(magnitude: Value, unit: Unit)
    | Time(iso: Value, scale: string)
    | TimeAfter(start: Datum, duration: Datum)
    | Geocentric(x: Value, y: Value, z: Value)
    | Geodetic(longitude: Value, latitude: Value, height: Value)
    | Site(site: string)
    | Sky(ra: Value, dec: Value, frame: string, raUnit: Unit, decUnit: Unit, obstime: Datum, location: Datum)
    | AltAz(az: Datum, alt: Datum, obstime: Datum, location: Datum)
    | Angle(angle: Datum)
    | Wrapped360(wrapped: Datum)
    | Difference(minuend: Datum, subtrahend: Datum)

  /** The Python exceptions a translation can raise.  A KeyError carries
      the card names its message mentions (none for a message-only one). */
  datatype Error =
    | KeyError(keys: seq<string>)
    | ValueError(what: string)
    | TypeError(what: string)
    | AttributeError(what: string)
    | RuntimeError(what: string)
    | IndexError(what: string)
    | NotImplementedError(what: string)

  datatype Result<+T> = Ok(value: T) | Err(error: Error)

  /** What one call of a resolver produces: its result (a value or a
      raised exception) and the cards it recorded as used before
      returning or raising. */
  datatype Outcome<+T> = Outcome(result: Result<T>, cards: set<string>)

  /** The result of Python's `float(s)` on a string. */
  datatype FloatParse = Finite(r: real) | NotANumber | Invalid

  /** The conversions between text and floating point that the model
      leaves to the Python runtime: `float(s)` and `str(x)` for a float. */
  datatype Env = Env(parseFloat: string -> FloatParse, floatText: real -> string)

  /** `header[key]`: the card's value, or KeyError. */
  function Card(h: Header, key: string): (r: Result<Value>)
    ensures r.Ok? <==> key in h
    ensures r.Ok? ==> r.value == h[key]
  {
    if key in h then Ok(h[key]) else Err(KeyError([key]))
  }

  /** The position of the first candidate card present in the header. */
  function FirstPresent(h: Header, keys: seq<string>): (r: Option<nat>)
    ensures r.Some? ==> r.value < |keys| && keys[r.value] in h
    ensures r.Some? ==> forall j :: 0 <= j < r.value ==> keys[j] !in h
    ensures r.None? <==> forall j :: 0 <= j < |keys| ==> keys[j] !in h
  {
    if keys == [] then None
    else if keys[0] in h then Some(0)
    else match FirstPresent(h, keys[1..])
      case None => None
      case Some(i) => Some(i + 1)
  }

  /** The value as text for a string method such as `.strip()`; any other
      value has no such attribute. */
  function AsText(v: Value): (r: Result<string>)
    ensures r.Ok? <==> v.Str?
  {
    if v.Str? then Ok(v.s) else Err(AttributeError("value has no string methods"))
  }

  /** `header[key].strip()`. */
  function StrippedCard(h: Header, key: string): (r: Result<string>)
    ensures r.Ok? <==> key in h && h[key].Str?
    ensures r.Ok? ==> r.value == Strip(h[key].s)
    ensures key !in h ==> r == Err(KeyError([key]))
  {
    if key !in h then Err(KeyError([key]))
    else if h[key].Str? then Ok(Strip(h[key].s))
    else Err(AttributeError("value has no string methods"))
  }

  /** The number a numeric value stands for (a bool counts as 0 or 1). */
  function Numeric(v: Value): (r: Option<real>)
    ensures r.Some? <==> v.Int? || v.Num? || v.Bool?
  {
    match v
    case Int(i) => Some(i as real)
    case Num(r) => Some(r)
    case Bool(b) => Some(if b then 1.0 else 0.0)
    case _ => None
  }

  /** `v < bound` for a float bound. */
  function Below(v: Value, bound: real): (r: Result<bool>)
    ensures r.Ok? <==> !v.Str? && !v.Null?
  {
    if v.NaN? then Ok(false)
    else match Numeric(v)
      case Some(x) => Ok(x < bound)
      case None => Err(TypeError("comparison with a non-number"))
  }

  /** `v > bound` for a float bound. */
  function Above(v: Value, bound: real): (r: Result<bool>)
    ensures r.Ok? <==> !v.Str? && !v.Null?
  {
    if v.NaN? then Ok(false)
    else match Numeric(v)
      case Some(x) => Ok(x > bound)
      case None => Err(TypeError("comparison with a non-number"))
  }

  /** Python's `str(v)`. */
  function PyStr(env: Env, v: Value): string {
    match v
    case Str(s) => s
    case Int(i) => IntText(i)
    case Num(r) => env.floatText(r)
    case NaN => "nan"
    case Bool(b) => if b then "True" else "False"
    case Null => "None"
  }

  /** Python's `float(v)`: text is parsed, numbers are widened, None is a
      TypeError. */
  function PyFloat(env: Env, v: Value): (r: Result<Value>)
    ensures r.Ok? ==> r.value.Num? || r.value.NaN?
    ensures v.Num? || v.NaN? ==> r == Ok(v)
    ensures v.Int? ==> r == Ok(Num(v.i as real))
  {
    match v
    case Str(s) =>
      (match env.parseFloat(s)
       case Finite(x) => Ok(Num(x))
       case NotANumber => Ok(NaN)
       case Invalid => Err(ValueError("could not convert string to float")))
    case Int(i) => Ok(Num(i as real))
    case Num(_) => Ok(v)
    case NaN => Ok(v)
    case Bool(b) => Ok(Num(if b then 1.0 else 0.0))
    case Null => Err(TypeError("float() argument must be a string or a number"))
  }

  /** Truncation toward zero, as Python's `int(x)` does for a float. */
  function Truncate(x: real): (n: int)
    ensures x >= 0.0 ==> n as real <= x < n as real + 1.0
    ensures x < 0.0 ==> n as real - 1.0 < x <= n as real
  {
    if x >= 0.0 then x.Floor else -((-x).Floor)
  }

  /** Python's `int(v)`. */
  function PyInt(v: Value): (r: Result<int>)
    ensures v.Int? ==> r == Ok(v.i)
  {
    match v
    case Str(s) =>
      (match ParseInt(s)
       case Some(n) => Ok(n)
       case None => Err(ValueError("invalid literal for int()")))
    case Int(i) => Ok(i)
    case Num(x) => Ok(Truncate(x))
    case NaN => Err(ValueError("cannot convert float NaN to integer"))
    case Bool(b) => Ok(if b then 1 else 0)
    case Null => Err(TypeError("int() argument must be a string or a number"))
  }

  /** Python's `v * k` for an integer `k`; text is repeated. */
  function PyMulInt(v: Value, k: int): (r: Result<Value>)
    ensures v.Int? ==> r == Ok(Int(v.i * k))
  {
    match v
    case Str(s) => Ok(Str(Repeat(s, k)))
    case Int(i) => Ok(Int(i * k))
    case Num(x) => Ok(Num(x * k as real))
    case NaN => Ok(NaN)
    case Bool(b) => Ok(Int(if b then k else 0))
    case Null => Err(TypeError("unsupported operand type for *"))
  }

  function Repeat(s: string, k: int): string
    decreases k
  {
    if k <= 0 then "" else s + Repeat(s, k - 1)
  }

  /** Python's `a + b` on two values: numbers add (a float or NaN makes a
      float), text concatenates, anything else is a TypeError. */
  function PyAdd(a: Value, b: Value): (r: Result<Value>)
    ensures a.Int? && b.Int? ==> r == Ok(Int(a.i + b.i))
  {
    if a.Str? && b.Str? then Ok(Str(a.s + b.s))
    else if a.NaN? && (b.NaN? || Numeric(b).Some?) then Ok(NaN)
    else if b.NaN? && Numeric(a).Some? then Ok(NaN)
    else match (Numeric(a), Numeric(b))
      case (Some(x), Some(y)) =>
        if a.Num? || b.Num? then Ok(Num(x + y)) else Ok(Int(x.Floor + y.Floor))
      case _ => Err(TypeError("unsupported operand types for +"))
  }

  /** Python's `v * -1.0`. */
  function PyNegate(v: Value): (r: Result<Value>)
    ensures v.Num? ==> r == Ok(Num(-v.r))
  {
    match v
    case Int(i) => Ok(Num(-(i as real)))
    case Num(x) => Ok(Num(-x))
    case NaN => Ok(NaN)
    case Bool(b) => Ok(Num(if b then -1.0 else 0.0))
    case _ => Err(TypeError("can't multiply by a float"))
  }

  /** The outcome of raising `e` without recording any card. */
  function Raise<T>(e: Error): Outcome<T> {
    Outcome(Err(e), {})
  }

  /** Returning a translated value after recording `cards`. */
  function Return<T>(x: T, cards: set<string>): Outcome<T> {
    Outcome(Ok(x), cards)
  }
}
