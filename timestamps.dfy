/**
 * `_check_and_convert_time`: turn a timestamp given as a numeric string, a
 * date string, an integer number of milliseconds or a `datetime` into epoch
 * seconds, falling back to the current time or raising when that fails.
 * Seconds are exact reals; the date parser, the validity test of
 * `datetime.fromtimestamp` and the clock are supplied by the caller.
 */
module Timestamps {
  import opened Wrappers
  import opened PyValues
  import opened Digits

  /** The collaborators the normaliser calls. */
  datatype TimeEnv = TimeEnv(
    /** `dateutil.parser.parse(s).timestamp()`; `None` when parsing raises. */
    parseDate: string -> Option<real>,
    /** Whether `datetime.fromtimestamp(t)` accepts `t`. */
    isValidTimestamp: real -> bool,
    /** `time.time()` at the moment of the call. */
    now: real)

  /** Which branch of the normaliser handles an input. */
  datatype Encoding =
    /** A numeric string with one dot: seconds with a fraction. */
    | SecondsString(s: string)
    /** A numeric string without a dot: milliseconds. */
    | MillisecondsString(s: string)
    /** Any other string: handed to the date parser. */
    | DateString(s: string)
    /** An `int` (or a `bool`, which is an `int` in Python): milliseconds. */
    | Milliseconds(ms: int)
    | DateTimeValue(seconds: real)
    /** Anything else reaches `datetime.fromtimestamp` unconverted. */
    | Unconverted(v: PyValue)

  /** The branch taken for an input. */
  function Classify(input: PyValue): (e: Encoding)
    ensures e.SecondsString? ==> IsNumericString(e.s) && '.' in e.s
    ensures e.MillisecondsString? ==> IsDigitString(e.s)
    ensures e.DateString? ==> !IsNumericString(e.s)
    ensures input.PyStr? <==> e.SecondsString? || e.MillisecondsString? || e.DateString?
    ensures input.PyStr? ==> e.s == input.s
  {
    match input
    case PyStr(s) =>
      if IsNumericString(s) then
        if '.' in s then SecondsString(s) else MillisecondsString(s)
      else DateString(s)
    case PyBool(b) => Milliseconds(if b then 1 else 0)
    case PyInt(i) => Milliseconds(i)
    case PyDateTime(t) => DateTimeValue(t)
    case _ => Unconverted(input)
  }

  /** The value of the digits `a`, a decimal point, and the digits `b`. */
  function PointValue(a: string, b: string): real
    requires AllDigits(a) && AllDigits(b)
  {
    (DigitsValue(a) as real) + (DigitsValue(b) as real) / (Pow10(|b|) as real)
  }

  /** `float(s)` for a numeric string holding a dot. */
  function DecimalValue(s: string): real
    requires IsNumericString(s) && '.' in s
  {
    var k := FirstDot(s);
    assert s == s[..k] + "." + s[k + 1..];
    NumericSplit(s[..k], s[k + 1..]);
    PointValue(s[..k], s[k + 1..])
  }

  /** The first dot of `a + "." + b`, where `a` has none, is the one after `a`. */
  lemma DecimalValueSplit(a: string, b: string)
    requires '.' !in a && AllDigits(a) && AllDigits(b) && |a| + |b| > 0
    ensures IsNumericString(a + "." + b)
    ensures DecimalValue(a + "." + b) == PointValue(a, b)
  {
    var s := a + "." + b;
    NumericSplit(a, b);
    var k := FirstDot(s);
    assert forall i :: 0 <= i < |a| ==> s[i] == a[i];
    assert s[|a|] == '.';
    assert k == |a|;
    assert s[..k] == a && s[k + 1..] == b;
  }

  /**
   * The conversion step of the `try` block: the epoch seconds, or, when
   * conversion raises, the value `time_input` holds at that moment.
   */
  function Conversion(input: PyValue, parseDate: string -> Option<real>): (r: Result<real, PyValue>)
    // it fails only for a date string the parser refuses and for a value
    // that is neither a string, a number nor a `datetime`, naming the input
    ensures r.Err? <==>
      (input.PyStr? && !IsNumericString(input.s) && parseDate(input.s).None?) ||
      !(input.PyStr? || input.PyBool? || input.PyInt? || input.PyFloat? || input.PyDateTime?)
    ensures r.Err? ==> r.error == input
    // a float and a `datetime` keep their seconds
    ensures input.PyFloat? ==> r == Ok(input.r)
    ensures input.PyDateTime? ==> r == Ok(input.seconds)
  {
    match Classify(input)
    case SecondsString(s) => Ok(DecimalValue(s))
    case MillisecondsString(s) => Ok((DigitsValue(s) as real) / 1000.0)
    case DateString(s) =>
      (match parseDate(s)
       case Some(t) => Ok(t)
       case None => Err(input))
    case Milliseconds(ms) => Ok((ms as real) / 1000.0)
    case DateTimeValue(t) => Ok(t)
    // `datetime.fromtimestamp` takes a float as it is and rejects other values
    case Unconverted(v) => if v.PyFloat? then Ok(v.r) else Err(v)
  }

  /**
   * The whole `try` block: the conversion, then the validity check of
   * `datetime.fromtimestamp`; a refused number is named as the float it
   * became.
   */
  function Converted(input: PyValue, env: TimeEnv): (r: Result<real, PyValue>)
    ensures r.Ok? ==> env.isValidTimestamp(r.value)
    ensures r.Ok? <==> Conversion(input, env.parseDate).Ok? && env.isValidTimestamp(Conversion(input, env.parseDate).value)
    // a success is the converted value itself
    ensures r.Ok? ==> r.value == Conversion(input, env.parseDate).value
    // a conversion failure keeps its error; a refused number is named as a float
    ensures Conversion(input, env.parseDate).Err? ==> r == Conversion(input, env.parseDate)
    ensures Conversion(input, env.parseDate).Ok? && r.Err? ==>
      r.error == PyFloat(Conversion(input, env.parseDate).value)
  {
    match Conversion(input, env.parseDate)
    case Err(v) => Err(v)
    case Ok(t) => if env.isValidTimestamp(t) then Ok(t) else Err(PyFloat(t))
  }

  /** `ValueError("Cannot convert time_input into timestamps: ...")`, naming the offending value. */
  datatype TimeError = CannotConvert(timeInput: PyValue)

  /** `_check_and_convert_time(time_input, assign_default_time)`. */
  function CheckAndConvertTime(input: PyValue, assignDefaultTime: bool, env: TimeEnv)
    : (r: Result<real, TimeError>)
    // a successful conversion is returned as it is
    ensures Converted(input, env).Ok? ==> r == Ok(Converted(input, env).value)
    // a failure yields the current time, or raises naming the value, as the flag says
    ensures Converted(input, env).Err? && assignDefaultTime ==> r == Ok(env.now)
    ensures Converted(input, env).Err? && !assignDefaultTime ==>
      r == Err(CannotConvert(Converted(input, env).error))
    // so the result is always a valid timestamp or the current time
    ensures r.Ok? ==> env.isValidTimestamp(r.value) || r.value == env.now
    ensures r.Err? ==> !assignDefaultTime
  {
    match Converted(input, env)
    case Ok(t) => Ok(t)
    case Err(v) => if assignDefaultTime then Ok(env.now) else Err(CannotConvert(v))
  }
}
