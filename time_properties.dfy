/** What `_check_and_convert_time` promises about each kind of input. */
module TimeProperties {
  import opened Wrappers
  import opened PyValues
  import opened Digits
  import opened Timestamps

  /**
   * Which strings count as numbers: one without a dot when it is all digits,
   * one with a single dot when everything else is a digit and there is at
   * least one digit. Two or more dots, or no digit at all, send the string to
   * the date parser.
   */
  lemma StringRouting(s: string)
    ensures '.' !in s && IsDigitString(s) ==> Classify(PyStr(s)) == MillisecondsString(s)
    ensures multiset(s)['.'] == 1 && |s| > 1 && DigitsBesideDots(s) ==>
      Classify(PyStr(s)) == SecondsString(s)
    ensures multiset(s)['.'] >= 2 ==> Classify(PyStr(s)) == DateString(s)
    ensures |s| == multiset(s)['.'] ==> Classify(PyStr(s)) == DateString(s)
    ensures (forall i :: 0 <= i < |s| ==> !IsDigit(s[i])) ==> Classify(PyStr(s)) == DateString(s)
  {
    NumericStringShape(s);
    var r := RemoveFirstDot(s);
    RemoveFirstDotKeepsOthers(s);
    if |r| > 0 {
      assert r[0] in multiset(r);
      assert r[0] in multiset(s);
      assert r[0] in s;
    }
    assert '.' !in s ==> multiset(s)['.'] == 0;
    assert multiset(s)['.'] > 0 ==> '.' in s;
    if '.' !in s && IsDigitString(s) {
      assert DigitsBesideDots(s);
    }
  }

  /** Two inputs that convert alike give the same result under every flag. */
  lemma SameConversionSameResult(x: PyValue, y: PyValue, t: real, assignDefaultTime: bool, env: TimeEnv)
    requires Conversion(x, env.parseDate) == Ok(t) && Conversion(y, env.parseDate) == Ok(t)
    ensures CheckAndConvertTime(x, assignDefaultTime, env) == CheckAndConvertTime(y, assignDefaultTime, env)
  {
  }

  /**
   * End to end: an input that converts to a valid instant yields that
   * instant under either flag, and one that converts to a refused instant
   * yields the current time or an error naming that instant as a float.
   */
  lemma ConvertedValueReturned(input: PyValue, t: real, assignDefaultTime: bool, env: TimeEnv)
    requires Conversion(input, env.parseDate) == Ok(t)
    ensures env.isValidTimestamp(t) ==> CheckAndConvertTime(input, assignDefaultTime, env) == Ok(t)
    ensures !env.isValidTimestamp(t) && assignDefaultTime ==>
      CheckAndConvertTime(input, assignDefaultTime, env) == Ok(env.now)
    ensures !env.isValidTimestamp(t) && !assignDefaultTime ==>
      CheckAndConvertTime(input, assignDefaultTime, env) == Err(CannotConvert(PyFloat(t)))
  {
  }

  /** An all-digit string without a dot is read as milliseconds: its integer value divided by 1000. */
  lemma MillisecondsStringValue(s: string, parseDate: string -> Option<real>)
    requires IsDigitString(s) && '.' !in s
    ensures Conversion(PyStr(s), parseDate) == Ok((DigitsValue(s) as real) / 1000.0)
  {
    assert !('.' in s);
    assert RemoveFirstDot(s) == s;
    assert Classify(PyStr(s)) == MillisecondsString(s);
  }

  /** An integer is read as milliseconds: its value divided by 1000. */
  lemma IntegerValue(i: int, parseDate: string -> Option<real>)
    ensures Conversion(PyInt(i), parseDate) == Ok((i as real) / 1000.0)
  {
  }

  /** Moving the decimal point: `x + y / p == (x * p + y) / p`, for integers cast to reals. */
  lemma ShiftPoint(x: int, y: int, p: int)
    requires p > 0
    ensures (x as real) + (y as real) / (p as real) == ((x * p + y) as real) / (p as real)
  {
    assert ((x * p + y) as real) == (x as real) * (p as real) + (y as real);
  }

  /** The value of `a.b` is the value of the digits `ab` over `10^|b|`. */
  lemma PointValueShift(a: string, b: string)
    requires AllDigits(a) && AllDigits(b)
    ensures AllDigits(a + b)
    ensures PointValue(a, b) == (DigitsValue(a + b) as real) / (Pow10(|b|) as real)
  {
    DigitsConcat(a, b);
    ShiftPoint(DigitsValue(a), DigitsValue(b), Pow10(|b|));
  }

  /**
   * A string `a.b` with digits around a single dot is read as seconds, its
   * decimal value unchanged.
   */
  lemma SecondsStringValue(a: string, b: string, parseDate: string -> Option<real>)
    requires '.' !in a && AllDigits(a) && AllDigits(b) && |a| + |b| > 0
    ensures Conversion(PyStr(a + "." + b), parseDate) == Ok(PointValue(a, b))
  {
    DecimalValueSplit(a, b);
    assert (a + "." + b)[|a|] == '.';
    assert Classify(PyStr(a + "." + b)) == SecondsString(a + "." + b);
  }

  /** "000" and "0" are zero. */
  lemma ZeroDigits()
    ensures AllDigits("000") && DigitsValue("000") == 0
    ensures AllDigits("0") && DigitsValue("0") == 0
    ensures Pow10(3) == 1000
  {
    assert "000"[..2] == "00" && "00"[..1] == "0" && "0"[..0] == "";
  }

  /** Appending three zeros multiplies by 1000. */
  lemma PaddedDigits(a: string)
    requires IsDigitString(a) && '.' !in a
    ensures IsDigitString(a + "000") && '.' !in a + "000"
    ensures DigitsValue(a + "000") == DigitsValue(a) * 1000
  {
    ZeroDigits();
    DigitsConcat(a, "000");
  }

  /** A whole number of seconds written in milliseconds converts back exactly. */
  lemma WholeMilliseconds(ms: int, seconds: int)
    requires ms == seconds * 1000
    ensures (ms as real) / 1000.0 == seconds as real
  {
  }

  /** A milliseconds string worth a whole number of seconds is read as that number. */
  lemma WholeMillisecondsString(s: string, seconds: int, parseDate: string -> Option<real>)
    requires IsDigitString(s) && '.' !in s && DigitsValue(s) == seconds * 1000
    ensures Conversion(PyStr(s), parseDate) == Ok(seconds as real)
  {
    MillisecondsStringValue(s, parseDate);
    var c := Conversion(PyStr(s), parseDate);
    assert c == Ok((DigitsValue(s) as real) / 1000.0);
    WholeMilliseconds(DigitsValue(s), seconds);
    assert (DigitsValue(s) as real) / 1000.0 == seconds as real;
    assert c == Ok(seconds as real);
  }

  /** `a000` is `a * 1000` milliseconds, that is, `a` seconds. */
  lemma PaddedMillisecondsValue(a: string, parseDate: string -> Option<real>)
    requires IsDigitString(a) && '.' !in a
    ensures Conversion(PyStr(a + "000"), parseDate) == Ok(DigitsValue(a) as real)
  {
    PaddedDigits(a);
    WholeMillisecondsString(a + "000", DigitsValue(a), parseDate);
  }

  /** A point with only zeros or nothing after it adds nothing. */
  lemma WholePointValue(a: string)
    requires AllDigits(a)
    ensures PointValue(a, "0") == DigitsValue(a) as real
    ensures PointValue(a, "") == DigitsValue(a) as real
  {
    ZeroDigits();
  }

  /** `a.0` is `a` seconds. */
  lemma PointZeroValue(a: string, parseDate: string -> Option<real>)
    requires IsDigitString(a) && '.' !in a
    ensures Conversion(PyStr(a + ".0"), parseDate) == Ok(DigitsValue(a) as real)
  {
    ZeroDigits();
    SecondsStringValue(a, "0", parseDate);
    assert a + "." + "0" == a + ".0";
    WholePointValue(a);
  }

  /** `a.` is `a` seconds. */
  lemma TrailingPointValue(a: string, parseDate: string -> Option<real>)
    requires IsDigitString(a) && '.' !in a
    ensures Conversion(PyStr(a + "."), parseDate) == Ok(DigitsValue(a) as real)
  {
    SecondsStringValue(a, "", parseDate);
    assert a + "." + "" == a + ".";
    WholePointValue(a);
  }

  /**
   * The encodings of one instant agree: the milliseconds string `a000`, the
   * seconds strings `a.0` and `a.`, and the integer `a * 1000` all give `a`
   * seconds, whatever the flag and the collaborators.
   */
  lemma EncodingsAgree(a: string, assignDefaultTime: bool, env: TimeEnv)
    requires IsDigitString(a) && '.' !in a
    ensures var r := CheckAndConvertTime(PyInt(DigitsValue(a) * 1000), assignDefaultTime, env);
      && CheckAndConvertTime(PyStr(a + "000"), assignDefaultTime, env) == r
      && CheckAndConvertTime(PyStr(a + ".0"), assignDefaultTime, env) == r
      && CheckAndConvertTime(PyStr(a + "."), assignDefaultTime, env) == r
  {
    var t := DigitsValue(a) as real;
    var ms := PyInt(DigitsValue(a) * 1000);
    IntegerValue(DigitsValue(a) * 1000, env.parseDate);
    WholeMilliseconds(DigitsValue(a) * 1000, DigitsValue(a));
    assert Conversion(ms, env.parseDate) == Ok(t);
    PaddedMillisecondsValue(a, env.parseDate);
    PointZeroValue(a, env.parseDate);
    TrailingPointValue(a, env.parseDate);
    SameConversionSameResult(PyStr(a + "000"), ms, t, assignDefaultTime, env);
    SameConversionSameResult(PyStr(a + ".0"), ms, t, assignDefaultTime, env);
    SameConversionSameResult(PyStr(a + "."), ms, t, assignDefaultTime, env);
  }

  /** The rendering `str(n)` of a number of milliseconds is read back as `n` milliseconds. */
  lemma RenderedMillisecondsValue(n: nat, parseDate: string -> Option<real>)
    ensures Conversion(PyStr(NatToDigits(n)), parseDate) == Ok((n as real) / 1000.0)
  {
    var s := NatToDigits(n);
    MillisecondsStringValue(s, parseDate);
    DigitsRoundTrip(n);
    assert (DigitsValue(s) as real) / 1000.0 == (n as real) / 1000.0;
  }

  /** The rendering `str(n)` of an integer number of milliseconds converts like the integer itself. */
  lemma RenderedMillisecondsAgree(n: nat, assignDefaultTime: bool, env: TimeEnv)
    ensures CheckAndConvertTime(PyStr(NatToDigits(n)), assignDefaultTime, env) ==
            CheckAndConvertTime(PyInt(n), assignDefaultTime, env)
  {
    RenderedMillisecondsValue(n, env.parseDate);
    IntegerValue(n, env.parseDate);
    SameConversionSameResult(PyStr(NatToDigits(n)), PyInt(n), (n as real) / 1000.0, assignDefaultTime, env);
  }

  /**
   * A string that is not numeric is decided by the date parser alone: a
   * parse failure fails naming the string, a parsed instant is kept when valid.
   */
  lemma DateStringsGoToParser(s: string, env: TimeEnv)
    requires !IsNumericString(s)
    ensures env.parseDate(s).None? ==> Converted(PyStr(s), env) == Err(PyStr(s))
    ensures env.parseDate(s).Some? && env.isValidTimestamp(env.parseDate(s).value) ==>
      Converted(PyStr(s), env) == Ok(env.parseDate(s).value)
    ensures env.parseDate(s).Some? && !env.isValidTimestamp(env.parseDate(s).value) ==>
      Converted(PyStr(s), env) == Err(PyFloat(env.parseDate(s).value))
  {
  }

  /** `True` and `False` are integers to the normaliser: 1 and 0 milliseconds. */
  lemma BooleansAreMilliseconds(b: bool, assignDefaultTime: bool, env: TimeEnv)
    ensures CheckAndConvertTime(PyBool(b), assignDefaultTime, env) ==
            CheckAndConvertTime(PyInt(if b then 1 else 0), assignDefaultTime, env)
  {
  }

  /**
   * The default changes only failures: where the strict call succeeds the
   * lenient call returns the same value, and where it raises the lenient
   * call returns the current time.
   */
  lemma DefaultOnlyReplacesFailures(input: PyValue, env: TimeEnv)
    ensures CheckAndConvertTime(input, false, env).Ok? ==>
      CheckAndConvertTime(input, true, env) == CheckAndConvertTime(input, false, env)
    ensures CheckAndConvertTime(input, false, env).Err? ==>
      CheckAndConvertTime(input, true, env) == Ok(env.now)
  {
  }
}
