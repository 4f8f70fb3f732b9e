/**
 * `parse_bool_from_string`, which reads the `debug` configuration flag: a bool
 * or an int is returned as it is, a string is decoded as JSON after
 * lower-casing and must give `true` or `false`.
 */
module BoolParse {
  import opened Wrappers
  import opened PyValues

  /** What the parser returns: a boolean, or an integer passed through unconverted. */
  datatype Flag = FlagBool(b: bool) | FlagInt(i: int)

  datatype ParseBoolError =
    /** The string does not decode to a JSON boolean. */
    | NotABooleanValue(s: string)
    /** The value is neither bool, int nor string, so it has no `lower` method. */
    | NoLowerMethod(v: PyValue)

  /** `str.lower` on one ASCII character. */
  function LowerChar(c: char): (l: char)
    ensures 'A' <= c <= 'Z' ==> l as int == c as int + 32
    ensures !('A' <= c <= 'Z') ==> l == c
  {
    if 'A' <= c <= 'Z' then (c as int + 32) as char else c
  }

  /** `str.lower` on ASCII text, character by character. */
  function Lower(s: string): (r: string)
    ensures |r| == |s|
    ensures forall i :: 0 <= i < |s| ==> r[i] == LowerChar(s[i])
  {
    seq(|s|, i requires 0 <= i < |s| => LowerChar(s[i]))
  }

  /** The whitespace a JSON decoder skips around a value. */
  predicate IsJsonWhitespace(c: char)
  {
    c == ' ' || c == '\t' || c == '\n' || c == '\r'
  }

  predicate AllJsonWhitespace(s: string)
  {
    forall i :: 0 <= i < |s| ==> IsJsonWhitespace(s[i])
  }

  /** Text that neither starts nor ends with JSON whitespace. */
  predicate Trimmed(s: string)
  {
    |s| > 0 ==> !IsJsonWhitespace(s[0]) && !IsJsonWhitespace(s[|s| - 1])
  }

  /** The text the JSON decoder sees as the value: leading and trailing whitespace removed. */
  function StripJsonWhitespace(s: string): (r: string)
    ensures Trimmed(r)
    ensures |r| <= |s|
    decreases |s|
  {
    if |s| > 0 && IsJsonWhitespace(s[0]) then StripJsonWhitespace(s[1..])
    else if |s| > 0 && IsJsonWhitespace(s[|s| - 1]) then StripJsonWhitespace(s[..|s| - 1])
    else s
  }

  /** Whitespace around trimmed text is exactly what stripping removes. */
  lemma {:induction false} StripPadded(before: string, t: string, after: string)
    requires AllJsonWhitespace(before) && AllJsonWhitespace(after) && Trimmed(t)
    ensures StripJsonWhitespace(before + t + after) == StripJsonWhitespace(t)
    decreases |before| + |after|
  {
    var s := before + t + after;
    if before != [] {
      assert s[0] == before[0];
      assert s[1..] == before[1..] + t + after;
      StripPadded(before[1..], t, after);
    } else if after != [] {
      assert s == t + after;
      if t != [] {
        assert s[0] == t[0];
      }
      if t == [] {
        assert s == after;
        assert s[0] == after[0];
        assert s[1..] == [] + [] + after[1..];
        StripPadded([], [], after[1..]);
      } else {
        assert s[|s| - 1] == after[|after| - 1];
        assert s[..|s| - 1] == [] + t + after[..|after| - 1];
        StripPadded([], t, after[..|after| - 1]);
      }
    } else {
      assert s == t;
    }
  }

  /** `s[i..j]` is what is left of `s` once the JSON whitespace `s[..i]` and `s[j..]` is cut off. */
  predicate PaddedSlice(s: string, i: int, j: int)
  {
    0 <= i <= j <= |s| && AllJsonWhitespace(s[..i]) && AllJsonWhitespace(s[j..])
  }

  /** Stripping keeps a contiguous part of the text and removes only JSON whitespace around it. */
  lemma {:induction false} StripIsPaddedInfix(s: string)
    ensures exists i, j :: PaddedSlice(s, i, j) && StripJsonWhitespace(s) == s[i..j]
    decreases |s|
  {
    if |s| > 0 && IsJsonWhitespace(s[0]) {
      var u := s[1..];
      StripIsPaddedInfix(u);
      var i, j :| PaddedSlice(u, i, j) && StripJsonWhitespace(u) == u[i..j];
      LeadingSpaceSlice(s, i, j);
      assert u[i..j] == s[i + 1..j + 1];
    } else if |s| > 0 && IsJsonWhitespace(s[|s| - 1]) {
      var u := s[..|s| - 1];
      StripIsPaddedInfix(u);
      var i, j :| PaddedSlice(u, i, j) && StripJsonWhitespace(u) == u[i..j];
      TrailingSpaceSlice(s, i, j);
      assert u[i..j] == s[i..j];
    } else {
      assert s[..0] == [] && s[|s|..] == [];
      assert PaddedSlice(s, 0, |s|);
      assert StripJsonWhitespace(s) == s[0..|s|];
    }
  }

  /** A padded slice of `s[1..]` is one of `s` when `s[0]` is whitespace. */
  lemma LeadingSpaceSlice(s: string, i: int, j: int)
    requires |s| > 0 && IsJsonWhitespace(s[0]) && PaddedSlice(s[1..], i, j)
    ensures PaddedSlice(s, i + 1, j + 1)
  {
    assert s[..i + 1] == [s[0]] + s[1..][..i];
    assert s[j + 1..] == s[1..][j..];
  }

  /** A padded slice of `s` without its last character is one of `s` when that character is whitespace. */
  lemma TrailingSpaceSlice(s: string, i: int, j: int)
    requires |s| > 0 && IsJsonWhitespace(s[|s| - 1]) && PaddedSlice(s[..|s| - 1], i, j)
    ensures PaddedSlice(s, i, j)
  {
    var u := s[..|s| - 1];
    assert s[..i] == u[..i];
    assert s[j..] == u[j..] + [s[|s| - 1]];
  }

  /** Lower-casing never produces whitespace from anything but whitespace. */
  lemma LowerWhitespace(s: string)
    requires AllJsonWhitespace(Lower(s))
    ensures AllJsonWhitespace(s)
  {
    forall k | 0 <= k < |s| ensures IsJsonWhitespace(s[k]) {
      assert Lower(s)[k] == LowerChar(s[k]);
    }
  }

  /** A string the parser accepts: its lower-cased JSON value is a boolean literal. */
  predicate IsJsonBoolean(s: string)
  {
    StripJsonWhitespace(Lower(s)) in ["true", "false"]
  }

  /** `parse_bool_from_string(str_or_bool)`. */
  function ParseBoolFromString(v: PyValue): (r: Result<Flag, ParseBoolError>)
    // bools and ints come back as they are, bool first
    ensures v.PyBool? ==> r == Ok(FlagBool(v.b))
    ensures v.PyInt? ==> r == Ok(FlagInt(v.i))
    // a string is accepted exactly when it is a JSON boolean, whatever its case
    ensures v.PyStr? ==> (r.Ok? <==> IsJsonBoolean(v.s))
    ensures v.PyStr? && r.Ok? ==> r.value == FlagBool(StripJsonWhitespace(Lower(v.s)) == "true")
    ensures v.PyStr? && r.Err? ==> r.error == NotABooleanValue(v.s)
    // nothing else is accepted
    ensures !(v.PyBool? || v.PyInt? || v.PyStr?) ==> r == Err(NoLowerMethod(v))
  {
    match v
    case PyBool(b) => Ok(FlagBool(b))
    case PyInt(i) => Ok(FlagInt(i))
    case PyStr(s) =>
      var value := StripJsonWhitespace(Lower(s));
      if value == "true" then Ok(FlagBool(true))
      else if value == "false" then Ok(FlagBool(false))
      else Err(NotABooleanValue(s))
    case _ => Err(NoLowerMethod(v))
  }

  /** Lower-casing twice changes nothing more. */
  lemma LowerIdempotent(s: string)
    ensures Lower(Lower(s)) == Lower(s)
  {
  }

  /** The parser ignores case: a string and its lower-cased form parse alike. */
  lemma CaseInsensitive(s: string)
    ensures ParseBoolFromString(PyStr(s)).Ok? == ParseBoolFromString(PyStr(Lower(s))).Ok?
    ensures ParseBoolFromString(PyStr(s)).Ok? ==>
      ParseBoolFromString(PyStr(s)) == ParseBoolFromString(PyStr(Lower(s)))
  {
    LowerIdempotent(s);
  }

  /** Lower-casing whitespace-padded text lower-cases the text and keeps the padding. */
  lemma LowerPadded(before: string, t: string, after: string)
    requires AllJsonWhitespace(before) && AllJsonWhitespace(after)
    ensures Lower(before + t + after) == before + Lower(t) + after
  {
    var s := before + t + after;
    var r := before + Lower(t) + after;
    assert |Lower(s)| == |r|;
    forall i | 0 <= i < |s| ensures Lower(s)[i] == r[i] {
      if i < |before| {
        assert s[i] == before[i];
      } else if i < |before| + |t| {
        assert s[i] == t[i - |before|];
      } else {
        assert s[i] == after[i - |before| - |t|];
      }
    }
  }

  /** Any text that lower-cases to a JSON boolean parses to it, with any whitespace around it. */
  lemma PaddedBooleanText(t: string, b: bool, before: string, after: string)
    requires AllJsonWhitespace(before) && AllJsonWhitespace(after)
    requires Lower(t) == if b then "true" else "false"
    ensures ParseBoolFromString(PyStr(before + t + after)) == Ok(FlagBool(b))
  {
    var json := if b then "true" else "false";
    assert Trimmed(json);
    StripPadded(before, json, after);
    assert StripJsonWhitespace(json) == json;
    LowerPadded(before, t, after);
  }

  /**
   * The converse of `PaddedBooleanText`: every string the parser accepts is
   * text that lower-cases to `true` or `false` with JSON whitespace around it,
   * and parses to the boolean that text names.
   */
  lemma AcceptedTextIsPaddedBoolean(s: string)
    requires ParseBoolFromString(PyStr(s)).Ok?
    ensures exists i, j ::
      PaddedSlice(s, i, j) && Lower(s[i..j]) in ["true", "false"] &&
      ParseBoolFromString(PyStr(s)) == Ok(FlagBool(Lower(s[i..j]) == "true"))
  {
    var l := Lower(s);
    StripIsPaddedInfix(l);
    var i, j :| PaddedSlice(l, i, j) && StripJsonWhitespace(l) == l[i..j];
    assert l[i..j] == Lower(s[i..j]);
    assert l[..i] == Lower(s[..i]);
    assert l[j..] == Lower(s[j..]);
    LowerWhitespace(s[..i]);
    LowerWhitespace(s[j..]);
    assert PaddedSlice(s, i, j);
  }

  /**
   * Round trip: a boolean written as Python (`True`/`False`), JSON
   * (`true`/`false`) or upper case, with any JSON whitespace around it,
   * parses back to that boolean.
   */
  lemma BooleanTextRoundTrip(b: bool, before: string, after: string)
    requires AllJsonWhitespace(before) && AllJsonWhitespace(after)
    ensures ParseBoolFromString(PyStr(before + (if b then "True" else "False") + after)) == Ok(FlagBool(b))
    ensures ParseBoolFromString(PyStr(before + (if b then "true" else "false") + after)) == Ok(FlagBool(b))
    ensures ParseBoolFromString(PyStr(before + (if b then "TRUE" else "FALSE") + after)) == Ok(FlagBool(b))
  {
    if b {
      assert Lower("True") == "true" && Lower("true") == "true" && Lower("TRUE") == "true";
      PaddedBooleanText("True", b, before, after);
      PaddedBooleanText("true", b, before, after);
      PaddedBooleanText("TRUE", b, before, after);
    } else {
      assert Lower("False") == "false" && Lower("false") == "false" && Lower("FALSE") == "false";
      PaddedBooleanText("False", b, before, after);
      PaddedBooleanText("false", b, before, after);
      PaddedBooleanText("FALSE", b, before, after);
    }
  }

  /** Text that is JSON but not a boolean, or not JSON at all, is rejected. */
  lemma RejectsOtherText()
    ensures ParseBoolFromString(PyStr("1")) == Err(NotABooleanValue("1"))
    ensures ParseBoolFromString(PyStr("yes")) == Err(NotABooleanValue("yes"))
    ensures ParseBoolFromString(PyStr("")) == Err(NotABooleanValue(""))
    ensures ParseBoolFromString(PyNone) == Err(NoLowerMethod(PyNone))
  {
    assert Lower("1") == "1";
    assert Lower("yes") == "yes";
    assert Lower("") == "";
  }
}
