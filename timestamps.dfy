/** The `Time` wrapper of relateiq/accounts.go: a point in time whose JSON form
    is the integer number of milliseconds since the Unix epoch. */
module Timestamps {
  import opened Wrappers
  import opened Text

  /** `time.Millisecond`, in nanoseconds. */
  const NANOS_PER_MILLI: int := 1_000_000
  const NANOS_PER_SECOND: int := 1_000_000_000
  const INT64_MIN: int := -0x8000_0000_0000_0000
  const INT64_MAX: int := 0x7fff_ffff_ffff_ffff
  const TWO_TO_64: int := 0x1_0000_0000_0000_0000

  /** Go's `int64`. */
  type Int64 = x: int | -0x8000_0000_0000_0000 <= x <= 0x7fff_ffff_ffff_ffff

  predicate IsInt64(x: int)
  {
    INT64_MIN <= x <= INT64_MAX
  }

  /** The result of an int64 operation whose mathematical value is `x`: two's-complement wrap-around. */
  function Wrap64(x: int): (r: Int64)
    ensures (r - x) % TWO_TO_64 == 0
    ensures IsInt64(x) ==> r == x
  {
    (x - INT64_MIN) % TWO_TO_64 + INT64_MIN
  }

  /** The location a `time.Time` is displayed in; it does not affect the instant. */
  datatype Location = UTC | Local | Zone(name: string)

  /** A `time.Time`, as its offset from the Unix epoch in nanoseconds and its location. */
  datatype Time = Time(nanos: Int64, loc: Location)

  /** `t.UnixNano() / int64(time.Millisecond)`: Go's integer division truncates toward zero. */
  function UnixMillis(t: Time): (ms: Int64)
    ensures t.nanos >= 0 ==> 0 <= t.nanos - ms * NANOS_PER_MILLI < NANOS_PER_MILLI
    ensures t.nanos < 0 ==> -NANOS_PER_MILLI < t.nanos - ms * NANOS_PER_MILLI <= 0
    ensures t.nanos >= 0 ==> ms == t.nanos / NANOS_PER_MILLI
  {
    if t.nanos >= 0 then t.nanos / NANOS_PER_MILLI
    else
      var n: int := t.nanos;
      var q := (-n) / NANOS_PER_MILLI;
      assert q * NANOS_PER_MILLI <= -n;
      -q
  }

  /** `time.Unix(0, 1000000*msec).In(time.UTC)`; the product is int64 arithmetic. */
  function FromMillis(msec: Int64): (t: Time)
    ensures t.loc == UTC
    ensures IsInt64(msec * NANOS_PER_MILLI) ==> t.nanos == msec * NANOS_PER_MILLI
    ensures (t.nanos - msec * NANOS_PER_MILLI) % TWO_TO_64 == 0
  {
    Time(Wrap64(NANOS_PER_MILLI * msec), UTC)
  }

  /** `Time.MarshalJSON`: the millisecond count as a JSON integer. */
  function MarshalJSON(t: Time): (b: string)
    ensures ParseInteger(b) == Some(UnixMillis(t))
  {
    DecimalRoundTrip(UnixMillis(t));
    Decimal(UnixMillis(t))
  }

  /** JSON's insignificant whitespace. */
  predicate IsJsonSpace(c: char)
  {
    c == ' ' || c == '\t' || c == '\n' || c == '\r'
  }

  function TrimLeft(s: string): (r: string)
    ensures |r| <= |s|
    ensures |r| > 0 ==> !IsJsonSpace(r[0])
    ensures |s| > 0 && !IsJsonSpace(s[0]) ==> r == s
    decreases |s|
  {
    if |s| > 0 && IsJsonSpace(s[0]) then TrimLeft(s[1..]) else s
  }

  function TrimRight(s: string): (r: string)
    ensures |r| <= |s|
    ensures |r| > 0 ==> !IsJsonSpace(r[|r| - 1])
    ensures r == s[..|r|]
    ensures |s| > 0 && !IsJsonSpace(s[|s| - 1]) ==> r == s
    decreases |s|
  {
    if |s| > 0 && IsJsonSpace(s[|s| - 1]) then TrimRight(s[..|s| - 1]) else s
  }

  /** The JSON text without the whitespace the decoder skips around a value. */
  function TrimJsonSpace(s: string): (r: string)
    ensures |r| <= |s|
    ensures |r| > 0 ==> !IsJsonSpace(r[0]) && !IsJsonSpace(r[|r| - 1])
  {
    TrimRight(TrimLeft(s))
  }

  /** A value that starts and ends with a non-space is left as it is. */
  lemma TrimNothing(s: string)
    requires |s| > 0 && !IsJsonSpace(s[0]) && !IsJsonSpace(s[|s| - 1])
    ensures TrimJsonSpace(s) == s
  {
  }

  /** `json.Unmarshal(b, &msec)` with `msec` an int64 that starts at 0: an integer literal
      within int64 range is stored; `null` is accepted and leaves `msec` at 0; anything
      else (a fraction, an exponent, a string, an out-of-range integer, malformed JSON)
      is an error (None). */
  function ReadMillis(b: string): (r: Option<Int64>)
    ensures TrimJsonSpace(b) == "null" ==> r == Some(0)
    ensures TrimJsonSpace(b) != "null" ==>
      (r.Some? <==> ParseInteger(TrimJsonSpace(b)).Some? && IsInt64(ParseInteger(TrimJsonSpace(b)).value))
    ensures r.Some? && TrimJsonSpace(b) != "null" ==> ParseInteger(TrimJsonSpace(b)) == Some(r.value as int)
  {
    var v := TrimJsonSpace(b);
    if v == "null" then Some(0)
    else
      match ParseInteger(v)
      case Some(m) => if IsInt64(m) then Some(m) else None
      case None => None
  }

  /** The error `UnmarshalJSON` returns for a wire value that is not an int64. */
  datatype WireError = NotAnInt64(wire: string)

  /** A `Time` variable, the receiver of `(*Time).UnmarshalJSON`. */
  class TimeVar {
    var value: Time

    constructor (t: Time)
      ensures value == t
    {
      value := t;
    }

    /** `(*Time).UnmarshalJSON`: the variable is assigned only once the wire value has parsed. */
    method UnmarshalJSON(b: string) returns (err: Option<WireError>)
      modifies this
      ensures err.None? <==> ReadMillis(b).Some?
      ensures err.None? ==> value == FromMillis(ReadMillis(b).value)
      ensures err.Some? ==> err.value == NotAnInt64(b) && value == old(value)
    {
      var msec := ReadMillis(b);
      if msec.None? {
        return Some(NotAnInt64(b));
      }
      value := FromMillis(msec.value);
      return None;
    }
  }

  /** Decoding then encoding an in-range millisecond count gives it back. */
  lemma MillisRoundTrip(msec: Int64)
    requires IsInt64(msec * NANOS_PER_MILLI)
    ensures UnixMillis(FromMillis(msec)) == msec
  {
    var n := msec * NANOS_PER_MILLI;
    if msec < 0 {
      assert -n == (-msec) * NANOS_PER_MILLI;
      assert (-n) / NANOS_PER_MILLI == -msec;
    } else {
      assert n / NANOS_PER_MILLI == msec;
    }
  }

  /** Encoding then decoding truncates toward zero to the millisecond and asserts UTC;
      a time already on a millisecond keeps its instant. */
  lemma TruncatingRoundTrip(t: Time)
    ensures FromMillis(UnixMillis(t)) == Time(UnixMillis(t) * NANOS_PER_MILLI, UTC)
    ensures t.nanos >= 0 ==> FromMillis(UnixMillis(t)).nanos == t.nanos - t.nanos % NANOS_PER_MILLI
    ensures t.nanos % NANOS_PER_MILLI == 0 ==> FromMillis(UnixMillis(t)) == Time(t.nanos, UTC)
  {
    var ms := UnixMillis(t);
    assert IsInt64(ms * NANOS_PER_MILLI);
    if t.nanos % NANOS_PER_MILLI == 0 {
      if t.nanos >= 0 {
        assert t.nanos == (t.nanos / NANOS_PER_MILLI) * NANOS_PER_MILLI;
      } else {
        assert (-t.nanos) % NANOS_PER_MILLI == 0;
        assert -t.nanos == ((-t.nanos) / NANOS_PER_MILLI) * NANOS_PER_MILLI;
      }
    }
  }

  /** The JSON text `MarshalJSON` writes is read back by `UnmarshalJSON` as the same count. */
  lemma WireRoundTrip(t: Time)
    ensures ReadMillis(MarshalJSON(t)) == Some(UnixMillis(t))
  {
    var b := MarshalJSON(t);
    DecimalChars(UnixMillis(t));
    assert b[0] == '-' || IsDigit(b[0]);
    assert IsDigit(b[|b| - 1]) || b[|b| - 1] == '-';
    TrimNothing(b);
    assert b != "null" by {
      assert "null"[0] == 'n';
    }
  }

  /** A wire value that decodes to an in-range count is re-encoded in canonical decimal form:
      that is the wire text itself without surrounding whitespace, except that `null` and `-0`
      both come back as "0". */
  lemma CanonicalReencoding(b: string, msec: Int64)
    requires ReadMillis(b) == Some(msec)
    requires IsInt64(msec * NANOS_PER_MILLI)
    ensures MarshalJSON(FromMillis(msec)) == Decimal(msec)
    ensures TrimJsonSpace(b) != "null" && TrimJsonSpace(b) != "-0" ==>
      MarshalJSON(FromMillis(msec)) == TrimJsonSpace(b)
    ensures TrimJsonSpace(b) == "null" || TrimJsonSpace(b) == "-0" ==>
      msec == 0 && MarshalJSON(FromMillis(msec)) == "0"
  {
    MillisRoundTrip(msec);
    var v := TrimJsonSpace(b);
    if v != "null" {
      ParseCanonical(v);
    }
    if msec == 0 {
      assert Decimal(0) == "0";
    }
  }

  /** The account timestamp 1414001420560 ms is 1414001420 s and 560000000 ns past the epoch, in UTC,
      and encodes back to the same JSON text. */
  lemma AccountTimestampVector()
    ensures ReadMillis("1414001420560") == Some(1414001420560)
    ensures FromMillis(1414001420560) == Time(1414001420 * NANOS_PER_SECOND + 560000000, UTC)
    ensures MarshalJSON(Time(1414001420 * NANOS_PER_SECOND + 560000000, UTC)) == "1414001420560"
  {
    var t := Time(1414001420560000000, UTC);
    assert UnixMillis(t) == 1414001420560;
    DecimalVector();
    WireRoundTrip(t);
  }

  lemma DecimalVector()
    ensures Decimal(1414001420560) == "1414001420560"
  {
    assert Digits(1) == "1";
    assert Digits(14) == "14";
    assert Digits(141) == "141";
    assert Digits(1414) == "1414";
    assert Digits(14140) == "14140";
    assert Digits(141400) == "141400";
    assert Digits(1414001) == "1414001";
    assert Digits(14140014) == "14140014";
    assert Digits(141400142) == "141400142";
    assert Digits(1414001420) == "1414001420";
    assert Digits(14140014205) == "14140014205";
    assert Digits(141400142056) == "141400142056";
    assert Digits(1414001420560) == "1414001420560";
  }

  /** 123000 ms decodes to 123 s past the epoch. */
  lemma ListedTimestampVector()
    ensures FromMillis(123000) == Time(123 * NANOS_PER_SECOND, UTC)
  {
  }
}
