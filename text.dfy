/** Text helpers the client relies on: the decimal rendering of integers
    (Go's `fmt.Sprint` / `%d` / `strconv.FormatInt`), the JSON integer grammar
    that decodes it again, and the comma join that go-querystring applies to
    slice fields tagged `comma`, with the split that undoes it. */
module Text {
  import opened Wrappers

  predicate IsDigit(c: char)
  {
    '0' <= c <= '9'
  }

  function DigitChar(d: nat): (c: char)
    requires d < 10
    ensures IsDigit(c)
  {
    ('0' as int + d) as char
  }

  function DigitValue(c: char): (d: nat)
    requires IsDigit(c)
    ensures d < 10
  {
    c as int - '0' as int
  }

  predicate AllDigits(s: string)
  {
    forall i :: 0 <= i < |s| ==> IsDigit(s[i])
  }

  /** The decimal digits of `n`, most significant first, without leading zeros. */
  function Digits(n: nat): string
    decreases n
  {
    if n < 10 then [DigitChar(n)] else Digits(n / 10) + [DigitChar(n % 10)]
  }

  /** Decimal rendering of an integer, with a leading '-' for negatives. */
  function Decimal(n: int): string
  {
    if n < 0 then "-" + Digits(-n) else Digits(n)
  }

  /** The value of a string of decimal digits (most significant first). */
  function DigitsValue(s: string): nat
    requires AllDigits(s)
    decreases |s|
  {
    if |s| == 0 then 0 else DigitsValue(s[..|s| - 1]) * 10 + DigitValue(s[|s| - 1])
  }

  /** The digit part of a JSON integer: non-empty, and no leading zero unless it is "0". */
  predicate IsJsonDigits(s: string)
  {
    |s| > 0 && AllDigits(s) && (s[0] == '0' ==> |s| == 1)
  }

  /** A JSON number without fraction or exponent, `-?(0|[1-9][0-9]*)`, and its value. */
  function ParseInteger(s: string): (r: Option<int>)
    ensures r.Some? ==> |s| > 0
    ensures r.Some? && s[0] != '-' ==> r.value >= 0
  {
    if |s| > 0 && s[0] == '-' then
      if IsJsonDigits(s[1..]) then var v: int := DigitsValue(s[1..]); Some(-v) else None
    else if IsJsonDigits(s) then Some(DigitsValue(s))
    else None
  }

  lemma {:induction false} DigitsValueSnoc(s: string, c: char)
    requires AllDigits(s) && IsDigit(c)
    ensures AllDigits(s + [c]) && DigitsValue(s + [c]) == DigitsValue(s) * 10 + DigitValue(c)
  {
    assert (s + [c])[..|s + [c]| - 1] == s;
  }

  /** `Digits` produces a well-formed JSON digit string whose value is `n`. */
  lemma {:induction false} DigitsParse(n: nat)
    ensures IsJsonDigits(Digits(n))
    ensures (Digits(n)[0] == '0') == (n == 0)
    ensures DigitsValue(Digits(n)) == n
    decreases n
  {
    if n >= 10 {
      DigitsParse(n / 10);
      DigitsValueSnoc(Digits(n / 10), DigitChar(n % 10));
      assert Digits(n)[0] == Digits(n / 10)[0];
    } else {
      assert Digits(n) == [] + [DigitChar(n)];
      DigitsValueSnoc([], DigitChar(n));
    }
  }

  /** Decimal rendering followed by JSON integer decoding gives the integer back. */
  lemma DecimalRoundTrip(n: int)
    ensures ParseInteger(Decimal(n)) == Some(n)
  {
    var s := Decimal(n);
    if n < 0 {
      DigitsParse(-n);
      assert s[0] == '-' && s[1..] == Digits(-n);
      var v: int := DigitsValue(s[1..]);
      assert v == -n;
    } else {
      DigitsParse(n);
      assert IsDigit(s[0]);
    }
  }

  /** Every character of a decimal rendering is a digit or the leading '-'. */
  lemma DecimalChars(n: int)
    ensures |Decimal(n)| > 0
    ensures forall i :: 0 <= i < |Decimal(n)| ==> IsDigit(Decimal(n)[i]) || (i == 0 && Decimal(n)[i] == '-')
  {
    if n < 0 { DigitsParse(-n); } else { DigitsParse(n); }
  }

  lemma DigitCharValue(c: char)
    requires IsDigit(c)
    ensures DigitChar(DigitValue(c)) == c
  {
  }

  /** A digit string without a leading zero has a positive value. */
  lemma {:induction false} LeadingDigitPositive(s: string)
    requires |s| > 0 && AllDigits(s) && s[0] != '0'
    ensures DigitsValue(s) > 0
    decreases |s|
  {
    if |s| > 1 {
      var p := s[..|s| - 1];
      assert p[0] == s[0];
      LeadingDigitPositive(p);
    }
  }

  /** A JSON digit string is exactly the decimal rendering of its value. */
  lemma {:induction false} DigitsCanonical(s: string)
    requires IsJsonDigits(s)
    ensures Digits(DigitsValue(s)) == s
    decreases |s|
  {
    var c := s[|s| - 1];
    DigitCharValue(c);
    if |s| == 1 {
      assert s == [c];
    } else {
      var p := s[..|s| - 1];
      assert p[0] == s[0];
      LeadingDigitPositive(p);
      DigitsCanonical(p);
      var n := DigitsValue(s);
      assert n == DigitsValue(p) * 10 + DigitValue(c);
      assert n / 10 == DigitsValue(p) && n % 10 == DigitValue(c);
      assert s == p + [c];
    }
  }

  /** Every integer literal except "-0" is the decimal rendering of the value it parses to:
      the JSON integer grammar has one spelling per integer, plus "-0" for zero. */
  lemma ParseCanonical(s: string)
    requires ParseInteger(s).Some?
    ensures s != "-0" ==> Decimal(ParseInteger(s).value) == s
    ensures s == "-0" ==> ParseInteger(s) == Some(0)
  {
    if s[0] == '-' {
      var t := s[1..];
      DigitsCanonical(t);
      assert s == "-" + t;
      if DigitsValue(t) == 0 {
        if |t| > 1 {
          LeadingDigitPositive(t);
        }
        assert t == "0";
      }
    } else {
      DigitsCanonical(s);
    }
  }

  /** `strings.Join(parts, ",")`: the parts in order with one comma between neighbours. */
  function JoinComma(parts: seq<string>): string
  {
    if |parts| == 0 then ""
    else if |parts| == 1 then parts[0]
    else parts[0] + [','] + JoinComma(parts[1..])
  }

  /** `strings.Split(s, ",")`: the pieces between commas; never empty. */
  function SplitComma(s: string): (parts: seq<string>)
    ensures |parts| > 0
    decreases |s|
  {
    if |s| == 0 then [""]
    else if s[0] == ',' then [""] + SplitComma(s[1..])
    else
      var rest := SplitComma(s[1..]);
      [[s[0]] + rest[0]] + rest[1..]
  }

  lemma {:induction false} SplitPiece(a: string, rest: string)
    requires ',' !in a
    ensures SplitComma(a + rest) == [a + SplitComma(rest)[0]] + SplitComma(rest)[1..]
    decreases |a|
  {
    if |a| > 0 {
      assert (a + rest)[0] == a[0];
      assert (a + rest)[1..] == a[1..] + rest;
      SplitPiece(a[1..], rest);
      assert [a[0]] + (a[1..] + SplitComma(rest)[0]) == a + SplitComma(rest)[0];
    } else {
      assert a + rest == rest;
      assert a + SplitComma(rest)[0] == SplitComma(rest)[0];
      assert [SplitComma(rest)[0]] + SplitComma(rest)[1..] == SplitComma(rest);
    }
  }

  /** Splitting a comma-free piece followed by a comma splits off exactly that piece. */
  lemma SplitAfterPiece(a: string, rest: string)
    requires ',' !in a
    ensures SplitComma(a + [','] + rest) == [a] + SplitComma(rest)
  {
    var r := [','] + rest;
    assert SplitComma(r) == [""] + SplitComma(rest) by {
      assert r[0] == ',' && r[1..] == rest;
    }
    SplitPiece(a, r);
    assert a + [','] + rest == a + r;
    assert SplitComma(r)[0] == "" && SplitComma(r)[1..] == SplitComma(rest);
    assert a + "" == a;
  }

  /** A comma-free string splits into itself alone. */
  lemma SplitWhole(a: string)
    requires ',' !in a
    ensures SplitComma(a) == [a]
  {
    SplitPiece(a, "");
    assert a + "" == a;
  }

  /** The comma join is undone by the comma split, as long as no part holds a comma. */
  lemma {:induction false} SplitJoin(parts: seq<string>)
    requires |parts| > 0
    requires forall i :: 0 <= i < |parts| ==> ',' !in parts[i]
    ensures SplitComma(JoinComma(parts)) == parts
    decreases |parts|
  {
    if |parts| == 1 {
      SplitWhole(parts[0]);
    } else {
      SplitJoin(parts[1..]);
      SplitAfterPiece(parts[0], JoinComma(parts[1..]));
      assert [parts[0]] + parts[1..] == parts;
    }
  }
}
