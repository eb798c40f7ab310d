/**
 The two decimal conversions of Go's `strconv` package that the handler uses:
 `Itoa` renders a 64-bit integer in base 10, and `Atoi` / `ParseInt(s, 10, 64)`
 read one back. The handler runs on a 64-bit platform, so Go's `int` is the
 64-bit range below.
 */
module Strconv {
  import opened GoStrings
  import opened Wrappers

  const Int64Min: int := -0x8000_0000_0000_0000
  const Int64Max: int := 0x7fff_ffff_ffff_ffff

  /** Go's `int` / `int64`. */
  type int64 = x: int | Int64Min <= x <= Int64Max

  const Minus: byte := '-'
  const Plus: byte := '+'

  predicate IsDigit(b: byte) {
    '0' <= b <= '9'
  }

  /** The byte of decimal digit `d`. */
  function Digit(d: nat): (b: byte)
    requires d < 10
    ensures IsDigit(b)
  {
    ('0' as int + d) as char
  }

  /** The value of a digit byte. */
  function DigitValue(b: byte): (d: nat)
    requires IsDigit(b)
    ensures d < 10 && Digit(d) == b
  {
    b as int - '0' as int
  }

  predicate AllDigits(s: GoString) {
    forall i | 0 <= i < |s| :: IsDigit(s[i])
  }

  function Pow10(k: nat): (p: nat)
    ensures p >= 1
  {
    if k == 0 then 1 else 10 * Pow10(k - 1)
  }

  // ---------------------------------------------------------------------
  // Rendering

  /** Decimal digits of `n`, most significant first, with no leading zero. */
  function FormatNat(n: nat): (s: GoString)
    ensures |s| >= 1
    ensures AllDigits(s)
    ensures s[0] == '0' ==> n == 0
  {
    if n < 10 then [Digit(n)] else FormatNat(n / 10) + [Digit(n % 10)]
  }

  /**
   `strconv.Itoa`: a minus sign for negative values, then the digits of the
   magnitude. Every rendering is canonical, and it carries a sign exactly when
   the value is negative.
   */
  function Itoa(x: int): (s: GoString)
    ensures CanonicalDecimal(s)
    ensures s[0] == Minus <==> x < 0
  {
    if x < 0 then [Minus] + FormatNat(-x) else FormatNat(x)
  }

  // ---------------------------------------------------------------------
  // Parsing

  /** The number a run of decimal digits denotes; the empty run denotes 0. */
  function DigitsValue(s: GoString): nat
    requires AllDigits(s)
  {
    if |s| == 0 then 0 else DigitsValue(s[..|s| - 1]) * 10 + DigitValue(s[|s| - 1])
  }

  /** Whether `s` starts with a `+` or `-` sign. */
  predicate HasSign(s: GoString) {
    |s| >= 1 && (s[0] == Plus || s[0] == Minus)
  }

  /** `s` without its one optional leading sign. */
  function Unsigned(s: GoString): GoString {
    if HasSign(s) then s[1..] else s
  }

  /** The syntax of a base-10 integer: an optional sign, then one or more digits. */
  predicate WellFormed(s: GoString) {
    |Unsigned(s)| >= 1 && AllDigits(Unsigned(s))
  }

  datatype NumErrorKind = ErrSyntax | ErrRange

  /** `strconv.NumError`: the function that failed, its input, and why. */
  datatype NumError = NumError(fn: GoString, num: GoString, err: NumErrorKind)

  /**
   Base-10, 64-bit signed parsing as `strconv.ParseInt(s, 10, 64)` does it:
   an optional `+` or `-`, then one or more decimal digits (no underscores,
   leading zeros allowed); a value outside the 64-bit range is a range error.
   `fn` is the name the error reports.
   */
  function ParseDecimal64(fn: GoString, s: GoString): (r: Result<int64, NumError>)
    ensures r.Err? ==> r.error.fn == fn && r.error.num == s
    ensures s == [] ==> r == Err(NumError(fn, s, ErrSyntax))
    ensures !WellFormed(s) ==> r == Err(NumError(fn, s, ErrSyntax))
    ensures r.Ok? ==> WellFormed(s)
    ensures WellFormed(s) ==>
      (r.Ok? <==> DigitsValue(Unsigned(s)) <= if s[0] == Minus then -Int64Min else Int64Max)
    ensures WellFormed(s) && r.Err? ==> r.error.err == ErrRange
    ensures r.Ok? ==> (r.value < 0 ==> s[0] == Minus)
  {
    if !WellFormed(s) then Err(NumError(fn, s, ErrSyntax))
    else
      var magnitude: int := DigitsValue(Unsigned(s));
      var v: int := if s[0] == Minus then -magnitude else magnitude;
      if Int64Min <= v <= Int64Max then Ok(v) else Err(NumError(fn, s, ErrRange))
  }

  /** `strconv.ParseInt(s, 10, 64)`: the value is the one `Itoa` spells as `Normalize(s)`. */
  function ParseInt(s: GoString): (r: Result<int64, NumError>)
    ensures r.Err? ==> r.error.fn == "ParseInt" && r.error.num == s
    ensures r.Ok? ==> WellFormed(s) && Itoa(r.value) == Normalize(s)
  {
    ParseNormalForm("ParseInt", s);
    ParseDecimal64("ParseInt", s)
  }

  /**
   `strconv.Atoi(s)`: on a 64-bit platform it accepts what `ParseInt(s, 10, 64)`
   accepts, with the same value and error kind; its errors name `Atoi`.
   */
  function Atoi(s: GoString): (r: Result<int64, NumError>)
    ensures r.Err? ==> r.error.fn == "Atoi" && r.error.num == s
    ensures SameResult(r, ParseInt(s))
    ensures r.Ok? ==> WellFormed(s) && Itoa(r.value) == Normalize(s)
  {
    ParseNormalForm("Atoi", s);
    ParseDecimal64("Atoi", s)
  }

  // ---------------------------------------------------------------------
  // Normal form

  /** `d` without its leading zeros, keeping at least one digit. */
  function TrimZeros(d: GoString): GoString
    requires |d| >= 1
  {
    if |d| > 1 && d[0] == '0' then TrimZeros(d[1..]) else d
  }

  /**
   The spelling `Itoa` gives the value of a well-formed decimal: the sign `+`
   and leading zeros dropped, and `-` kept only on a non-zero value.
   */
  function Normalize(s: GoString): GoString
    requires WellFormed(s)
  {
    var t := TrimZeros(Unsigned(s));
    if s[0] == Minus && t != "0" then [Minus] + t else t
  }

  // ---------------------------------------------------------------------
  // Properties

  /** Reading the digits `FormatNat` writes gives back the number. */
  lemma {:induction false} DigitsValueFormatNat(n: nat)
    ensures DigitsValue(FormatNat(n)) == n
  {
    if n >= 10 {
      var s := FormatNat(n);
      assert s[..|s| - 1] == FormatNat(n / 10);
      DigitsValueFormatNat(n / 10);
    }
  }

  /** Round trip: parsing what `Itoa` renders returns the original integer, for either parser. */
  lemma ParseDecimalItoa(fn: GoString, x: int64)
    ensures ParseDecimal64(fn, Itoa(x)) == Ok(x)
  {
    var s := Itoa(x);
    if x < 0 {
      var m: nat := -(x as int);
      assert s[0] == Minus;
      assert s[1..] == FormatNat(m);
      DigitsValueFormatNat(m);
      assert DigitsValue(s[1..]) == m;
    } else {
      assert IsDigit(s[0]);
      DigitsValueFormatNat(x);
      assert DigitsValue(s) == x;
    }
  }

  /** `ParseInt(Itoa(x), 10, 64)` never fails and returns `x`. */
  lemma ParseIntItoa(x: int64)
    ensures ParseInt(Itoa(x)) == Ok(x)
    ensures Atoi(Itoa(x)) == Ok(x)
  {
    ParseDecimalItoa("ParseInt", x);
    ParseDecimalItoa("Atoi", x);
  }

  /** Distinct integers render to distinct strings. */
  lemma ItoaInjective(x: int64, y: int64)
    requires Itoa(x) == Itoa(y)
    ensures x == y
  {
    ParseIntItoa(x);
    ParseIntItoa(y);
  }

  /** A run of digits with no leading zero, as `FormatNat` writes them. */
  predicate CanonicalDigits(d: GoString) {
    |d| >= 1 && AllDigits(d) && (d[0] == '0' ==> |d| == 1)
  }

  /** The renderings `Itoa` can produce: canonical digits, with a minus sign unless zero. */
  predicate CanonicalDecimal(s: GoString) {
    || CanonicalDigits(s)
    || (|s| >= 2 && s[0] == Minus && CanonicalDigits(s[1..]) && s[1] != '0')
  }

  /** Digits that do not start with a zero denote a positive number. */
  lemma {:induction false} DigitsValuePositive(d: GoString)
    requires |d| >= 1 && AllDigits(d) && d[0] != '0'
    ensures DigitsValue(d) >= 1
  {
    if |d| > 1 {
      DigitsValuePositive(d[..|d| - 1]);
    }
  }

  /** Rendering the value of canonical digits gives the same digits back. */
  lemma {:induction false} FormatNatDigitsValue(d: GoString)
    requires CanonicalDigits(d)
    ensures FormatNat(DigitsValue(d)) == d
  {
    if |d| > 1 {
      var init := d[..|d| - 1];
      var last := DigitValue(d[|d| - 1]);
      DigitsValuePositive(init);
      FormatNatDigitsValue(init);
      var v := DigitsValue(d);
      assert v == DigitsValue(init) * 10 + last;
      assert v / 10 == DigitsValue(init) && v % 10 == last;
      assert FormatNat(v) == FormatNat(v / 10) + [Digit(v % 10)];
      assert d == init + [d[|d| - 1]];
    }
  }

  /**
   The converse round trip: a canonical string that parses is exactly the
   rendering of its value, so `Itoa` is the only spelling the parser maps to `x`
   without a `+`, a leading zero or `-0`.
   */
  lemma ItoaParseInt(s: GoString)
    requires CanonicalDecimal(s)
    requires ParseInt(s).Ok?
    ensures Itoa(ParseInt(s).value) == s
  {
    var x := ParseInt(s).value;
    if CanonicalDigits(s) {
      assert IsDigit(s[0]);
      assert x == DigitsValue(s);
      FormatNatDigitsValue(s);
    } else {
      var d := s[1..];
      assert x as int == -(DigitsValue(d) as int);
      DigitsValuePositive(d);
      FormatNatDigitsValue(d);
      assert Itoa(x) == [Minus] + FormatNat(DigitsValue(d));
      assert s == [Minus] + d;
    }
  }

  /** A leading zero does not change the value of a run of digits. */
  lemma {:induction false} DigitsValueLeadingZero(d: GoString)
    requires AllDigits(d)
    ensures AllDigits(['0'] + d)
    ensures DigitsValue(['0'] + d) == DigitsValue(d)
  {
    if |d| > 0 {
      var z := ['0'] + d;
      assert z[..|z| - 1] == ['0'] + d[..|d| - 1];
      DigitsValueLeadingZero(d[..|d| - 1]);
    }
  }

  /** Dropping leading zeros leaves canonical digits of the same value. */
  lemma {:induction false} TrimZerosValue(d: GoString)
    requires |d| >= 1 && AllDigits(d)
    ensures CanonicalDigits(TrimZeros(d))
    ensures DigitsValue(TrimZeros(d)) == DigitsValue(d)
  {
    if |d| > 1 && d[0] == '0' {
      TrimZerosValue(d[1..]);
      DigitsValueLeadingZero(d[1..]);
      assert d == ['0'] + d[1..];
    }
  }

  /** Canonical digits of value zero are the single digit `0`. */
  lemma ZeroDigits(t: GoString)
    requires CanonicalDigits(t) && DigitsValue(t) == 0
    ensures t == "0"
  {
    if t[0] != '0' {
      DigitsValuePositive(t);
    }
  }

  /**
   Whatever a string's spelling, the value it parses to is the one `Itoa`
   spells as its normal form: together with `ParseIntItoa` this fixes the
   value of every accepted input.
   */
  lemma ParseNormalForm(fn: GoString, s: GoString)
    ensures ParseDecimal64(fn, s).Ok? ==> Itoa(ParseDecimal64(fn, s).value) == Normalize(s)
  {
    if ParseDecimal64(fn, s).Ok? {
      var v := ParseDecimal64(fn, s).value;
      var u := Unsigned(s);
      var t := TrimZeros(u);
      var m: int := DigitsValue(u);
      TrimZerosValue(u);
      FormatNatDigitsValue(t);
      assert FormatNat(m) == t;
      if s[0] == Minus {
        assert v as int == -m;
        if m == 0 {
          ZeroDigits(t);
        } else {
          assert t != "0";
        }
      } else {
        assert v as int == m;
      }
    }
  }

  /** Two parse results agree on success, on the value and on the error kind. */
  predicate SameResult(a: Result<int64, NumError>, b: Result<int64, NumError>) {
    && a.Ok? == b.Ok?
    && (a.Ok? ==> a.value == b.value)
    && (a.Err? ==> a.error.err == b.error.err)
  }

  /** A leading `+` is ignored: `"+3600"` reads as `"3600"`. */
  lemma ParseIgnoresPlus(fn: GoString, d: GoString)
    requires !HasSign(d)
    ensures SameResult(ParseDecimal64(fn, [Plus] + d), ParseDecimal64(fn, d))
  {
    assert Unsigned([Plus] + d) == d;
  }

  /**
   A leading zero after the optional sign is ignored: `"03600"` reads as
   `"3600"` and `"-07"` as `"-7"`.
   */
  lemma ParseIgnoresLeadingZero(fn: GoString, sign: GoString, d: GoString)
    requires sign == [] || sign == [Plus] || sign == [Minus]
    requires |d| >= 1 && AllDigits(d)
    ensures SameResult(ParseDecimal64(fn, sign + ['0'] + d), ParseDecimal64(fn, sign + d))
  {
    DigitsValueLeadingZero(d);
    assert Unsigned(sign + ['0'] + d) == ['0'] + d;
    assert Unsigned(sign + d) == d;
  }

  /** `"-0"` is accepted and denotes zero. */
  lemma ParseMinusZero(fn: GoString)
    ensures ParseDecimal64(fn, "-0") == Ok(0)
  {
    assert Unsigned("-0") == "0";
  }

  /** A number below `10^k` has at most `k` digits. */
  lemma {:induction false} FormatNatLength(n: nat, k: nat)
    requires 1 <= k
    requires n < Pow10(k)
    ensures |FormatNat(n)| <= k
  {
    if n >= 10 {
      assert Pow10(k) == 10 * Pow10(k - 1);
      assert n / 10 < Pow10(k - 1);
      FormatNatLength(n / 10, k - 1);
    }
  }

  /** A 64-bit integer renders in at most 20 bytes: a sign and 19 digits. */
  lemma ItoaLength(x: int64)
    ensures |Itoa(x)| <= 20
  {
    assert Pow10(5) == 100_000;
    assert Pow10(10) == 10_000_000_000;
    assert Pow10(15) == 1_000_000_000_000_000;
    assert Pow10(19) == 10_000_000_000_000_000_000;
    if x < 0 {
      FormatNatLength(-(x as int), 19);
    } else {
      FormatNatLength(x, 19);
    }
  }
}
