/**
 * The parts of Go's `strconv` package that the environment accessors depend on:
 * `ParseInt(s, 10, 64)`, the `ParseUint` digit loop behind it, `ParseBool`, and
 * the decimal renderings `FormatInt` / `FormatBool` used to state round trips.
 */
module Strconv {
  import opened Wrappers

  const MinInt64: int := -0x8000_0000_0000_0000
  const MaxInt64: int := 0x7fff_ffff_ffff_ffff
  const MaxUint64: int := 0xffff_ffff_ffff_ffff

  /** Go's `int64`. */
  newtype int64 = x: int | -0x8000_0000_0000_0000 <= x < 0x8000_0000_0000_0000

  /** The two error kinds of a `*strconv.NumError`. */
  datatype NumError = ErrSyntax | ErrRange

  predicate InInt64(z: int) {
    MinInt64 <= z <= MaxInt64
  }

  // ---------------------------------------------------------------------------
  // Decimal digits and the numbers they denote

  predicate IsDigit(c: char) {
    '0' <= c <= '9'
  }

  function DigitValue(c: char): (d: nat)
    requires IsDigit(c)
    ensures d < 10
  {
    c as int - '0' as int
  }

  function DigitChar(d: nat): (c: char)
    requires d < 10
    ensures IsDigit(c) && DigitValue(c) == d
  {
    ('0' as int + d) as char
  }

  predicate AllDigits(s: string) {
    forall i | 0 <= i < |s| :: IsDigit(s[i])
  }

  function Pow10(k: nat): (p: nat)
    ensures p >= 1
  {
    if k == 0 then 1 else 10 * Pow10(k - 1)
  }

  /** The number a string of decimal digits denotes, most significant digit first. */
  function Value(ds: string): nat
    requires AllDigits(ds)
  {
    if ds == [] then 0 else 10 * Value(ds[..|ds| - 1]) + DigitValue(ds[|ds| - 1])
  }

  /** Length of the run of digits at the front of `s`. */
  function LeadingDigits(s: string): (k: nat)
    ensures k <= |s| && AllDigits(s[..k])
    ensures k < |s| ==> !IsDigit(s[k])
  {
    if s == [] || !IsDigit(s[0]) then 0
    else
      var k := 1 + LeadingDigits(s[1..]);
      assert s[..k] == [s[0]] + s[1..][..k - 1];
      k
  }

  lemma {:induction false} ValueCons(c: char, t: string)
    requires IsDigit(c) && AllDigits(t)
    ensures AllDigits([c] + t)
    ensures Value([c] + t) == DigitValue(c) * Pow10(|t|) + Value(t)
    decreases |t|
  {
    var s := [c] + t;
    assert AllDigits(s) by {
      forall i | 0 <= i < |s| ensures IsDigit(s[i]) {
        if i > 0 { assert s[i] == t[i - 1]; }
      }
    }
    if t != [] {
      var t' := t[..|t| - 1];
      var e := t[|t| - 1];
      assert s[..|s| - 1] == [c] + t';
      ValueCons(c, t');
      calc {
        Value(s);
        10 * Value([c] + t') + DigitValue(e);
        10 * (DigitValue(c) * Pow10(|t'|) + Value(t')) + DigitValue(e);
        DigitValue(c) * (10 * Pow10(|t'|)) + (10 * Value(t') + DigitValue(e));
        DigitValue(c) * Pow10(|t|) + Value(t);
      }
    }
  }

  // ---------------------------------------------------------------------------
  // ParseUint(s, 10, 64)

  /**
   * The digit loop of `ParseUint` for base 10 and 64 bits: `n` is the value
   * accumulated so far. A character that is not a decimal digit is a syntax
   * error; a digit that would take the value past 2^64 - 1 is a range error;
   * whichever comes first, reading left to right, decides the error.
   */
  function ScanDigits(s: string, n: nat): Result<nat, NumError>
    requires n <= MaxUint64
    decreases |s|
  {
    if s == [] then Ok(n)
    else if !IsDigit(s[0]) then Err(ErrSyntax)
    else if 10 * n + DigitValue(s[0]) > MaxUint64 then Err(ErrRange)
    else ScanDigits(s[1..], 10 * n + DigitValue(s[0]))
  }

  /** `strconv.ParseUint(s, 10, 64)`: the empty string is a syntax error. */
  function ParseUint(s: string): Result<nat, NumError>
  {
    if s == [] then Err(ErrSyntax) else ScanDigits(s, 0)
  }

  /**
   * What the digit loop computes, stated against `Value`: with `k` the number of
   * leading digits, a range error exactly when those digits (appended to `n`)
   * exceed 2^64 - 1, otherwise a syntax error exactly when a non-digit follows,
   * otherwise the number the digits denote.
   */
  lemma {:induction false} ScanDigitsMeaning(s: string, n: nat)
    requires n <= MaxUint64
    ensures var k := LeadingDigits(s);
      ScanDigits(s, n) ==
        if n * Pow10(k) + Value(s[..k]) > MaxUint64 then Err(ErrRange)
        else if k < |s| then Err(ErrSyntax)
        else Ok(n * Pow10(k) + Value(s[..k]))
    decreases |s|
  {
    var k := LeadingDigits(s);
    if s == [] || !IsDigit(s[0]) {
      assert k == 0 && s[..k] == [];
    } else {
      var c, t := s[0], s[1..];
      var n' := 10 * n + DigitValue(c);
      var k' := LeadingDigits(t);
      ShiftedCons(n, c, t[..k']);
      assert s[..k] == [c] + t[..k'];
      assert n * Pow10(k) + Value(s[..k]) == n' * Pow10(k') + Value(t[..k']);
      if n' <= MaxUint64 {
        ScanDigitsMeaning(t, n');
      }
    }
  }

  /** Reading one more digit `c` multiplies the accumulator by ten and adds `c`. */
  lemma ShiftedCons(n: nat, c: char, t: string)
    requires IsDigit(c) && AllDigits(t)
    ensures AllDigits([c] + t)
    ensures n * Pow10(|t| + 1) + Value([c] + t) == (10 * n + DigitValue(c)) * Pow10(|t|) + Value(t)
    ensures (10 * n + DigitValue(c)) * Pow10(|t|) + Value(t) >= 10 * n + DigitValue(c)
  {
    ValueCons(c, t);
    Distribute(n, DigitValue(c), Pow10(|t|), Value(t));
  }

  lemma Distribute(n: nat, d: nat, p: nat, v: nat)
    requires p >= 1
    ensures n * (10 * p) + (d * p + v) == (10 * n + d) * p + v
    ensures (10 * n + d) * p + v >= 10 * n + d
  {
    assert n * (10 * p) == (10 * n) * p;
    assert (10 * n) * p + d * p == (10 * n + d) * p;
    assert (10 * n + d) * p >= (10 * n + d) * 1;
  }

  /** `ParseUint` accepts exactly the non-empty digit strings whose value fits in 64 bits. */
  lemma ParseUintMeaning(s: string)
    ensures ParseUint(s).Ok? <==> s != [] && AllDigits(s) && Value(s) <= MaxUint64
    ensures ParseUint(s).Ok? ==> ParseUint(s).value == Value(s)
    ensures ParseUint(s) == Err(ErrRange) <==> Value(s[..LeadingDigits(s)]) > MaxUint64
  {
    var k := LeadingDigits(s);
    assert AllDigits(s) <==> k == |s| by {
      if k == |s| { assert s[..k] == s; }
    }
    assert k == |s| ==> s[..k] == s;
    if s == [] {
      assert s[..k] == [];
    } else {
      ScanDigitsMeaning(s, 0);
    }
  }

  // ---------------------------------------------------------------------------
  // ParseInt(s, 10, 64)

  /** The optional leading sign is `-`. */
  predicate Negative(s: string) {
    s != [] && s[0] == '-'
  }

  /** `s` without its optional leading `+` or `-`. */
  function Unsigned(s: string): (u: string)
    ensures |u| <= |s|
  {
    if s != [] && (s[0] == '+' || s[0] == '-') then s[1..] else s
  }

  /** An optional sign followed by at least one decimal digit. */
  predicate IsDecimal(s: string) {
    Unsigned(s) != [] && AllDigits(Unsigned(s))
  }

  /** The integer a signed decimal string denotes. */
  function DecimalValue(s: string): int
    requires IsDecimal(s)
  {
    if Negative(s) then -(Value(Unsigned(s)) as int) else Value(Unsigned(s))
  }

  /**
   * `strconv.ParseInt(s, 10, 64)`: an optional sign, then `ParseUint` on the
   * rest; a magnitude of 2^63 or more is a range error unless the sign is `-`,
   * where exactly 2^63 is still allowed.
   */
  function ParseInt(s: string): Result<int64, NumError>
  {
    if s == [] then Err(ErrSyntax)
    else
      var neg := s[0] == '-';
      match ParseUint(Unsigned(s))
      case Err(e) => Err(e)
      case Ok(u) =>
        if !neg && u >= 0x8000_0000_0000_0000 then Err(ErrRange)
        else if neg && u > 0x8000_0000_0000_0000 then Err(ErrRange)
        else Ok((if neg then -(u as int) else u) as int64)
  }

  /**
   * `ParseInt` accepts exactly the signed decimal strings whose value is an
   * int64 and returns that value; it reports a range error exactly when the
   * digits are too large for 64 bits or the signed value is outside int64.
   */
  lemma ParseIntMeaning(s: string)
    ensures ParseInt(s).Ok? <==> IsDecimal(s) && InInt64(DecimalValue(s))
    ensures ParseInt(s).Ok? ==> ParseInt(s).value as int == DecimalValue(s)
    ensures ParseInt(s) == Err(ErrRange) <==>
      || (IsDecimal(s) && !InInt64(DecimalValue(s)))
      || Value(Unsigned(s)[..LeadingDigits(Unsigned(s))]) > MaxUint64
  {
    var u := Unsigned(s);
    ParseUintMeaning(u);
    if IsDecimal(s) {
      assert u[..LeadingDigits(u)] == u;
    }
  }

  // ---------------------------------------------------------------------------
  // Decimal rendering: strconv.FormatUint / strconv.FormatInt with base 10

  function FormatUint(m: nat): string
  {
    if m < 10 then [DigitChar(m)] else FormatUint(m / 10) + [DigitChar(m % 10)]
  }

  /** The decimal rendering of any integer: a `-` for negatives, no leading zeros. */
  function FormatInt(z: int): string
  {
    if z < 0 then "-" + FormatUint(-z) else FormatUint(z)
  }

  lemma {:induction false} FormatUintDigits(m: nat)
    ensures FormatUint(m) != [] && AllDigits(FormatUint(m))
    ensures Value(FormatUint(m)) == m
    ensures |FormatUint(m)| > 1 ==> FormatUint(m)[0] != '0'
    decreases m
  {
    if m >= 10 {
      var prefix := FormatUint(m / 10);
      FormatUintDigits(m / 10);
      var s := prefix + [DigitChar(m % 10)];
      assert s[..|s| - 1] == prefix;
      assert AllDigits(s) by {
        forall i | 0 <= i < |s| ensures IsDigit(s[i]) {
          if i < |prefix| { assert s[i] == prefix[i]; }
        }
      }
    } else {
      assert FormatUint(m)[..0] == [];
    }
  }

  /**
   * Round trip: the decimal rendering of an integer parses back to it when it
   * is an int64, and is a range error otherwise.
   */
  lemma ParseFormatInt(z: int)
    ensures ParseInt(FormatInt(z)) == if InInt64(z) then Ok(z as int64) else Err(ErrRange)
  {
    var s := FormatInt(z);
    var m := if z < 0 then -z else z;
    FormatUintDigits(m);
    assert Unsigned(s) == FormatUint(m);
    assert Negative(s) <==> z < 0;
    ParseIntMeaning(s);
  }

  // ---------------------------------------------------------------------------
  // ParseBool / FormatBool

  /** The spellings `strconv.ParseBool` reads as true, and as false. */
  const TrueSpellings: set<string> := {"1", "t", "T", "TRUE", "true", "True"}
  const FalseSpellings: set<string> := {"0", "f", "F", "FALSE", "false", "False"}

  /** `strconv.ParseBool`: twelve fixed spellings, anything else a syntax error. */
  function ParseBool(s: string): (r: Result<bool, NumError>)
    ensures r == Ok(true) <==> s in TrueSpellings
    ensures r == Ok(false) <==> s in FalseSpellings
    ensures r.Err? <==> s !in TrueSpellings + FalseSpellings
    ensures r.Err? ==> r.error == ErrSyntax
  {
    if s == "1" || s == "t" || s == "T" || s == "TRUE" || s == "true" || s == "True" then Ok(true)
    else if s == "0" || s == "f" || s == "F" || s == "FALSE" || s == "false" || s == "False" then Ok(false)
    else Err(ErrSyntax)
  }

  function FormatBool(b: bool): string
  {
    if b then "true" else "false"
  }

  /** Round trip: `ParseBool(FormatBool(b)) == b`. */
  lemma ParseFormatBool(b: bool)
    ensures ParseBool(FormatBool(b)) == Ok(b)
  {
  }
}
