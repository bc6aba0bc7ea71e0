/**
  The parts of Go's strconv package that the descriptor extractor relies on:
  ParseBool and Atoi (through ParseInt/ParseUint in base 10, 64-bit int).
  The extractor discards every error these return, so what matters is the
  value each yields on every input, including the ones they reject.
 */
module Strconv {

  /** The error a conversion reports alongside its value. */
  datatype NumError = NoError | ErrSyntax | ErrRange

  /** A Go `(value, err)` pair. */
  datatype Parsed<T> = Parsed(value: T, err: NumError)

  const MaxUint64: int := 0xFFFF_FFFF_FFFF_FFFF
  const MaxInt64: int := 0x7FFF_FFFF_FFFF_FFFF
  const MinInt64: int := -0x8000_0000_0000_0000

  /** The smallest n with n * 10 > MaxUint64: ParseUint's overflow guard for base 10. */
  const Cutoff10: int := MaxUint64 / 10 + 1

  /** The spellings ParseBool accepts for true and for false. */
  const TrueLiterals: set<string> := {"1", "t", "T", "TRUE", "true", "True"}
  const FalseLiterals: set<string> := {"0", "f", "F", "FALSE", "false", "False"}

  // ---------------------------------------------------------------------------
  // ParseBool / FormatBool

  /** strconv.ParseBool: one of the six true spellings, one of the six false
      spellings, or a syntax error with value false. */
  function ParseBool(s: string): (r: Parsed<bool>)
    ensures r.value <==> s in TrueLiterals
    ensures r.err == NoError <==> s in TrueLiterals + FalseLiterals
    ensures r.err != NoError ==> r == Parsed(false, ErrSyntax)
  {
    if s == "1" || s == "t" || s == "T" || s == "TRUE" || s == "true" || s == "True" then
      Parsed(true, NoError)
    else if s == "0" || s == "f" || s == "F" || s == "FALSE" || s == "false" || s == "False" then
      Parsed(false, NoError)
    else
      Parsed(false, ErrSyntax)
  }

  /** strconv.FormatBool; ParseBool reads it back. */
  function FormatBool(b: bool): (s: string)
    ensures ParseBool(s) == Parsed(b, NoError)
  {
    if b then "true" else "false"
  }

  // ---------------------------------------------------------------------------
  // Decimal digits

  predicate IsDigit(c: char) {
    '0' <= c <= '9'
  }

  predicate AllDigits(s: string) {
    forall i | 0 <= i < |s| :: IsDigit(s[i])
  }

  function DigitValue(c: char): (d: nat)
    requires IsDigit(c)
    ensures d < 10
  {
    c as int - '0' as int
  }

  function DigitChar(d: nat): (c: char)
    requires d < 10
    ensures IsDigit(c) && DigitValue(c) == d
  {
    ('0' as int + d) as char
  }

  function Pow10(k: nat): (r: nat)
    ensures r >= 1
  {
    if k == 0 then 1 else 10 * Pow10(k - 1)
  }

  /** The number a string of decimal digits denotes, most significant first. */
  function DecimalValue(s: string): nat
    requires AllDigits(s)
  {
    if s == [] then 0 else DigitValue(s[0]) * Pow10(|s| - 1) + DecimalValue(s[1..])
  }

  /** Index of the first non-digit of s, or |s| when every character is a digit. */
  function DigitRun(s: string): (k: nat)
    ensures k <= |s| && AllDigits(s[..k])
    ensures k < |s| ==> !IsDigit(s[k])
  {
    if s == [] || !IsDigit(s[0]) then 0
    else
      var k := 1 + DigitRun(s[1..]);
      assert s[..k] == [s[0]] + s[1..][..k - 1];
      k
  }

  // ---------------------------------------------------------------------------
  // ParseUint / ParseInt / Atoi

  /** The digit loop of strconv.ParseUint(s, 10, 64), continuing from the
      accumulator n: a non-digit is a syntax error with value 0; a step that
      would exceed MaxUint64 stops at once with a range error and value
      MaxUint64, whatever follows. */
  function ScanDigits(s: string, n: nat): (r: Parsed<nat>)
    requires n <= MaxUint64
    ensures r.value <= MaxUint64
    ensures r.err == ErrSyntax ==> r.value == 0
    ensures r.err == ErrRange ==> r.value == MaxUint64
    decreases |s|
  {
    if s == [] then Parsed(n, NoError)
    else if !IsDigit(s[0]) then Parsed(0, ErrSyntax)
    else if n >= Cutoff10 then Parsed(MaxUint64, ErrRange)
    else
      var n1 := n * 10 + DigitValue(s[0]);
      if n1 > MaxUint64 then Parsed(MaxUint64, ErrRange) else ScanDigits(s[1..], n1)
  }

  /** strconv.ParseUint(s, 10, 64). */
  function ParseUint(s: string): (r: Parsed<nat>)
    ensures r.value <= MaxUint64
  {
    if s == "" then Parsed(0, ErrSyntax) else ScanDigits(s, 0)
  }

  /** strconv.ParseInt(s, 10, 64): an optional sign, then ParseUint; a
      magnitude out of the int64 range is clamped and reported as a range
      error. (Go computes -int64(un) with wrap-around; for un <= 2^63 that
      wrap-around yields exactly -un, which is what is written here.) */
  function ParseInt(s: string): (r: Parsed<int>)
    ensures MinInt64 <= r.value <= MaxInt64
    ensures r.err == ErrSyntax ==> r.value == 0
  {
    if s == "" then Parsed(0, ErrSyntax)
    else
      var neg := s[0] == '-';
      var digits := Unsigned(s);
      var un := ParseUint(digits);
      if un.err == ErrSyntax then Parsed(0, ErrSyntax)
      else if !neg && un.value > MaxInt64 then Parsed(MaxInt64, ErrRange)
      else if neg && un.value > -MinInt64 then Parsed(MinInt64, ErrRange)
      else
        var m: int := un.value;
        Parsed(if neg then -m else m, NoError)
  }

  /** The fast path of strconv.Atoi, taken for strings of 1 to 18 bytes: an
      optional sign and then digits only. */
  function AtoiFastPath(s: string): (r: Parsed<int>)
    requires 0 < |s| < 19
  {
    var digits := Unsigned(s);
    if digits == [] || !AllDigits(digits) then Parsed(0, ErrSyntax)
    else
      var v: int := DecimalValue(digits);
      Parsed(if s[0] == '-' then -v else v, NoError)
  }

  /** strconv.Atoi on a 64-bit platform: the fast path for 1 to 18 bytes,
      ParseInt(s, 10, 0) otherwise. */
  function Atoi(s: string): (r: Parsed<int>)
    ensures r == ParseInt(s)
  {
    if 0 < |s| < 19 then AtoiFastPathAgrees(s); AtoiFastPath(s) else ParseInt(s)
  }

  /** strconv.Itoa / FormatInt(n, 10). */
  function FormatInt(n: int): (s: string)
    ensures |s| > 0
  {
    if n < 0 then "-" + Digits(-n) else Digits(n)
  }

  /** The decimal digits of n, without leading zeros. */
  function Digits(n: nat): (s: string)
    ensures |s| > 0 && AllDigits(s)
  {
    if n < 10 then [DigitChar(n)] else Digits(n / 10) + [DigitChar(n % 10)]
  }

  // ---------------------------------------------------------------------------
  // Lemmas

  lemma {:induction false} DecimalValueAppend(s: string, c: char)
    requires AllDigits(s) && IsDigit(c)
    ensures AllDigits(s + [c])
    ensures DecimalValue(s + [c]) == DecimalValue(s) * 10 + DigitValue(c)
  {
    var t := s + [c];
    assert AllDigits(t) by {
      forall i | 0 <= i < |t| ensures IsDigit(t[i]) {
        if i < |s| { assert t[i] == s[i]; }
      }
    }
    if s == [] {
      assert t[1..] == [];
    } else {
      assert t[1..] == s[1..] + [c];
      DecimalValueAppend(s[1..], c);
      var d0 := DigitValue(s[0]);
      var p := Pow10(|s| - 1);
      assert Pow10(|t| - 1) == 10 * p;
      calc {
        DecimalValue(t);
        d0 * (10 * p) + DecimalValue(s[1..] + [c]);
        d0 * (10 * p) + DecimalValue(s[1..]) * 10 + DigitValue(c);
        { assert d0 * (10 * p) == (d0 * p) * 10; }
        (d0 * p + DecimalValue(s[1..])) * 10 + DigitValue(c);
      }
    }
  }

  /** Digits is read back by DecimalValue. */
  lemma {:induction false} DigitsValue(n: nat)
    ensures DecimalValue(Digits(n)) == n
  {
    if n < 10 {
      assert Digits(n)[1..] == [];
    } else {
      DigitsValue(n / 10);
      DecimalValueAppend(Digits(n / 10), DigitChar(n % 10));
    }
  }

  /** A digit string of at most k digits denotes less than 10^k. */
  lemma {:induction false} DecimalValueBound(s: string)
    requires AllDigits(s)
    ensures DecimalValue(s) < Pow10(|s|)
  {
    if s != [] {
      DecimalValueBound(s[1..]);
      MulMonotone(DigitValue(s[0]), 9, Pow10(|s| - 1));
    }
  }

  lemma MulMonotone(a: nat, b: nat, p: nat)
    requires a <= b
    ensures a * p <= b * p
  {
  }

  /** Shifting the accumulator by one digit before scaling by p. */
  lemma ShiftDigit(n: nat, d: nat, p: nat)
    ensures n * (10 * p) + d * p == (n * 10 + d) * p
  {
  }

  /** The digit loop on digits only: the accumulated value when it fits in
      64 bits, a range error otherwise. */
  lemma {:induction false} ScanAllDigits(s: string, n: nat)
    requires n <= MaxUint64 && AllDigits(s)
    ensures var v := n * Pow10(|s|) + DecimalValue(s);
      ScanDigits(s, n) == if v <= MaxUint64 then Parsed(v, NoError) else Parsed(MaxUint64, ErrRange)
  {
    if s != [] {
      var d := DigitValue(s[0]);
      var p := Pow10(|s| - 1);
      var n1 := n * 10 + d;
      var v := n * Pow10(|s|) + DecimalValue(s);
      assert Pow10(|s|) == 10 * p;
      ShiftDigit(n, d, p);
      assert v == n1 * p + DecimalValue(s[1..]);
      MulMonotone(1, p, n1);
      if n >= Cutoff10 {
        assert v > MaxUint64;
      } else if n1 > MaxUint64 {
        assert v > MaxUint64;
      } else {
        ScanAllDigits(s[1..], n1);
      }
    }
  }

  /** The digit loop meets a non-digit before its value leaves 64 bits: a
      syntax error with value 0. */
  lemma {:induction false} ScanStopsAtNonDigit(s: string, n: nat)
    requires n <= MaxUint64
    requires DigitRun(s) < |s|
    requires n * Pow10(DigitRun(s)) + DecimalValue(s[..DigitRun(s)]) <= MaxUint64
    ensures ScanDigits(s, n) == Parsed(0, ErrSyntax)
  {
    var k := DigitRun(s);
    if k > 0 {
      var d := DigitValue(s[0]);
      var p := Pow10(k - 1);
      var n1 := n * 10 + d;
      var rest := s[1..];
      assert DigitRun(rest) == k - 1;
      assert s[..k][1..] == rest[..k - 1];
      assert s[..k][0] == s[0];
      assert Pow10(k) == 10 * p;
      ShiftDigit(n, d, p);
      assert n * Pow10(k) + DecimalValue(s[..k]) == n1 * p + DecimalValue(rest[..k - 1]);
      MulMonotone(1, p, n1);
      ScanStopsAtNonDigit(rest, n1);
    }
  }

  /** The digit loop leaves 64 bits within the leading run of digits: a
      range error with value MaxUint64, whatever follows the run. */
  lemma {:induction false} ScanOverflowsInDigitRun(s: string, n: nat)
    requires n <= MaxUint64
    requires n * Pow10(DigitRun(s)) + DecimalValue(s[..DigitRun(s)]) > MaxUint64
    ensures ScanDigits(s, n) == Parsed(MaxUint64, ErrRange)
  {
    var k := DigitRun(s);
    assert k > 0;
    var d := DigitValue(s[0]);
    var p := Pow10(k - 1);
    var n1 := n * 10 + d;
    var rest := s[1..];
    assert DigitRun(rest) == k - 1;
    assert s[..k][1..] == rest[..k - 1];
    assert s[..k][0] == s[0];
    assert Pow10(k) == 10 * p;
    ShiftDigit(n, d, p);
    assert n * Pow10(k) + DecimalValue(s[..k]) == n1 * p + DecimalValue(rest[..k - 1]);
    if n < Cutoff10 && n1 <= MaxUint64 {
      ScanOverflowsInDigitRun(rest, n1);
    }
  }

  /** The unsigned part that ParseInt hands to ParseUint. */
  function Unsigned(s: string): string
  {
    if s != [] && (s[0] == '+' || s[0] == '-') then s[1..] else s
  }

  /** The int64 range, saturating. */
  function ClampInt64(v: int): (r: int)
    ensures MinInt64 <= r <= MaxInt64
    ensures MinInt64 <= v <= MaxInt64 ==> r == v
    ensures v > MaxInt64 ==> r == MaxInt64
    ensures v < MinInt64 ==> r == MinInt64
  {
    if v > MaxInt64 then MaxInt64 else if v < MinInt64 then MinInt64 else v
  }

  /** Atoi of a sign and a non-empty run of digits is the denoted number,
      saturated to the int64 range; the error says whether it saturated. */
  lemma AtoiDecimal(s: string)
    requires Unsigned(s) != [] && AllDigits(Unsigned(s))
    ensures var m: int := DecimalValue(Unsigned(s)); var v := if s[0] == '-' then -m else m;
      Atoi(s) == Parsed(ClampInt64(v), if MinInt64 <= v <= MaxInt64 then NoError else ErrRange)
  {
    var u := Unsigned(s);
    ScanAllDigits(u, 0);
    assert 0 * Pow10(|u|) == 0;
  }

  /** Atoi of a string whose unsigned part is empty, or holds a non-digit that
      the digit loop reaches before overflowing, is 0 with a syntax error. */
  lemma AtoiSyntaxError(s: string)
    requires var u := Unsigned(s);
      u == [] || (DigitRun(u) < |u| && DecimalValue(u[..DigitRun(u)]) <= MaxUint64)
    ensures Atoi(s) == Parsed(0, ErrSyntax)
  {
    var u := Unsigned(s);
    if u != [] {
      assert 0 * Pow10(DigitRun(u)) == 0;
      ScanStopsAtNonDigit(u, 0);
    }
  }

  /** Atoi of a string whose leading run of digits after the sign already
      exceeds 64 bits is saturated with a range error, even when a non-digit
      follows the run: the digit loop overflows before it reaches it. */
  lemma AtoiOverflowBeforeNonDigit(s: string)
    requires var u := Unsigned(s); DecimalValue(u[..DigitRun(u)]) > MaxUint64
    ensures Atoi(s) == Parsed(if s[0] == '-' then MinInt64 else MaxInt64, ErrRange)
  {
    var u := Unsigned(s);
    assert 0 * Pow10(DigitRun(u)) == 0;
    ScanOverflowsInDigitRun(u, 0);
  }

  /** Round trip: Atoi reads back what FormatInt writes, over the int64 range. */
  lemma AtoiFormatInt(n: int)
    requires MinInt64 <= n <= MaxInt64
    ensures Atoi(FormatInt(n)) == Parsed(n, NoError)
  {
    var s := FormatInt(n);
    var m: nat := if n < 0 then -n else n;
    assert Digits(m)[0] != '+' && Digits(m)[0] != '-' by { assert IsDigit(Digits(m)[0]); }
    assert Unsigned(s) == Digits(m);
    DigitsValue(m);
    AtoiDecimal(s);
  }

  /** The fast path computes what ParseInt computes, value and error class. */
  lemma AtoiFastPathAgrees(s: string)
    requires 0 < |s| < 19
    ensures AtoiFastPath(s) == ParseInt(s)
  {
    var u := Unsigned(s);
    if u != [] && AllDigits(u) {
      DecimalValueBound(u);
      Pow10Monotone(|u|, 18);
      Pow10Of18();
      ScanAllDigits(u, 0);
      assert 0 * Pow10(|u|) == 0;
    } else if u != [] {
      var k := DigitRun(u);
      DecimalValueBound(u[..k]);
      Pow10Monotone(k, 18);
      Pow10Of18();
      assert 0 * Pow10(k) == 0;
      ScanStopsAtNonDigit(u, 0);
    }
  }

  lemma {:induction false} Pow10Monotone(i: nat, j: nat)
    requires i <= j
    ensures Pow10(i) <= Pow10(j)
  {
    if i < j { Pow10Monotone(i, j - 1); }
  }

  lemma Pow10Of18()
    ensures Pow10(18) == 1_000_000_000_000_000_000
  {
    assert Pow10(2) == 100;
    assert Pow10(4) == 10_000;
    assert Pow10(6) == 1_000_000;
    assert Pow10(8) == 100_000_000;
    assert Pow10(10) == 10_000_000_000;
    assert Pow10(12) == 1_000_000_000_000;
    assert Pow10(14) == 100_000_000_000_000;
    assert Pow10(16) == 10_000_000_000_000_000;
  }
}
