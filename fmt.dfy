/**
 * The two pieces of Go's `fmt` the request builders rely on: `%d` on an
 * integer (URL ports) and `%v` on a configuration value (extras, insert rows).
 */
module Fmt {
  import opened Wrappers
  import opened ClientTypes

  function DigitChar(d: nat): (c: char)
    requires d < 10
    ensures '0' <= c <= '9'
  {
    "0123456789"[d]
  }

  /** `%d` of a non-negative integer: its decimal digits, without leading zeros. */
  function NatToString(n: nat): (s: string)
    ensures |s| > 0
    decreases n
  {
    if n < 10 then [DigitChar(n)] else NatToString(n / 10) + [DigitChar(n % 10)]
  }

  predicate AllDigits(s: string) {
    forall i :: 0 <= i < |s| ==> '0' <= s[i] <= '9'
  }

  /** `%d` of a non-negative integer consists of decimal digits only. */
  lemma {:induction false} NatToStringDigits(n: nat)
    ensures AllDigits(NatToString(n))
    decreases n
  {
    if n >= 10 {
      NatToStringDigits(n / 10);
      var s := NatToString(n);
      assert s[..|s| - 1] == NatToString(n / 10);
    }
  }

  /** `%d` of an integer: a minus sign for negative values, then the digits. */
  function IntToString(n: int): (s: string)
    ensures |s| > 0
    ensures s[0] == '-' <==> n < 0
  {
    if n < 0 then "-" + NatToString(-n)
    else
      NatToStringDigits(n);
      NatToString(n)
  }

  /** Reads back a non-empty string of decimal digits. */
  function ParseNat(s: string): (r: Option<nat>)
    decreases |s|
  {
    if |s| == 0 || !('0' <= s[|s| - 1] <= '9') then None
    else
      var d := (s[|s| - 1] as int) - ('0' as int);
      if |s| == 1 then Some(d)
      else match ParseNat(s[..|s| - 1])
        case None => None
        case Some(m) => Some(10 * m + d)
  }

  /** Reads back an optionally signed decimal integer. */
  function ParseInt(s: string): (r: Option<int>)
  {
    if |s| > 0 && s[0] == '-' then
      match ParseNat(s[1..])
      case None => None
      case Some(m) => Some(-(m as int))
    else
      match ParseNat(s)
      case None => None
      case Some(m) => Some(m)
  }

  lemma {:induction false} ParseNatToString(n: nat)
    ensures ParseNat(NatToString(n)) == Some(n)
    decreases n
  {
    var s := NatToString(n);
    if n >= 10 {
      ParseNatToString(n / 10);
      assert s[..|s| - 1] == NatToString(n / 10);
    }
  }

  /** Decimal digits contain neither URL separator. */
  lemma DigitsHaveNoSeparators(s: string)
    requires AllDigits(s)
    ensures ':' !in s && '/' !in s
  {
  }

  /** A leading '-' negates whatever the rest reads as. */
  lemma ParseSigned(t: string, m: nat)
    requires ParseNat(t) == Some(m)
    ensures ParseInt("-" + t) == Some(-(m as int))
  {
    assert ("-" + t)[1..] == t;
  }

  /** A negative number prints as '-' followed by the digits of its magnitude. */
  lemma NegativeForm(n: int)
    requires n < 0
    ensures IntToString(n) == "-" + NatToString(-n)
  {
  }

  lemma NegativeRoundTrip(n: int)
    requires n < 0
    ensures ParseInt(IntToString(n)) == Some(n)
  {
    NegativeForm(n);
    ParseNatToString(-n);
    ParseSigned(NatToString(-n), -n);
  }

  /** Neither separator occurs in the printed form of a negative number. */
  lemma NegativeHasNoSeparators(n: int)
    requires n < 0
    ensures ':' !in IntToString(n) && '/' !in IntToString(n)
  {
    NatToStringDigits(-n);
    DigitsHaveNoSeparators(NatToString(-n));
  }

  /** The `%d` rendering of a port is read back exactly; it holds no ':' or '/'. */
  lemma IntToStringRoundTrip(n: int)
    ensures ParseInt(IntToString(n)) == Some(n)
    ensures ':' !in IntToString(n) && '/' !in IntToString(n)
  {
    if n < 0 {
      NegativeRoundTrip(n);
      NegativeHasNoSeparators(n);
    } else {
      var t := NatToString(n);
      ParseNatToString(n);
      NatToStringDigits(n);
      DigitsHaveNoSeparators(t);
      assert t[0] != '-';
      assert ParseInt(t) == ParseNat(t);
    }
  }

  /** Ten to the power `k`. */
  function Pow10(k: nat): (p: nat)
    ensures p >= 1
  {
    if k == 0 then 1 else 10 * Pow10(k - 1)
  }

  /** `k` zero digits. */
  function Zeros(k: nat): string {
    seq(k, _ => '0')
  }

  /** A digit string with its trailing zeros removed, keeping at least one digit. */
  function StripZeros(s: string): (t: string)
    requires |s| > 0
    ensures 0 < |t| <= |s| && t == s[..|t|]
    ensures forall i :: |t| <= i < |s| ==> s[i] == '0'
    ensures |t| > 1 ==> t[|t| - 1] != '0'
    decreases |s|
  {
    if |s| > 1 && s[|s| - 1] == '0' then StripZeros(s[..|s| - 1]) else s
  }

  /** The significant digits of a positive magnitude: its decimal digits without trailing zeros. */
  function Significand(m: nat): string {
    StripZeros(NatToString(m))
  }

  /** The decimal exponent of a positive magnitude: one less than its digit count. */
  function Exponent(m: nat): nat {
    |NatToString(m)| - 1
  }

  /**
   * `%e` of a magnitude with the shortest significand: the leading digit, a
   * point and the remaining significant digits when there are any, then `e+`
   * and the exponent written with at least two digits.
   */
  function ScientificText(m: nat): string {
    var d := Significand(m);
    var e := Exponent(m);
    (if |d| == 1 then d else d[..1] + "." + d[1..]) + "e+" + (if e < 10 then "0" else "") + NatToString(e)
  }

  /**
   * `%v` of an integral float64: plain decimal while the magnitude is below
   * 10^6, exponent form from 10^6 on (1700000000 prints as "1.7e+09").
   */
  function FloatToString(n: int): (s: string)
    ensures 'e' in s <==> n <= -1000000 || 1000000 <= n
    ensures -1000000 < n < 1000000 ==> s == IntToString(n)
  {
    if -1000000 < n < 1000000 then
      NoExponentInDecimal(n);
      IntToString(n)
    else
      var text := ScientificText(if n < 0 then -n else n);
      assert 'e' in text by {
        var d := Significand(if n < 0 then -n else n);
        var mantissa := if |d| == 1 then d else d[..1] + "." + d[1..];
        assert text[|mantissa|] == 'e';
      }
      if n < 0 then "-" + text else text
  }

  /** Decimal digits hold no exponent marker. */
  lemma DigitsHaveNoExponent(s: string)
    requires AllDigits(s)
    ensures 'e' !in s
  {
  }

  /** Decimal `%d` output holds no exponent marker. */
  lemma NoExponentInDecimal(n: int)
    ensures 'e' !in IntToString(n)
  {
    var t := NatToString(if n < 0 then -n else n);
    NatToStringDigits(if n < 0 then -n else n);
    DigitsHaveNoExponent(t);
    assert IntToString(n) == (if n < 0 then "-" else "") + t;
    assert 'e' !in (if n < 0 then "-" else "");
  }

  /** A positive number's decimal form does not start with '0'. */
  lemma {:induction false} LeadingDigitNonZero(m: nat)
    requires m > 0
    ensures NatToString(m)[0] != '0'
    decreases m
  {
    if m >= 10 {
      LeadingDigitNonZero(m / 10);
    } else {
      assert "0123456789"[m] != '0';
    }
  }

  /** A number of at least 10^k has more than `k` digits. */
  lemma {:induction false} DigitCount(m: nat, k: nat)
    requires m >= Pow10(k)
    ensures |NatToString(m)| > k
    decreases k
  {
    if k > 0 {
      assert m / 10 >= Pow10(k - 1);
      DigitCount(m / 10, k - 1);
    }
  }

  /** A non-empty string of decimal digits reads back as some number. */
  lemma {:induction false} ParseNatOfDigits(s: string)
    requires |s| > 0 && AllDigits(s)
    ensures ParseNat(s).Some?
    decreases |s|
  {
    if |s| > 1 {
      var p := s[..|s| - 1];
      assert forall i :: 0 <= i < |p| ==> p[i] == s[i];
      ParseNatOfDigits(p);
    }
  }

  /** Appending one zero digit multiplies the value read by ten. */
  lemma ParseNatAppendZero(u: string, v: nat)
    requires ParseNat(u) == Some(v)
    ensures ParseNat(u + "0") == Some(10 * v)
  {
    var w := u + "0";
    assert w[..|w| - 1] == u;
  }

  /** Appending `k` zero digits multiplies the value read by 10^k. */
  lemma {:induction false} ParseNatZeros(t: string, v: nat, k: nat)
    requires ParseNat(t) == Some(v)
    ensures ParseNat(t + Zeros(k)) == Some(v * Pow10(k))
    decreases k
  {
    if k == 0 {
      assert t + Zeros(0) == t;
    } else {
      ParseNatZeros(t, v, k - 1);
      var u := t + Zeros(k - 1);
      assert t + Zeros(k) == u + "0";
      ParseNatAppendZero(u, v * Pow10(k - 1));
      var p := Pow10(k - 1);
      assert Pow10(k) == 10 * p;
      TimesTenCommutes(v, p);
    }
  }

  /** A digit string is its significant digits followed by the zeros stripped from it. */
  lemma StripZerosSplit(s: string)
    requires |s| > 0
    ensures s == StripZeros(s) + Zeros(|s| - |StripZeros(s)|)
  {
    var t := StripZeros(s);
    var z := Zeros(|s| - |t|);
    assert forall i :: 0 <= i < |s| ==> s[i] == (t + z)[i];
  }

  /** A float64 of magnitude at least 10^6 has an exponent of at least 6. */
  lemma ExponentAtLeastSix(m: nat)
    requires m >= 1000000
    ensures Exponent(m) >= 6
  {
    assert Pow10(6) == 1000000 by {
      assert Pow10(2) == 100;
      assert Pow10(4) == 10000;
    }
    DigitCount(m, 6);
  }

  /** The significant digits of a positive magnitude start and end with a non-zero digit. */
  lemma SignificandEnds(m: nat)
    requires m > 0
    ensures Significand(m)[0] != '0' && Significand(m)[|Significand(m)| - 1] != '0'
  {
    var s := NatToString(m);
    var d := Significand(m);
    LeadingDigitNonZero(m);
    assert d[0] == s[0];
  }

  /** The significant digits of a positive magnitude are decimal digits. */
  lemma SignificandDigits(m: nat)
    requires m > 0
    ensures AllDigits(Significand(m))
  {
    var s := NatToString(m);
    var d := Significand(m);
    NatToStringDigits(m);
    assert forall i :: 0 <= i < |d| ==> d[i] == s[i];
  }

  /** Digits that read as `m` and are `d` followed by zeros: `d` scaled back up gives `m`. */
  lemma StrippedValue(s: string, d: string, m: nat, v: nat)
    requires ParseNat(s) == Some(m) && ParseNat(d) == Some(v)
    requires |d| <= |s| && s == d + Zeros(|s| - |d|)
    ensures v * Pow10(|s| - |d|) == m
  {
    ParseNatZeros(d, v, |s| - |d|);
  }

  /** The significant digits, scaled by ten to the number of stripped zeros, read back as the magnitude. */
  lemma SignificandValue(m: nat)
    requires m > 0
    ensures ParseNat(Significand(m)).Some?
    ensures ParseNat(Significand(m)).value * Pow10(|NatToString(m)| - |Significand(m)|) == m
  {
    var s := NatToString(m);
    var d := Significand(m);
    SignificandDigits(m);
    ParseNatOfDigits(d);
    StripZerosSplit(s);
    ParseNatToString(m);
    StrippedValue(s, d, m, ParseNat(d).value);
  }

  /**
   * The exponent form of a float64 of magnitude at least 10^6 denotes the
   * magnitude: its significant digits, read as a whole number and scaled by
   * ten to the exponent less the digits after the point, give `m` back. The
   * significand is the shortest one (no trailing zero, a non-zero leading
   * digit) and the exponent is at least 6.
   */
  lemma ScientificDenotes(m: nat)
    requires m >= 1000000
    ensures Exponent(m) >= 6
    ensures |Significand(m)| <= Exponent(m) + 1
    ensures Significand(m)[0] != '0' && Significand(m)[|Significand(m)| - 1] != '0'
    ensures ParseNat(Significand(m)).Some?
    ensures ParseNat(Significand(m)).value * Pow10(Exponent(m) + 1 - |Significand(m)|) == m
  {
    ExponentAtLeastSix(m);
    SignificandEnds(m);
    SignificandValue(m);
  }

  /** `%d` of ten times a positive number is its digits followed by a zero. */
  lemma NatToStringTimesTen(n: nat)
    requires n > 0
    ensures NatToString(10 * n) == NatToString(n) + "0"
  {
    var m := 10 * n;
    assert m / 10 == n && m % 10 == 0;
    assert DigitChar(0) == '0';
  }

  lemma TimesTenCommutes(a: nat, p: nat)
    ensures a * (10 * p) == 10 * (a * p)
  {
  }

  /** `%d` of a positive number times 10^k is its digits followed by `k` zeros. */
  lemma {:induction false} NatToStringShift(a: nat, k: nat)
    requires a > 0
    ensures NatToString(a * Pow10(k)) == NatToString(a) + Zeros(k)
    decreases k
  {
    if k == 0 {
      assert NatToString(a) + Zeros(0) == NatToString(a);
    } else {
      NatToStringShift(a, k - 1);
      var p := Pow10(k - 1);
      var n := a * p;
      assert Pow10(k) == 10 * p;
      TimesTenCommutes(a, p);
      NatToStringTimesTen(n);
      assert NatToString(a) + Zeros(k) == NatToString(a) + Zeros(k - 1) + "0";
    }
  }

  /** Stripping the zeros padded onto digits that end in a non-zero digit gives those digits back. */
  lemma {:induction false} StripZerosOfPadded(t: string, k: nat)
    requires |t| > 0 && t[|t| - 1] != '0'
    ensures StripZeros(t + Zeros(k)) == t
    decreases k
  {
    if k == 0 {
      assert t + Zeros(0) == t;
    } else {
      StripZerosOfPadded(t, k - 1);
      var u := t + Zeros(k);
      assert u[..|u| - 1] == t + Zeros(k - 1);
    }
  }

  /** From 10^6 on a float64 prints in exponent form: 10^6 as "1e+06". */
  lemma MillionExample()
    ensures FloatToString(1000000) == "1e+06"
  {
    assert Pow10(6) == 1000000 by {
      assert Pow10(3) == 1000;
    }
    NatToStringShift(1, 6);
    assert NatToString(1) == "1";
    StripZerosOfPadded("1", 6);
    assert Exponent(1000000) == 6;
    assert NatToString(6) == "6";
  }

  /** A Unix timestamp decoded as a float64 prints as "1.7e+09". */
  lemma TimestampExample()
    ensures FloatToString(1700000000) == "1.7e+09"
  {
    assert Pow10(8) == 100000000 by {
      assert Pow10(4) == 10000;
    }
    assert 1700000000 == 17 * Pow10(8);
    NatToStringShift(17, 8);
    assert NatToString(17) == "17";
    StripZerosOfPadded("17", 8);
    assert Exponent(1700000000) == 9;
    assert NatToString(9) == "9";
    assert "17"[..1] + "." + "17"[1..] == "1.7";
  }

  /**
   * `%v` of a configuration value: a string prints as itself, a float64 as
   * Go prints it, a Go `int` in decimal whatever its size, anything else as
   * the text recorded for it.
   */
  function Show(v: Val): (s: string)
    ensures v.Str? ==> s == v.s
    ensures v.Num? ==> ('e' in s <==> v.n <= -1000000 || 1000000 <= v.n)
    ensures v.GoInt? ==> 'e' !in s && ParseInt(s) == Some(v.i)
  {
    match v
    case Str(s) => s
    case Num(n) => FloatToString(n)
    case GoInt(i) =>
      NoExponentInDecimal(i);
      IntToStringRoundTrip(i);
      IntToString(i)
    case Other(shown) => shown
  }
}
