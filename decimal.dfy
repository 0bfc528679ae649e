/**
 * Reading numbers from text: the plain decimal forms that Python's float()
 * accepts, and the decimal-comma normalisation (str.replace(',', '.')) that the
 * engine applies to indicator values before converting them.
 */
module Decimal {
  import opened Wrappers

  predicate IsDigit(c: char) {
    '0' <= c <= '9'
  }

  predicate AllDigits(s: string) {
    forall i :: 0 <= i < |s| ==> IsDigit(s[i])
  }

  /** The value of a run of decimal digits, most significant digit first. */
  function DigitsValue(s: string): nat
    requires AllDigits(s)
  {
    if s == [] then 0 else 10 * DigitsValue(s[..|s| - 1]) + (s[|s| - 1] as int - '0' as int)
  }

  function Pow10(k: nat): (r: nat)
    ensures r >= 1
  {
    if k == 0 then 1 else 10 * Pow10(k - 1)
  }

  /** The position of the first `c` in `s`, or |s| when there is none. */
  function IndexOf<T(==)>(s: seq<T>, c: T): (i: nat)
    ensures i <= |s|
    ensures forall j :: 0 <= j < i ==> s[j] != c
    ensures i < |s| ==> s[i] == c
  {
    if s == [] then 0 else if s[0] == c then 0 else 1 + IndexOf(s[1..], c)
  }

  /** The number spelled by the digits `whole`, a point, and the digits `frac`. */
  function DecimalValue(whole: string, frac: string): real
    requires AllDigits(whole) && AllDigits(frac)
  {
    DigitsValue(whole) as real + DigitsValue(frac) as real / Pow10(|frac|) as real
  }

  /** An unsigned decimal: digits, optionally a point and more digits, at least one digit in all. */
  function ParseUnsigned(s: string): (r: Option<real>)
    ensures r.Some? ==> |s| > 0 && forall i :: 0 <= i < |s| ==> IsDigit(s[i]) || s[i] == '.'
    ensures r.Some? ==> forall i, j :: 0 <= i < j < |s| && s[i] == '.' ==> s[j] != '.'
  {
    var p := IndexOf(s, '.');
    var whole := s[..p];
    var frac := if p < |s| then s[p + 1..] else [];
    if AllDigits(whole) && AllDigits(frac) && |whole| + |frac| > 0 then
      assert forall i :: 0 <= i < |s| ==> (i == p || IsDigit(s[i])) by {
        forall i | 0 <= i < |s| ensures i == p || IsDigit(s[i]) {
          if i < p { assert s[i] == whole[i]; } else if p < i { assert s[i] == frac[i - p - 1]; }
        }
      }
      Some(DecimalValue(whole, frac))
    else
      None
  }

  /**
   * float(s) on a string: an optional sign followed by an unsigned decimal.
   * None stands for the ValueError that float() raises. A comma is never part
   * of a number Python accepts.
   */
  function ParseNumber(s: string): (r: Option<real>)
    ensures r.Some? ==> forall i :: 0 <= i < |s| ==> s[i] != ','
    ensures r.Some? ==> |s| > 0 && forall i :: 0 < i < |s| ==> s[i] != '-' && s[i] != '+'
    ensures r.Some? ==> forall i, j :: 0 <= i < j < |s| && s[i] == '.' ==> s[j] != '.'
  {
    assert |s| > 0 ==> forall i :: 0 < i < |s| ==> s[i] == s[1..][i - 1];
    if |s| > 0 && (s[0] == '-' || s[0] == '+') then
      match ParseUnsigned(s[1..])
      case Some(v) => Some(if s[0] == '-' then -v else v)
      case None => None
    else
      ParseUnsigned(s)
  }

  /** s.replace(',', '.'): every comma becomes a point, every other character stays. */
  function NormalizeComma(s: string): (r: string)
    ensures |r| == |s|
    ensures forall i :: 0 <= i < |s| ==> r[i] == (if s[i] == ',' then '.' else s[i])
    ensures forall i :: 0 <= i < |r| ==> r[i] != ','
  {
    if s == [] then [] else [if s[0] == ',' then '.' else s[0]] + NormalizeComma(s[1..])
  }

  /** The decimal digits of n, as str(n) writes them. */
  function NatToDigits(n: nat): (s: string)
    ensures |s| > 0 && AllDigits(s)
  {
    if n < 10 then [('0' as int + n) as char]
    else NatToDigits(n / 10) + [('0' as int + n % 10) as char]
  }

  lemma {:induction false} DigitsOfNat(n: nat)
    ensures DigitsValue(NatToDigits(n)) == n
  {
    if n >= 10 {
      DigitsOfNat(n / 10);
      var s := NatToDigits(n);
      assert s[..|s| - 1] == NatToDigits(n / 10);
    }
  }

  /** Reading back what str() writes for a whole number gives that number. */
  lemma ParseNatRoundTrip(n: nat)
    ensures ParseNumber(NatToDigits(n)) == Some(n as real)
  {
    var s := NatToDigits(n);
    DigitsOfNat(n);
    DigitsHaveNoPoint(s);
    assert s[..|s|] == s;
    assert IsDigit(s[0]);
  }

  lemma DigitsHaveNoPoint(s: string)
    requires AllDigits(s)
    ensures IndexOf(s, '.') == |s|
  {
  }

  /** Digits followed by a point and digits read as the decimal they spell. */
  lemma ReadPointDecimal(whole: string, frac: string)
    requires AllDigits(whole) && AllDigits(frac) && |whole| + |frac| > 0
    ensures ParseUnsigned(whole + "." + frac) == Some(DecimalValue(whole, frac))
    ensures ParseNumber(whole + "." + frac)
         == Some(DecimalValue(whole, frac))
  {
    var t := whole + "." + frac;
    ReadUnsignedPoint(whole, frac);
    assert !(t[0] == '-' || t[0] == '+') by {
      if |whole| > 0 { assert t[0] == whole[0]; }
    }
  }

  lemma ReadUnsignedPoint(whole: string, frac: string)
    requires AllDigits(whole) && AllDigits(frac) && |whole| + |frac| > 0
    ensures ParseUnsigned(whole + "." + frac) == Some(DecimalValue(whole, frac))
  {
    var t := whole + "." + frac;
    var p := IndexOf(t, '.');
    assert t[|whole|] == '.';
    assert p == |whole|;
    assert t[..p] == whole;
    assert t[p + 1..] == frac;
  }

  /** A leading minus sign negates the decimal that follows it, and a leading plus sign keeps it. */
  lemma SignedDecimalReading(sign: char, whole: string, frac: string)
    requires sign == '-' || sign == '+'
    requires AllDigits(whole) && AllDigits(frac) && |whole| + |frac| > 0
    ensures ParseNumber([sign] + (whole + "." + frac))
         == Some(if sign == '-' then -DecimalValue(whole, frac) else DecimalValue(whole, frac))
  {
    ReadUnsignedPoint(whole, frac);
    SignPrefix(sign, whole + "." + frac, DecimalValue(whole, frac));
  }

  lemma SignPrefix(sign: char, t: string, v: real)
    requires sign == '-' || sign == '+'
    requires ParseUnsigned(t) == Some(v)
    ensures ParseNumber([sign] + t) == Some(if sign == '-' then -v else v)
  {
    assert ([sign] + t)[1..] == t;
  }

  /** A string holding a comma is never a number float() accepts. */
  lemma CommaRejected(s: string, k: nat)
    requires k < |s| && s[k] == ','
    ensures ParseNumber(s) == None
  {
  }

  /**
   * A decimal-comma string "whole,frac" is read as whole + frac / 10^|frac|
   * once its comma is replaced by a point, while float() alone rejects it.
   */
  lemma DecimalCommaReading(whole: string, frac: string)
    requires AllDigits(whole) && AllDigits(frac) && |whole| + |frac| > 0
    ensures ParseNumber(whole + "," + frac) == None
    ensures ParseNumber(NormalizeComma(whole + "," + frac))
         == Some(DecimalValue(whole, frac))
  {
    var s := whole + "," + frac;
    assert s[|whole|] == ',';
    CommaRejected(s, |whole|);
    CommaBecomesPoint(whole, frac);
    ReadPointDecimal(whole, frac);
  }

  /** Replacing the one comma of "whole,frac" gives "whole.frac". */
  lemma CommaBecomesPoint(whole: string, frac: string)
    requires AllDigits(whole) && AllDigits(frac)
    ensures NormalizeComma(whole + "," + frac) == whole + "." + frac
  {
    var s, u := whole + "," + frac, whole + "." + frac;
    var t := NormalizeComma(s);
    assert |t| == |u|;
    forall i | 0 <= i < |t| ensures t[i] == u[i] {
      if i < |whole| {
        assert s[i] == whole[i] == u[i] && IsDigit(whole[i]);
      } else if i > |whole| {
        assert s[i] == frac[i - |whole| - 1] == u[i] && IsDigit(frac[i - |whole| - 1]);
      } else {
        assert s[i] == ',' && u[i] == '.';
      }
    }
  }
}
