/** `format_num`: a count rendered as a plain integer below one thousand,
    with one decimal and a "K" suffix below one million, and with one decimal
    and an "M" suffix from one million on. */
module Formatting {
  import opened Campaign

  predicate IsDigit(c: char)
  {
    '0' <= c <= '9'
  }

  predicate AllDigits(s: string)
  {
    forall i :: 0 <= i < |s| ==> IsDigit(s[i])
  }

  function DigitChar(d: nat): (c: char)
    requires d < 10
    ensures IsDigit(c)
  {
    (('0' as int) + d) as char
  }

  function DigitValue(c: char): (d: nat)
    requires IsDigit(c)
    ensures d < 10 && DigitChar(d) == c
  {
    (c as int) - ('0' as int)
  }

  /** `str(n)` for a non-negative integer: its decimal digits, without
      leading zeros. */
  function NatToString(n: nat): (s: string)
    ensures |s| > 0 && AllDigits(s)
    ensures s[0] == '0' <==> n == 0
    ensures n < 10 ==> |s| == 1
    ensures n < 1000 ==> |s| <= 3
  {
    if n < 10 then [DigitChar(n)]
    else NatToString(n / 10) + [DigitChar(n % 10)]
  }

  /** The value of a string of decimal digits. */
  function ParseDecimal(s: string): nat
    requires AllDigits(s)
  {
    if s == [] then 0
    else ParseDecimal(s[..|s| - 1]) * 10 + DigitValue(s[|s| - 1])
  }

  /** Reading back what `str` wrote gives the number again. */
  lemma {:induction false} ParseNatToString(n: nat)
    ensures ParseDecimal(NatToString(n)) == n
  {
    var s := NatToString(n);
    if n >= 10 {
      ParseNatToString(n / 10);
      assert s[..|s| - 1] == NatToString(n / 10);
    } else {
      assert s[..0] == [];
    }
  }

  lemma {:induction false} ParseDecimalPositive(s: string)
    requires |s| > 0 && AllDigits(s) && s[0] != '0'
    ensures ParseDecimal(s) > 0
  {
    if |s| > 1 {
      ParseDecimalPositive(s[..|s| - 1]);
    }
  }

  /** Conversely, every digit string without a leading zero is what `str`
      writes for its value: the rendering is canonical. */
  lemma {:induction false} NatToStringParse(s: string)
    requires |s| > 0 && AllDigits(s) && (s[0] == '0' ==> |s| == 1)
    ensures NatToString(ParseDecimal(s)) == s
  {
    if |s| == 1 {
      assert s[..0] == [];
    } else {
      var prefix := s[..|s| - 1];
      ParseDecimalPositive(prefix);
      NatToStringParse(prefix);
      assert prefix + [s[|s| - 1]] == s;
    }
  }

  /** `n / d` rounded to tenths, half to even, as a count of tenths: the
      error `10 * n - t * d` is at most half of `d` either way, and on an
      exact half the even neighbour is taken. */
  function Tenths(n: nat, d: nat): (t: nat)
    requires d > 0
    ensures var e := 10 * n - t * d;
      -(d as int) <= 2 * e <= d && (2 * e == d || 2 * e == -(d as int) ==> t % 2 == 0)
  {
    var q, r := (10 * n) / d, (10 * n) % d;
    var t := if 2 * r > d || (2 * r == d && q % 2 == 1) then q + 1 else q;
    TenthsError(10 * n, d, q, r, t);
    t
  }

  /** Rounding the quotient `q` of `x / d` up exactly when the remainder `r`
      is past half of `d`, or at half with `q` odd, leaves an error of at
      most half of `d`, and an exact half only for an even result. */
  lemma TenthsError(x: nat, d: nat, q: nat, r: nat, t: nat)
    requires d > 0 && q == x / d && r == x % d
    requires t == if 2 * r > d || (2 * r == d && q % 2 == 1) then q + 1 else q
    ensures var e := x - t * d;
      -(d as int) <= 2 * e <= d && (2 * e == d || 2 * e == -(d as int) ==> t % 2 == 0)
  {
    var e := x - t * d;
    assert x == q * d + r;
    assert 0 <= r < d;
    if t == q + 1 {
      assert t * d == q * d + d;
      assert e == r - d;
    } else {
      assert e == r;
    }
  }

  lemma MulDistance(k: int, t: int, d: nat)
    requires k != t
    ensures k * d - t * d >= d || t * d - k * d >= d
  {
    if k > t {
      var a := k - t - 1;
      assert k * d == t * d + d + a * d;
    } else {
      var a := t - k - 1;
      assert t * d == k * d + d + a * d;
    }
  }

  /** When `d` divides `10 * n`, the rounding is exact. */
  lemma TenthsExact(n: nat, d: nat, k: nat)
    requires d > 0 && 10 * n == k * d
    ensures Tenths(n, d) == k
  {
    var t := Tenths(n, d);
    if t != k {
      MulDistance(k, t, d);
    }
  }

  /** `{x:.1f}`: the integer part, a point, and one decimal digit. */
  function OneDecimal(t: nat): (s: string)
    ensures |s| >= 3 && s[|s| - 2] == '.' && AllDigits(s[..|s| - 2]) && IsDigit(s[|s| - 1])
    ensures forall i :: 0 <= i < |s| ==> IsDigit(s[i]) || s[i] == '.'
  {
    NatToString(t / 10) + "." + [DigitChar(t % 10)]
  }

  /** The power of one thousand that `format_num` divides by. */
  function Scale(n: nat): (d: nat)
    ensures d == 1 || d == 1000 || d == 1_000_000
  {
    if n >= 1_000_000 then 1_000_000 else if n >= 1_000 then 1_000 else 1
  }

  /** `format_num(n)`. */
  function FormatNum(n: nat): (s: string)
    ensures |s| > 0 && '*' !in s && '\U{2705}' !in s
  {
    if n >= 1_000_000 then OneDecimal(Tenths(n, 1_000_000)) + "M"
    else if n >= 1_000 then OneDecimal(Tenths(n, 1_000)) + "K"
    else NatToString(n)
  }

  /** What a reader of the dashboard takes from a formatted count: a number
      of tenths and the unit they are in (1, 1000 or 1000000). */
  datatype Reading = Reading(tenths: nat, scale: nat)

  /** Read a formatted count back: a plain digit string, or a one-decimal
      number followed by "K" or "M". */
  function ReadBack(s: string): Option<Reading>
  {
    if |s| >= 4 && (s[|s| - 1] == 'K' || s[|s| - 1] == 'M') then
      var body := s[..|s| - 1];
      var whole := body[..|body| - 2];
      if body[|body| - 2] == '.' && AllDigits(whole) && IsDigit(body[|body| - 1]) then
        Some(Reading(ParseDecimal(whole) * 10 + DigitValue(body[|body| - 1]),
                     if s[|s| - 1] == 'K' then 1_000 else 1_000_000))
      else None
    else if |s| > 0 && AllDigits(s) then Some(Reading(10 * ParseDecimal(s), 1))
    else None
  }

  lemma ReadBackOneDecimal(t: nat, suffix: char)
    requires suffix == 'K' || suffix == 'M'
    ensures ReadBack(OneDecimal(t) + [suffix]) ==
      Some(Reading(t, if suffix == 'K' then 1_000 else 1_000_000))
  {
    var s := OneDecimal(t) + [suffix];
    var body := s[..|s| - 1];
    assert body == OneDecimal(t);
    assert body[..|body| - 2] == NatToString(t / 10);
    ParseNatToString(t / 10);
  }

  /** The suffix is chosen by threshold, each inclusive at its lower bound,
      and the number read back from the result is within half a tenth of a
      unit of `n` (exact below one thousand). */
  lemma FormatNumReadBack(n: nat)
    ensures var s := FormatNum(n);
      (s[|s| - 1] == 'M' <==> n >= 1_000_000) &&
      (s[|s| - 1] == 'K' <==> 1_000 <= n < 1_000_000) &&
      (n < 1_000 ==> s == NatToString(n) && AllDigits(s) && |s| <= 3) &&
      ReadBack(s).Some? && ReadBack(s).value.scale == Scale(n) &&
      var t := ReadBack(s).value.tenths;
      -(Scale(n) as int) <= 2 * (t * Scale(n) - 10 * n) <= Scale(n) &&
      (n < 1_000 ==> t == 10 * n)
  {
    var s := FormatNum(n);
    if n >= 1_000_000 {
      ReadBackOneDecimal(Tenths(n, 1_000_000), 'M');
    } else if n >= 1_000 {
      ReadBackOneDecimal(Tenths(n, 1_000), 'K');
    } else {
      ParseNatToString(n);
      assert IsDigit(s[|s| - 1]);
    }
  }

  /** On multiples of a hundred (in thousands) or of a hundred thousand (in
      millions) the rendering is exact: the tenths read back times the unit
      are ten times `n`. */
  lemma FormatNumExact(n: nat)
    requires n < 1_000 || (n < 1_000_000 && n % 100 == 0) || n % 100_000 == 0
    ensures ReadBack(FormatNum(n)).Some? &&
      ReadBack(FormatNum(n)).value.tenths * Scale(n) == 10 * n
  {
    if n >= 1_000_000 {
      var k := n / 100_000;
      assert 10 * n == k * 1_000_000;
      TenthsExact(n, 1_000_000, k);
      ReadBackOneDecimal(k, 'M');
    } else if n >= 1_000 {
      var k := n / 100;
      assert 10 * n == k * 1_000;
      TenthsExact(n, 1_000, k);
      ReadBackOneDecimal(k, 'K');
    } else {
      FormatNumReadBack(n);
    }
  }

  /** The boundary cases of the thresholds. */
  lemma FormatNumExamples()
    ensures FormatNum(999) == "999"
    ensures FormatNum(1_000) == "1.0K"
    ensures FormatNum(1_500_000) == "1.5M"
  {
    assert NatToString(9) == "9";
    assert NatToString(99) == "99";
    assert Tenths(1_000, 1_000) == 10;
    assert NatToString(1) == "1";
    assert Tenths(1_500_000, 1_000_000) == 15;
  }
}
