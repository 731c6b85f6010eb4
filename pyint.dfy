/**
 * Python's `str.isdigit()` (restricted to the ASCII digits), `str(int)` and
 * `int(str)`.
 */
module PyInt {
  import opened Wrappers
  import opened PyStr

  predicate IsDigit(ch: char)
  {
    '0' <= ch <= '9'
  }

  /** `s.isdigit()` restricted to the ASCII digits: false for the empty string. */
  predicate IsDigits(s: string)
  {
    |s| > 0 && forall i :: 0 <= i < |s| ==> IsDigit(s[i])
  }

  function DigitChar(d: nat): (ch: char)
    requires d < 10
    ensures IsDigit(ch)
  {
    "0123456789"[d]
  }

  function DigitValue(ch: char): (d: nat)
    requires IsDigit(ch)
    ensures d < 10
  {
    (ch as int - '0' as int) as nat
  }

  function DigitsValue(s: string): nat
    requires forall i :: 0 <= i < |s| ==> IsDigit(s[i])
  {
    if s == [] then 0 else DigitsValue(s[..|s| - 1]) * 10 + DigitValue(s[|s| - 1])
  }

  function NatToString(n: nat): (r: string)
    ensures IsDigits(r)
  {
    if n < 10 then [DigitChar(n)] else NatToString(n / 10) + [DigitChar(n % 10)]
  }

  /** `str(n)` */
  function IntToString(n: int): string
  {
    if n < 0 then "-" + NatToString(-n) else NatToString(n)
  }

  /** `int(t)` for a string without surrounding whitespace: an optional
      sign and a non-empty run of ASCII digits, anything else fails. */
  function ParseStripped(t: string): Option<int>
  {
    if t != [] && (t[0] == '-' || t[0] == '+') then
      if IsDigits(t[1..]) then
        var v: int := DigitsValue(t[1..]);
        Some(if t[0] == '-' then -v else v)
      else None
    else if IsDigits(t) then Some(DigitsValue(t))
    else None
  }

  /** `int(s)`: surrounding whitespace is ignored. */
  function ParseInt(s: string): Option<int>
  {
    ParseStripped(Strip(s))
  }

  lemma {:induction false} DigitsValueOfNat(n: nat)
    ensures DigitsValue(NatToString(n)) == n
    decreases n
  {
    var s := NatToString(n);
    if n < 10 {
      assert DigitValue(DigitChar(n)) == n by {
        assert "0123456789"[n] as int - '0' as int == n;
      }
    } else {
      DigitsValueOfNat(n / 10);
      assert s[..|s| - 1] == NatToString(n / 10);
      assert DigitValue(DigitChar(n % 10)) == n % 10 by {
        assert "0123456789"[n % 10] as int - '0' as int == n % 10;
      }
    }
  }

  /** A run of digits has no surrounding whitespace. */
  lemma StripDigits(t: string)
    requires IsDigits(t)
    ensures Strip(t) == t
  {
    assert IsDigit(t[0]) && IsDigit(t[|t| - 1]);
    StripCharsOfStripped(t, IsSpace);
  }

  /** Nor does a run of digits after a minus sign. */
  lemma StripNegative(t: string)
    requires IsDigits(t)
    ensures Strip("-" + t) == "-" + t
  {
    var signed := "-" + t;
    assert signed[0] == '-' && signed[|signed| - 1] == t[|t| - 1];
    assert IsDigit(t[|t| - 1]);
    StripCharsOfStripped(signed, IsSpace);
  }

  /** `str(n)` reads back as `n` once whitespace is out of the way. */
  lemma ParseStrippedOfIntToString(n: int)
    ensures ParseStripped(IntToString(n)) == Some(n)
  {
    var digits := NatToString(if n < 0 then -n else n);
    DigitsValueOfNat(if n < 0 then -n else n);
    assert IsDigit(digits[0]);
    if n < 0 {
      assert ("-" + digits)[0] == '-' && ("-" + digits)[1..] == digits;
    }
  }

  /** `int(str(n)) == n` */
  lemma ParseIntOfIntToString(n: int)
    ensures ParseInt(IntToString(n)) == Some(n)
  {
    if n < 0 {
      StripNegative(NatToString(-n));
    } else {
      StripDigits(NatToString(n));
    }
    ParseStrippedOfIntToString(n);
  }
}
