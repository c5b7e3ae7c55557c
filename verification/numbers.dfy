/** Decimal numerals: Python's `float(text)` for the plain decimal forms the
    downloader prints, and `str(n)` / `f"{n}"` for natural numbers. */
module Numbers {
  import opened Wrappers
  import opened Text

  function DigitValue(c: char): (d: nat)
    requires IsDigit(c)
    ensures d < 10
  {
    c as int - '0' as int
  }

  function DigitChar(d: nat): (c: char)
    requires d < 10
    ensures IsDigit(c) && DigitValue(c) == d
  {
    ('0' as int + d) as char
  }

  /** The value of a string of decimal digits, most significant first. */
  function DigitsValue(ds: string): nat
    requires AllDigits(ds)
  {
    if ds == [] then 0 else DigitsValue(ds[..|ds| - 1]) * 10 + DigitValue(ds[|ds| - 1])
  }

  /** The value of the digits after a decimal point: `.25` is 0.25. */
  function FractionValue(ds: string): (v: real)
    requires AllDigits(ds)
    ensures 0.0 <= v <= 1.0
  {
    if ds == [] then 0.0 else (DigitValue(ds[0]) as real + FractionValue(ds[1..])) / 10.0
  }

  /** `str(n)`: the shortest decimal numeral of `n`. */
  function NatToString(n: nat): (r: string)
    ensures |r| >= 1 && AllDigits(r)
    ensures DigitsValue(r) == n
    ensures r[0] == '0' ==> r == "0"
  {
    if n < 10 then [DigitChar(n)]
    else
      var init := NatToString(n / 10);
      var r := init + [DigitChar(n % 10)];
      assert r[..|r| - 1] == init;
      r
  }

  /** The forms `float()` accepts that are modelled here: digits, digits with
      a fraction, or a bare fraction (`12`, `12.`, `12.5`, `.5`). */
  function UnsignedDecimal(t: string): (r: Option<real>)
    ensures r.Some? ==> r.value >= 0.0
  {
    if |t| > 0 && AllDigits(t) then Some(DigitsValue(t) as real)
    else match Find(t, ".")
      case None => None
      case Some(k) =>
        var whole, frac := t[..k], t[k + 1..];
        if AllDigits(whole) && AllDigits(frac) && |whole| + |frac| > 0
        then Some(DigitsValue(whole) as real + FractionValue(frac))
        else None
  }

  /** `float(text)`: surrounding whitespace is ignored, one sign is allowed,
      and anything else that is not a decimal numeral fails (`None`). */
  function ParseNumber(text: string): (r: Option<real>)
  {
    var t := Strip(text);
    if |t| > 0 && t[0] == '-' then
      match UnsignedDecimal(t[1..])
      case Some(v) => Some(-v)
      case None => None
    else if |t| > 0 && t[0] == '+' then UnsignedDecimal(t[1..])
    else UnsignedDecimal(t)
  }

  /** `float(str(n)) == n`, also with the surrounding whitespace a line of
      output carries (the newline that `readline()` keeps). */
  lemma ParseNatToString(n: nat, pad: string)
    requires AllSpace(pad)
    ensures ParseNumber(NatToString(n) + pad) == Some(n as real)
  {
    var r := NatToString(n);
    assert Trimmed(r) by {
      assert IsDigit(r[0]) && IsDigit(r[|r| - 1]);
    }
    assert Strip(r + pad) == r by {
      StripPadded([], r, pad);
      assert [] + r + pad == r + pad;
    }
    assert r[0] != '-' && r[0] != '+' by {
      assert IsDigit(r[0]);
    }
    assert UnsignedDecimal(r) == Some(n as real);
  }

  /** A text with no digit at all is never a number (`float("NA")` raises). */
  lemma NoDigitsNoNumber(text: string)
    requires forall k :: 0 <= k < |text| ==> !IsDigit(text[k])
    ensures ParseNumber(text) == None
  {
    var t := Strip(text);
    assert forall k :: 0 <= k < |t| ==> !IsDigit(t[k]) by {
      var n := LeadingSpaces(text);
      var u := text[n..];
      assert forall k :: 0 <= k < |t| ==> t[k] == u[k];
    }
    NoDigitsUnsigned(t);
    if |t| > 0 {
      NoDigitsUnsigned(t[1..]);
    }
  }

  lemma NoDigitsUnsigned(t: string)
    requires forall k :: 0 <= k < |t| ==> !IsDigit(t[k])
    ensures UnsignedDecimal(t) == None
  {
    if |t| > 0 {
      assert !AllDigits(t) by { assert !IsDigit(t[0]); }
    }
    match Find(t, ".")
    case None =>
    case Some(k) =>
      var whole, frac := t[..k], t[k + 1..];
      if |whole| > 0 {
        assert !IsDigit(whole[0]);
      } else if |frac| > 0 {
        assert !IsDigit(frac[0]) by { assert frac[0] == t[k + 1]; }
      }
  }
}
