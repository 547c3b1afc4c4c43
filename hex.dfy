/** Fixed-width lowercase hexadecimal rendering of trace and span ids, as
    Python's `format(n, "0{width}x")`. */
module Hex {
  import opened PyValues

  const HexChars: string := "0123456789abcdef"

  function Pow16(k: nat): (r: nat)
    ensures r >= 1
  {
    if k == 0 then 1 else 16 * Pow16(k - 1)
  }

  predicate IsLowerHex(s: string) {
    forall i :: 0 <= i < |s| ==> s[i] in HexChars
  }

  function DigitValue(c: char): (d: nat)
    requires c in HexChars
    ensures d < 16 && HexChars[d] == c
  {
    if c == '0' then 0 else if c == '1' then 1 else if c == '2' then 2
    else if c == '3' then 3 else if c == '4' then 4 else if c == '5' then 5
    else if c == '6' then 6 else if c == '7' then 7 else if c == '8' then 8
    else if c == '9' then 9 else if c == 'a' then 10 else if c == 'b' then 11
    else if c == 'c' then 12 else if c == 'd' then 13 else if c == 'e' then 14
    else 15
  }

  /** The shortest hexadecimal text of `n` ("0" for zero). */
  function Digits(n: nat): (s: string)
    decreases n
  {
    if n < 16 then [HexChars[n]] else Digits(n / 16) + [HexChars[n % 16]]
  }

  function Zeros(k: nat): (s: string)
    ensures |s| == k && forall i :: 0 <= i < k ==> s[i] == '0'
  {
    seq(k, _ => '0')
  }

  /** `format(n, "0{width}x")`: the digits of `n`, left-padded with zeros to `width`;
      a number that needs more digits is not truncated. */
  function Format(n: nat, width: nat): string {
    var d := Digits(n);
    if |d| >= width then d else Zeros(width - |d|) + d
  }

  /** `_hex(n, width)` (neatlogs/otel/new_processor.py:22-25). */
  function HexId(n: Option<nat>, width: nat): Option<string> {
    match n
    case None => None
    case Some(v) => Some(Format(v, width))
  }

  /** Reads lowercase hexadecimal text back as a number. */
  function ParseHex(s: string): nat
    requires IsLowerHex(s)
  {
    if s == [] then 0 else 16 * ParseHex(s[..|s| - 1]) + DigitValue(s[|s| - 1])
  }

  lemma {:induction false} DigitsAreHex(n: nat)
    ensures IsLowerHex(Digits(n)) && |Digits(n)| >= 1
    decreases n
  {
    if n >= 16 { DigitsAreHex(n / 16); }
  }

  lemma {:induction false} DigitsFit(n: nat, w: nat)
    requires 1 <= w && n < Pow16(w)
    ensures |Digits(n)| <= w
    decreases w
  {
    if n >= 16 {
      assert w >= 2;
      assert n / 16 < Pow16(w - 1);
      DigitsFit(n / 16, w - 1);
    }
  }

  lemma {:induction false} DigitsNeeded(n: nat, w: nat)
    requires n >= Pow16(w)
    ensures |Digits(n)| > w
    decreases w
  {
    if w > 0 {
      assert n / 16 >= Pow16(w - 1);
      DigitsNeeded(n / 16, w - 1);
    }
  }

  lemma DigitValueInverse(d: nat)
    requires d < 16
    ensures DigitValue(HexChars[d]) == d
  {
    if d < 8 {
      if d < 4 { assert d == 0 || d == 1 || d == 2 || d == 3; }
      else { assert d == 4 || d == 5 || d == 6 || d == 7; }
    } else {
      if d < 12 { assert d == 8 || d == 9 || d == 10 || d == 11; }
      else { assert d == 12 || d == 13 || d == 14 || d == 15; }
    }
  }

  lemma {:induction false} ParseDigits(n: nat)
    ensures IsLowerHex(Digits(n)) && ParseHex(Digits(n)) == n
    decreases n
  {
    DigitsAreHex(n);
    var d := Digits(n);
    if n < 16 {
      DigitValueInverse(n);
      assert d[..|d| - 1] == [];
    } else {
      assert d[..|d| - 1] == Digits(n / 16);
      assert d[|d| - 1] == HexChars[n % 16];
      DigitValueInverse(n % 16);
      ParseDigits(n / 16);
    }
  }

  lemma {:induction false} ParseZeroPadded(k: nat, s: string)
    requires IsLowerHex(s)
    ensures IsLowerHex(Zeros(k) + s) && ParseHex(Zeros(k) + s) == ParseHex(s)
    decreases |s|
  {
    var t := Zeros(k) + s;
    if s == [] {
      assert t == Zeros(k);
      ParseZeros(k);
    } else {
      assert t[..|t| - 1] == Zeros(k) + s[..|s| - 1];
      ParseZeroPadded(k, s[..|s| - 1]);
    }
  }

  lemma {:induction false} ParseZeros(k: nat)
    ensures IsLowerHex(Zeros(k)) && ParseHex(Zeros(k)) == 0
    decreases k
  {
    if k > 0 {
      assert Zeros(k)[..k - 1] == Zeros(k - 1);
      ParseZeros(k - 1);
    }
  }

  /** For an id that fits in `width` digits (zero included) the text is exactly
      `width` lowercase hex characters and reads back as the id. */
  lemma {:induction false} HexIdRoundTrip(n: nat, width: nat)
    requires 1 <= width && n < Pow16(width)
    ensures HexId(Some(n), width).Some?
    ensures var s := HexId(Some(n), width).value;
      |s| == width && IsLowerHex(s) && ParseHex(s) == n
  {
    DigitsFit(n, width);
    ParseDigits(n);
    var d := Digits(n);
    if |d| < width {
      ParseZeroPadded(width - |d|, d);
    }
  }

  /** An absent id stays absent. */
  lemma HexIdNone(width: nat)
    ensures HexId(None, width) == None
  {
  }

  /** An id too large for `width` digits widens the text instead of being cut. */
  lemma {:induction false} HexIdWidens(n: nat, width: nat)
    requires n >= Pow16(width)
    ensures HexId(Some(n), width) == Some(Digits(n)) && |Digits(n)| > width
  {
    DigitsNeeded(n, width);
  }

  /** Any id renders to non-empty text, so it is always truthy. */
  lemma {:induction false} HexIdNonEmpty(n: nat, width: nat)
    ensures HexId(Some(n), width).Some? && |HexId(Some(n), width).value| >= 1
  {
    DigitsAreHex(n);
  }
}
