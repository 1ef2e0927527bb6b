/**
 * Byte-string helpers shared by the builders: the CRLF separator, decimal
 * rendering as done by `%d` and `str(int)`, decimal parsing as done by `int()`
 * on a string of digits, and lower-case hexadecimal as done by `%x`.
 * Bytes and text are both `string`: every modelled `.encode()`/`.decode()`
 * is the identity.
 */
module Octets {
  import opened Results

  const CRLF: string := "\r\n"

  /** In a concatenation x + y + z, the slice after x of length |y| is y. */
  lemma SliceMiddle(x: string, y: string, z: string)
    ensures (x + y + z)[|x|..|x| + |y|] == y
  {
    assert (x + y + z)[|x|..|x| + |y|] == (x + y)[|x|..];
  }

  /** a + b starts with a and ends with b. */
  lemma PrefixSuffix(a: string, b: string)
    ensures |a + b| == |a| + |b|
    ensures (a + b)[..|a|] == a
    ensures (a + b)[|a + b| - |b|..] == b
  {
  }

  /** The four pieces of a + b + c + d can be sliced back out. */
  lemma Slices4(a: string, b: string, c: string, d: string)
    ensures var s := a + b + c + d;
      && |s| == |a| + |b| + |c| + |d|
      && s[..|a|] == a
      && s[|a|..|a| + |b|] == b
      && s[|a| + |b|..|a| + |b| + |c|] == c
      && s[|a| + |b| + |c|..] == d
  {
    var s := a + b + c + d;
    assert s[..|a|] == a;
    SliceMiddle(a, b, c + d);
    assert a + b + c + d == a + b + (c + d);
    SliceMiddle(a + b, c, d);
  }

  predicate IsDigit(c: char) { '0' <= c <= '9' }

  predicate AllDigits(s: string) { forall i :: 0 <= i < |s| ==> IsDigit(s[i]) }

  function DigitChar(d: nat): (c: char)
    requires d < 10
    ensures IsDigit(c) && c as int - '0' as int == d
  {
    ('0' as int + d) as char
  }

  /** `str(n)` / `b"%d" % n` for a non-negative integer: no sign, no leading zero. */
  function Decimal(n: nat): (s: string)
    ensures |s| > 0 && AllDigits(s)
    ensures s[0] == '0' ==> n == 0
    decreases n
  {
    if n < 10 then [DigitChar(n)] else Decimal(n / 10) + [DigitChar(n % 10)]
  }

  /** The value of a string of decimal digits, most significant first. */
  function DigitsValue(s: string): nat
    requires AllDigits(s)
    decreases |s|
  {
    if s == [] then 0
    else DigitsValue(s[..|s| - 1]) * 10 + (s[|s| - 1] as int - '0' as int)
  }

  /** `int(s)` restricted to strings made only of decimal digits; anything else is a ValueError. */
  function ParseDecimal(s: string): (r: Result<nat>)
    ensures r.Ok? <==> |s| > 0 && AllDigits(s)
    ensures r.Err? ==> r.error == ValueError
  {
    if |s| > 0 && AllDigits(s) then Ok(DigitsValue(s)) else Err(ValueError)
  }

  /** Parsing the decimal rendering of a number gives the number back. */
  lemma {:induction false} DecimalRoundTrip(n: nat)
    ensures ParseDecimal(Decimal(n)) == Ok(n)
    decreases n
  {
    if n >= 10 {
      DecimalRoundTrip(n / 10);
      var s := Decimal(n);
      assert s[..|s| - 1] == Decimal(n / 10);
      assert DigitsValue(s) == DigitsValue(Decimal(n / 10)) * 10 + n % 10;
    }
  }

  /** Distinct numbers have distinct decimal renderings. */
  lemma DecimalInjective(m: nat, n: nat)
    requires Decimal(m) == Decimal(n)
    ensures m == n
  {
    DecimalRoundTrip(m);
    DecimalRoundTrip(n);
  }

  // ---- lower-case hexadecimal, `%x` and `%032x` ----

  predicate IsLowerHexDigit(c: char) { '0' <= c <= '9' || 'a' <= c <= 'f' }

  function LowerHexDigit(d: nat): (c: char)
    requires d < 16
    ensures IsLowerHexDigit(c)
  {
    if d < 10 then ('0' as int + d) as char else ('a' as int + d - 10) as char
  }

  function LowerHexValue(c: char): (d: nat)
    requires IsLowerHexDigit(c)
    ensures d < 16
  {
    if c <= '9' then c as int - '0' as int else c as int - 'a' as int + 10
  }

  lemma LowerHexDigitValue(d: nat)
    requires d < 16
    ensures LowerHexValue(LowerHexDigit(d)) == d
  {
  }

  function Pow16(k: nat): (p: nat)
    ensures p >= 1
  {
    if k == 0 then 1 else 16 * Pow16(k - 1)
  }

  /** `b"%x" % n`: shortest lower-case hexadecimal rendering of n. */
  function Hex(n: nat): (s: string)
    ensures |s| > 0
    ensures forall i :: 0 <= i < |s| ==> IsLowerHexDigit(s[i])
    ensures s[0] == '0' ==> n == 0
    decreases n
  {
    if n < 16 then [LowerHexDigit(n)] else Hex(n / 16) + [LowerHexDigit(n % 16)]
  }

  /** Value of a non-empty or empty string of lower-case hex digits. */
  function HexValue(s: string): nat
    requires forall i :: 0 <= i < |s| ==> IsLowerHexDigit(s[i])
    decreases |s|
  {
    if s == [] then 0 else HexValue(s[..|s| - 1]) * 16 + LowerHexValue(s[|s| - 1])
  }

  function Zeros(k: nat): (z: string)
    ensures |z| == k && forall i :: 0 <= i < k ==> z[i] == '0'
  {
    seq(k, _ => '0')
  }

  /** `b"%0*x" % (width, n)`: hexadecimal zero-padded on the left to at least width digits. */
  function PadHex(n: nat, width: nat): string
  {
    var h := Hex(n);
    if |h| < width then Zeros(width - |h|) + h else h
  }

  /** `b"%032x" % n`. */
  function Hex32(n: nat): string
  {
    PadHex(n, 32)
  }

  lemma {:induction false} HexLength(n: nat, k: nat)
    requires 1 <= k && n < Pow16(k)
    ensures |Hex(n)| <= k
    decreases k
  {
    if n >= 16 {
      assert k > 1;
      assert n / 16 < Pow16(k - 1);
      HexLength(n / 16, k - 1);
    }
  }

  lemma {:induction false} HexRoundTrip(n: nat)
    ensures HexValue(Hex(n)) == n
    decreases n
  {
    if n >= 16 {
      HexRoundTrip(n / 16);
      var s := Hex(n);
      assert s[..|s| - 1] == Hex(n / 16);
      LowerHexDigitValue(n % 16);
    } else {
      LowerHexDigitValue(n);
    }
  }

  lemma {:induction false} LeadingZerosValue(k: nat, s: string)
    requires forall i :: 0 <= i < |s| ==> IsLowerHexDigit(s[i])
    ensures forall i :: 0 <= i < |Zeros(k) + s| ==> IsLowerHexDigit((Zeros(k) + s)[i])
    ensures HexValue(Zeros(k) + s) == HexValue(s)
    decreases |s|
  {
    var t := Zeros(k) + s;
    assert forall i :: 0 <= i < |t| ==> IsLowerHexDigit(t[i]) by {
      forall i | 0 <= i < |t| ensures IsLowerHexDigit(t[i]) {
        if i < k { assert t[i] == '0'; } else { assert t[i] == s[i - k]; }
      }
    }
    if s == [] {
      assert t == Zeros(k);
      ZerosValue(k);
    } else {
      LeadingZerosValue(k, s[..|s| - 1]);
      assert t[..|t| - 1] == Zeros(k) + s[..|s| - 1];
      assert t[|t| - 1] == s[|s| - 1];
    }
  }

  lemma {:induction false} ZerosValue(k: nat)
    ensures HexValue(Zeros(k)) == 0
    decreases k
  {
    if k > 0 {
      assert Zeros(k)[..k - 1] == Zeros(k - 1);
      ZerosValue(k - 1);
    }
  }

  /** The integer of a `uuid.UUID`: 128 bits. */
  type Uuid = n: nat | n < 0x1_0000_0000_0000_0000_0000_0000_0000_0000

  lemma {:induction false} Pow16Uuid()
    ensures Pow16(32) == 0x1_0000_0000_0000_0000_0000_0000_0000_0000
  {
    assert Pow16(8) == 0x1_0000_0000 by {
      assert Pow16(4) == 0x1_0000 by {
        assert Pow16(2) == 0x100;
      }
    }
    assert Pow16(16) == Pow16(8) * Pow16(8) by { Pow16Add(8, 8); }
    assert Pow16(32) == Pow16(16) * Pow16(16) by { Pow16Add(16, 16); }
  }

  lemma {:induction false} Pow16Add(a: nat, b: nat)
    ensures Pow16(a + b) == Pow16(a) * Pow16(b)
    decreases a
  {
    if a > 0 {
      Pow16Add(a - 1, b);
      assert Pow16(a + b) == 16 * Pow16(a - 1 + b);
    }
  }

  /** A number below 16^width pads to exactly width hex digits that read back as the number. */
  lemma PadHexShape(n: nat, width: nat)
    requires 1 <= width && n < Pow16(width)
    ensures |PadHex(n, width)| == width
    ensures forall i :: 0 <= i < width ==> IsLowerHexDigit(PadHex(n, width)[i])
    ensures HexValue(PadHex(n, width)) == n
  {
    HexLength(n, width);
    HexRoundTrip(n);
    LeadingZerosValue(width - |Hex(n)|, Hex(n));
  }

  /**
   * For a 128-bit integer, `%032x` gives exactly 32 lower-case hex digits
   * whose value is that integer.
   */
  lemma Hex32Shape(n: nat)
    requires n < Pow16(32)
    ensures |Hex32(n)| == 32
    ensures forall i :: 0 <= i < 32 ==> IsLowerHexDigit(Hex32(n)[i])
    ensures HexValue(Hex32(n)) == n
  {
    PadHexShape(n, 32);
  }
}
