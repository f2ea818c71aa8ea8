/** Decimal numerals and the zero-padding helper `pad` (index.js:24-28). */
module Padding {

  predicate IsDigit(c: char) {
    '0' <= c <= '9'
  }

  predicate AllDigits(s: string) {
    forall k :: 0 <= k < |s| ==> IsDigit(s[k])
  }

  function DigitChar(d: nat): (c: char)
    requires d < 10
    ensures IsDigit(c)
    ensures c == '0' <==> d == 0
  {
    ('0' as int + d) as char
  }

  function DigitValue(c: char): (d: nat)
    requires IsDigit(c)
    ensures d < 10 && DigitChar(d) == c
  {
    c as int - '0' as int
  }

  /** The numeral JavaScript produces for a non-negative integer (`num + ""`):
      its decimal digits, most significant first, without leading zeros. */
  function Decimal(n: nat): (s: string)
    ensures 1 <= |s| && AllDigits(s)
    ensures s[0] == '0' ==> n == 0
    decreases n
  {
    if n < 10 then [DigitChar(n)] else Decimal(n / 10) + [DigitChar(n % 10)]
  }

  /** The number a string of decimal digits denotes (leading zeros allowed). */
  function Value(s: string): nat
    requires AllDigits(s)
    decreases |s|
  {
    if s == [] then 0 else Value(s[..|s| - 1]) * 10 + DigitValue(s[|s| - 1])
  }

  function Pow10(k: nat): (p: nat)
    ensures p >= 1
  {
    if k == 0 then 1 else 10 * Pow10(k - 1)
  }

  function Zeros(k: nat): (z: string)
    ensures |z| == k && forall j :: 0 <= j < k ==> z[j] == '0'
  {
    seq(k, _ => '0')
  }

  /** Reading a numeral back gives the number it was written from. */
  lemma {:induction false} ValueOfDecimal(n: nat)
    ensures Value(Decimal(n)) == n
  {
    if n >= 10 {
      var s := Decimal(n);
      assert s[..|s| - 1] == Decimal(n / 10);
      ValueOfDecimal(n / 10);
    }
  }

  /** A numeral of a number below 10^k has at most k digits. */
  lemma {:induction false} DecimalLength(n: nat, k: nat)
    requires 1 <= k && n < Pow10(k)
    ensures |Decimal(n)| <= k
  {
    if n >= 10 {
      assert k != 1;
      assert n / 10 < Pow10(k - 1);
      DecimalLength(n / 10, k - 1);
    }
  }

  lemma {:induction false} ValueOfZeros(k: nat)
    ensures Value(Zeros(k)) == 0
  {
    if k > 0 {
      assert Zeros(k)[..k - 1] == Zeros(k - 1);
      ValueOfZeros(k - 1);
    }
  }

  /** Leading zeros do not change the number a numeral denotes. */
  lemma {:induction false} ValueIgnoresLeadingZeros(k: nat, s: string)
    requires AllDigits(s)
    ensures Value(Zeros(k) + s) == Value(s)
    decreases |s|
  {
    if s == [] {
      assert Zeros(k) + s == Zeros(k);
      ValueOfZeros(k);
    } else {
      var t := Zeros(k) + s;
      assert t[..|t| - 1] == Zeros(k) + s[..|s| - 1];
      ValueIgnoresLeadingZeros(k, s[..|s| - 1]);
    }
  }

  /** What `pad(num, size)` returns: the numeral of `num`, preceded only by
      '0' characters, as long as `size` or as the numeral, whichever is longer. */
  function Padded(num: nat, size: int): (s: string)
    ensures |s| == if size > |Decimal(num)| then size else |Decimal(num)|
    ensures AllDigits(s)
    ensures s[|s| - |Decimal(num)|..] == Decimal(num)
    ensures forall k :: 0 <= k < |s| - |Decimal(num)| ==> s[k] == '0'
    ensures |Decimal(num)| >= size ==> s == Decimal(num)
  {
    var digits := Decimal(num);
    Zeros(if size > |digits| then size - |digits| else 0) + digits
  }

  /** Padding is reversible: the padded numeral still denotes `num`. */
  lemma PaddedValue(num: nat, size: int)
    ensures Value(Padded(num, size)) == num
  {
    var digits := Decimal(num);
    var fill := if size > |digits| then size - |digits| else 0;
    assert Padded(num, size) == Zeros(fill) + digits;
    ValueIgnoresLeadingZeros(fill, digits);
    ValueOfDecimal(num);
  }

  /** `pad` (index.js:24-28): prepend '0' until the string is `size` long. */
  method Pad(num: nat, size: int) returns (s: string)
    ensures s == Padded(num, size)
  {
    ghost var digits := Decimal(num);
    s := Decimal(num);
    while |s| < size
      invariant |digits| <= |s|
      invariant |s| > |digits| ==> |s| <= size
      invariant s == Zeros(|s| - |digits|) + digits
      decreases size - |s|
    {
      assert "0" + Zeros(|s| - |digits|) == Zeros(|s| + 1 - |digits|);
      s := "0" + s;
    }
  }
}
