/**
 * Arbitrary-precision bit operations and number rendering, as JavaScript's
 * BigInt and `toString()` provide them: permission bitmasks are ORed together
 * and rendered as decimal strings; message flags are ORed the same way.
 */
module Bits {

  /** 2 to the power i. */
  function Pow2(i: nat): (r: nat)
    ensures r >= 1
  {
    if i == 0 then 1 else 2 * Pow2(i - 1)
  }

  /** Bit i of n is set. */
  predicate TestBit(n: nat, i: nat)
  {
    if i == 0 then n % 2 == 1 else TestBit(n / 2, i - 1)
  }

  /** Bitwise OR of two naturals (BigInt `|`). */
  function Or(a: nat, b: nat): nat
    decreases a + b
  {
    if a == 0 then b
    else if b == 0 then a
    else 2 * Or(a / 2, b / 2) + (if a % 2 == 1 || b % 2 == 1 then 1 else 0)
  }

  lemma {:induction false} ZeroHasNoBits(i: nat)
    ensures !TestBit(0, i)
  {
    if i > 0 {
      ZeroHasNoBits(i - 1);
    }
  }

  /** A bit of `a | b` is set exactly when it is set in `a` or in `b`. */
  lemma {:induction false} OrBits(a: nat, b: nat, i: nat)
    ensures TestBit(Or(a, b), i) <==> TestBit(a, i) || TestBit(b, i)
    decreases a + b
  {
    if a == 0 {
      ZeroHasNoBits(i);
    } else if b == 0 {
      ZeroHasNoBits(i);
    } else {
      var q := Or(a / 2, b / 2);
      var c := if a % 2 == 1 || b % 2 == 1 then 1 else 0;
      assert Or(a, b) == 2 * q + c;
      assert (2 * q + c) / 2 == q && (2 * q + c) % 2 == c;
      if i > 0 {
        OrBits(a / 2, b / 2, i - 1);
      }
    }
  }

  /** The single-bit value 2^j has exactly bit j set. */
  lemma {:induction false} Pow2Bits(j: nat, i: nat)
    ensures TestBit(Pow2(j), i) <==> i == j
  {
    if j == 0 {
      if i > 0 {
        ZeroHasNoBits(i - 1);
      }
    } else if i > 0 {
      Pow2Bits(j - 1, i - 1);
    }
  }

  /** Left fold of `|` starting from `acc`, as `values.reduce((a, c) => a | c, acc)`. */
  function OrAll(acc: nat, values: seq<nat>): nat
    decreases |values|
  {
    if values == [] then acc else OrAll(Or(acc, values[0]), values[1..])
  }

  /** A bit of the folded OR is set exactly when it is set in the start value or in some value. */
  lemma {:induction false} OrAllBits(acc: nat, values: seq<nat>, i: nat)
    ensures TestBit(OrAll(acc, values), i) <==>
            TestBit(acc, i) || exists k :: 0 <= k < |values| && TestBit(values[k], i)
    decreases |values|
  {
    if values != [] {
      OrAllBits(Or(acc, values[0]), values[1..], i);
      OrBits(acc, values[0], i);
      if exists k :: 0 <= k < |values| && TestBit(values[k], i) {
        var k :| 0 <= k < |values| && TestBit(values[k], i);
        if k > 0 {
          assert values[1..][k - 1] == values[k];
        }
      }
      forall k | 0 <= k < |values| - 1 && TestBit(values[1..][k], i)
        ensures exists k' :: 0 <= k' < |values| && TestBit(values[k'], i)
      {
        assert values[k + 1] == values[1..][k];
      }
    }
  }

  /** `a & ~b` on naturals: the bits of a that b lacks. */
  function AndNot(a: nat, b: nat): nat
    decreases a
  {
    if a == 0 then 0
    else 2 * AndNot(a / 2, b / 2) + (if a % 2 == 1 && b % 2 == 0 then 1 else 0)
  }

  lemma {:induction false} AndNotBits(a: nat, b: nat, i: nat)
    ensures TestBit(AndNot(a, b), i) <==> TestBit(a, i) && !TestBit(b, i)
    decreases a
  {
    if a == 0 {
      ZeroHasNoBits(i);
    } else {
      var q := AndNot(a / 2, b / 2);
      var c := if a % 2 == 1 && b % 2 == 0 then 1 else 0;
      assert (2 * q + c) / 2 == q && (2 * q + c) % 2 == c;
      if i > 0 {
        AndNotBits(a / 2, b / 2, i - 1);
      }
    }
  }

  /** Every positive number has a set bit. */
  lemma {:induction false} NonZeroHasBit(n: nat) returns (i: nat)
    requires n > 0
    ensures TestBit(n, i)
    decreases n
  {
    if n % 2 == 1 {
      i := 0;
    } else {
      var k := NonZeroHasBit(n / 2);
      i := k + 1;
    }
  }

  /** `a & ~b` is zero exactly when every bit of a is also a bit of b. */
  lemma AndNotZero(a: nat, b: nat)
    ensures AndNot(a, b) == 0 <==> forall i: nat :: TestBit(a, i) ==> TestBit(b, i)
  {
    forall i: nat
      ensures TestBit(AndNot(a, b), i) <==> TestBit(a, i) && !TestBit(b, i)
    {
      AndNotBits(a, b, i);
    }
    if AndNot(a, b) == 0 {
      forall i: nat | TestBit(a, i) ensures TestBit(b, i) {
        ZeroHasNoBits(i);
        AndNotBits(a, b, i);
      }
    } else {
      var k := NonZeroHasBit(AndNot(a, b));
      AndNotBits(a, b, k);
      if forall i: nat :: TestBit(a, i) ==> TestBit(b, i) {
        assert false;
      }
    }
  }

  /** The character for a decimal digit. */
  function DigitChar(d: nat): char
    requires d < 10
  {
    ['0', '1', '2', '3', '4', '5', '6', '7', '8', '9'][d]
  }

  predicate IsDigit(c: char)
  {
    '0' <= c <= '9'
  }

  predicate IsDigits(s: string)
  {
    forall i :: 0 <= i < |s| ==> IsDigit(s[i])
  }

  function DigitValue(c: char): (d: nat)
    requires IsDigit(c)
    ensures d < 10
  {
    (c as int - '0' as int) as nat
  }

  /** BigInt/Number `toString()`: the decimal rendering of n, without leading zeros. */
  function DecimalString(n: nat): (r: string)
    ensures |r| >= 1 && IsDigits(r)
    ensures |r| > 1 ==> r[0] != '0'
    decreases n
  {
    if n < 10 then [DigitChar(n)] else DecimalString(n / 10) + [DigitChar(n % 10)]
  }

  /** The number a string of decimal digits denotes (`BigInt(s)`, `Number(s)`; the empty string is 0). */
  function ParseDecimal(s: string): nat
    requires IsDigits(s)
    decreases |s|
  {
    if s == [] then 0 else 10 * ParseDecimal(s[..|s| - 1]) + DigitValue(s[|s| - 1])
  }

  lemma DigitRoundTrip(d: nat)
    requires d < 10
    ensures DigitValue(DigitChar(d)) == d
  {
  }

  /** Rendering a number and parsing it back gives the number. */
  lemma {:induction false} DecimalRoundTrip(n: nat)
    ensures ParseDecimal(DecimalString(n)) == n
    decreases n
  {
    var s := DecimalString(n);
    DigitRoundTrip(n % 10);
    if n >= 10 {
      DecimalRoundTrip(n / 10);
      assert s[..|s| - 1] == DecimalString(n / 10);
    } else {
      assert s[..|s| - 1] == [];
    }
  }

  /** Distinct numbers render to distinct strings. */
  lemma DecimalInjective(m: nat, n: nat)
    requires DecimalString(m) == DecimalString(n)
    ensures m == n
  {
    DecimalRoundTrip(m);
    DecimalRoundTrip(n);
  }

  predicate IsHexDigit(c: char)
  {
    '0' <= c <= '9' || 'a' <= c <= 'f'
  }

  predicate IsHex(s: string)
  {
    forall i :: 0 <= i < |s| ==> IsHexDigit(s[i])
  }

  function HexDigitValue(c: char): (d: nat)
    requires IsHexDigit(c)
    ensures d < 16
  {
    if '0' <= c <= '9' then (c as int - '0' as int) as nat else (c as int - 'a' as int + 10) as nat
  }

  /** `parseInt(s, 16)` for a string of lower-case hex digits. */
  function ParseHex(s: string): nat
    requires IsHex(s)
    decreases |s|
  {
    if s == [] then 0 else 16 * ParseHex(s[..|s| - 1]) + HexDigitValue(s[|s| - 1])
  }

  function Pow16(k: nat): nat
  {
    if k == 0 then 1 else 16 * Pow16(k - 1)
  }

  /** k hex digits denote a number below 16^k. */
  lemma {:induction false} ParseHexBound(s: string)
    requires IsHex(s)
    ensures ParseHex(s) < Pow16(|s|)
    decreases |s|
  {
    if s != [] {
      var p := s[..|s| - 1];
      ParseHexBound(p);
      assert ParseHex(p) + 1 <= Pow16(|p|);
      assert 16 * ParseHex(p) + 16 <= 16 * Pow16(|p|);
    }
  }
}
