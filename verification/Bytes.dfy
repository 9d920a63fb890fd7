/** Bytes, the exclusive or used for masking, and the decimal numerals that the source
    obtains from `strconv`. */
module Bytes {
  import opened Commons

  type byte = b: int | 0 <= b < 256
  type bytes = seq<byte>

  /** The largest value of a 64-bit Go `int`. */
  const MAX_INT := 0x7FFF_FFFF_FFFF_FFFF

  predicate IsDigit(b: byte) {
    48 <= b <= 57
  }

  predicate AllDigits(s: bytes) {
    forall i :: 0 <= i < |s| ==> IsDigit(s[i])
  }

  // -------------------------------------------------------------------------
  // Exclusive or

  /** Bitwise exclusive or of the low `bits` bits. */
  function XorBits(a: nat, b: nat, bits: nat): nat {
    if bits == 0 then 0
    else 2 * XorBits(a / 2, b / 2, bits - 1) + (if a % 2 != b % 2 then 1 else 0)
  }

  function Xor(a: byte, b: byte): byte {
    XorBitsBound(a, b, 8);
    XorBits(a, b, 8)
  }

  function Pow2(n: nat): (p: nat)
    ensures p > 0
  {
    if n == 0 then 1 else 2 * Pow2(n - 1)
  }

  lemma {:induction false} XorBitsBound(a: nat, b: nat, bits: nat)
    ensures XorBits(a, b, bits) < Pow2(bits)
    ensures Pow2(8) == 256
  {
    assert Pow2(8) == 2 * Pow2(7) == 4 * Pow2(6) == 8 * Pow2(5) == 16 * Pow2(4) == 32 * Pow2(3) == 64 * Pow2(2);
    if bits > 0 {
      XorBitsBound(a / 2, b / 2, bits - 1);
    }
  }

  lemma {:induction false} XorBitsInvolution(a: nat, k: nat, bits: nat)
    requires a < Pow2(bits)
    ensures XorBits(XorBits(a, k, bits), k, bits) == a
  {
    if bits > 0 {
      XorBitsInvolution(a / 2, k / 2, bits - 1);
    }
  }

  /** Masking a byte twice with the same key byte restores it. */
  lemma XorInvolution(a: byte, k: byte)
    ensures Xor(Xor(a, k), k) == a
  {
    XorBitsBound(a, k, 8);
    XorBitsInvolution(a, k, 8);
  }

  /** Bit `i` of a number, the least significant being bit 0. */
  function Bit(n: nat, i: nat): nat {
    if i == 0 then n % 2 else Bit(n / 2, i - 1)
  }

  lemma {:induction false} XorBitsAt(a: nat, b: nat, bits: nat, i: nat)
    requires i < bits
    ensures Bit(XorBits(a, b, bits), i) == if Bit(a, i) != Bit(b, i) then 1 else 0
  {
    var x := XorBits(a, b, bits);
    assert x / 2 == XorBits(a / 2, b / 2, bits - 1) && x % 2 == if a % 2 != b % 2 then 1 else 0;
    if i > 0 {
      XorBitsAt(a / 2, b / 2, bits - 1, i - 1);
    }
  }

  /** Whether the lowest bits differ. */
  function Differ(a: nat, b: nat): nat {
    if a % 2 != b % 2 then 1 else 0
  }

  lemma XorFour(a: nat, b: nat, bits: nat)
    requires bits >= 4
    ensures XorBits(a, b, bits)
            == Differ(a, b) + 2 * Differ(a / 2, b / 2) + 4 * Differ(a / 4, b / 4) + 8 * Differ(a / 8, b / 8)
               + 16 * XorBits(a / 16, b / 16, bits - 4)
  {
    hide Differ, XorBits;
    assert a / 2 / 2 == a / 4 && a / 4 / 2 == a / 8 && a / 8 / 2 == a / 16;
    assert b / 2 / 2 == b / 4 && b / 4 / 2 == b / 8 && b / 8 / 2 == b / 16;
    XorStep(a, b, bits);
    XorStep(a / 2, b / 2, bits - 1);
    XorStep(a / 4, b / 4, bits - 2);
    XorStep(a / 8, b / 8, bits - 3);
  }

  /** The exclusive or, bit by bit. */
  lemma XorSum(a: byte, b: byte)
    ensures Xor(a, b)
            == Differ(a, b) + 2 * Differ(a / 2, b / 2) + 4 * Differ(a / 4, b / 4) + 8 * Differ(a / 8, b / 8)
               + 16 * Differ(a / 16, b / 16) + 32 * Differ(a / 32, b / 32) + 64 * Differ(a / 64, b / 64)
               + 128 * Differ(a / 128, b / 128)
  {
    hide Differ, XorBits;
    assert a / 16 / 2 == a / 32 && a / 16 / 4 == a / 64 && a / 16 / 8 == a / 128;
    assert b / 16 / 2 == b / 32 && b / 16 / 4 == b / 64 && b / 16 / 8 == b / 128;
    XorFour(a, b, 8);
    XorFour(a / 16, b / 16, 4);
    assert XorBits(a / 16 / 16, b / 16 / 16, 0) == 0 by { XorNone(a / 16 / 16, b / 16 / 16); }
  }

  lemma XorNone(a: nat, b: nat)
    ensures XorBits(a, b, 0) == 0
  {
  }

  lemma XorStep(a: nat, b: nat, bits: nat)
    requires bits > 0
    ensures XorBits(a, b, bits) == 2 * XorBits(a / 2, b / 2, bits - 1) + Differ(a, b)
  {
  }

  /** Every bit of the exclusive or is set exactly when the two bits differ. */
  lemma XorIsBitwise(a: byte, b: byte, i: nat)
    requires i < 8
    ensures Bit(Xor(a, b), i) == 1 <==> Bit(a, i) != Bit(b, i)
  {
    XorBitsAt(a, b, 8, i);
  }

  // -------------------------------------------------------------------------
  // Decimal numerals

  /** `strconv.Itoa` / `strconv.AppendUint` on a non-negative number. */
  function Itoa(n: nat): (s: bytes)
    ensures |s| > 0 && AllDigits(s)
  {
    if n < 10 then [48 + n] else Itoa(n / 10) + [48 + n % 10]
  }

  /** The number written by a run of decimal digits. */
  function DecimalValue(s: bytes): nat
    requires AllDigits(s)
  {
    if s == [] then 0
    else DecimalValue(s[..|s| - 1]) * 10 + (s[|s| - 1] - 48)
  }

  lemma {:induction false} DecimalRoundTrip(n: nat)
    ensures DecimalValue(Itoa(n)) == n
  {
    var s := Itoa(n);
    if n < 10 {
      assert s[..|s| - 1] == [];
    } else {
      DecimalRoundTrip(n / 10);
      assert s[..|s| - 1] == Itoa(n / 10);
    }
  }

  /** `strconv.Atoi` on a run of digits: an error when the value does not fit an `int`. */
  function Atoi(s: bytes): Option<nat>
    requires AllDigits(s)
  {
    if s == [] || DecimalValue(s) > MAX_INT then None else Some(DecimalValue(s))
  }

  /** Length of the longest run of digits at the front of `s`. */
  function DigitRun(s: bytes): (n: nat)
    ensures n <= |s| && AllDigits(s[..n])
    ensures n < |s| ==> !IsDigit(s[n])
  {
    if s == [] || !IsDigit(s[0]) then 0 else 1 + DigitRun(s[1..])
  }

  /** The run is determined by its two defining properties. */
  lemma {:induction false} DigitRunUnique(s: bytes, n: nat)
    requires n <= |s| && AllDigits(s[..n])
    requires n < |s| ==> !IsDigit(s[n])
    ensures DigitRun(s) == n
  {
    if n > 0 {
      assert IsDigit(s[..n][0]);
      assert s[1..][..n - 1] == s[..n][1..];
      DigitRunUnique(s[1..], n - 1);
    }
  }
}
