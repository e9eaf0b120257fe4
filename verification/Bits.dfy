/** The bitwise steps of the scalar encoders, at every width, and the arithmetic they come to. */
module Bits {
  import opened Values
  import opened Encode

  // --- Words -----------------------------------------------------------------------------

  /** The exclusive or of two words of `n` bits. */
  function Xor(x: nat, y: nat, n: nat): nat {
    if n == 0 then 0 else 2 * Xor(x / 2, y / 2, n - 1) + (if x % 2 == y % 2 then 0 else 1)
  }

  function And(x: nat, y: nat, n: nat): nat {
    if n == 0 then 0 else 2 * And(x / 2, y / 2, n - 1) + (if x % 2 == 1 && y % 2 == 1 then 1 else 0)
  }

  function Not(x: nat, n: nat): nat {
    if n == 0 then 0 else 2 * Not(x / 2, n - 1) + (1 - x % 2)
  }

  /** The two's complement of a signed number. */
  function Pattern(v: int, n: nat): nat
    requires v + Pow2(n) >= 0
  {
    if v < 0 then v + Pow2(n) else v
  }

  lemma {:induction false} NotIs(x: nat, n: nat)
    requires x < Pow2(n)
    ensures Not(x, n) == Pow2(n) - 1 - x
  {
    if n > 0 { NotIs(x / 2, n - 1); }
  }

  /** Toggling all but the top bit. */
  lemma {:induction false} XorMax(x: nat, n: nat)
    requires x < Pow2(n + 1)
    ensures Xor(x, Pow2(n) - 1, n + 1) == if x < Pow2(n) then Pow2(n) - 1 - x else 3 * Pow2(n) - 1 - x
  {
    if n > 0 {
      assert (Pow2(n) - 1) / 2 == Pow2(n - 1) - 1;
      XorMax(x / 2, n - 1);
    } else {
      assert Xor(x / 2, 0, 0) == 0;
    }
  }

  /** Toggling the top bit. */
  lemma {:induction false} XorTop(x: nat, n: nat)
    requires x < Pow2(n + 1)
    ensures Xor(x, Pow2(n), n + 1) == if x < Pow2(n) then x + Pow2(n) else x - Pow2(n)
  {
    if n > 0 {
      assert Pow2(n) / 2 == Pow2(n - 1);
      XorTop(x / 2, n - 1);
    } else {
      assert Xor(x / 2, 0, 0) == 0;
    }
  }

  lemma {:induction false} AndTop(x: nat, n: nat)
    requires x < Pow2(n + 1)
    ensures And(x, Pow2(n), n + 1) == if x < Pow2(n) then 0 else Pow2(n)
  {
    if n > 0 {
      assert Pow2(n) / 2 == Pow2(n - 1);
      AndTop(x / 2, n - 1);
    } else {
      assert And(x / 2, 0, 0) == 0;
    }
  }

  lemma {:induction false} Pow2Sum(m: nat, n: nat)
    ensures Pow2(m + n) == Pow2(m) * Pow2(n)
  {
    if n > 0 { Pow2Sum(m, n - 1); }
  }

  lemma WordSizes()
    ensures Pow2(31) == TWO_31 && Pow2(63) == TWO_63 && Pow2(127) == TWO_127
  {
    Byte();
    hide Pow2;
    Pow2Sum(8, 8);
    Pow2Sum(16, 16);
    Pow2Sum(32, 32);
    Pow2Sum(64, 64);
    Halves(31);
    Halves(63);
    Halves(127);
  }

  lemma Byte()
    ensures Pow2(8) == 256
  {
    assert Pow2(4) == 16;
  }

  lemma Halves(n: nat)
    ensures Pow2(n + 1) == 2 * Pow2(n)
  {
  }

  // --- The encoders ----------------------------------------------------------------------

  /** What the integer encoders write before the byte order: the value with all but its sign bit toggled. */
  lemma SignedWord(v: int, n: nat)
    requires v + Pow2(n) >= 0 && v < Pow2(n)
    ensures Xor(Pattern(v, n + 1), Pow2(n) - 1, n + 1) == Pow2(n) - 1 - v
  {
    XorMax(Pattern(v, n + 1), n);
  }

  /** What the float encoders write before the byte order. */
  function SortableWord(bits: nat, n: nat): nat {
    if And(bits, Pow2(n), n + 1) != 0 then Not(bits, n + 1) else Xor(bits, Pow2(n), n + 1)
  }

  lemma FloatWord(f: Format, bits: nat, n: nat)
    requires f.half == Pow2(n) && bits < Pow2(n + 1)
    ensures SortableWord(bits, n) == Sortable(f, bits)
  {
    AndTop(bits, n);
    NotIs(bits, n + 1);
    XorTop(bits, n);
  }

  /** The integer encoders, at 64 and 128 bits. */
  lemma IntegerBits(v: I64, w: I128)
    ensures v + Pow2(64) >= 0 && EncI64(v) == BigEndian(Xor(Pattern(v, 64), TWO_63 - 1, 64), 8)
    ensures w + Pow2(128) >= 0 && EncI128(w) == BigEndian(Xor(Pattern(w, 128), TWO_127 - 1, 128), 16)
  {
    hide Xor, BigEndian, Pattern, Pow2;
    Halves(63);
    Halves(127);
    WordSizes();
    SignedWord(v, 63);
    SignedWord(w, 127);
  }

  /** The float encoders, at 64 and 32 bits. */
  lemma FloatBits(d: U64, f: U32)
    ensures EncF64(d) == BigEndian(SortableWord(d, 63), 8) && EncF32(f) == BigEndian(SortableWord(f, 31), 4)
  {
    hide SortableWord, BigEndian, Sortable, Pow2;
    Halves(63);
    Halves(31);
    WordSizes();
    FloatWord(F64, d, 63);
    FloatWord(F32, f, 31);
  }
}
