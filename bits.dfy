/** Bit lists and their reading as natural numbers.

    The key material of the key schedule is a Python list of the integers
    0 and 1, most significant bit first.  This module gives that list its
    integer reading and the inverse, fixed-width, conversion. */
module Bits {

  /** One element of a bit list: the integer 0 or 1. */
  type Bit = b: nat | b <= 1

  function Pow2(n: nat): (r: nat)
    ensures r >= 1
  {
    if n == 0 then 1 else 2 * Pow2(n - 1)
  }

  /** The integer a bit list denotes, most significant bit first. */
  function BitsToNat(s: seq<Bit>): nat
  {
    if s == [] then 0 else 2 * BitsToNat(s[..|s| - 1]) + s[|s| - 1]
  }

  /** The `n` low bits of `v`, most significant first (Python's `f'{v:0nb}'`
      for `v < 2^n`, read digit by digit). */
  function NatToBits(v: nat, n: nat): (r: seq<Bit>)
    ensures |r| == n
  {
    if n == 0 then [] else NatToBits(v / 2, n - 1) + [v % 2]
  }

  /** Bit `p` of `v`, counting from the least significant bit. */
  function TestBit(v: nat, p: nat): Bit
  {
    if p == 0 then v % 2 else TestBit(v / 2, p - 1)
  }

  /** Every bit of 0 is 0. */
  lemma {:induction false} TestBitZero(p: nat)
    ensures TestBit(0, p) == 0
  {
    if p > 0 {
      TestBitZero(p - 1);
    }
  }

  lemma {:induction false} Pow2Add(a: nat, b: nat)
    ensures Pow2(a + b) == Pow2(a) * Pow2(b)
  {
    if b > 0 {
      Pow2Add(a, b - 1);
      assert Pow2(a + b) == 2 * Pow2(a + b - 1);
    }
  }

  /** A bit list of length n denotes a number below 2^n. */
  lemma {:induction false} BitsToNatBound(s: seq<Bit>)
    ensures BitsToNat(s) < Pow2(|s|)
  {
    if s != [] {
      BitsToNatBound(s[..|s| - 1]);
    }
  }

  lemma {:induction false} ShiftStep(x: nat, p: nat, y: nat, c: nat)
    ensures 2 * (x * p + y) + c == x * (2 * p) + (2 * y + c)
  {
  }

  /** Reading a concatenation: the first part is shifted up by the width of the second. */
  lemma {:induction false} BitsToNatAppend(a: seq<Bit>, b: seq<Bit>)
    ensures BitsToNat(a + b) == BitsToNat(a) * Pow2(|b|) + BitsToNat(b)
  {
    if b == [] {
      assert a + b == a;
    } else {
      var b' := b[..|b| - 1];
      var c := b[|b| - 1];
      assert (a + b)[..|a + b| - 1] == a + b';
      assert BitsToNat(a + b) == 2 * BitsToNat(a + b') + c;
      BitsToNatAppend(a, b');
      ShiftStep(BitsToNat(a), Pow2(|b'|), BitsToNat(b'), c);
      assert Pow2(|b|) == 2 * Pow2(|b'|);
      assert BitsToNat(b) == 2 * BitsToNat(b') + c;
    }
  }

  /** The leading bit of a list of length n weighs 2^(n-1). */
  lemma {:induction false} BitsToNatFront(b: Bit, s: seq<Bit>)
    ensures BitsToNat([b] + s) == b * Pow2(|s|) + BitsToNat(s)
  {
    assert [b][..0] == [];
    assert BitsToNat([b]) == b;
    BitsToNatAppend([b], s);
  }

  lemma {:induction false} BitsToNatHead(s: seq<Bit>)
    requires |s| >= 1
    ensures BitsToNat(s) == s[0] * Pow2(|s| - 1) + BitsToNat(s[1..])
  {
    assert s == [s[0]] + s[1..];
    BitsToNatFront(s[0], s[1..]);
  }

  /** Fixed-width conversion round trip, in both directions. */
  lemma {:induction false} NatToBitsToNat(v: nat, n: nat)
    requires v < Pow2(n)
    ensures BitsToNat(NatToBits(v, n)) == v
  {
    if n > 0 {
      NatToBitsToNat(v / 2, n - 1);
      var r := NatToBits(v, n);
      assert r[..|r| - 1] == NatToBits(v / 2, n - 1);
    }
  }

  lemma {:induction false} BitsToNatToBits(s: seq<Bit>)
    ensures NatToBits(BitsToNat(s), |s|) == s
  {
    if s != [] {
      var s' := s[..|s| - 1];
      BitsToNatToBits(s');
      assert s == s' + [s[|s| - 1]];
    }
  }

  /** The integer reading is injective on lists of one length. */
  lemma {:induction false} BitsToNatInjective(a: seq<Bit>, b: seq<Bit>)
    requires |a| == |b| && BitsToNat(a) == BitsToNat(b)
    ensures a == b
  {
    BitsToNatToBits(a);
    BitsToNatToBits(b);
  }

  /** Element q of the n-bit rendering of v is bit n-1-q of v. */
  lemma {:induction false} NatToBitsAt(v: nat, n: nat, q: nat)
    requires q < n
    ensures NatToBits(v, n)[q] == TestBit(v, n - 1 - q)
  {
    if q < n - 1 {
      NatToBitsAt(v / 2, n - 1, q);
    }
  }

  /** Numbers below 2^m are determined by their m low bits. */
  lemma {:induction false} TestBitExt(a: nat, b: nat, m: nat)
    requires a < Pow2(m) && b < Pow2(m)
    requires forall p :: 0 <= p < m ==> TestBit(a, p) == TestBit(b, p)
    ensures a == b
  {
    if m > 0 {
      forall p | 0 <= p < m - 1
        ensures TestBit(a / 2, p) == TestBit(b / 2, p)
      {
        assert TestBit(a, p + 1) == TestBit(b, p + 1);
      }
      TestBitExt(a / 2, b / 2, m - 1);
      assert TestBit(a, 0) == TestBit(b, 0);
    }
  }
}
