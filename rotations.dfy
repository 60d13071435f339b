/** The two one-place rotations of the key schedule (des.py:7-10).

    `_sf[0]` rotates an n-bit integer one place left and `_sf[1]` one place
    right.  The source writes them with `<<`, `>>`, `%` and `^` on Python
    integers; `RotlNat`/`RotrNat` model those expressions on naturals, with
    `^` as the bitwise exclusive or `Xor`.  The generator applies them to the
    two halves of a bit list, so the same rotations are also given on bit
    lists (`RotlBits`/`RotrBits`) and the two are tied together under the
    most-significant-bit-first reading of `Bits.BitsToNat`. */
module Rotations {
  import opened Bits

  /** Python's `^` on non-negative integers. */
  function Xor(a: nat, b: nat): nat
    decreases a
  {
    if a == 0 then b
    else if b == 0 then a
    else 2 * Xor(a / 2, b / 2) + (a % 2 + b % 2) % 2
  }

  /** `Xor` is bitwise exclusive or: bit p of the result is the sum of
      bit p of the operands, modulo 2. */
  lemma {:induction false} XorBit(a: nat, b: nat, p: nat)
    ensures TestBit(Xor(a, b), p) == (TestBit(a, p) + TestBit(b, p)) % 2
    decreases a
  {
    if a == 0 {
      TestBitZero(p);
    } else if b == 0 {
      TestBitZero(p);
    } else {
      var x, c := Xor(a / 2, b / 2), (a % 2 + b % 2) % 2;
      assert Xor(a, b) == 2 * x + c;
      if p > 0 {
        XorBit(a / 2, b / 2, p - 1);
        assert (2 * x + c) / 2 == x;
      } else {
        assert (2 * x + c) % 2 == c;
      }
    }
  }

  lemma {:induction false} XorComm(a: nat, b: nat)
    ensures Xor(a, b) == Xor(b, a)
    decreases a
  {
    if a != 0 && b != 0 {
      XorComm(a / 2, b / 2);
    }
  }

  /** Python's `c << m`. */
  function Shl(c: nat, m: nat): (r: nat)
    ensures c <= r
  {
    if m == 0 then c else 2 * Shl(c, m - 1)
  }

  /** `c << m` is c * 2^m. */
  lemma {:induction false} ShlMul(c: nat, m: nat)
    ensures Shl(c, m) == c * Pow2(m)
  {
    if m > 0 {
      ShlMul(c, m - 1);
      var p := Pow2(m - 1);
      assert Pow2(m) == 2 * p;
      assert c * (2 * p) == 2 * (c * p);
    }
  }

  /** Exclusive or of numbers with disjoint bits is their sum:
      `a ^ (c << m) == a + (c << m)` when a < 2^m. */
  lemma {:induction false} XorLowHigh(a: nat, c: nat, m: nat)
    requires a < Pow2(m)
    ensures Xor(a, Shl(c, m)) == a + Shl(c, m)
  {
    if m > 0 && a != 0 && c != 0 {
      var h, g := Shl(c, m), Shl(c, m - 1);
      assert h == 2 * g && h != 0;
      assert h / 2 == g && h % 2 == 0;
      XorLowHigh(a / 2, c, m - 1);
      assert Xor(a, h) == 2 * Xor(a / 2, g) + (a % 2 + h % 2) % 2;
      assert (a % 2 + h % 2) % 2 == a % 2;
      assert a == 2 * (a / 2) + a % 2;
    } else if c == 0 {
      ShlMul(c, m);
    }
  }

  /** `_sf[0]`: `((k << 1) % 2^n) ^ (k >> (n - 1))`.  Python refuses the
      negative shift count `n - 1 < 0`, hence `n >= 1`. */
  function RotlNat(k: nat, n: nat): nat
    requires n >= 1
  {
    Xor(Shl(k, 1) % Pow2(n), k / Pow2(n - 1))
  }

  /** `_sf[1]`: `(k >> 1) ^ ((k % 2) << (n - 1))`. */
  function RotrNat(k: nat, n: nat): nat
    requires n >= 1
  {
    Xor(k / 2, Shl(k % 2, n - 1))
  }

  /** The pair `_sf`, indexed by the direction flag. */
  function Sf(dir: Bit, k: nat, n: nat): nat
    requires n >= 1
  {
    if dir == 0 then RotlNat(k, n) else RotrNat(k, n)
  }

  /** One-place rotations of a bit list: the first bit moves to the end,
      or the last bit moves to the front. */
  function RotlBits(s: seq<Bit>): (r: seq<Bit>)
    requires |s| >= 1
    ensures |r| == |s|
  {
    s[1..] + [s[0]]
  }

  function RotrBits(s: seq<Bit>): (r: seq<Bit>)
    requires |s| >= 1
    ensures |r| == |s|
  {
    [s[|s| - 1]] + s[..|s| - 1]
  }

  /** `_sf[dir]` as it acts on a half of the key list. */
  function SfBits(dir: Bit, s: seq<Bit>): (r: seq<Bit>)
    requires |s| >= 1
    ensures |r| == |s|
  {
    if dir == 0 then RotlBits(s) else RotrBits(s)
  }

  /** Division by `d` of a number written as `c * d + r` with `c` a bit. */
  lemma {:induction false} DivModBit(c: Bit, d: nat, r: nat)
    requires r < d
    ensures (c * d + r) / d == c && (c * d + r) % d == r
  {
    if c == 1 {
      assert c * d + r == d + r;
    }
  }

  /** `_sf[0]` on an n-bit number with top bit `b`: the top bit becomes the bottom one. */
  lemma {:induction false} RotlNatTop(b: Bit, w: nat, n: nat)
    requires n >= 1 && w < Pow2(n - 1)
    ensures RotlNat(b * Pow2(n - 1) + w, n) == 2 * w + b
  {
    var q := Pow2(n - 1);
    var k := b * q + w;
    assert Pow2(n) == 2 * q && Shl(k, 1) == 2 * k;
    assert 2 * k == b * (2 * q) + 2 * w;
    DivModBit(b, 2 * q, 2 * w);
    DivModBit(b, q, w);
    assert Xor(2 * w, b) == 2 * w + b by {
      XorComm(2 * w, b);
      assert Pow2(1) == 2 && Shl(w, 1) == 2 * w;
      XorLowHigh(b, w, 1);
    }
  }

  /** `_sf[1]` on an n-bit number with bottom bit `b`: the bottom bit becomes the top one. */
  lemma {:induction false} RotrNatBottom(b: Bit, u: nat, n: nat)
    requires n >= 1 && u < Pow2(n - 1)
    ensures RotrNat(2 * u + b, n) == b * Pow2(n - 1) + u
  {
    var k := 2 * u + b;
    assert k / 2 == u && k % 2 == b;
    XorLowHigh(u, b, n - 1);
    ShlMul(b, n - 1);
  }

  /** Read as an integer, moving the first bit to the end is `_sf[0]`. */
  lemma {:induction false} RotlBitsIsRotlNat(s: seq<Bit>)
    requires |s| >= 1
    ensures BitsToNat(RotlBits(s)) == RotlNat(BitsToNat(s), |s|)
  {
    var n := |s|;
    var b, rest := s[0], s[1..];
    BitsToNatBound(rest);
    BitsToNatHead(s);
    RotlNatTop(b, BitsToNat(rest), n);
    assert (rest + [b])[..n - 1] == rest;
  }

  /** Read as an integer, moving the last bit to the front is `_sf[1]`. */
  lemma {:induction false} RotrBitsIsRotrNat(s: seq<Bit>)
    requires |s| >= 1
    ensures BitsToNat(RotrBits(s)) == RotrNat(BitsToNat(s), |s|)
  {
    var n := |s|;
    var init, b := s[..n - 1], s[n - 1];
    BitsToNatBound(init);
    RotrNatBottom(b, BitsToNat(init), n);
    BitsToNatFront(b, init);
  }

  /** `_sf[dir]` on naturals agrees with `SfBits(dir, _)` on bit lists. */
  lemma {:induction false} SfBitsIsSf(dir: Bit, s: seq<Bit>)
    requires |s| >= 1
    ensures BitsToNat(SfBits(dir, s)) == Sf(dir, BitsToNat(s), |s|)
  {
    if dir == 0 { RotlBitsIsRotlNat(s); } else { RotrBitsIsRotrNat(s); }
  }

  lemma {:induction false} RotrRotlBits(s: seq<Bit>)
    requires |s| >= 1
    ensures RotrBits(RotlBits(s)) == s && RotlBits(RotrBits(s)) == s
  {
    assert RotrBits(RotlBits(s)) == [s[0]] + s[1..];
    assert s == [s[0]] + s[1..];
    assert RotlBits(RotrBits(s)) == s[..|s| - 1] + [s[|s| - 1]];
  }

  /** For `0 <= k < 2^n` both rotations stay below 2^n (des.py:8-9). */
  lemma {:induction false} SfBound(dir: Bit, k: nat, n: nat)
    requires n >= 1 && k < Pow2(n)
    ensures Sf(dir, k, n) < Pow2(n)
  {
    var s := NatToBits(k, n);
    NatToBitsToNat(k, n);
    SfBitsIsSf(dir, s);
    BitsToNatBound(SfBits(dir, s));
  }

  /** For `0 <= k < 2^n` each rotation undoes the other (des.py:8-9). */
  lemma {:induction false} RotationsInverse(k: nat, n: nat)
    requires n >= 1 && k < Pow2(n)
    ensures RotrNat(RotlNat(k, n), n) == k
    ensures RotlNat(RotrNat(k, n), n) == k
  {
    var s := NatToBits(k, n);
    NatToBitsToNat(k, n);
    RotlBitsIsRotlNat(s);
    RotrBitsIsRotrNat(s);
    RotlBitsIsRotlNat(RotrBits(s));
    RotrBitsIsRotrNat(RotlBits(s));
    RotrRotlBits(s);
  }
}
