/** Key preparation `_kp` (des.py:41-45): the key bytes are spelled out as
    bits, eight per byte and most significant bit first, and PC-1 selects
    56 of them. */
module KeyPrep {
  import opened Bits
  import opened Select
  import opened Tables

  /** An element of a Python `bytes` value. */
  type Byte = b: nat | b < 256

  /** `list(map(int, ''.join(f'{i:08b}' for i in key)))`. */
  function Expand(key: seq<Byte>): (r: seq<Bit>)
    ensures |r| == 8 * |key|
  {
    if key == [] then [] else NatToBits(key[0], 8) + Expand(key[1..])
  }

  /** Bit 8j+b of the expansion is bit 7-b of byte j. */
  lemma {:induction false} ExpandAt(key: seq<Byte>, j: nat, b: nat)
    requires j < |key| && b < 8
    ensures Expand(key)[8 * j + b] == TestBit(key[j], 7 - b)
  {
    if j == 0 {
      NatToBitsAt(key[0], 8, b);
    } else {
      ExpandAt(key[1..], j - 1, b);
    }
  }

  /** Bytes after the eighth only add bits beyond position 63. */
  lemma {:induction false} ExpandPrefix(key: seq<Byte>, n: nat)
    requires n <= |key|
    ensures Expand(key)[..8 * n] == Expand(key[..n])
  {
    forall q | 0 <= q < 8 * n
      ensures Expand(key)[q] == Expand(key[..n])[q]
    {
      ExpandAt(key, q / 8, q % 8);
      ExpandAt(key[..n], q / 8, q % 8);
    }
  }

  /** `_kp(key)`: PC-1 applied to the expanded key.  Python raises
      `IndexError` for fewer than eight bytes (see `KpShortKeyFails`). */
  function Kp(key: seq<Byte>): (r: seq<Bit>)
    requires |key| >= 8
    ensures |r| == 56
  {
    Pc1PosInverts();
    Pr(Expand(key), PC1)
  }

  /** Bit i of the prepared key is bit 7 - PC1[i] % 8 of byte PC1[i] / 8. */
  lemma {:induction false} KpAt(key: seq<Byte>, i: nat)
    requires |key| >= 8 && i < 56
    ensures Kp(key)[i] == TestBit(key[PC1[i] / 8], 7 - PC1[i] % 8)
  {
    Pc1PosInverts();
    ExpandAt(key, PC1[i] / 8, PC1[i] % 8);
  }

  /** Only the first eight bytes of the key are used. */
  lemma {:induction false} KpFirstEight(key: seq<Byte>)
    requires |key| >= 8
    ensures Kp(key) == Kp(key[..8])
  {
    Pc1PosInverts();
    ExpandPrefix(key, 8);
    forall i | 0 <= i < 56
      ensures Kp(key)[i] == Kp(key[..8])[i]
    {
      assert Expand(key)[PC1[i]] == Expand(key)[..64][PC1[i]];
    }
  }

  /** With fewer than eight bytes the selection indexes past the end: PC-1 has entry 62. */
  lemma {:induction false} KpShortKeyFails(key: seq<Byte>)
    requires |key| < 8
    ensures TryPr(Expand(key), PC1) == None
  {
    TryPrDefinedIff(Expand(key), PC1);
    assert PC1[28] == 62;
  }

  /** Keys whose first eight bytes agree outside the parity bits prepare alike. */
  lemma {:induction false} KpParityIrrelevant(k1: seq<Byte>, k2: seq<Byte>)
    requires |k1| >= 8 && |k2| >= 8
    requires forall j :: 0 <= j < 8 ==> k1[j] / 2 == k2[j] / 2
    ensures Kp(k1) == Kp(k2)
  {
    Pc1PosInverts();
    forall i | 0 <= i < 56
      ensures Kp(k1)[i] == Kp(k2)[i]
    {
      KpAt(k1, i);
      KpAt(k2, i);
      var j, b := PC1[i] / 8, PC1[i] % 8;
      assert b != 7;
      assert TestBit(k1[j], 7 - b) == TestBit(k1[j] / 2, 6 - b);
      assert TestBit(k2[j], 7 - b) == TestBit(k2[j] / 2, 6 - b);
    }
  }

  /** Bit p + 1 of byte j reaches the prepared key, at position PC1_POS[8j + 6 - p]. */
  lemma {:induction false} KpKeepsBit(k1: seq<Byte>, k2: seq<Byte>, j: nat, p: nat)
    requires |k1| >= 8 && |k2| >= 8 && Kp(k1) == Kp(k2) && j < 8 && p < 7
    ensures TestBit(k1[j] / 2, p) == TestBit(k2[j] / 2, p)
  {
    Pc1PosInverts();
    var q := 8 * j + 6 - p;
    assert q / 8 == j && q % 8 == 6 - p;
    var i := PC1_POS[q];
    KpAt(k1, i);
    KpAt(k2, i);
    assert TestBit(k1[j], p + 1) == TestBit(k1[j] / 2, p);
    assert TestBit(k2[j], p + 1) == TestBit(k2[j] / 2, p);
  }

  /** Keys that prepare alike agree outside the parity bits of their first eight bytes. */
  lemma {:induction false} KpKeepsNonParity(k1: seq<Byte>, k2: seq<Byte>)
    requires |k1| >= 8 && |k2| >= 8 && Kp(k1) == Kp(k2)
    ensures forall j :: 0 <= j < 8 ==> k1[j] / 2 == k2[j] / 2
  {
    forall j | 0 <= j < 8
      ensures k1[j] / 2 == k2[j] / 2
    {
      forall p | 0 <= p < 7
        ensures TestBit(k1[j] / 2, p) == TestBit(k2[j] / 2, p)
      {
        KpKeepsBit(k1, k2, j, p);
      }
      assert Pow2(7) == 128;
      TestBitExt(k1[j] / 2, k2[j] / 2, 7);
    }
  }

  /** Two keys prepare to the same 56 bits exactly when their bytes agree
      outside the least significant (parity) bit of each of the first eight. */
  lemma {:induction false} KpIgnoresParity(k1: seq<Byte>, k2: seq<Byte>)
    requires |k1| >= 8 && |k2| >= 8
    ensures Kp(k1) == Kp(k2) <==> forall j :: 0 <= j < 8 ==> k1[j] / 2 == k2[j] / 2
  {
    if forall j :: 0 <= j < 8 ==> k1[j] / 2 == k2[j] / 2 {
      KpParityIrrelevant(k1, k2);
    }
    if Kp(k1) == Kp(k2) {
      KpKeepsNonParity(k1, k2);
    }
  }
}
