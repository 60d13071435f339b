/** The constant tables of the key schedule (des.py:13-35). */
module Tables {
  import opened Select

  /** `_RDS`: the number of rounds. */
  const RDS: nat := 16

  /** `_SFT`: 1 where a round rotates each half twice, 0 where it rotates once. */
  const SFT: seq<nat> := [0, 0, 1, 1, 1, 1, 1, 1, 0, 1, 1, 1, 1, 1, 1, 0]

  /** `_PC1`: 56 zero-based positions of the 64 key bits, written row by
      row as in the source. */
  const PC1: seq<nat> :=
    [56, 48, 40, 32, 24, 16,  8] +
    [ 0, 57, 49, 41, 33, 25, 17] +
    [ 9,  1, 58, 50, 42, 34, 26] +
    [18, 10,  2, 59, 51, 43, 35] +
    [62, 54, 46, 38, 30, 22, 14] +
    [ 6, 61, 53, 45, 37, 29, 21] +
    [13,  5, 60, 52, 44, 36, 28] +
    [20, 12,  4, 27, 19, 11,  3]

  /** Where PC-1 puts each of the 64 key bits (0 for the eight bits it drops).
      A proof device: it witnesses that PC-1 is one-to-one. */
  const PC1_POS: seq<nat> :=
    [ 7, 15, 23, 55, 51, 43, 35,  0] +
    [ 6, 14, 22, 54, 50, 42, 34,  0] +
    [ 5, 13, 21, 53, 49, 41, 33,  0] +
    [ 4, 12, 20, 52, 48, 40, 32,  0] +
    [ 3, 11, 19, 27, 47, 39, 31,  0] +
    [ 2, 10, 18, 26, 46, 38, 30,  0] +
    [ 1,  9, 17, 25, 45, 37, 29,  0] +
    [ 0,  8, 16, 24, 44, 36, 28,  0]

  /** `_PC2` as the source has it: 64 one-based entries (the DES final
      permutation), used to project the 56-bit key after each round. */
  const PC2: seq<nat> :=
    [40, 8, 48, 16, 56, 24, 64, 32] +
    [39, 7, 47, 15, 55, 23, 63, 31] +
    [38, 6, 46, 14, 54, 22, 62, 30] +
    [37, 5, 45, 13, 53, 21, 61, 29] +
    [36, 4, 44, 12, 52, 20, 60, 28] +
    [35, 3, 43, 11, 51, 19, 59, 27] +
    [34, 2, 42, 10, 50, 18, 58, 26] +
    [33, 1, 41, 9, 49, 17, 57, 25]

  lemma {:induction false} SftShape()
    ensures |SFT| == RDS
    ensures forall i :: 0 <= i < |SFT| ==> SFT[i] <= 1
  {
  }

  /** `_SFT[1..15]` reads the same backwards. */
  lemma {:induction false} SftPalindrome()
    ensures forall i :: 1 <= i < 16 ==> SFT[i] == SFT[16 - i]
  {
  }

  /** The facts below, checked seven table entries and eight key positions at a time. */
  lemma {:induction false} Pc1Block0()
    ensures forall i :: 0 <= i < 7 ==> PC1[i] % 8 != 7 && PC1_POS[PC1[i]] == i
    ensures forall p :: 0 <= p < 7 ==> PC1_POS[p] < 56 && PC1[PC1_POS[p]] == p
  {
  }

  lemma {:induction false} Pc1Block1()
    ensures forall i :: 7 <= i < 14 ==> PC1[i] % 8 != 7 && PC1_POS[PC1[i]] == i
    ensures forall p :: 8 <= p < 15 ==> PC1_POS[p] < 56 && PC1[PC1_POS[p]] == p
  {
  }

  lemma {:induction false} Pc1Block2()
    ensures forall i :: 14 <= i < 21 ==> PC1[i] % 8 != 7 && PC1_POS[PC1[i]] == i
    ensures forall p :: 16 <= p < 23 ==> PC1_POS[p] < 56 && PC1[PC1_POS[p]] == p
  {
  }

  lemma {:induction false} Pc1Block3()
    ensures forall i :: 21 <= i < 28 ==> PC1[i] % 8 != 7 && PC1_POS[PC1[i]] == i
    ensures forall p :: 24 <= p < 31 ==> PC1_POS[p] < 56 && PC1[PC1_POS[p]] == p
  {
  }

  lemma {:induction false} Pc1Block4()
    ensures forall i :: 28 <= i < 35 ==> PC1[i] % 8 != 7 && PC1_POS[PC1[i]] == i
    ensures forall p :: 32 <= p < 39 ==> PC1_POS[p] < 56 && PC1[PC1_POS[p]] == p
  {
  }

  lemma {:induction false} Pc1Block5()
    ensures forall i :: 35 <= i < 42 ==> PC1[i] % 8 != 7 && PC1_POS[PC1[i]] == i
    ensures forall p :: 40 <= p < 47 ==> PC1_POS[p] < 56 && PC1[PC1_POS[p]] == p
  {
  }

  lemma {:induction false} Pc1Block6()
    ensures forall i :: 42 <= i < 49 ==> PC1[i] % 8 != 7 && PC1_POS[PC1[i]] == i
    ensures forall p :: 48 <= p < 55 ==> PC1_POS[p] < 56 && PC1[PC1_POS[p]] == p
  {
  }

  lemma {:induction false} Pc1Block7()
    ensures forall i :: 49 <= i < 56 ==> PC1[i] % 8 != 7 && PC1_POS[PC1[i]] == i
    ensures forall p :: 56 <= p < 63 ==> PC1_POS[p] < 56 && PC1[PC1_POS[p]] == p
  {
  }

  /** PC1_POS undoes PC-1. */
  lemma {:induction false} Pc1PosLeftInverse()
    ensures forall i :: 0 <= i < 56 ==> PC1[i] % 8 != 7 && PC1_POS[PC1[i]] == i
  {
    Pc1Block0();
    Pc1Block1();
    Pc1Block2();
    Pc1Block3();
    Pc1Block4();
    Pc1Block5();
    Pc1Block6();
    Pc1Block7();
  }

  /** Every position PC-1 keeps is hit, at the entry PC1_POS names. */
  lemma {:induction false} Pc1PosRightInverse()
    ensures forall p :: 0 <= p < 64 && p % 8 != 7 ==> PC1_POS[p] < 56 && PC1[PC1_POS[p]] == p
  {
    Pc1Block0();
    Pc1Block1();
    Pc1Block2();
    Pc1Block3();
    Pc1Block4();
    Pc1Block5();
    Pc1Block6();
    Pc1Block7();
  }

  /** PC1_POS undoes PC-1, and every position PC-1 keeps is hit. */
  lemma {:induction false} Pc1PosInverts()
    ensures |PC1| == 56 && |PC1_POS| == 64 && InBounds(PC1, 64)
    ensures forall i :: 0 <= i < 56 ==> PC1[i] % 8 != 7 && PC1_POS[PC1[i]] == i
    ensures forall p :: 0 <= p < 64 && p % 8 != 7 ==> PC1_POS[p] < 56 && PC1[PC1_POS[p]] == p
  {
    Pc1PosLeftInverse();
    Pc1PosRightInverse();
  }

  /** PC-1 picks 56 distinct positions, all below 64. */
  lemma {:induction false} Pc1Shape()
    ensures |PC1| == 56 && InBounds(PC1, 64)
    ensures forall i, j :: 0 <= i < j < |PC1| ==> PC1[i] != PC1[j]
  {
    Pc1PosInverts();
  }

  /** PC-1 leaves out exactly positions 7, 15, ..., 63: the last bit of each byte. */
  lemma {:induction false} Pc1OmitsParity()
    ensures forall p :: 0 <= p < 64 ==> (p in PC1 <==> p % 8 != 7)
  {
    Pc1PosInverts();
    forall p | 0 <= p < 64
      ensures p in PC1 <==> p % 8 != 7
    {
      if p % 8 != 7 {
        assert PC1[PC1_POS[p]] == p;
      }
    }
  }

  /** The `_PC2` of the source does not fit a 56-bit key: its entry 4 is 56. */
  lemma {:induction false} Pc2OutOfRange()
    ensures |PC2| == 64 && PC2[4] == 56
    ensures !InBounds(PC2, 56)
    ensures forall i :: 0 <= i < 4 ==> PC2[i] < 56
  {
  }
}
