/** The round generator `gen` of `KEYSTREAM` (des.py:37-56).

    Each round rotates the two 28-bit halves of the working key once or
    twice with `_sf[rev]`, as `_SFT` says, stores the result back in
    `self.key` and yields a table projection of it.  The functions below
    give the value of the working key after n rounds; the classes model
    the object and its generator, and are proved against them. */
module Schedule {
  import opened Bits
  import opened Rotations
  import opened Select
  import opened Tables
  import opened KeyPrep

  /** `op()`: `_sf[rev]` applied to each half of the key list, halves rejoined.
      The source applies the integer `_sf` to list slices; this is the
      list reading that `Rotations.SfBitsIsSf` ties to the integer one. */
  function Op(rev: Bit, k: seq<Bit>): (r: seq<Bit>)
    requires |k| >= 2
    ensures |r| == |k|
  {
    var t := |k| / 2;
    SfBits(rev, k[..t]) + SfBits(rev, k[t..])
  }

  /** An argument of `_sf[rev]` in Python: an integer, or a list such as the
      slices `self.key[:t]` and `self.key[t:]` that `op()` passes. */
  datatype Operand = IntOperand(v: nat) | ListOperand(bits: seq<Bit>)

  /** `_sf[rev](k, n)` as Python evaluates it: on an integer it is `Sf`; on a
      list, `k << 1` (rev = 0) or `k >> 1` (rev = 1) raises `TypeError`, here `None`. */
  function SfAsWritten(rev: Bit, k: Operand, n: nat): (r: Option<nat>)
    requires n >= 1
    ensures r.Some? <==> k.IntOperand?
  {
    match k
    case IntOperand(v) => Some(Sf(rev, v, n))
    case ListOperand(_) => None
  }

  /** `op()` as written hands `_sf[rev]` list slices of the 56-bit key: each
      slice is a list, so the first call, on the left half, already raises
      `TypeError` and the first round of `gen` yields nothing. */
  lemma {:induction false} OpAsWrittenRaises(rev: Bit, k: seq<Bit>)
    requires |k| == 56
    ensures SfAsWritten(rev, ListOperand(k[..28]), 28) == None
    ensures SfAsWritten(rev, ListOperand(k[28..]), 28) == None
  {
  }

  /** The position of `_SFT` that round i reads, `i * x` with `x = 2 * rev - 1`. */
  function ReadPos(rev: int, i: nat): int
  {
    i * (2 * rev - 1)
  }

  /** The index `i * x` is i for rev = 1 and -i for rev = 0, which Python
      reads from the end. */
  lemma {:induction false} ReadIndex(rev: Bit, i: nat)
    ensures ReadPos(rev, i) == if rev == 1 then i as int else -(i as int)
  {
    if rev == 0 {
      assert ReadPos(rev, i) == i * -1;
    }
  }

  /** `_SFT[i * x]`, the entry round i reads. */
  function SftRead(rev: Bit, i: nat): nat
    requires i < RDS
  {
    ReadIndex(rev, i);
    PyAt(SFT, ReadPos(rev, i))
  }

  /** As `_SFT[1..15]` is a palindrome, round i reads `_SFT[i]` in either
      direction, and rotates once or twice. */
  lemma {:induction false} SftReadForward(rev: Bit, i: nat)
    requires i < RDS
    ensures SftRead(rev, i) == SFT[i] <= 1
  {
    SftPalindrome();
    SftShape();
    ReadIndex(rev, i);
    if rev == 0 && i > 0 {
      assert SftRead(rev, i) == SFT[16 - i];
    }
  }

  /** The values the sixteen rounds read from `_SFT`, in round order. */
  function Reads(rev: Bit): (r: seq<nat>)
    ensures |r| == RDS
  {
    seq(RDS, i requires 0 <= i < RDS => SftRead(rev, i))
  }

  /** Both directions read `_SFT` front to back. */
  lemma {:induction false} ReadsForward(rev: Bit)
    ensures Reads(rev) == SFT
  {
    SftShape();
    forall i | 0 <= i < RDS
      ensures Reads(rev)[i] == SFT[i]
    {
      SftReadForward(rev, i);
    }
  }

  /** Every entry asks for one or two rotations. */
  predicate OneOrTwo(sh: seq<nat>)
  {
    forall i :: 0 <= i < |sh| ==> sh[i] <= 1
  }

  /** One round of the loop: `op()` once more when the `_SFT` entry s it
      read is set, then `op()`. */
  function Round(rev: Bit, k: seq<Bit>, s: nat): (r: seq<Bit>)
    requires |k| >= 2
    ensures |r| == |k|
  {
    if s != 0 then Op(rev, Op(rev, k)) else Op(rev, k)
  }

  /** The working key after the rounds that read the entries sh, in order. */
  function KeyAfter(rev: Bit, k: seq<Bit>, sh: seq<nat>): (r: seq<Bit>)
    requires |k| >= 2
    ensures |r| == |k|
    decreases |sh|
  {
    if sh == [] then k else Round(rev, KeyAfter(rev, k, sh[..|sh| - 1]), sh[|sh| - 1])
  }

  /** Places each half is rotated by the rounds that read sh: 1 + s for each entry s. */
  function Cum(sh: seq<nat>): nat
    decreases |sh|
  {
    if sh == [] then 0 else Cum(sh[..|sh| - 1]) + 1 + sh[|sh| - 1]
  }

  /** The rounds up to round n are those up to round n - 1, then round n. */
  lemma {:induction false} KeyAfterNext(rev: Bit, k: seq<Bit>, n: nat)
    requires |k| >= 2 && n < RDS
    ensures KeyAfter(rev, k, Reads(rev)[..n + 1]) == Round(rev, KeyAfter(rev, k, Reads(rev)[..n]), SftRead(rev, n))
  {
    var q := Reads(rev)[..n + 1];
    assert q[..|q| - 1] == Reads(rev)[..n];
  }

  /** One more round adds 1 + its entry. */
  lemma {:induction false} CumSnoc(sh: seq<nat>, n: nat)
    requires n < |sh|
    ensures Cum(sh[..n + 1]) == Cum(sh[..n]) + 1 + sh[n]
  {
    var q := sh[..n + 1];
    assert q[..|q| - 1] == sh[..n];
  }

  /** Later rounds only add rotations. */
  lemma {:induction false} CumPrefix(sh: seq<nat>, n: nat)
    requires n <= |sh|
    ensures Cum(sh[..n]) <= Cum(sh)
    decreases |sh| - n
  {
    if n < |sh| {
      CumSnoc(sh, n);
      CumPrefix(sh, n + 1);
    } else {
      assert sh[..n] == sh;
    }
  }

  /** The shifts total 28, the width of a half, in either direction. */
  lemma {:induction false} CumTotal(rev: Bit)
    ensures Cum(Reads(rev)) == 28
  {
    ReadsForward(rev);
    CumSft();
  }

  /** `_SFT` asks for 28 rotations in all, counted round by round. */
  lemma {:induction false} CumSft()
    ensures Cum(SFT) == 28
  {
    assert SFT[..0] == [];
    CumSnoc(SFT, 0);
    assert Cum(SFT[..1]) == 1;
    CumSnoc(SFT, 1);
    assert Cum(SFT[..2]) == 2;
    CumSnoc(SFT, 2);
    assert Cum(SFT[..3]) == 4;
    CumSnoc(SFT, 3);
    assert Cum(SFT[..4]) == 6;
    CumSnoc(SFT, 4);
    assert Cum(SFT[..5]) == 8;
    CumSnoc(SFT, 5);
    assert Cum(SFT[..6]) == 10;
    CumSnoc(SFT, 6);
    assert Cum(SFT[..7]) == 12;
    CumSnoc(SFT, 7);
    assert Cum(SFT[..8]) == 14;
    CumSnoc(SFT, 8);
    assert Cum(SFT[..9]) == 15;
    CumSnoc(SFT, 9);
    assert Cum(SFT[..10]) == 17;
    CumSnoc(SFT, 10);
    assert Cum(SFT[..11]) == 19;
    CumSnoc(SFT, 11);
    assert Cum(SFT[..12]) == 21;
    CumSnoc(SFT, 12);
    assert Cum(SFT[..13]) == 23;
    CumSnoc(SFT, 13);
    assert Cum(SFT[..14]) == 25;
    CumSnoc(SFT, 14);
    assert Cum(SFT[..15]) == 27;
    CumSnoc(SFT, 15);
    assert SFT[..16] == SFT;
  }

  /** Rotation of a list by d places, left for rev = 0 and right for rev = 1. */
  function Turn(rev: Bit, s: seq<Bit>, d: nat): (r: seq<Bit>)
    requires d <= |s|
    ensures |r| == |s|
  {
    if rev == 0 then s[d..] + s[..d] else s[|s| - d..] + s[..|s| - d]
  }

  lemma {:induction false} TurnLeftStep(s: seq<Bit>, d: nat)
    requires d < |s|
    ensures RotlBits(Turn(0, s, d)) == Turn(0, s, d + 1)
  {
    var t := s[d..] + s[..d];
    assert t[0] == s[d];
    assert t[1..] == s[d + 1..] + s[..d];
    assert s[..d + 1] == s[..d] + [s[d]];
  }

  lemma {:induction false} TurnRightStep(s: seq<Bit>, d: nat)
    requires d < |s|
    ensures RotrBits(Turn(1, s, d)) == Turn(1, s, d + 1)
  {
    var n := |s|;
    var t := s[n - d..] + s[..n - d];
    assert t[n - 1] == s[n - d - 1];
    assert t[..n - 1] == s[n - d..] + s[..n - d - 1];
    assert s[n - d - 1..] == [s[n - d - 1]] + s[n - d..];
  }

  /** One more `_sf[rev]` turns a half one place further. */
  lemma {:induction false} TurnStep(rev: Bit, s: seq<Bit>, d: nat)
    requires d < |s|
    ensures SfBits(rev, Turn(rev, s, d)) == Turn(rev, s, d + 1)
  {
    if rev == 0 { TurnLeftStep(s, d); } else { TurnRightStep(s, d); }
  }

  lemma {:induction false} TurnEnds(rev: Bit, s: seq<Bit>)
    ensures Turn(rev, s, 0) == s && Turn(rev, s, |s|) == s
  {
    assert s[..0] == [] && s[|s|..] == [];
  }

  /** `op()` never moves a bit from one half into the other. */
  lemma {:induction false} OpHalves(rev: Bit, a: seq<Bit>, b: seq<Bit>)
    requires |a| == |b| >= 1
    ensures Op(rev, a + b) == SfBits(rev, a) + SfBits(rev, b)
  {
    assert (a + b)[..|a|] == a && (a + b)[|a|..] == b;
  }

  /** Under the integer reading of the key list, `op()` is `_sf[rev]` on each
      28-bit half, the rotated left half placed above the rotated right half. */
  lemma {:induction false} OpIsIntegerSf(rev: Bit, k: seq<Bit>)
    requires |k| == 56
    ensures BitsToNat(Op(rev, k)) ==
            Sf(rev, BitsToNat(k[..28]), 28) * Pow2(28) + Sf(rev, BitsToNat(k[28..]), 28)
  {
    BitsToNatAppend(SfBits(rev, k[..28]), SfBits(rev, k[28..]));
    SfBitsIsSf(rev, k[..28]);
    SfBitsIsSf(rev, k[28..]);
  }

  /** A round that reads s turns both halves 1 + s places further, from c to d. */
  lemma {:induction false} RoundTurns(rev: Bit, a: seq<Bit>, b: seq<Bit>, c: nat, d: nat, s: nat)
    requires |a| == 28 && |b| == 28 && s <= 1 && d == c + 1 + s && d <= 28
    ensures Round(rev, Turn(rev, a, c) + Turn(rev, b, c), s) == Turn(rev, a, d) + Turn(rev, b, d)
  {
    var k := Turn(rev, a, c) + Turn(rev, b, c);
    OpHalves(rev, Turn(rev, a, c), Turn(rev, b, c));
    TurnStep(rev, a, c);
    TurnStep(rev, b, c);
    var k1 := Op(rev, k);
    assert k1 == Turn(rev, a, c + 1) + Turn(rev, b, c + 1);
    if s != 0 {
      assert d == c + 2;
      OpHalves(rev, Turn(rev, a, c + 1), Turn(rev, b, c + 1));
      TurnStep(rev, a, c + 1);
      TurnStep(rev, b, c + 1);
      assert Round(rev, k, s) == Op(rev, k1);
    } else {
      assert d == c + 1;
      assert Round(rev, k, s) == k1;
    }
  }

  /** One more round, after rounds that turned the halves c places. */
  lemma {:induction false} KeyAfterStep(rev: Bit, a: seq<Bit>, b: seq<Bit>, p: seq<nat>, s: nat, c: nat, d: nat)
    requires |a| == 28 && |b| == 28 && s <= 1 && d == c + 1 + s && d <= 28
    requires KeyAfter(rev, a + b, p) == Turn(rev, a, c) + Turn(rev, b, c)
    ensures KeyAfter(rev, a + b, p + [s]) == Turn(rev, a, d) + Turn(rev, b, d)
  {
    var q := p + [s];
    assert q[..|q| - 1] == p && q[|q| - 1] == s;
    RoundTurns(rev, a, b, c, d, s);
  }

  /** The halves of the working key are rotated independently: after rounds
      reading sh each half has been turned `Cum(sh)` places on its own. */
  lemma {:induction false} KeyAfterTurns(rev: Bit, a: seq<Bit>, b: seq<Bit>, sh: seq<nat>)
    requires |a| == 28 && |b| == 28 && OneOrTwo(sh) && Cum(sh) <= 28
    ensures KeyAfter(rev, a + b, sh) == Turn(rev, a, Cum(sh)) + Turn(rev, b, Cum(sh))
    decreases |sh|
  {
    if sh == [] {
      TurnEnds(rev, a);
      TurnEnds(rev, b);
    } else {
      var p, s := sh[..|sh| - 1], sh[|sh| - 1];
      assert sh == p + [s];
      assert OneOrTwo(p) by {
        forall i | 0 <= i < |p| ensures p[i] <= 1 { assert p[i] == sh[i]; }
      }
      KeyAfterTurns(rev, a, b, p);
      KeyAfterStep(rev, a, b, p, s, Cum(p), Cum(sh));
    }
  }

  /** After all `_RDS` rounds the working key is back where it started. */
  lemma {:induction false} FullCycle(rev: Bit, k: seq<Bit>)
    requires |k| == 56
    ensures KeyAfter(rev, k, Reads(rev)) == k
  {
    ReadsForward(rev);
    CumTotal(rev);
    SftShape();
    assert k == k[..28] + k[28..];
    KeyAfterTurns(rev, k[..28], k[28..], Reads(rev));
    TurnEnds(rev, k[..28]);
    TurnEnds(rev, k[28..]);
  }

  /** The values `gen(rev)` yields from the working key k during the rounds
      that read sh: value j is the table projection of the key after the
      first j + 1 of them. */
  function Yields(rev: Bit, k: seq<Bit>, table: seq<nat>, sh: seq<nat>): (r: seq<seq<Bit>>)
    requires |k| == 56 && InBounds(table, 56)
    ensures |r| == |sh|
  {
    seq(|sh|, j requires 0 <= j < |sh| => Pr(KeyAfter(rev, k, sh[..j + 1]), table))
  }

  /** The rounds after round j do not change value j. */
  lemma {:induction false} YieldsPrefixAt(rev: Bit, k: seq<Bit>, table: seq<nat>, sh: seq<nat>, n: nat, j: nat)
    requires |k| == 56 && InBounds(table, 56) && j < n < |sh|
    ensures Yields(rev, k, table, sh[..n + 1])[j] == Yields(rev, k, table, sh[..n])[j]
  {
    assert sh[..n + 1][..j + 1] == sh[..n][..j + 1];
  }

  /** The last value is the projection of the key after all the rounds. */
  lemma {:induction false} YieldsLast(rev: Bit, k: seq<Bit>, table: seq<nat>, sh: seq<nat>)
    requires |k| == 56 && InBounds(table, 56) && sh != []
    ensures Yields(rev, k, table, sh)[|sh| - 1] == Pr(KeyAfter(rev, k, sh), table)
  {
    assert sh[..|sh|] == sh;
  }

  /** Round n adds one value, the projection of its own key, to the values of the rounds before it. */
  lemma {:induction false} YieldsNext(rev: Bit, k: seq<Bit>, table: seq<nat>, sh: seq<nat>, n: nat)
    requires |k| == 56 && InBounds(table, 56) && n < |sh|
    ensures Yields(rev, k, table, sh[..n + 1]) ==
            Yields(rev, k, table, sh[..n]) + [Pr(KeyAfter(rev, k, sh[..n + 1]), table)]
  {
    forall j | 0 <= j < n
      ensures Yields(rev, k, table, sh[..n + 1])[j] == Yields(rev, k, table, sh[..n])[j]
    {
      YieldsPrefixAt(rev, k, table, sh, n, j);
    }
    YieldsLast(rev, k, table, sh[..n + 1]);
    SnocExt(Yields(rev, k, table, sh[..n + 1]), Yields(rev, k, table, sh[..n]), Pr(KeyAfter(rev, k, sh[..n + 1]), table));
  }

  /** Value i is the table read from the key whose halves are each turned
      by the first i + 1 entries of `_SFT`, plus one place per round. */
  lemma {:induction false} YieldsTurns(rev: Bit, k: seq<Bit>, table: seq<nat>, i: nat)
    requires |k| == 56 && InBounds(table, 56) && i < RDS
    ensures Cum(SFT[..i + 1]) <= 28
    ensures Yields(rev, k, table, Reads(rev))[i] ==
            Pr(Turn(rev, k[..28], Cum(SFT[..i + 1])) + Turn(rev, k[28..], Cum(SFT[..i + 1])), table)
  {
    ReadsForward(rev);
    CumTotal(rev);
    SftShape();
    CumPrefix(SFT, i + 1);
    var sh := SFT[..i + 1];
    assert OneOrTwo(sh) by {
      forall j | 0 <= j < |sh| ensures sh[j] <= 1 { assert sh[j] == SFT[j]; }
    }
    var a, b := k[..28], k[28..];
    assert k == a + b;
    KeyAfterTurns(rev, a, b, sh);
  }

  /** The source's `_PC2` cannot serve as the projection: every yield would
      index a 56-bit key at 56 and raise `IndexError`. */
  lemma {:induction false} Pc2YieldFails(k: seq<Bit>)
    requires |k| == 56
    ensures !InBounds(PC2, |k|)
    ensures TryPr(k, PC2) == None
  {
    Pc2OutOfRange();
    TryPrDefinedIff(k, PC2);
  }

  /** Every index `gen(rev)` uses is valid: `_sf[rev]` exists (Python
      accepts -2..1) and each round's `_SFT[i * x]` exists (-16..15). */
  predicate RoundsInRange(rev: int)
  {
    -2 <= rev < 2 && forall i: nat :: i < RDS ==> -|SFT| <= ReadPos(rev, i) < |SFT|
  }

  /** Only rev = 0 and rev = 1 run all sixteen rounds without `IndexError`:
      rev = -1 and rev = -2 name an `_sf` entry but read `_SFT` out of range
      by round 15. */
  lemma {:induction false} RoundsInRangeIff(rev: int)
    ensures RoundsInRange(rev) <==> rev == 0 || rev == 1
  {
    SftShape();
    if rev == 0 || rev == 1 {
      forall i: nat | i < RDS
        ensures -|SFT| <= ReadPos(rev, i) < |SFT|
      {
        if rev == 0 { assert ReadPos(rev, i) == -(i as int); } else { assert ReadPos(rev, i) == i; }
      }
    } else if -2 <= rev < 0 {
      assert ReadPos(rev, 15) == 15 * (2 * rev - 1) <= -45;
    }
  }

  /** A `KEYSTREAM` object: its one field is the 56-bit working key. */
  class KeyStream {
    var key: seq<Bit>

    /** `__init__`: the working key is `_kp` of the key bytes. */
    constructor (k: seq<Byte>)
      requires |k| >= 8
      ensures key == Kp(k)
    {
      key := Kp(k);
    }

    /** `gen(rev)`: a generator over this object that has run no round yet.
        `table` stands for the projection the source hard-codes as `_PC2`. */
    method Gen(rev: Bit, table: seq<nat>) returns (g: KeyGen)
      ensures fresh(g)
      ensures g.owner == this && g.rev == rev && g.table == table && g.i == 0
    {
      g := new KeyGen(this, rev, table);
    }

    /** `list(self.gen(rev))`: the sixteen values, collected by `next`
        until the generator stops; the working key ends where it began. */
    method GenAll(rev: Bit, table: seq<nat>) returns (ys: seq<seq<Bit>>)
      requires |key| == 56 && InBounds(table, 56)
      modifies this
      ensures key == old(key)
      ensures ys == Yields(rev, old(key), table, Reads(rev))
    {
      ghost var k0 := key;
      var g := Gen(rev, table);
      ys := [];
      assert Reads(rev)[..0] == [];
      for r := 0 to RDS
        invariant g.owner == this && g.rev == rev && g.table == table
        invariant g.i == r && |key| == 56
        invariant key == KeyAfter(rev, k0, Reads(rev)[..r])
        invariant ys == Yields(rev, k0, table, Reads(rev)[..r])
      {
        var y := g.Next();
        KeyAfterNext(rev, k0, r);
        YieldsNext(rev, k0, table, Reads(rev), r);
        ys := ys + [y.value];
      }
      var stop := g.Next();
      assert stop == None;
      assert Reads(rev)[..RDS] == Reads(rev);
      FullCycle(rev, k0);
    }
  }

  /** The suspended generator of `gen(rev)`: `i` is the number of rounds run. */
  class KeyGen {
    const owner: KeyStream
    const rev: Bit
    const table: seq<nat>
    var i: nat

    constructor (owner: KeyStream, rev: Bit, table: seq<nat>)
      ensures this.owner == owner && this.rev == rev && this.table == table && i == 0
    {
      this.owner := owner;
      this.rev := rev;
      this.table := table;
      i := 0;
    }

    /** One `next()`: run round i on the owner's key and yield the table
        projection of the result, or stop after `_RDS` rounds. */
    method Next() returns (y: Option<seq<Bit>>)
      requires |owner.key| == 56 && InBounds(table, 56) && i <= RDS
      modifies this`i, owner`key
      ensures |owner.key| == 56 && i <= RDS
      ensures old(i) < RDS ==> i == old(i) + 1 && y == Some(Pr(owner.key, table))
                               && owner.key == Round(rev, old(owner.key), SftRead(rev, old(i)))
      ensures old(i) == RDS ==> i == old(i) && owner.key == old(owner.key) && y == None
    {
      if i == RDS {
        return None;
      }
      var x := rev * 2 - 1;
      ReadIndex(rev, i);
      assert i * x == ReadPos(rev, i);
      if PyAt(SFT, i * x) != 0 {
        owner.key := Op(rev, owner.key);
      }
      owner.key := Op(rev, owner.key);
      y := Some(Pr(owner.key, table));
      i := i + 1;
    }
  }

  /** Running `gen` to the end twice over one object yields the same values twice. */
  method GenTwice(ks: KeyStream, rev: Bit, table: seq<nat>) returns (first: seq<seq<Bit>>, second: seq<seq<Bit>>)
    requires |ks.key| == 56 && InBounds(table, 56)
    modifies ks
    ensures ks.key == old(ks.key)
    ensures first == second == Yields(rev, old(ks.key), table, Reads(rev))
  {
    first := ks.GenAll(rev, table);
    second := ks.GenAll(rev, table);
  }
}
