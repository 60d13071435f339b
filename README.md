# KEYSTREAM key schedule in Dafny

This project models `KEYSTREAM` in `des.py`, the key-schedule half of a small
DES implementation, and proves properties of the model. A `KEYSTREAM` object
turns an 8-byte key into a 56-bit working key:

- each byte is spelled out as eight bits, most significant first;
- PC-1 selects 56 of the 64 bits (`_kp`).

Its generator `gen(rev)` then runs 16 rounds. Each round:

- rotates the two 28-bit halves of the working key once or twice, in place;
- reads the round's entry of the shift table `_SFT` at `i * (2 * rev - 1)` to choose once or twice;
- yields a table projection (`_pr`) of the new key.

`rev = 0` rotates left and `rev = 1` rotates right.

Modules, in dependency order:

- `Bits`: bit lists (`seq<Bit>`, most significant bit first) and their reading as naturals.
- `Rotations`: the two `_sf` lambdas.
  - They are written on naturals as in the source: `<<` is `Shl` (doubling m times), `>>` and `%` are division and remainder by powers of two, and `^` is a recursive bitwise `Xor`.
  - They are also written on bit lists, and the two forms are proved equal under the integer reading.
- `Select`: `_pr` (a sequence comprehension with an in-bounds precondition); `TryPr`, the same selection with Python's `IndexError` as `None`; and Python's negative indexing `PyAt`.
- `Tables`: `_RDS`, `_SFT`, `_PC1` and `_PC2` as in the source, plus facts about them.
- `KeyPrep`: the bit expansion and `_kp`.
- `Schedule`:
  - the rounds as functions (`Op`, `Round`, `KeyAfter`, `Yields`);
  - the lemmas relating them to rotations of each half (`Turn`);
  - the object as class `KeyStream`, with field `key` and `__init__`;
  - the suspended generator as class `KeyGen`, with a round counter and a `Next` method that is one `next()` call.

The round functions take the sequence of `_SFT` entries read so far as a
parameter. `Reads(rev)` is the sequence of entries that the generator actually
reads, and `ReadsForward` proves that it equals `_SFT` in both directions.

Two places where the model departs from the code as written:

- `op()` (des.py:51) passes the list slices `self.key[:t]` and `self.key[t:]` to the integer lambdas `_sf`. Python raises `TypeError` at `k<<1` (rev = 0) or `k>>1` (rev = 1) on a list, in the first round of the first `next()`; `Schedule.OpAsWrittenRaises` states this.
  - The model gives the evident intent instead: each half is rotated as a bit list and the halves are joined.
  - `Rotations.SfBitsIsSf` and `Schedule.OpIsIntegerSf` prove that this is exactly `_sf[rev]`, as written, applied to the integer value of each half.
- `_PC2` (des.py:26-35) has 64 one-based entries, and the first one out of range for a 56-bit key is 56.
  - Once the halves are rotated as lists (the model's reading of `op()`), every yield would raise `IndexError`. As written, the `TypeError` above comes first and masks it. See "Findings".
  - The generator therefore takes its projection `table` as a parameter, which must be in bounds for 56 bits.
  - The source's `_PC2` is kept as a constant, with lemmas stating that it fails this condition.

## Model

The tables `_RDS`, `_SFT`, `_PC1` and `_PC2` (des.py:14-35) are the constants `Tables.RDS`, `SFT`, `PC1` and `PC2`. Their contents are stated by `SftShape`, `Pc1PosInverts` and `Pc2OutOfRange`, in the rows below.

| member | source | states |
|---|---|---|
| Bits.NatToBits | des.py:43 | `f'{v:0nb}'` read digit by digit: n bits, most significant first. `NatToBitsToNat`, `BitsToNatToBits` and `NatToBitsAt` state what it computes. |
| Bits.NatToBitsToNat | des.py:43 | For v < 2^n, reading back the n-digit binary rendering of v (`f'{v:08b}'` for n = 8) gives v. |
| Bits.BitsToNatToBits | des.py:43-44 | Rendering the value of an n-bit list in n digits gives back the list, so the rendering is a bijection. |
| Bits.NatToBitsAt | des.py:43 | Digit q of the n-digit rendering of v is bit n-1-q of v (most significant first). |
| Bits.BitsToNatBound | des.py:44 | A list of n bits denotes a value below 2^n. |
| Bits.BitsToNatInjective | des.py:44 | Two bit lists of one length with the same value are equal. |
| Bits.BitsToNatAppend | des.py:51 | Joining two bit lists with `+` shifts the value of the first up by the length of the second and adds the value of the second. |
| Rotations.Xor | des.py:8-9 | Python's `^` on naturals, defined bit by bit. `XorBit` states that it is bitwise exclusive or; `XorComm` and `XorLowHigh` give further properties. |
| Rotations.XorBit | des.py:8-9 | Bit p of `a ^ b` is bit p of a plus bit p of b, modulo 2. |
| Rotations.Shl | des.py:8-9 | Python's `<<`: its result is at least its argument. `ShlMul` gives its value c·2^m. |
| Rotations.RotlNat | des.py:8 | `_sf[0]` as written, `((k<<1) % 2^n) ^ (k>>(n-1))`. Its meaning is stated by `RotlNatTop`, `RotlBitsIsRotlNat`, `SfBound` and `RotationsInverse`. |
| Rotations.RotrNat | des.py:9 | `_sf[1]` as written, `(k>>1) ^ ((k%2)<<(n-1))`. Its meaning is stated by `RotrNatBottom`, `RotrBitsIsRotrNat`, `SfBound` and `RotationsInverse`. |
| Rotations.Sf | des.py:7-10 | The list `_sf` indexed by `rev`. `SfBitsIsSf` and `SfBound` state its properties. |
| Rotations.XorComm | des.py:8-9 | `^` is commutative. |
| Rotations.ShlMul | des.py:9 | `c << m` is c·2^m. |
| Rotations.XorLowHigh | des.py:8-9 | `a ^ (c << m)` equals `a + (c << m)` when a < 2^m (the bits are disjoint). |
| Rotations.RotlNatTop | des.py:8 | `_sf[0]` on an n-bit value with top bit b and remaining bits w gives 2w + b: the top bit wraps to the bottom. |
| Rotations.RotrNatBottom | des.py:9 | `_sf[1]` on 2u + b (with u < 2^(n-1)) gives b·2^(n-1) + u: the bottom bit wraps to the top. |
| Rotations.RotlBits | des.py:8 | The list reading of `_sf[0]`: the first bit moves to the end, and the length is kept. `RotlBitsIsRotlNat` ties it to `_sf[0]`. |
| Rotations.RotrBits | des.py:9 | The list reading of `_sf[1]`: the last bit moves to the front, and the length is kept. `RotrBitsIsRotrNat` ties it to `_sf[1]`. |
| Rotations.SfBits | des.py:51 | Rotating one half as a list keeps its length. `SfBitsIsSf` gives its integer meaning. |
| Rotations.RotlBitsIsRotlNat | des.py:8 | Read as integers, moving the first bit of a list to the end is `((k<<1) % 2^n) ^ (k>>(n-1))`. |
| Rotations.RotrBitsIsRotrNat | des.py:9 | Read as integers, moving the last bit of a list to the front is `(k>>1) ^ ((k%2)<<(n-1))`. |
| Rotations.SfBitsIsSf | des.py:7-10 | The list rotation for direction `rev` is `_sf[rev]` on the integer value of the list. |
| Rotations.RotrRotlBits | des.py:7-10 | The two list rotations undo each other. |
| Rotations.SfBound | des.py:8-9 | For 0 <= k < 2^n, both `_sf[0](k, n)` and `_sf[1](k, n)` stay below 2^n. |
| Rotations.RotationsInverse | des.py:8-9 | For 0 <= k < 2^n, `_sf[1]` undoes `_sf[0]` and `_sf[0]` undoes `_sf[1]`. |
| Select.Pr | des.py:11 | `_pr(k, m)` has one element per entry of m. |
| Select.TryPr | des.py:11 | `_pr(k, m)` evaluated left to right, `None` standing for the `IndexError` at the first entry not below len(k). `TryPrDefinedIff` states when it fails and what it returns otherwise. |
| Select.PyAt | des.py:53 | Python's `s[j]`, a negative j counting from the end. `SftReadForward` states what it gives for `_SFT`. |
| Select.TryPrDefinedIff | des.py:11 | Evaluated left to right, `_pr(k, m)` raises `IndexError` if and only if some entry of m is not below len(k); otherwise its value is `Pr(k, m)`. |
| Tables.SftShape | des.py:14-15 | `_SFT` has `_RDS` = 16 entries, each 0 or 1. |
| Tables.SftPalindrome | des.py:15 | `_SFT[i] == _SFT[16 - i]` for 1 <= i <= 15. |
| Tables.Pc1PosInverts | des.py:16-25 | `_PC1` has 56 entries, all below 64, none of them a parity position p % 8 == 7. The position table `PC1_POS` undoes `_PC1` on both sides. |
| Tables.Pc1Shape | des.py:16-25 | The 56 entries of `_PC1` are distinct and all below 64. |
| Tables.Pc1OmitsParity | des.py:16-25 | A bit position below 64 occurs in `_PC1` exactly when it is not 7, 15, ..., 63. |
| Tables.Pc2OutOfRange | des.py:26-35 | `_PC2` has 64 entries, its entry 4 is 56, and so it is not in bounds for a 56-bit key. Entries 0-3 are in bounds, so entry 4 is where the selection fails. |
| KeyPrep.Expand | des.py:43-44 | The expansion has eight bits per key byte. |
| KeyPrep.ExpandAt | des.py:43-44 | Bit 8j + b of the expansion is bit 7 - b of byte j. |
| KeyPrep.ExpandPrefix | des.py:43-44 | The expansion of the first n bytes is the first 8n bits of the expansion. |
| KeyPrep.Kp | des.py:42-45 | `_kp` returns 56 bits for a key of at least eight bytes. |
| KeyPrep.KpAt | des.py:42-45 | Bit i of `_kp(key)` is bit 7 - `_PC1[i]` % 8 of byte `_PC1[i]` / 8. |
| KeyPrep.KpFirstEight | des.py:42-45 | Only the first eight bytes of the key affect `_kp`. |
| KeyPrep.KpShortKeyFails | des.py:45 | For a key shorter than eight bytes, the selection with `_PC1` raises `IndexError`. |
| KeyPrep.KpParityIrrelevant | des.py:42-45 | Keys whose first eight bytes agree outside their least significant bits prepare to the same 56 bits. |
| KeyPrep.KpKeepsBit | des.py:42-45 | Keys that prepare alike agree on bits 1..7 of each of their first eight bytes. |
| KeyPrep.KpKeepsNonParity | des.py:42-45 | Keys that prepare alike agree, byte by byte over the first eight, outside the least significant bit. |
| KeyPrep.KpIgnoresParity | des.py:42-45 | `_kp(k1) == _kp(k2)` if and only if the first eight bytes of k1 and k2 agree outside their least significant bits. |
| Schedule.Op | des.py:51 | `op()` keeps the key's length. |
| Schedule.SfAsWritten | des.py:7-10 | `_sf[rev]` as Python evaluates it: it returns a value exactly when its argument is an integer, and raises `TypeError` (`None`) on a list. |
| Schedule.OpAsWrittenRaises | des.py:51 | As written, each half passed to `_sf[rev]` in `op()` is a list slice of the 56-bit key, so the first call already raises `TypeError`. |
| Schedule.SftRead | des.py:53 | The entry `_SFT[i * x]` that round i reads, through `PyAt`. `SftReadForward` and `ReadsForward` state its value. |
| Schedule.SftReadForward | des.py:53 | The entry `_SFT[i * x]` that round i reads is `_SFT[i]` in both directions (via Python's negative indexing for rev = 0), and it is 0 or 1. |
| Schedule.ReadPos | des.py:50-53 | The index `i * x`, with `x = 2 * rev - 1`, that round i reads. `ReadIndex` and `RoundsInRangeIff` state its values. |
| Schedule.ReadIndex | des.py:50-53 | `i * x` with `x = 2 * rev - 1` is i for rev = 1 and -i for rev = 0. |
| Schedule.Reads | des.py:52-53 | The 16 rounds read 16 entries of `_SFT`. |
| Schedule.ReadsForward | des.py:50-53 | In either direction the entries read, in round order, are `_SFT` front to back. For rev = 0 the order 0, 15, ..., 1 gives this because `_SFT[1..15]` is a palindrome. |
| Schedule.RoundsInRange | des.py:50-53 | `_sf[rev]` is a valid index into the two-element list `_sf`, and every `_SFT[i * x]` is a valid index. `RoundsInRangeIff` states exactly when this holds. |
| Schedule.RoundsInRangeIff | des.py:50-53 | `_sf[rev]` and all sixteen `_SFT[i * x]` are valid Python indexes exactly when rev is 0 or 1. |
| Schedule.Round | des.py:53-55 | A round keeps the key's length. |
| Schedule.KeyAfter | des.py:52-55 | Any number of rounds keeps the key's length. |
| Schedule.KeyAfterNext | des.py:52-55 | The key after rounds 0..n is round n applied to the key after rounds 0..n-1, with the entry round n reads. |
| Schedule.CumPrefix | des.py:52-55 | Later rounds only add rotations: the count for a prefix of the rounds is at most the count for all of them. |
| Schedule.CumSft | des.py:14-15 | `_SFT` asks for one rotation per round plus one per set entry: 28 in all. |
| Schedule.CumTotal | des.py:14-15 | Over the 16 rounds the rotations total 28, the width of a half, in either direction. |
| Schedule.TurnStep | des.py:51 | One more `_sf[rev]` turns a half list that is already turned d places to d + 1 places. |
| Schedule.OpHalves | des.py:51 | `op()` rotates the left and the right half separately: no bit crosses between halves. |
| Schedule.OpIsIntegerSf | des.py:51 | Read as an integer, `op()` on the 56-bit key is `_sf[rev]` on the value of each 28-bit half, with the rotated left half placed above the rotated right half. |
| Schedule.RoundTurns | des.py:53-55 | A round whose entry is s turns both halves 1 + s places further. |
| Schedule.KeyAfterTurns | des.py:49-55 | After any rounds, each half of the key has been rotated, on its own, by the number of places those rounds add up to. |
| Schedule.FullCycle | des.py:52-55 | After all 16 rounds the working key equals the key it started from, in either direction. |
| Schedule.Yields | des.py:52-56 | One value is yielded per round. Value j is the table projection of the key after rounds 0..j. |
| Schedule.YieldsPrefixAt | des.py:52-56 | Later rounds leave the values already yielded unchanged. |
| Schedule.YieldsLast | des.py:56 | The last value yielded is the projection of the key after all the rounds so far. |
| Schedule.YieldsNext | des.py:56 | Round n adds exactly the projection of its own key to the values before it. |
| Schedule.YieldsTurns | des.py:49-56 | Value i is the projection of the key whose halves are each turned by 1 + `_SFT[j]` places summed over j <= i (left for rev = 0, right for rev = 1). |
| Schedule.Pc2YieldFails | des.py:26-35 | With the source's `_PC2`, the projection of any 56-bit key raises `IndexError`. |
| Schedule.KeyStream.constructor | des.py:37-39 | `__init__` sets the working key to `_kp(key)`. |
| Schedule.KeyStream.Gen | des.py:48 | `gen(rev)` creates a fresh generator over this object that has run no round. |
| Schedule.KeyGen.constructor | des.py:48-51 | A new generator has its owner, direction and table set and its round counter at 0. |
| Schedule.KeyGen.Next | des.py:52-56 | One `next()`: while fewer than 16 rounds have run, it runs round i on the owner's key, advances the counter and yields the projection of the new key; after 16 rounds it changes nothing and stops. |
| Schedule.KeyStream.GenAll | des.py:48-56 | Running `gen(rev)` to the end yields exactly the 16 values `Yields(rev, key, table, Reads(rev))`, and leaves the working key as it was. |
| Schedule.GenTwice | des.py:48-56 | Running `gen(rev)` to the end twice on one object yields the same 16 values both times. |

## Left out

- `urandom`, `main`, `print` and the `__main__` guard (des.py:3, 58-63): a randomness source and I/O.
- The `TypeError` that `op()` raises as written is modelled only for `op()` itself (`OpAsWrittenRaises`). The rounds, `KeyGen.Next` and `GenAll` rotate the halves as bit lists, and the model proves that this equals `_sf` on their integer values.
- `assert isinstance(key, bytes)` (des.py:38): the key's type, `seq<Byte>`, says this.
- Python generator suspension. `KeyGen` is an explicit round counter, and `Next` returns `None` where Python raises `StopIteration`.
  - `gen` computes `t` and `x` on its first `next()`; the model fixes `t = 28` through `Next`'s precondition `|owner.key| == 56`, which every `KEYSTREAM` object meets.
  - Several live generators over one object may interleave, since `Next` only needs the owner's key; the lemmas about complete runs (`GenAll`, `GenTwice`) cover one generator at a time.
- Rotations.RotlNat, Rotations.RotrNat, Rotations.Sf: the precondition `n >= 1` leaves out n = 0, where Python raises `ValueError` (negative shift count) at `k>>(n-1)` or `(k%2)<<(n-1)`. `gen` only passes n = 28.
- `rev` outside {0, 1}: `rev` has type `Bit`. `Schedule.RoundsInRangeIff` records why no other value runs all sixteen rounds.
- Keys longer than eight bytes are accepted, as in the source, and `KpFirstEight` shows that the extra bytes are ignored. Shorter keys are excluded by the precondition and covered by `KpShortKeyFails`.
- Select.Pr: its contract states only the length. Element i being `k[m[i]]` is the comprehension itself, and `TryPrDefinedIff` ties `Pr` to the left-to-right `TryPr`.
- Schedule.KeyGen.Next: the yield is `Pr(key, table)` for an in-bounds `table` given as a parameter. The source's `_PC2` is ruled out, see `Pc2YieldFails`.
- Any claim that rev = 1 yields the rev = 0 values in reverse order. It yields the mirror-image rotations instead: cumulative right turns 1, 2, 4, ..., 28.
- Any claim that the yielded values are DES round keys: the source's projection table is not PC-2.

## Findings

| source | as written | input that shows it | evidently intended | confidence | as-written member | corrected member |
|---|---|---|---|---|---|---|
| des.py:51 | `op()` passes the list slices `self.key[:t]` and `self.key[t:]` to `_sf[rev]`, whose `<<` and `>>` need integers | any key and rev 0 or 1: the first `next()` raises `TypeError` at `k<<1` (des.py:8) or `k>>1` (des.py:9) in round 0 | rotate each 28-bit half one place and rejoin the halves | not executed | Schedule.OpAsWrittenRaises | Schedule.OpIsIntegerSf |
| des.py:26-35 | `_PC2` holds 64 one-based entries (the DES inverse initial permutation), and `gen` yields `_pr(self.key, _PC2)` from the 56-element key. As written, the `TypeError` at des.py:51 comes first and masks this | once the halves are rotated as lists (the model's reading), the first `next()` evaluates `self.key[56]` for entry 4 of `_PC2` and raises `IndexError`; as written, the first `next()` already raises `TypeError` at des.py:51 | a projection table whose entries are all below 56 (the 56-to-48 PC-2) | not executed | Schedule.Pc2YieldFails | Schedule.KeyStream.GenAll |
