/**
  * Pure model of the DES / Triple-DES engine as the code computes it.
  *
  * The bit-level pieces (the `BITNUM*` and `SBOXBIT` macros, the S-box tables, the
  * initial permutation, the expansion and S-box layer of the round function `f`, the
  * one byte that `InvIP` assembles) are functions on bit-vectors. The Feistel loop of
  * `des_crypt` is `Network`, generic in the round function, and is proved to undo
  * itself when run again with the subkeys reversed, whatever the round function.
  *
  * The code departs from FIPS 46-3 in three places, and this module follows the code:
  * the key schedule never reads the key and writes only zero subkeys, `f` applies no
  * P-box after the S-boxes, and the output step fills only the first byte of the block.
  */
module DesSpec {

  type Byte = bv8
  type Word = bv32

  /** One 48-bit round subkey, a row `schedule[i][0..6)`. */
  type Subkey = k: seq<Byte> | |k| == 6 witness [0, 0, 0, 0, 0, 0]

  /** `DES_MODE`. `!mode` in the code flips it. */
  datatype Mode = Encrypt | Decrypt

  function Flip(m: Mode): Mode
  {
    if m == Encrypt then Decrypt else Encrypt
  }

  // ---------------------------------------------------------------------------
  // Bit macros
  // ---------------------------------------------------------------------------

  /** `SBOXBIT(a)`: the table index of a 6-bit group; bit 5 stays, bits 4..1 move down to
      3..0, and bit 0 moves up to 4. */
  function SBoxBit(a: Byte): Byte
  {
    (a & 0x20) | ((a & 0x1f) >> 1) | ((a & 0x01) << 4)
  }

  /** The S-box row of a 6-bit group: its two outer bits. */
  function Row(a: Byte): Byte
  {
    ((a >> 4) & 0x02) | (a & 0x01)
  }

  /** The S-box column of a 6-bit group: its four inner bits. */
  function Col(a: Byte): Byte
  {
    (a >> 1) & 0x0f
  }

  /** `SBOXBIT` addresses a table of four rows of sixteen: row `Row(a)`, column `Col(a)`. */
  lemma SBoxBitRowCol(a: Byte)
    requires a < 64
    ensures SBoxBit(a) == (Row(a) << 4) | Col(a)
    ensures SBoxBit(a) < 64 && Row(a) < 4 && Col(a) < 16
  {
  }

  /** The inverse index map: from a table index back to the 6-bit group. */
  function UnSBoxBit(x: Byte): Byte
  {
    (x & 0x20) | ((x & 0x0f) << 1) | ((x & 0x10) >> 4)
  }

  /** `SBOXBIT` is a bijection of 0..63: `UnSBoxBit` undoes it on both sides. */
  lemma SBoxBitBijective(a: Byte, x: Byte)
    requires a < 64 && x < 64
    ensures SBoxBit(a) < 64 && UnSBoxBit(SBoxBit(a)) == a
    ensures UnSBoxBit(x) < 64 && SBoxBit(UnSBoxBit(x)) == x
  {
  }

  // ---------------------------------------------------------------------------
  // S-boxes
  // ---------------------------------------------------------------------------

  /** An S-box entry: the tables hold four-bit values only. */
  type Nib = x: Byte | x < 16

  const SBOX1: seq<seq<Nib>> := [
    [14,4,13,1,2,15,11,8,3,10,6,12,5,9,0,7],
    [0,15,7,4,14,2,13,1,10,6,12,11,9,5,3,8],
    [4,1,14,8,13,6,2,11,15,12,9,7,3,10,5,0],
    [15,12,8,2,4,9,1,7,5,11,3,14,10,0,6,13]]

  const SBOX2: seq<seq<Nib>> := [
    [15,1,8,14,6,11,3,4,9,7,2,13,12,0,5,10],
    [3,13,4,7,15,2,8,14,12,0,1,10,6,9,11,5],
    [0,14,7,11,10,4,13,1,5,8,12,6,9,3,2,15],
    [13,8,10,1,3,15,4,2,11,6,7,12,0,5,14,9]]

  const SBOX3: seq<seq<Nib>> := [
    [10,0,9,14,6,3,15,5,1,13,12,7,11,4,2,8],
    [13,7,0,9,3,4,6,10,2,8,5,14,12,11,15,1],
    [13,6,4,9,8,15,3,0,11,1,2,12,5,10,14,7],
    [1,10,13,0,6,9,8,7,4,15,14,3,11,5,2,12]]

  const SBOX4: seq<seq<Nib>> := [
    [7,13,14,3,0,6,9,10,1,2,8,5,11,12,4,15],
    [13,8,11,5,6,15,0,3,4,7,2,12,1,10,14,9],
    [10,6,9,0,12,11,7,13,15,1,3,14,5,2,8,4],
    [3,15,0,6,10,1,13,8,9,4,5,11,12,7,2,14]]

  const SBOX5: seq<seq<Nib>> := [
    [2,12,4,1,7,10,11,6,8,5,3,15,13,0,14,9],
    [14,11,2,12,4,7,13,1,5,0,15,10,3,9,8,6],
    [4,2,1,11,10,13,7,8,15,9,12,5,6,3,0,14],
    [11,8,12,7,1,14,2,13,6,15,0,9,10,4,5,3]]

  const SBOX6: seq<seq<Nib>> := [
    [12,1,10,15,9,2,6,8,0,13,3,4,14,7,5,11],
    [10,15,4,2,7,12,9,5,6,1,13,14,0,11,3,8],
    [9,14,15,5,2,8,12,3,7,0,4,10,1,13,11,6],
    [4,3,2,12,9,5,15,10,11,14,1,7,6,0,8,13]]

  const SBOX7: seq<seq<Nib>> := [
    [4,11,2,14,15,0,8,13,3,12,9,7,5,10,6,1],
    [13,0,11,7,4,9,1,10,14,3,5,12,2,15,8,6],
    [1,4,11,13,12,3,7,14,10,15,6,8,0,5,9,2],
    [6,11,13,8,1,4,10,7,9,5,0,15,14,2,3,12]]

  const SBOX8: seq<seq<Nib>> := [
    [13,2,8,4,6,15,11,1,10,9,3,14,5,0,12,7],
    [1,15,13,8,10,3,7,4,12,5,6,11,0,14,9,2],
    [7,11,4,1,9,12,14,2,0,6,10,13,15,3,5,8],
    [2,1,14,7,4,10,8,13,15,12,9,0,3,5,6,11]]

  /** The eight tables in the order `f` uses them. */
  const SBOXES: seq<seq<seq<Nib>>> := [SBOX1, SBOX2, SBOX3, SBOX4, SBOX5, SBOX6, SBOX7, SBOX8]

  /** Every table has four rows of sixteen entries, each below 16 by its type. */
  lemma SBoxesShape()
    ensures |SBOXES| == 8
    ensures forall i :: 0 <= i < 8 ==> |SBOXES[i]| == 4 && forall r :: 0 <= r < 4 ==> |SBOXES[i][r]| == 16
  {
  }

  /** `sboxN[x]` for table `i` (0-based): entry `x` of the 64, read row by row. */
  function Table(i: nat, x: Byte): Nib
    requires i < 8 && x < 64
  {
    SBoxesShape();
    SBOXES[i][(x / 16) as int][(x % 16) as int]
  }

  /** `sboxN[SBOXBIT(a)]` for table `i` (0-based) and 6-bit group `a`: the entry in row
      `Row(a)` and column `Col(a)`. */
  function SBox(i: nat, a: Byte): (r: Byte)
    requires i < 8 && a < 64
    ensures r < 16
    ensures r == SBOXES[i][Row(a) as int][Col(a) as int]
  {
    SBoxBitRowCol(a);
    Table(i, SBoxBit(a))
  }

  // ---------------------------------------------------------------------------
  // Initial permutation
  // ---------------------------------------------------------------------------

  /** The two 32-bit halves `state[0]`, `state[1]` of a block between `IP` and `InvIP`. */
  datatype Halves = Halves(l: Word, r: Word)

  /** `IP`: `state[0]` gathers the odd-numbered input bits and `state[1]` the
      even-numbered ones, in the order of the FIPS 46-3 IP table. Each `BITNUM(in, b, c)`
      is written as the preprocessor expands it: bit `7 - b % 8` of byte `b / 8`, moved to
      bit `c`. */
  function IP(a: seq<Byte>): Halves
    requires |a| == 8
  {
    Halves(
      ((((a[7] >> 6) & 1) as Word) << 31) | ((((a[6] >> 6) & 1) as Word) << 30) |
      ((((a[5] >> 6) & 1) as Word) << 29) | ((((a[4] >> 6) & 1) as Word) << 28) |
      ((((a[3] >> 6) & 1) as Word) << 27) | ((((a[2] >> 6) & 1) as Word) << 26) |
      ((((a[1] >> 6) & 1) as Word) << 25) | ((((a[0] >> 6) & 1) as Word) << 24) |
      ((((a[7] >> 4) & 1) as Word) << 23) | ((((a[6] >> 4) & 1) as Word) << 22) |
      ((((a[5] >> 4) & 1) as Word) << 21) | ((((a[4] >> 4) & 1) as Word) << 20) |
      ((((a[3] >> 4) & 1) as Word) << 19) | ((((a[2] >> 4) & 1) as Word) << 18) |
      ((((a[1] >> 4) & 1) as Word) << 17) | ((((a[0] >> 4) & 1) as Word) << 16) |
      ((((a[7] >> 2) & 1) as Word) << 15) | ((((a[6] >> 2) & 1) as Word) << 14) |
      ((((a[5] >> 2) & 1) as Word) << 13) | ((((a[4] >> 2) & 1) as Word) << 12) |
      ((((a[3] >> 2) & 1) as Word) << 11) | ((((a[2] >> 2) & 1) as Word) << 10) |
      ((((a[1] >> 2) & 1) as Word) << 9) | ((((a[0] >> 2) & 1) as Word) << 8) |
      ((((a[7] >> 0) & 1) as Word) << 7) | ((((a[6] >> 0) & 1) as Word) << 6) |
      ((((a[5] >> 0) & 1) as Word) << 5) | ((((a[4] >> 0) & 1) as Word) << 4) |
      ((((a[3] >> 0) & 1) as Word) << 3) | ((((a[2] >> 0) & 1) as Word) << 2) |
      ((((a[1] >> 0) & 1) as Word) << 1) | ((((a[0] >> 0) & 1) as Word) << 0),
      ((((a[7] >> 7) & 1) as Word) << 31) | ((((a[6] >> 7) & 1) as Word) << 30) |
      ((((a[5] >> 7) & 1) as Word) << 29) | ((((a[4] >> 7) & 1) as Word) << 28) |
      ((((a[3] >> 7) & 1) as Word) << 27) | ((((a[2] >> 7) & 1) as Word) << 26) |
      ((((a[1] >> 7) & 1) as Word) << 25) | ((((a[0] >> 7) & 1) as Word) << 24) |
      ((((a[7] >> 5) & 1) as Word) << 23) | ((((a[6] >> 5) & 1) as Word) << 22) |
      ((((a[5] >> 5) & 1) as Word) << 21) | ((((a[4] >> 5) & 1) as Word) << 20) |
      ((((a[3] >> 5) & 1) as Word) << 19) | ((((a[2] >> 5) & 1) as Word) << 18) |
      ((((a[1] >> 5) & 1) as Word) << 17) | ((((a[0] >> 5) & 1) as Word) << 16) |
      ((((a[7] >> 3) & 1) as Word) << 15) | ((((a[6] >> 3) & 1) as Word) << 14) |
      ((((a[5] >> 3) & 1) as Word) << 13) | ((((a[4] >> 3) & 1) as Word) << 12) |
      ((((a[3] >> 3) & 1) as Word) << 11) | ((((a[2] >> 3) & 1) as Word) << 10) |
      ((((a[1] >> 3) & 1) as Word) << 9) | ((((a[0] >> 3) & 1) as Word) << 8) |
      ((((a[7] >> 1) & 1) as Word) << 7) | ((((a[6] >> 1) & 1) as Word) << 6) |
      ((((a[5] >> 1) & 1) as Word) << 5) | ((((a[4] >> 1) & 1) as Word) << 4) |
      ((((a[3] >> 1) & 1) as Word) << 3) | ((((a[2] >> 1) & 1) as Word) << 2) |
      ((((a[1] >> 1) & 1) as Word) << 1) | ((((a[0] >> 1) & 1) as Word) << 0))
  }

  /** The one byte `InvIP` assembles, `out[0]`: each `BITNUMINTR(state[k], b, c)` is bit
      `31 - b` of the half moved to bit `c`. */
  function InvIPByte(h: Halves): Byte
  {
    ((((h.r >> 24) & 1) as Byte) << 7) | ((((h.l >> 24) & 1) as Byte) << 6) |
    ((((h.r >> 16) & 1) as Byte) << 5) | ((((h.l >> 16) & 1) as Byte) << 4) |
    ((((h.r >> 8) & 1) as Byte) << 3) | ((((h.l >> 8) & 1) as Byte) << 2) |
    ((((h.r >> 0) & 1) as Byte) << 1) | ((((h.l >> 0) & 1) as Byte) << 0)
  }

  /** The block `InvIP` writes: `out[0]` and seven zero bytes. */
  function InvIP(h: Halves): (out: seq<Byte>)
    ensures |out| == 8
  {
    [InvIPByte(h), 0, 0, 0, 0, 0, 0, 0]
  }

  /** Both halves shifted right by `j`. */
  function ShiftHalves(h: Halves, j: Word): Halves
    requires j < 8
  {
    Halves(h.l >> j, h.r >> j)
  }

  /** The exact inverse of `IP` (which the code's `InvIP` is not): byte `j` is built from
      bits `24 + j`, `16 + j`, `8 + j` and `j` of the halves the way `InvIP` builds byte 0
      from bits 24, 16, 8 and 0. */
  function UnIP(h: Halves): (b: seq<Byte>)
    ensures |b| == 8
  {
    [InvIPByte(h), InvIPByte(ShiftHalves(h, 1)), InvIPByte(ShiftHalves(h, 2)),
     InvIPByte(ShiftHalves(h, 3)), InvIPByte(ShiftHalves(h, 4)), InvIPByte(ShiftHalves(h, 5)),
     InvIPByte(ShiftHalves(h, 6)), InvIPByte(ShiftHalves(h, 7))]
  }

  /** `IP` is a bijection between 8-byte blocks and pairs of words: every input bit lands
      in exactly one place and every bit of the halves comes from one input bit. */
  lemma IPBijective(input: seq<Byte>, h: Halves)
    requires |input| == 8
    ensures UnIP(IP(input)) == input
    ensures IP(UnIP(h)) == h
  {
    IPLeftInverse(input);
    IPRightInverse(h);
  }

  lemma IPLeftInverse(input: seq<Byte>)
    requires |input| == 8
    ensures UnIP(IP(input)) == input
  {
  }

  lemma IPRightInverse(h: Halves)
    ensures IP(UnIP(h)) == h
  {
  }

  /** Distinct blocks give distinct halves. */
  lemma IPInjective(a: seq<Byte>, b: seq<Byte>)
    requires |a| == 8 && |b| == 8 && IP(a) == IP(b)
    ensures a == b
  {
    IPBijective(a, IP(a));
    IPBijective(b, IP(b));
  }

  /** `out[0]` depends only on bits 7, 15, 23 and 31 (from the most significant) of each
      half, and it is the first byte of the true inverse of `IP`; bytes 1..7 are 0, where
      the true inverse has the other 56 bits. */
  lemma InvIPBits(h: Halves)
    ensures InvIPByte(h) == InvIPByte(Halves(h.l & 0x0101_0101, h.r & 0x0101_0101))
    ensures InvIP(h)[0] == UnIP(h)[0]
    ensures forall i :: 1 <= i < 8 ==> InvIP(h)[i] == 0
  {
  }

  // ---------------------------------------------------------------------------
  // Round function f
  // ---------------------------------------------------------------------------

  /** The six bytes `e[0..6)` of `f` before the key is mixed in: `t1` and `t2`, the
      expansion of `state` to 48 bits. */
  function Expansion(state: Word): (e: seq<Byte>)
    ensures |e| == 6
  {
    var t1 := (((state << 31) & 0x8000_0000) >> 0)|((state&0xf000_0000)>>1)|(((state << 4) & 0x8000_0000) >> 5)|
              (((state << 3) & 0x8000_0000) >> 6)|((state&0x0f00_0000)>>3)|(((state << 8) & 0x8000_0000) >> 11)|
              (((state << 7) & 0x8000_0000) >> 12)|((state&0x00f0_0000)>>5)|(((state << 12) & 0x8000_0000) >> 17)|
              (((state << 11) & 0x8000_0000) >> 18)|((state&0x000f_0000)>>7)|(((state << 16) & 0x8000_0000) >> 23);
    var t2 := (((state << 15) & 0x8000_0000) >> 0)|((state&0x0000_f000)<<15)|(((state << 20) & 0x8000_0000) >> 5)|
              (((state << 19) & 0x8000_0000) >> 6)|((state&0x0000_0f00)<<13)|(((state << 24) & 0x8000_0000) >> 11)|
              (((state << 23) & 0x8000_0000) >> 12)|((state&0x0000_00f0)<<11)|(((state << 28) & 0x8000_0000) >> 17)|
              (((state << 27) & 0x8000_0000) >> 18)|((state&0x0000_000f)<<9)|(((state << 0) & 0x8000_0000) >> 23);
    [((t1>>24)&0xff) as Byte, ((t1>>16)&0xff) as Byte, ((t1>>8)&0xff) as Byte,
     ((t2>>24)&0xff) as Byte, ((t2>>16)&0xff) as Byte, ((t2>>8)&0xff) as Byte]
  }

  /** `e[i] ^= key[i]` for each of the six bytes. */
  function MixKey(e: seq<Byte>, key: Subkey): (r: seq<Byte>)
    requires |e| == 6
    ensures |r| == 6 && forall i :: 0 <= i < 6 ==> r[i] == e[i] ^ key[i]
  {
    seq(6, i requires 0 <= i < 6 => e[i] ^ key[i])
  }

  /** The 6-bit group that `f` hands to S-box `i` (0-based), cut from the 48 bits `e`. */
  function Group(e: seq<Byte>, i: nat): (g: Byte)
    requires |e| == 6 && i < 8
    ensures g < 64
  {
    match i
    case 0 => e[0] >> 2
    case 1 => ((e[0] & 3) << 4) | (e[1] >> 4)
    case 2 => ((e[1] & 0xf) << 2) | (e[2] >> 6)
    case 3 => e[2] & 0x3f
    case 4 => e[3] >> 2
    case 5 => ((e[3] & 3) << 4) | (e[4] >> 4)
    case 6 => ((e[4] & 0xf) << 2) | (e[5] >> 6)
    case 7 => e[5] & 0x3f
  }

  /** Group `i` of the FIPS 46-3 expansion E: the six bits of `state` numbered `4i` to
      `4i + 5` in the E table (bits 32, 1..5 for the first group and 28..32, 1 for the
      last, numbered from 1 at the most significant bit). */
  function FipsGroup(state: Word, i: nat): (g: Byte)
    requires i < 8
    ensures g < 64
  {
    match i
    case 0 => (((state & 1) << 5) | (state >> 27)) as Byte
    case 1 => ((state >> 23) & 0x3f) as Byte
    case 2 => ((state >> 19) & 0x3f) as Byte
    case 3 => ((state >> 15) & 0x3f) as Byte
    case 4 => ((state >> 11) & 0x3f) as Byte
    case 5 => ((state >> 7) & 0x3f) as Byte
    case 6 => ((state >> 3) & 0x3f) as Byte
    case 7 => (((state & 0x1f) << 1) | (state >> 31)) as Byte
  }

  /** The shifts and masks of `f` compute exactly the FIPS 46-3 expansion E. */
  lemma ExpansionIsFips(state: Word)
    ensures forall i :: 0 <= i < 8 ==> Group(Expansion(state), i) == FipsGroup(state, i)
  {
    ExpansionFirstHalf(state);
    ExpansionSecondHalf(state);
  }

  lemma ExpansionFirstHalf(state: Word)
    ensures forall i :: 0 <= i < 4 ==> Group(Expansion(state), i) == FipsGroup(state, i)
  {
  }

  lemma ExpansionSecondHalf(state: Word)
    ensures forall i :: 4 <= i < 8 ==> Group(Expansion(state), i) == FipsGroup(state, i)
  {
  }

  /** Mixing the key into the 48 bits mixes each key group into the matching group. */
  lemma GroupMixKey(e: seq<Byte>, key: Subkey, i: nat)
    requires |e| == 6 && i < 8
    ensures Group(MixKey(e, key), i) == Group(e, i) ^ Group(key, i)
  {
  }

  /** The eight S-box outputs for the 48 bits `e`, table 1 first. */
  function SBoxOuts(e: seq<Byte>): (s: seq<Byte>)
    requires |e| == 6
    ensures |s| == 8 && forall i :: 0 <= i < 8 ==> s[i] < 16
  {
    seq(8, i requires 0 <= i < 8 => SBox(i, Group(e, i)))
  }

  /** The S-box layer of `f`: each group looked up in its table and the eight outputs
      packed with table 1 in the top nibble. No P-box follows. */
  function SBoxLayer(e: seq<Byte>): Word
    requires |e| == 6
  {
    Pack(SBoxOuts(e))
  }

  /** `f`: expansion, key mix, S-box layer. */
  function RoundF(state: Word, key: Subkey): Word
  {
    SBoxLayer(MixKey(Expansion(state), key))
  }

  /** Nibble `i` of a word, counted from the most significant. */
  function Nibble(w: Word, i: nat): (n: Word)
    requires i < 8
    ensures n < 16
  {
    match i
    case 0 => w >> 28
    case 1 => (w >> 24) & 0xf
    case 2 => (w >> 20) & 0xf
    case 3 => (w >> 16) & 0xf
    case 4 => (w >> 12) & 0xf
    case 5 => (w >> 8) & 0xf
    case 6 => (w >> 4) & 0xf
    case 7 => w & 0xf
  }

  /** Because every S-box entry is below 16 the outputs do not overlap: nibble `i` of
      `f` is exactly S-box `i + 1`'s output for the FIPS expansion group of `state`
      xor-ed with the key group. */
  lemma RoundFNibbles(state: Word, key: Subkey)
    ensures forall i :: 0 <= i < 8 ==>
      Nibble(RoundF(state, key), i) == SBox(i, FipsGroup(state, i) ^ Group(key, i)) as Word
  {
    forall i | 0 <= i < 8
      ensures Nibble(RoundF(state, key), i) == SBox(i, FipsGroup(state, i) ^ Group(key, i)) as Word
    {
      RoundFNibble(state, key, i);
    }
  }

  lemma RoundFNibble(state: Word, key: Subkey, i: nat)
    requires i < 8
    ensures Nibble(RoundF(state, key), i) == SBox(i, FipsGroup(state, i) ^ Group(key, i)) as Word
  {
    var x := Expansion(state);
    ExpansionIsFips(state);
    GroupMixKey(x, key, i);
    assert Group(MixKey(x, key), i) == FipsGroup(state, i) ^ Group(key, i);
  }

  /** Eight 4-bit values packed by shifts and ors, value 0 in the top nibble. */
  function Pack(s: seq<Byte>): (w: Word)
    requires |s| == 8 && forall i :: 0 <= i < 8 ==> s[i] < 16
    ensures forall i :: 0 <= i < 8 ==> Nibble(w, i) == s[i] as Word
  {
    PackHigh(s);
    PackLow(s);
    PackWord(s)
  }

  function PackWord(s: seq<Byte>): Word
    requires |s| == 8
  {
    ((s[0] as Word) << 28) | ((s[1] as Word) << 24) | ((s[2] as Word) << 20) | ((s[3] as Word) << 16) |
    ((s[4] as Word) << 12) | ((s[5] as Word) << 8) | ((s[6] as Word) << 4) | (s[7] as Word)
  }

  lemma PackHigh(s: seq<Byte>)
    requires |s| == 8 && forall i :: 0 <= i < 8 ==> s[i] < 16
    ensures forall i :: 0 <= i < 4 ==> Nibble(PackWord(s), i) == s[i] as Word
  {
  }

  lemma PackLow(s: seq<Byte>)
    requires |s| == 8 && forall i :: 0 <= i < 8 ==> s[i] < 16
    ensures forall i :: 4 <= i < 8 ==> Nibble(PackWord(s), i) == s[i] as Word
  {
  }

  // ---------------------------------------------------------------------------
  // The Feistel network of des_crypt, for any round function
  // ---------------------------------------------------------------------------

  /** A swapping round: `t = state[1]; state[1] = f(state[1], k) ^ state[0]; state[0] = t`. */
  function SwapRound<K>(f: (Word, K) -> Word, k: K, h: Halves): Halves
  {
    Halves(h.r, f(h.r, k) ^ h.l)
  }

  /** The last round, which does not swap: `state[0] = f(state[1], k) ^ state[0]`. */
  function LastRound<K>(f: (Word, K) -> Word, k: K, h: Halves): Halves
  {
    Halves(f(h.r, k) ^ h.l, h.r)
  }

  /** The halves after the first `n` swapping rounds with subkeys `ks[0..n)`. */
  function Rounds<K>(f: (Word, K) -> Word, ks: seq<K>, n: nat, h: Halves): Halves
    requires n <= |ks|
  {
    if n == 0 then h else SwapRound(f, ks[n - 1], Rounds(f, ks, n - 1, h))
  }

  /** The loop of `des_crypt`: a swapping round for every subkey but the last, then the
      last round. */
  function Network<K>(f: (Word, K) -> Word, ks: seq<K>, h: Halves): Halves
    requires |ks| >= 1
  {
    LastRound(f, ks[|ks| - 1], Rounds(f, ks, |ks| - 1, h))
  }

  /** `Network` taken apart: the swapping rounds, then the last round. */
  lemma NetworkLast<K>(f: (Word, K) -> Word, ks: seq<K>, h: Halves, before: Halves)
    requires |ks| >= 1 && before == Rounds(f, ks, |ks| - 1, h)
    ensures Network(f, ks, h) == LastRound(f, ks[|ks| - 1], before)
  {
  }

  function Reverse<K>(s: seq<K>): (r: seq<K>)
    ensures |r| == |s| && forall i :: 0 <= i < |s| ==> r[i] == s[|s| - 1 - i]
  {
    seq(|s|, i requires 0 <= i < |s| => s[|s| - 1 - i])
  }

  function Swap(h: Halves): Halves
  {
    Halves(h.r, h.l)
  }

  /** The last round undoes itself. */
  lemma LastRoundInvolution<K>(f: (Word, K) -> Word, k: K, h: Halves)
    ensures LastRound(f, k, LastRound(f, k, h)) == h
  {
  }

  /** A swapping round after the last round with the same subkey only swaps. */
  lemma SwapAfterLast<K>(f: (Word, K) -> Word, k: K, h: Halves)
    ensures SwapRound(f, k, LastRound(f, k, h)) == Swap(h)
  {
  }

  /** Swapping after a swapping round gives the last round. */
  lemma SwapOfSwapRound<K>(f: (Word, K) -> Word, k: K, h: Halves)
    ensures Swap(SwapRound(f, k, h)) == LastRound(f, k, h)
  {
  }

  /** After `j` rounds of the reversed run, the halves are the forward run's state after
      `n - 1 - j` rounds put through the last round with subkey `ks[n - 1 - j]`. */
  lemma {:induction false} ReversedRounds<K>(f: (Word, K) -> Word, ks: seq<K>, h: Halves, j: nat)
    requires 1 <= |ks| && j <= |ks| - 1
    ensures Rounds(f, Reverse(ks), j, Network(f, ks, h))
      == LastRound(f, ks[|ks| - 1 - j], Rounds(f, ks, |ks| - 1 - j, h))
  {
    var n := |ks|;
    if j == 0 {
    } else {
      ReversedRounds(f, ks, h, j - 1);
      var m := n - j;
      var y := Rounds(f, ks, m, h);
      assert Reverse(ks)[j - 1] == ks[m];
      SwapAfterLast(f, ks[m], y);
      assert y == SwapRound(f, ks[m - 1], Rounds(f, ks, m - 1, h));
      SwapOfSwapRound(f, ks[m - 1], Rounds(f, ks, m - 1, h));
    }
  }

  /** The Feistel loop run with the subkeys in reverse order undoes itself, for any
      round function `f`: this is why decryption only reverses the schedule. */
  lemma NetworkInvolution<K>(f: (Word, K) -> Word, ks: seq<K>, h: Halves)
    requires |ks| >= 1
    ensures Network(f, Reverse(ks), Network(f, ks, h)) == h
  {
    var n := |ks|;
    ReversedRounds(f, ks, h, n - 1);
    assert Reverse(ks)[n - 1] == ks[0];
    LastRoundInvolution(f, ks[0], Rounds(f, ks, 0, h));
  }

  // ---------------------------------------------------------------------------
  // Key schedule
  // ---------------------------------------------------------------------------

  /** `shifts[16]`, the per-round rotation amounts of C and D. */
  const SHIFTS: seq<nat> := [1, 1, 2, 2, 2, 2, 2, 2, 1, 2, 2, 2, 2, 2, 2, 1]

  /** How far C and D have been rotated after the first `n` iterations. */
  function Turned(n: nat): nat
    requires n <= |SHIFTS|
  {
    if n == 0 then 0 else Turned(n - 1) + SHIFTS[n - 1]
  }

  /** Over the sixteen rounds the halves turn by 28 bits, a full turn of a 28-bit half. */
  lemma ShiftsFullTurn()
    ensures |SHIFTS| == 16 && Turned(16) == 28
  {
    assert Turned(1) == 1;
    assert Turned(2) == 2;
    assert Turned(3) == 4;
    assert Turned(4) == 6;
    assert Turned(5) == 8;
    assert Turned(6) == 10;
    assert Turned(7) == 12;
    assert Turned(8) == 14;
    assert Turned(9) == 15;
    assert Turned(10) == 17;
    assert Turned(11) == 19;
    assert Turned(12) == 21;
    assert Turned(13) == 23;
    assert Turned(14) == 25;
    assert Turned(15) == 27;
  }

  /** `(C << s) | (C >> (28 - s))` masked with `0xfffffff0`, the rotation of one half. */
  function RotateHalf(c: Word, s: nat): Word
    requires 0 < s <= 28
  {
    ((c << s) | (c >> (28 - s))) & 0xffff_fff0
  }

  /** C and D start at 0 and so stay 0: the key is never loaded into them. */
  lemma RotateHalfZero(s: nat)
    requires 0 < s <= 28
    ensures RotateHalf(0, s) == 0
  {
  }

  /** `idx = (mode == DES_DECRYPT) ? 15 - i : i`, the row written in iteration `i`. */
  function RoundIndex(mode: Mode, i: nat): (r: nat)
    requires i < 16
    ensures r < 16
  {
    if mode == Decrypt then 15 - i else i
  }

  /** The row index map is its own inverse, hence a bijection of 0..15: each row of the
      schedule is written in exactly one iteration. */
  lemma RoundIndexBijective(mode: Mode, i: nat, j: nat)
    requires i < 16 && j < 16
    ensures RoundIndex(mode, RoundIndex(mode, i)) == i
    ensures RoundIndex(mode, i) == RoundIndex(mode, j) <==> i == j
  {
  }

  /** The six bytes `des_key_setup` stores for round `i`: zeros, whatever the key. */
  function RoundSubkey(key: seq<Byte>, i: nat): Subkey
    requires i < 16
  {
    [0, 0, 0, 0, 0, 0]
  }

  /** The schedule `des_key_setup` leaves: row `r` holds the subkey of the iteration that
      wrote it. */
  function KeySchedule(key: seq<Byte>, mode: Mode): (ks: seq<Subkey>)
    ensures |ks| == 16
  {
    seq(16, r requires 0 <= r < 16 => RoundSubkey(key, RoundIndex(mode, r)))
  }

  /** Every subkey byte is 0, for every key and either mode; so the two modes, and all
      keys, give the same schedule. */
  lemma KeyScheduleZero(k1: seq<Byte>, m1: Mode, k2: seq<Byte>, m2: Mode)
    ensures forall r, j :: 0 <= r < 16 && 0 <= j < 6 ==> KeySchedule(k1, m1)[r][j] == 0
    ensures KeySchedule(k1, m1) == KeySchedule(k2, m2)
  {
  }

  /** The decryption schedule is the encryption schedule reversed. */
  lemma DecryptScheduleReversed(key: seq<Byte>)
    ensures KeySchedule(key, Decrypt) == Reverse(KeySchedule(key, Encrypt))
  {
  }

  // ---------------------------------------------------------------------------
  // des_crypt and three_des_crypt as values
  // ---------------------------------------------------------------------------

  /** `des_crypt` of an 8-byte block under a 16-row schedule. */
  function Crypt(input: seq<Byte>, ks: seq<Subkey>): (out: seq<Byte>)
    requires |input| == 8 && |ks| == 16
    ensures |out| == 8
  {
    InvIP(Network(RoundF, ks, IP(input)))
  }

  /** `three_des_crypt`: three single-DES passes, schedule 0, then 1, then 2. */
  function TripleCrypt(input: seq<Byte>, k0: seq<Subkey>, k1: seq<Subkey>, k2: seq<Subkey>): (out: seq<Byte>)
    requires |input| == 8 && |k0| == 16 && |k1| == 16 && |k2| == 16
    ensures |out| == 8
  {
    Crypt(Crypt(Crypt(input, k0), k1), k2)
  }

  /** Three single passes chained through their outputs make one triple pass. */
  lemma TripleCryptSteps(input: seq<Byte>, k0: seq<Subkey>, k1: seq<Subkey>, k2: seq<Subkey>,
                         c0: seq<Byte>, c1: seq<Byte>, c2: seq<Byte>)
    requires |input| == 8 && |k0| == 16 && |k1| == 16 && |k2| == 16
    requires c0 == Crypt(input, k0) && c1 == Crypt(c0, k1) && c2 == Crypt(c1, k2)
    ensures c2 == TripleCrypt(input, k0, k1, k2)
  {
  }

  /** Between `IP` and `InvIP`, decryption undoes encryption: the Feistel rounds of the
      decryption schedule invert those of the encryption schedule for the same key. */
  lemma FeistelRoundTrip(key: seq<Byte>, h: Halves)
    ensures Network(RoundF, KeySchedule(key, Decrypt), Network(RoundF, KeySchedule(key, Encrypt), h)) == h
  {
    DecryptScheduleReversed(key);
    NetworkInvolution(RoundF, KeySchedule(key, Encrypt), h);
  }

  /** Every block `des_crypt` writes has bytes 1..7 equal to zero, and its byte 0 depends
      only on eight bits of the halves. */
  lemma CryptOutputZero(input: seq<Byte>, ks: seq<Subkey>)
    requires |input| == 8 && |ks| == 16
    ensures forall i :: 1 <= i < 8 ==> Crypt(input, ks)[i] == 0
  {
  }

  /** The cipher ignores the key: any two keys and modes give the same output. */
  lemma CryptIgnoresKey(input: seq<Byte>, k1: seq<Byte>, m1: Mode, k2: seq<Byte>, m2: Mode)
    requires |input| == 8
    ensures Crypt(input, KeySchedule(k1, m1)) == Crypt(input, KeySchedule(k2, m2))
  {
    KeyScheduleZero(k1, m1, k2, m2);
  }

  /** The plaintext and key of the known-answer test in `des_test`. */
  const TEST_PLAIN: seq<Byte> := [0x01, 0x23, 0x45, 0x67, 0x89, 0xAB, 0xCD, 0xEF]
  const TEST_KEY: seq<Byte> := [0x13, 0x34, 0x57, 0x79, 0x9B, 0xBC, 0xDF, 0xF1]

  /** The test's round trip does not hold: decrypting the ciphertext gives a block whose
      byte 1 is 0, while the plaintext's byte 1 is 0x23. */
  lemma TestRoundTripFails()
    ensures Crypt(Crypt(TEST_PLAIN, KeySchedule(TEST_KEY, Encrypt)), KeySchedule(TEST_KEY, Decrypt)) != TEST_PLAIN
  {
    var back := Crypt(Crypt(TEST_PLAIN, KeySchedule(TEST_KEY, Encrypt)), KeySchedule(TEST_KEY, Decrypt));
    CryptOutputZero(Crypt(TEST_PLAIN, KeySchedule(TEST_KEY, Encrypt)), KeySchedule(TEST_KEY, Decrypt));
    assert back[1] == 0 != TEST_PLAIN[1];
  }
}
