/**
  * Pure model of the SHA-1 hash engine.
  *
  * Two layers live here:
  *  - the hash as FIPS 180-2 defines it (message schedule, 80-round compression,
  *    Merkle-Damgard padding, big-endian digest), ending in `Sha1(msg)`;
  *  - the value of the streaming context `SHA1_CTX` (buffer, cursor, bit counter,
  *    state words, round constants) and what init, update and final do to it.
  * The lemmas connect the two: whatever chunks are fed, the context stays
  * `Absorbed` for the message so far, and finalising it yields `Sha1(msg)`.
  */
module Sha1Spec {

  type Byte = bv8
  type Word = bv32

  /** The bit counter `bitlen` is an `unsigned long long`: it wraps modulo 2^64. */
  const TWO_64: int := 0x1_0000_0000_0000_0000

  /** Initial hash value H(0) (section 5.3.1 of FIPS 180-2). */
  const H0: seq<Word> := [0x67452301, 0xEFCDAB89, 0x98BADCFE, 0x10325476, 0xC3D2E1F0]

  /** The four round constants K, one per group of 20 rounds (section 4.2.1 of FIPS 180-2). */
  const K: seq<Word> := [0x5A827999, 0x6ED9EBA1, 0x8F1BBCDC, 0xCA62C1D6]

  /** The `ROTLEFT` macro; the code only uses it with amounts 1, 5 and 30. */
  function RotLeft(a: Word, b: Word): Word
    requires 0 < b < 32
  {
    (a << b) | (a >> (32 - b))
  }

  /** At the three amounts SHA-1 uses, the macro is a 32-bit rotation. */
  lemma RotLeftRotates(a: Word)
    ensures RotLeft(a, 1) == a.RotateLeft(1)
    ensures RotLeft(a, 5) == a.RotateLeft(5)
    ensures RotLeft(a, 30) == a.RotateLeft(30)
  {
  }

  /** Addition modulo 2^32, C's `+` on two 32-bit words. */
  function Add(x: Word, y: Word): Word
  {
    x + y
  }

  /** The word whose big-endian bytes are `b0 b1 b2 b3`. */
  function BigEndian(b0: Byte, b1: Byte, b2: Byte, b3: Byte): Word
  {
    ((b0 as Word) << 24) | ((b1 as Word) << 16) | ((b2 as Word) << 8) | (b3 as Word)
  }

  /** Four bytes of `s` from offset `j`, read big-endian. */
  function ReadWord(s: seq<Byte>, j: nat): Word
    requires j + 4 <= |s|
  {
    BigEndian(s[j], s[j + 1], s[j + 2], s[j + 3])
  }

  /** A word written big-endian as four bytes. */
  function WordBytes(w: Word): (r: seq<Byte>)
    ensures |r| == 4
  {
    [((w >> 24) & 0xff) as Byte, ((w >> 16) & 0xff) as Byte, ((w >> 8) & 0xff) as Byte, (w & 0xff) as Byte]
  }

  /** Writing a word out and reading it back gives the word. */
  lemma WordBytesRead(w: Word)
    ensures ReadWord(WordBytes(w), 0) == w
  {
  }

  /** Reading four bytes and writing the word out gives the bytes. */
  lemma ReadWordBytes(b0: Byte, b1: Byte, b2: Byte, b3: Byte)
    ensures WordBytes(BigEndian(b0, b1, b2, b3)) == [b0, b1, b2, b3]
  {
  }

  /** The bit length of `n` bytes as the 64-bit counter holds it. */
  function BitLength(n: nat): (b: nat)
    ensures b < TWO_64
  {
    (8 * n) % TWO_64
  }

  /** Adding `8 * d` to a wrapped counter of `n` bytes gives the counter of `n + d` bytes. */
  lemma BitLengthAdd(n: nat, d: nat)
    ensures (BitLength(n) + 8 * d) % TWO_64 == BitLength(n + d)
  {
    ModAddWrap(8 * n, 8 * d);
  }

  lemma ModAddWrap(a: int, b: int)
    ensures (a % TWO_64 + b) % TWO_64 == (a + b) % TWO_64
  {
  }

  // ---------------------------------------------------------------------------
  // Message schedule (FIPS 180-2 section 6.1.2, step 1)
  // ---------------------------------------------------------------------------

  /** One schedule word from the words 3, 8, 14 and 16 places back. */
  function ScheduleWord(w3: Word, w8: Word, w14: Word, w16: Word): Word
  {
    RotLeft(w3 ^ w8 ^ w14 ^ w16, 1)
  }

  /** The schedule recurrence W(i) = ROTL1(W(i-3) xor W(i-8) xor W(i-14) xor W(i-16)). */
  predicate Recurrence(m: seq<Word>, i: nat)
    requires 16 <= i < |m|
  {
    m[i] == ScheduleWord(m[i - 3], m[i - 8], m[i - 14], m[i - 16])
  }

  /** Extends a partial schedule to 80 words with the SHA-1 recurrence. */
  function ExtendSchedule(w: seq<Word>): (m: seq<Word>)
    requires 16 <= |w| <= 80
    ensures |m| == 80
    decreases 80 - |w|
  {
    if |w| == 80 then w
    else ExtendSchedule(w + [ScheduleWord(w[|w| - 3], w[|w| - 8], w[|w| - 14], w[|w| - 16])])
  }

  /** Extending keeps the given words and obeys the recurrence from there on. */
  lemma {:induction false} ExtendScheduleFacts(w: seq<Word>)
    requires 16 <= |w| <= 80
    ensures ExtendSchedule(w)[..|w|] == w
    ensures forall i :: |w| <= i < 80 ==> Recurrence(ExtendSchedule(w), i)
    decreases 80 - |w|
  {
    if |w| < 80 {
      var n := |w|;
      var x := ScheduleWord(w[n - 3], w[n - 8], w[n - 14], w[n - 16]);
      var m := ExtendSchedule(w + [x]);
      ExtendScheduleFacts(w + [x]);
      assert m == ExtendSchedule(w);
      assert m[..n + 1] == w + [x];
      assert m[..n] == w by { assert m[..n] == m[..n + 1][..n]; }
      assert m[n] == x && m[n - 3] == w[n - 3] && m[n - 8] == w[n - 8] && m[n - 14] == w[n - 14] && m[n - 16] == w[n - 16];
      assert Recurrence(m, n);
    }
  }

  /** The 80-word message schedule of one 64-byte block. */
  function Schedule(block: seq<Byte>): (m: seq<Word>)
    requires |block| == 64
    ensures |m| == 80
  {
    ExtendSchedule(seq(16, i requires 0 <= i < 16 => ReadWord(block, 4 * i)))
  }

  /** The schedule starts with the sixteen big-endian words of the block and then
      follows the recurrence. */
  lemma ScheduleFacts(block: seq<Byte>)
    requires |block| == 64
    ensures forall i :: 0 <= i < 16 ==> Schedule(block)[i] == ReadWord(block, 4 * i)
    ensures forall i :: 16 <= i < 80 ==> Recurrence(Schedule(block), i)
  {
    var w := seq(16, i requires 0 <= i < 16 => ReadWord(block, 4 * i));
    ExtendScheduleFacts(w);
    assert forall i :: 0 <= i < 16 ==> Schedule(block)[i] == ExtendSchedule(w)[..16][i];
  }

  // ---------------------------------------------------------------------------
  // Compression (FIPS 180-2 section 6.1.2, steps 2-4)
  // ---------------------------------------------------------------------------

  /** The five working variables a..e. */
  datatype Vars = Vars(a: Word, b: Word, c: Word, d: Word, e: Word)

  /** Ch, Parity and Maj (section 4.1.1 of FIPS 180-2). */
  function Ch(b: Word, c: Word, d: Word): Word { (b & c) ^ (!b & d) }
  function Parity(b: Word, c: Word, d: Word): Word { b ^ c ^ d }
  function Maj(b: Word, c: Word, d: Word): Word { (b & c) ^ (b & d) ^ (c & d) }

  /** Ch for rounds 0-19, Parity for 20-39, Maj for 40-59, Parity for 60-79. */
  function RoundFunction(t: nat, b: Word, c: Word, d: Word): Word
    requires t < 80
  {
    if t < 20 then Ch(b, c, d)
    else if t < 40 then Parity(b, c, d)
    else if t < 60 then Maj(b, c, d)
    else Parity(b, c, d)
  }

  /** The new `a` of a round: `ROTL5(a) + f + e + kt + mt` mod 2^32, where `f` is the
      round function's value, `kt` the round constant and `mt` the schedule word. */
  function RoundTemp(a: Word, f: Word, e: Word, kt: Word, mt: Word): Word
  {
    Add(Add(Add(Add(RotLeft(a, 5), f), e), kt), mt)
  }

  /** Round `t`: round function of group t / 20, constant `k[t / 20]`, schedule word `m[t]`;
      then e := d, d := c, c := ROTL30(b), b := a, a := temp. */
  function Round(v: Vars, k: seq<Word>, m: seq<Word>, t: nat): Vars
    requires |k| == 4 && |m| == 80 && t < 80
  {
    Vars(RoundTemp(v.a, RoundFunction(t, v.b, v.c, v.d), v.e, k[t / 20], m[t]), v.a, RotLeft(v.b, 30), v.c, v.d)
  }

  /** The working variables after rounds 0 .. n-1. */
  function Rounds(v: Vars, k: seq<Word>, m: seq<Word>, n: nat): Vars
    requires |k| == 4 && |m| == 80 && n <= 80
  {
    if n == 0 then v else Round(Rounds(v, k, m, n - 1), k, m, n - 1)
  }

  /** One more round from a state `Vars(a, b, c, d, e)` reached after `i` rounds, with the
      round function and constant of its group of twenty written out. */
  lemma RoundStep(v0: Vars, k: seq<Word>, m: seq<Word>, i: nat, a: Word, b: Word, c: Word, d: Word, e: Word)
    requires |k| == 4 && |m| == 80 && i < 80 && Vars(a, b, c, d, e) == Rounds(v0, k, m, i)
    ensures i < 20 ==> Rounds(v0, k, m, i + 1) == Vars(RoundTemp(a, Ch(b, c, d), e, k[0], m[i]), a, RotLeft(b, 30), c, d)
    ensures 20 <= i < 40 ==> Rounds(v0, k, m, i + 1) == Vars(RoundTemp(a, Parity(b, c, d), e, k[1], m[i]), a, RotLeft(b, 30), c, d)
    ensures 40 <= i < 60 ==> Rounds(v0, k, m, i + 1) == Vars(RoundTemp(a, Maj(b, c, d), e, k[2], m[i]), a, RotLeft(b, 30), c, d)
    ensures 60 <= i ==> Rounds(v0, k, m, i + 1) == Vars(RoundTemp(a, Parity(b, c, d), e, k[3], m[i]), a, RotLeft(b, 30), c, d)
  {
  }

  /** Each working variable added into its state word mod 2^32. */
  function AddWorking(state: seq<Word>, v: Vars): (r: seq<Word>)
    requires |state| == 5
    ensures |r| == 5
  {
    [Add(state[0], v.a), Add(state[1], v.b), Add(state[2], v.c), Add(state[3], v.d), Add(state[4], v.e)]
  }

  /** One compression: 80 rounds over the block's schedule, then the addition into the state. */
  function Compress(state: seq<Word>, k: seq<Word>, block: seq<Byte>): (r: seq<Word>)
    requires |state| == 5 && |k| == 4 && |block| == 64
    ensures |r| == 5
  {
    var m := Schedule(block);
    AddWorking(state, Rounds(Vars(state[0], state[1], state[2], state[3], state[4]), k, m, |m|))
  }

  /** Merkle-Damgard chaining of the compression over a whole number of blocks. */
  function HashBlocks(state: seq<Word>, k: seq<Word>, s: seq<Byte>): (r: seq<Word>)
    requires |state| == 5 && |k| == 4 && |s| % 64 == 0
    ensures |r| == 5
    decreases |s|
  {
    if |s| == 0 then state
    else
      BlocksLeft(|s|);
      HashBlocks(Compress(state, k, s[..64]), k, s[64..])
  }

  /** A non-empty whole number of blocks starts with a block and leaves whole blocks. */
  lemma BlocksLeft(n: nat)
    requires n % 64 == 0 && n != 0
    ensures n >= 64 && (n - 64) % 64 == 0
  {
    assert n == 64 * (n / 64);
  }

  /** Chaining over a concatenation is chaining over the first part, then the second. */
  lemma {:induction false} HashBlocksAppend(state: seq<Word>, k: seq<Word>, a: seq<Byte>, b: seq<Byte>)
    requires |state| == 5 && |k| == 4 && |a| % 64 == 0 && |b| % 64 == 0
    ensures HashBlocks(state, k, a + b) == HashBlocks(HashBlocks(state, k, a), k, b)
    decreases |a|
  {
    if |a| == 0 {
      assert a + b == b;
    } else {
      BlocksLeft(|a|);
      BlocksLeft(|a + b|);
      assert (a + b)[..64] == a[..64];
      assert (a + b)[64..] == a[64..] + b;
      HashBlocksAppend(Compress(state, k, a[..64]), k, a[64..], b);
    }
  }

  /** Chaining over a single block is one compression. */
  lemma HashBlocksOne(state: seq<Word>, k: seq<Word>, b: seq<Byte>)
    requires |state| == 5 && |k| == 4 && |b| == 64
    ensures HashBlocks(state, k, b) == Compress(state, k, b)
  {
    assert b[..64] == b;
    assert b[64..] == [];
    var s := Compress(state, k, b);
    assert HashBlocks(s, k, []) == s;
  }

  /** Chaining over two blocks is two compressions. */
  lemma HashBlocksTwo(state: seq<Word>, k: seq<Word>, b: seq<Byte>)
    requires |state| == 5 && |k| == 4 && |b| == 128
    ensures HashBlocks(state, k, b) == Compress(Compress(state, k, b[..64]), k, b[64..])
  {
    assert b == b[..64] + b[64..];
    HashBlocksAppend(state, k, b[..64], b[64..]);
    HashBlocksOne(state, k, b[..64]);
    HashBlocksOne(Compress(state, k, b[..64]), k, b[64..]);
  }

  // ---------------------------------------------------------------------------
  // Padding and digest (FIPS 180-2 sections 5.1.1 and 6.1.2, step 4)
  // ---------------------------------------------------------------------------

  function Zeros(n: nat): (z: seq<Byte>)
    ensures |z| == n
  {
    seq(n, _ => 0)
  }

  /** A 64-bit count written big-endian in eight bytes. */
  function LengthBytes(n: nat): (r: seq<Byte>)
    requires n < TWO_64
    ensures |r| == 8
  {
    [ ((n / 0x100_0000_0000_0000) % 0x100) as Byte, ((n / 0x1_0000_0000_0000) % 0x100) as Byte,
      ((n / 0x100_0000_0000) % 0x100) as Byte, ((n / 0x1_0000_0000) % 0x100) as Byte,
      ((n / 0x100_0000) % 0x100) as Byte, ((n / 0x1_0000) % 0x100) as Byte,
      ((n / 0x100) % 0x100) as Byte, (n % 0x100) as Byte ]
  }

  lemma PaddedLength(n: nat)
    ensures (n + 9 + (55 - n) % 64) % 64 == 0
  {
    var q := (55 - n) / 64;
    assert 55 - n == 64 * q + (55 - n) % 64;
    assert n + 9 + (55 - n) % 64 == 64 * (1 - q);
  }

  /** The padded message: a 1 bit, the fewest zero bits that reach 448 mod 512, then the
      bit length mod 2^64 as a 64-bit big-endian integer. */
  function Pad(msg: seq<Byte>): (p: seq<Byte>)
    ensures |p| % 64 == 0
  {
    PaddedLength(|msg|);
    msg + [0x80] + Zeros((55 - |msg|) % 64) + LengthBytes(BitLength(|msg|))
  }

  /** The 20-byte digest: the five state words, in order, each big-endian. */
  function Digest(state: seq<Word>): (h: seq<Byte>)
    requires |state| == 5
    ensures |h| == 20
  {
    seq(20, i requires 0 <= i < 20 => WordBytes(state[i / 4])[i % 4])
  }

  /** Reading the digest back four bytes at a time gives the state words. */
  lemma DigestWords(state: seq<Word>)
    requires |state| == 5
    ensures forall j :: 0 <= j < 5 ==> ReadWord(Digest(state), 4 * j) == state[j]
  {
    var h := Digest(state);
    forall j | 0 <= j < 5
      ensures ReadWord(h, 4 * j) == state[j]
    {
      var w := WordBytes(state[j]);
      WordBytesRead(state[j]);
      assert h[4 * j] == w[0] && h[4 * j + 1] == w[1] && h[4 * j + 2] == w[2] && h[4 * j + 3] == w[3];
    }
  }

  /** SHA-1 of a byte string. */
  function Sha1(msg: seq<Byte>): (h: seq<Byte>)
    ensures |h| == 20
  {
    Digest(HashBlocks(H0, K, Pad(msg)))
  }

  // ---------------------------------------------------------------------------
  // The streaming context as a value
  // ---------------------------------------------------------------------------

  /** The fields of `SHA1_CTX`: buffer, cursor, bit counter, state words, constants. */
  datatype Ctx = Ctx(data: seq<Byte>, datalen: nat, bitlen: nat, state: seq<Word>, k: seq<Word>)

  predicate WellFormed(c: Ctx)
  {
    |c.data| == 64 && c.datalen < 64 && c.bitlen < TWO_64 && |c.state| == 5 && |c.k| == 4
  }

  /** `sha1_init` resets cursor, counter, state and constants; the buffer keeps its bytes. */
  function InitCtx(data: seq<Byte>): (c: Ctx)
    requires |data| == 64
    ensures WellFormed(c)
  {
    Ctx(data, 0, 0, H0, K)
  }

  /** One iteration of the loop of `sha1_update`: store the byte, and drain a full buffer. */
  function AbsorbByte(c: Ctx, x: Byte): (r: Ctx)
    requires WellFormed(c)
    ensures WellFormed(r) && r.k == c.k
  {
    var data := c.data[c.datalen := x];
    if c.datalen + 1 == 64 then Ctx(data, 0, (c.bitlen + 512) % TWO_64, Compress(c.state, c.k, data), c.k)
    else Ctx(data, c.datalen + 1, c.bitlen, c.state, c.k)
  }

  /** `sha1_update`: the bytes of `input` absorbed one at a time, in order. */
  function Absorb(c: Ctx, input: seq<Byte>): (r: Ctx)
    requires WellFormed(c)
    ensures WellFormed(r) && r.k == c.k
    decreases |input|
  {
    if input == [] then c else AbsorbByte(Absorb(c, input[..|input| - 1]), input[|input| - 1])
  }

  /** Streaming equivalence: feeding `a` then `b` leaves exactly the context that feeding
      `a + b` leaves, buffer bytes included; feeding nothing changes nothing. */
  lemma {:induction false} AbsorbConcat(c: Ctx, a: seq<Byte>, b: seq<Byte>)
    requires WellFormed(c)
    ensures Absorb(c, []) == c
    ensures Absorb(c, a + b) == Absorb(Absorb(c, a), b)
    decreases |b|
  {
    if b == [] {
      assert a + b == a;
    } else {
      assert (a + b)[..|a + b| - 1] == a + b[..|b| - 1];
      AbsorbConcat(c, a, b[..|b| - 1]);
    }
  }

  /** The context holds the message `msg` fed since init: the cursor is |msg| mod 64, the
      counter is 8 times the bytes already compressed (mod 2^64), the buffer starts with the
      unconsumed tail, and the state is the chaining value of the compressed prefix. */
  ghost predicate Absorbed(c: Ctx, msg: seq<Byte>)
  {
    && WellFormed(c)
    && c.k == K
    && c.datalen == |msg| % 64
    && c.bitlen == BitLength(|msg| - c.datalen)
    && c.data[..c.datalen] == msg[|msg| - c.datalen..]
    && (ConsumedBlocks(|msg|, c.datalen); c.state == HashBlocks(H0, K, msg[..|msg| - c.datalen]))
  }

  lemma InitAbsorbed(c: Ctx)
    requires |c.data| == 64 && c == InitCtx(c.data)
    ensures Absorbed(c, [])
  {
  }

  lemma AbsorbByteAbsorbed(c: Ctx, msg: seq<Byte>, x: Byte)
    requires Absorbed(c, msg)
    ensures Absorbed(AbsorbByte(c, x), msg + [x])
  {
    if c.datalen + 1 == 64 {
      AbsorbByteDrains(c, msg, x);
    } else {
      AbsorbByteBuffers(c, msg, x);
    }
  }

  lemma AbsorbByteBuffers(c: Ctx, msg: seq<Byte>, x: Byte)
    requires Absorbed(c, msg) && c.datalen + 1 < 64
    ensures Absorbed(AbsorbByte(c, x), msg + [x])
  {
    BufferArithmetic(|msg|, c.datalen);
    BufferSplit(msg, c.data, c.datalen, x);
  }

  lemma BufferArithmetic(L: nat, n: nat)
    requires n == L % 64 && n + 1 < 64
    ensures (L + 1) % 64 == n + 1
  {
    assert L == 64 * (L / 64) + n;
  }

  /** Buffering one more byte moves it from nowhere into the unconsumed tail. */
  lemma BufferSplit(msg: seq<Byte>, data: seq<Byte>, n: nat, x: Byte)
    requires |data| == 64 && n < 63 && |msg| >= n && data[..n] == msg[|msg| - n..]
    ensures |msg + [x]| - (n + 1) == |msg| - n
    ensures (msg + [x])[..|msg + [x]| - (n + 1)] == msg[..|msg| - n]
    ensures data[n := x][..n + 1] == (msg + [x])[|msg + [x]| - (n + 1)..]
  {
    assert data[n := x][..n + 1] == data[..n] + [x];
  }

  lemma AbsorbByteDrains(c: Ctx, msg: seq<Byte>, x: Byte)
    requires Absorbed(c, msg) && c.datalen + 1 == 64
    ensures Absorbed(AbsorbByte(c, x), msg + [x])
  {
    DrainFields(c, x, |msg|);
    DrainSplit(msg, c.data, c.datalen, x);
    DrainState(c.state, msg[..|msg| - c.datalen], c.data[c.datalen := x]);
    AbsorbedAfterDrain(AbsorbByte(c, x), msg + [x]);
  }

  /** The message after the 64th buffered byte is the compressed prefix and the full buffer. */
  lemma DrainSplit(msg: seq<Byte>, data: seq<Byte>, n: nat, x: Byte)
    requires |data| == 64 && n == 63 && |msg| >= n && data[..n] == msg[|msg| - n..]
    ensures msg + [x] == msg[..|msg| - n] + data[n := x]
  {
    assert msg == msg[..|msg| - n] + data[..n];
    assert data[n := x] == data[..n] + [x];
  }

  /** The fields after the 64th buffered byte, for a message of `L` bytes so far. */
  lemma DrainFields(c: Ctx, x: Byte, L: nat)
    requires WellFormed(c) && c.k == K && c.datalen == 63 && L % 64 == c.datalen
    requires c.bitlen == BitLength(L - c.datalen)
    ensures AbsorbByte(c, x).datalen == 0 && (L + 1) % 64 == 0 && (L - c.datalen) % 64 == 0
    ensures AbsorbByte(c, x).bitlen == BitLength(L + 1)
    ensures AbsorbByte(c, x).state == Compress(c.state, K, c.data[c.datalen := x])
  {
    DrainArithmetic(L);
  }

  /** A context with an empty buffer has absorbed `m` when it chains all of `m`. */
  lemma AbsorbedAfterDrain(r: Ctx, m: seq<Byte>)
    requires WellFormed(r) && r.k == K && r.datalen == 0 && |m| % 64 == 0
    requires r.bitlen == BitLength(|m|) && r.state == HashBlocks(H0, K, m)
    ensures Absorbed(r, m)
  {
    assert m[..|m|] == m;
  }

  /** Compressing one more block onto the chaining value of `prefix` chains `prefix + block`. */
  lemma DrainState(state: seq<Word>, prefix: seq<Byte>, block: seq<Byte>)
    requires |prefix| % 64 == 0 && |block| == 64 && state == HashBlocks(H0, K, prefix)
    ensures HashBlocks(H0, K, prefix + block) == Compress(state, K, block)
  {
    HashBlocksAppend(H0, K, prefix, block);
    HashBlocksOne(state, K, block);
  }

  /** The counter arithmetic of a drained buffer. */
  lemma DrainArithmetic(L: nat)
    requires L % 64 == 63
    ensures (L + 1) % 64 == 0 && (L - 63) % 64 == 0
    ensures (BitLength(L - 63) + 512) % TWO_64 == BitLength(L + 1)
  {
    assert L == 64 * (L / 64) + 63;
    BitLengthAdd(L - 63, 64);
  }

  /** `sha1_update` keeps the context absorbed for the extended message. */
  lemma {:induction false} AbsorbAbsorbed(c: Ctx, msg: seq<Byte>, input: seq<Byte>)
    requires Absorbed(c, msg)
    ensures Absorbed(Absorb(c, input), msg + input)
    decreases |input|
  {
    if input == [] {
      assert msg + input == msg;
    } else {
      var front := input[..|input| - 1];
      AbsorbAbsorbed(c, msg, front);
      AbsorbByteAbsorbed(Absorb(c, front), msg + front, input[|input| - 1]);
      assert msg + front + [input[|input| - 1]] == msg + input;
    }
  }

  // ---------------------------------------------------------------------------
  // sha1_final
  // ---------------------------------------------------------------------------

  /** `bitlen += datalen * 8`, wrapping at 2^64. */
  function FinalBitlen(c: Ctx): nat
  {
    (c.bitlen + 8 * c.datalen) % TWO_64
  }

  /** The bytes `sha1_final` compresses: the buffered tail, 0x80, zeros (completing a first
      block when the tail leaves no room for the count) and the 64-bit bit count. */
  function FinalBlocks(c: Ctx): (r: seq<Byte>)
    requires WellFormed(c)
  {
    var tail := c.data[..c.datalen] + [0x80];
    if c.datalen + 1 > 56 then tail + Zeros(63 - c.datalen) + (Zeros(56) + LengthBytes(FinalBitlen(c)))
    else tail + Zeros(55 - c.datalen) + LengthBytes(FinalBitlen(c))
  }

  /** Two compressions exactly when the buffer holds 56 bytes or more, otherwise one. */
  lemma FinalBlocksLength(c: Ctx)
    requires WellFormed(c)
    ensures |FinalBlocks(c)| == if c.datalen >= 56 then 128 else 64
  {
  }

  /** The final blocks are whole blocks. */
  lemma FinalBlocksWhole(c: Ctx)
    requires WellFormed(c)
    ensures |FinalBlocks(c)| % 64 == 0
  {
    FinalBlocksLength(c);
    WholeBlocks(|FinalBlocks(c)|);
  }

  lemma WholeBlocks(n: int)
    requires n == 0 || n == 64 || n == 128
    ensures n % 64 == 0
  {
  }

  /** The layout of the final blocks: the buffered bytes, the marker, zeros, the count. */
  lemma FinalBlockCount(c: Ctx)
    requires WellFormed(c)
    ensures |FinalBlocks(c)| == if c.datalen >= 56 then 128 else 64
    ensures FinalBlocks(c)[..c.datalen] == c.data[..c.datalen]
    ensures FinalBlocks(c)[c.datalen] == 0x80
    ensures forall i :: c.datalen < i < |FinalBlocks(c)| - 8 ==> FinalBlocks(c)[i] == 0
    ensures FinalBlocks(c)[|FinalBlocks(c)| - 8..] == LengthBytes(FinalBitlen(c))
  {
  }

  /** The context `sha1_final` leaves: the last compressed block in the buffer, the cursor
      untouched, the final bit count, and the state after the final block(s). */
  function Finalize(c: Ctx): (r: Ctx)
    requires WellFormed(c)
    ensures WellFormed(r)
  {
    var blocks := FinalBlocks(c);
    FinalBlocksLength(c);
    Ctx(blocks[|blocks| - 64..], c.datalen, FinalBitlen(c), HashBlocks(c.state, c.k, blocks), c.k)
  }

  /** The final blocks but the last: empty, or the spilled first block. */
  function FinalFront(c: Ctx): (r: seq<Byte>)
    requires WellFormed(c)
    ensures |r| % 64 == 0
  {
    FinalBlocksLength(c);
    var blocks := FinalBlocks(c);
    WholeBlocks(|blocks| - 64);
    blocks[..|blocks| - 64]
  }

  /** The last block `sha1_final` compresses. */
  function FinalLast(c: Ctx): (r: seq<Byte>)
    requires WellFormed(c)
    ensures |r| == 64
  {
    FinalBlocksLength(c);
    var blocks := FinalBlocks(c);
    blocks[|blocks| - 64..]
  }

  /** The state `sha1_final` leaves is the last block compressed onto the chaining value of
      the others. */
  lemma FinalizeState(c: Ctx)
    requires WellFormed(c)
    ensures Finalize(c).state == Compress(HashBlocks(c.state, c.k, FinalFront(c)), c.k, FinalLast(c))
    ensures Finalize(c).data == FinalLast(c)
  {
    var blocks := FinalBlocks(c);
    FinalBlocksLength(c);
    assert blocks == FinalFront(c) + FinalLast(c);
    HashBlocksAppend(c.state, c.k, FinalFront(c), FinalLast(c));
    HashBlocksOne(HashBlocks(c.state, c.k, FinalFront(c)), c.k, FinalLast(c));
  }

  /** A zero-padding loop of `sha1_final` on buffer `s`: from cursor `i`, the bytes
      before `to` become 0 (nothing happens when the cursor is already at `to` or past it). */
  function ZeroFill(s: seq<Byte>, i: nat, to: nat): (r: seq<Byte>)
    requires i <= |s| && to <= |s|
    ensures |r| == |s|
  {
    if i < to then s[..i] + Zeros(to - i) + s[to..] else s
  }

  /** With fewer than 56 bytes buffered, the marker, the zeros up to byte 56 and the count
      fill the buffer to exactly the final block. */
  lemma FinalBlocksShort(c: Ctx)
    requires WellFormed(c) && c.datalen < 56
    ensures ZeroFill(c.data[c.datalen := 0x80], c.datalen + 1, 56)[..56] + LengthBytes(FinalBitlen(c)) == FinalBlocks(c)
  {
    var n := c.datalen;
    var d := c.data[n := 0x80];
    assert d[..n + 1] == c.data[..n] + [0x80];
    assert ZeroFill(d, n + 1, 56)[..56] == d[..n + 1] + Zeros(55 - n);
  }

  /** With 56 bytes or more buffered, the marker and the zeros to the end make the first of
      the two final blocks, and 56 zeros and the count the second. */
  lemma FinalBlocksLong(c: Ctx)
    requires WellFormed(c) && c.datalen >= 56
    ensures |FinalBlocks(c)| == 128
    ensures ZeroFill(c.data[c.datalen := 0x80], c.datalen + 1, 64) == FinalBlocks(c)[..64]
    ensures Zeros(56) + LengthBytes(FinalBitlen(c)) == FinalBlocks(c)[64..]
  {
    var n := c.datalen;
    var d := c.data[n := 0x80];
    assert d[..n + 1] == c.data[..n] + [0x80];
    FinalBlockCount(c);
  }

  lemma ZerosAppend(a: nat, b: nat)
    ensures Zeros(a) + Zeros(b) == Zeros(a + b)
  {
  }

  lemma ModMultiple64(x: int, q: int)
    ensures (x + 64 * q) % 64 == x % 64
  {
  }

  /** The padding length depends only on the message length mod 64. */
  lemma PadZeros(P: nat, n: nat)
    requires P % 64 == 0 && n < 64
    ensures (55 - (P + n)) % 64 == (55 - n) % 64
    ensures (55 - n) % 64 == if n >= 56 then 119 - n else 55 - n
  {
    assert P == 64 * (P / 64);
    ModMultiple64(55 - n, -(P / 64));
  }

  /** The final blocks are the buffered tail padded as the whole message would be. */
  lemma FinalBlocksPad(c: Ctx)
    requires WellFormed(c)
    ensures FinalBlocks(c) == c.data[..c.datalen] + [0x80] + Zeros((55 - c.datalen) % 64) + LengthBytes(FinalBitlen(c))
  {
    PadZeros(0, c.datalen);
    if c.datalen >= 56 {
      ZerosAppend(63 - c.datalen, 56);
    }
  }

  /** The padded message is the whole-block prefix followed by the final blocks of a context
      whose buffer holds the rest and whose counter covers the prefix. */
  lemma PadSplit(c: Ctx, prefix: seq<Byte>)
    requires WellFormed(c) && |prefix| % 64 == 0 && c.bitlen == BitLength(|prefix|)
    ensures Pad(prefix + c.data[..c.datalen]) == prefix + FinalBlocks(c)
  {
    var tail := c.data[..c.datalen];
    PadZeros(|prefix|, c.datalen);
    BitLengthAdd(|prefix|, c.datalen);
    FinalBlocksPad(c);
    PadAssoc(prefix, tail, Zeros((55 - c.datalen) % 64), LengthBytes(FinalBitlen(c)));
  }

  lemma PadAssoc(prefix: seq<Byte>, tail: seq<Byte>, z: seq<Byte>, len: seq<Byte>)
    ensures prefix + tail + [0x80] + z + len == prefix + (tail + [0x80] + z + len)
  {
  }

  /** The bytes already compressed form whole blocks. */
  lemma ConsumedBlocks(L: nat, n: nat)
    requires n == L % 64
    ensures n <= L && (L - n) % 64 == 0
  {
    assert L == 64 * (L / 64) + n;
    ModMultiple64(0, L / 64);
  }

  /** A context whose state chains the whole blocks `prefix` and whose counter covers them
      finalises to the digest of `prefix` followed by its buffered bytes. */
  lemma FinalOfPrefix(c: Ctx, prefix: seq<Byte>)
    requires WellFormed(c) && c.k == K && |prefix| % 64 == 0
    requires c.bitlen == BitLength(|prefix|) && c.state == HashBlocks(H0, K, prefix)
    ensures Digest(Finalize(c).state) == Sha1(prefix + c.data[..c.datalen])
  {
    var msg := prefix + c.data[..c.datalen];
    var blocks := FinalBlocks(c);
    PadSplit(c, prefix);
    FinalBlocksWhole(c);
    HashBlocksAppend(H0, K, prefix, blocks);
  }

  /** Correctness of the streaming engine: finalising a context that has absorbed `msg`
      compresses exactly the rest of the padded message, so its digest is SHA-1(msg). */
  lemma FinalDigest(c: Ctx, msg: seq<Byte>)
    requires Absorbed(c, msg)
    ensures Digest(Finalize(c).state) == Sha1(msg)
  {
    var prefix := msg[..|msg| - c.datalen];
    ConsumedBlocks(|msg|, c.datalen);
    assert msg == prefix + c.data[..c.datalen];
    FinalOfPrefix(c, prefix);
  }
}
