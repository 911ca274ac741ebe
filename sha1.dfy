/**
  * The SHA-1 engine as the C code runs it: a context object whose buffer, cursor,
  * bit counter and state words are updated in place by init, update and final.
  * Every method is proved against the value model of `Sha1Spec`, and `Valid()`
  * ties the object to the message fed since init.
  */
module Sha1 {
  import opened Sha1Spec

  /** `(w >> (24 - i * 8)) & 0xff`, the output byte `i` of a state word in `sha1_final`,
      with the shift amount evaluated for each of the four values of `i`. */
  function OutByte(w: Word, i: nat): Byte
    requires i < 4
  {
    if i == 0 then ((w >> 24) & 0xff) as Byte
    else if i == 1 then ((w >> 16) & 0xff) as Byte
    else if i == 2 then ((w >> 8) & 0xff) as Byte
    else (w & 0xff) as Byte
  }

  /** The i-th output byte of a state word is its i-th big-endian byte. */
  lemma OutByteBigEndian(w: Word, i: nat)
    requires i < 4
    ensures OutByte(w, i) == WordBytes(w)[i]
  {
    if i == 0 {
    } else if i == 1 {
    } else if i == 2 {
    } else {
    }
  }

  /** The two schedule loops of `sha1_transform`: sixteen big-endian words read from the
      block, then the recurrence up to 80 words. */
  method Expand(block: array<Byte>) returns (m: array<Word>)
    requires block.Length == 64
    ensures fresh(m) && m[..] == Schedule(block[..])
  {
    ghost var w := Schedule(block[..]);
    ScheduleFacts(block[..]);
    m := new Word[80];
    var i, j := 0, 0;
    while i < 16
      invariant 0 <= i <= 16 && j == 4 * i
      invariant forall t :: 0 <= t < i ==> m[t] == w[t]
    {
      m[i] := BigEndian(block[j], block[j + 1], block[j + 2], block[j + 3]);
      i, j := i + 1, j + 4;
    }
    while i < 80
      invariant 16 <= i <= 80
      invariant forall t :: 0 <= t < i ==> m[t] == w[t]
    {
      m[i] := ScheduleWord(m[i - 3], m[i - 8], m[i - 14], m[i - 16]);
      assert Recurrence(w, i);
      i := i + 1;
    }
    assert m[..] == w;
  }

  /** The four round loops of `sha1_transform`, from the working variables `v0`, over the
      schedule `m` and the round constants `k`. */
  method RunRounds(v0: Vars, k: seq<Word>, m: seq<Word>) returns (a: Word, b: Word, c: Word, d: Word, e: Word)
    requires |k| == 4 && |m| == 80
    ensures Vars(a, b, c, d, e) == Rounds(v0, k, m, |m|)
  {
    a, b, c, d, e := v0.a, v0.b, v0.c, v0.d, v0.e;
    var i := 0;
    while i < 20
      invariant 0 <= i <= 20 && Vars(a, b, c, d, e) == Rounds(v0, k, m, i)
    {
      var t := RoundTemp(a, Ch(b, c, d), e, k[0], m[i]);
      RoundStep(v0, k, m, i, a, b, c, d, e);
      e := d; d := c; c := RotLeft(b, 30); b := a; a := t;
      i := i + 1;
    }
    while i < 40
      invariant 20 <= i <= 40 && Vars(a, b, c, d, e) == Rounds(v0, k, m, i)
    {
      var t := RoundTemp(a, Parity(b, c, d), e, k[1], m[i]);
      RoundStep(v0, k, m, i, a, b, c, d, e);
      e := d; d := c; c := RotLeft(b, 30); b := a; a := t;
      i := i + 1;
    }
    while i < 60
      invariant 40 <= i <= 60 && Vars(a, b, c, d, e) == Rounds(v0, k, m, i)
    {
      var t := RoundTemp(a, Maj(b, c, d), e, k[2], m[i]);
      RoundStep(v0, k, m, i, a, b, c, d, e);
      e := d; d := c; c := RotLeft(b, 30); b := a; a := t;
      i := i + 1;
    }
    while i < 80
      invariant 60 <= i <= 80 && Vars(a, b, c, d, e) == Rounds(v0, k, m, i)
    {
      var t := RoundTemp(a, Parity(b, c, d), e, k[3], m[i]);
      RoundStep(v0, k, m, i, a, b, c, d, e);
      e := d; d := c; c := RotLeft(b, 30); b := a; a := t;
      i := i + 1;
    }
  }

  /** The eight byte stores of the bit count `n` into bytes 56..63 of the buffer, each a
      truncation of a right shift. */
  method StoreLength(buf: array<Byte>, n: nat)
    requires buf.Length == 64 && n < TWO_64
    modifies buf
    ensures buf[..] == old(buf[..56]) + LengthBytes(n)
  {
    ghost var front := buf[..56];
    var b7, b6, b5, b4 := (n % 0x100) as Byte, ((n / 0x100) % 0x100) as Byte,
      ((n / 0x1_0000) % 0x100) as Byte, ((n / 0x100_0000) % 0x100) as Byte;
    var b3, b2, b1, b0 := ((n / 0x1_0000_0000) % 0x100) as Byte, ((n / 0x100_0000_0000) % 0x100) as Byte,
      ((n / 0x1_0000_0000_0000) % 0x100) as Byte, ((n / 0x100_0000_0000_0000) % 0x100) as Byte;
    assert LengthBytes(n) == [b0, b1, b2, b3, b4, b5, b6, b7];
    buf[63] := b7;
    buf[62] := b6;
    buf[61] := b5;
    buf[60] := b4;
    buf[59] := b3;
    buf[58] := b2;
    buf[57] := b1;
    buf[56] := b0;
    assert buf[..] == front + [b0, b1, b2, b3, b4, b5, b6, b7];
  }

  /** The output loop of `sha1_final`, from the state words into `hash`: byte `i` of
      state word `w` goes to `hash[4 * w + i]`, most significant first. */
  method Output(state: array<Word>, hash: array<Byte>)
    requires state.Length == 5 && hash.Length >= 20
    modifies hash
    ensures hash[..20] == Digest(state[..])
    ensures hash[20..] == old(hash[20..])
  {
    ghost var s := state[..];
    var i := 0;
    while i < 4
      invariant i <= 4 && state[..] == s
      invariant forall t :: 0 <= t < i ==> OutputAt(hash[..], s, t)
      invariant forall t :: 20 <= t < hash.Length ==> hash[t] == old(hash[t])
    {
      ghost var before := hash[..];
      hash[i]      := OutByte(state[0], i);
      hash[i + 4]  := OutByte(state[1], i);
      hash[i + 8]  := OutByte(state[2], i);
      hash[i + 12] := OutByte(state[3], i);
      hash[i + 16] := OutByte(state[4], i);
      forall t | 0 <= t <= i
        ensures OutputAt(hash[..], s, t)
      {
        if t < i {
          assert OutputAt(before, s, t);
        }
      }
      i := i + 1;
    }
    OutputDigest(hash[..], s);
  }

  /** A buffer with every byte of every state word in place starts with the digest. */
  lemma OutputDigest(h: seq<Byte>, s: seq<Word>)
    requires |h| >= 20 && |s| == 5
    requires forall t :: 0 <= t < 4 ==> OutputAt(h, s, t)
    ensures h[..20] == Digest(s)
  {
    forall t | 0 <= t < 20
      ensures h[t] == Digest(s)[t]
    {
      var r := t % 4;
      assert OutputAt(h, s, r);
      OutByteBigEndian(s[t / 4], r);
    }
  }

  /** `SHA1_CTX`. */
  class Sha1Ctx {
    var data: array<Byte>
    var datalen: nat
    var bitlen: nat
    var state: array<Word>
    var k: array<Word>

    /** The bytes fed to `Update` since the last `Init`. */
    ghost var msg: seq<Byte>

    /** The array sizes of the struct, and the two word arrays are distinct. */
    predicate Shaped()
      reads this
    {
      data.Length == 64 && state.Length == 5 && k.Length == 4 && state != k
    }

    /** The context as a value. */
    function Value(): Ctx
      reads this, data, state, k
    {
      Ctx(data[..], datalen, bitlen, state[..], k[..])
    }

    /** The context has absorbed `msg`. */
    ghost predicate Valid()
      reads this, data, state, k
    {
      Shaped() && Absorbed(Value(), msg)
    }

    /** A fresh, not yet initialised context (the struct declared by the caller). */
    constructor ()
      ensures Shaped() && fresh(data) && fresh(state) && fresh(k)
    {
      data := new Byte[64](_ => 0);
      state := new Word[5](_ => 0);
      k := new Word[4](_ => 0);
    }

    /** `sha1_init`: cursor and counter to zero, H(0) into the state, the round
        constants into `k`; the buffer is left as it was. */
    method Init()
      requires Shaped()
      modifies this, state, k
      ensures Shaped() && data == old(data) && state == old(state) && k == old(k)
      ensures datalen == 0 && bitlen == 0 && state[..] == H0 && k[..] == K
      ensures data[..] == old(data[..])
      ensures Value() == InitCtx(old(data[..]))
      ensures Valid() && msg == []
    {
      datalen := 0;
      bitlen := 0;
      state[0] := 0x67452301;
      state[1] := 0xEFCDAB89;
      state[2] := 0x98BADCFE;
      state[3] := 0x10325476;
      state[4] := 0xC3D2E1F0;
      k[0] := 0x5A827999;
      k[1] := 0x6ED9EBA1;
      k[2] := 0x8F1BBCDC;
      k[3] := 0xCA62C1D6;
      msg := [];
      InitAbsorbed(Value());
    }

    /** `sha1_transform`: one compression of a 64-byte block into `state`: the 80-word
        schedule, the four groups of twenty rounds, then each working variable added
        into its state word mod 2^32. Only `state` changes. */
    method Transform(block: array<Byte>)
      requires Shaped() && block.Length == 64
      modifies state
      ensures state[..] == Compress(old(state[..]), k[..], block[..])
      ensures data[..] == old(data[..]) && k[..] == old(k[..])
    {
      var m := Expand(block);
      var a, b, c, d, e := RunRounds(Vars(state[0], state[1], state[2], state[3], state[4]), k[..], m[..]);
      AddWorkingVars(a, b, c, d, e);
    }

    /** The last step of `sha1_transform`: each working variable added into its state word. */
    method AddWorkingVars(a: Word, b: Word, c: Word, d: Word, e: Word)
      requires state.Length == 5
      modifies state
      ensures state[..] == AddWorking(old(state[..]), Vars(a, b, c, d, e))
    {
      state[0] := Add(state[0], a);
      state[1] := Add(state[1], b);
      state[2] := Add(state[2], c);
      state[3] := Add(state[3], d);
      state[4] := Add(state[4], e);
    }

    /** `sha1_update`: each input byte goes into the buffer; a full buffer is compressed,
        the counter advances by 512 bits (mod 2^64) and the cursor returns to 0. */
    method Update(input: seq<Byte>)
      requires Valid()
      modifies this, data, state
      ensures data == old(data) && state == old(state) && k == old(k)
      ensures Value() == Absorb(old(Value()), input)
      ensures Valid() && msg == old(msg) + input
    {
      ghost var c0 := Value();
      var i := 0;
      while i < |input|
        invariant 0 <= i <= |input|
        invariant data == old(data) && state == old(state) && k == old(k) && Shaped()
        invariant WellFormed(Value()) && Value() == Absorb(c0, input[..i])
        invariant msg == old(msg)
      {
        UpdateByte(input[i]);
        assert input[..i + 1][..i] == input[..i];
        i := i + 1;
      }
      assert input[..i] == input;
      AbsorbAbsorbed(c0, msg, input);
      msg := msg + input;
    }

    /** The body of the loop of `sha1_update` for one byte `x`. */
    method UpdateByte(x: Byte)
      requires Shaped() && WellFormed(Value())
      modifies this`datalen, this`bitlen, data, state
      ensures Value() == AbsorbByte(old(Value()), x)
    {
      ghost var c := Value();
      ghost var buf := c.data[c.datalen := x];
      data[datalen] := x;
      assert data[..] == buf;
      datalen := datalen + 1;
      if datalen == 64 {
        Transform(data);
        bitlen := (bitlen + 512) % TWO_64;
        datalen := 0;
      }
    }

    /** `sha1_final`: pad and compress the buffered tail, then write the five state words
        big-endian into `hash`. */
    method Final(hash: array<Byte>)
      requires Valid() && hash.Length >= 20 && hash != data
      modifies this`bitlen, data, state, hash
      ensures Value() == Finalize(old(Value()))
      ensures hash[..20] == Digest(state[..])
      ensures hash[..20] == Sha1(old(msg))
      ensures hash[20..] == old(hash[20..])
    {
      FinalDigest(Value(), msg);
      PadAndCompress();
      Output(state, hash);
    }

    /** The padding part of `sha1_final`: 0x80 after the buffered tail, zeros (spilling into
        a second compressed block when fewer than 9 bytes are free), the bit count
        big-endian in bytes 56..63, and the last compression. */
    method PadAndCompress()
      requires Shaped() && WellFormed(Value())
      modifies this`bitlen, data, state
      ensures Value() == Finalize(old(Value()))
    {
      ghost var c0 := Value();
      Pad();
      Transform(data);
      FinalizeState(c0);
    }

    /** Everything of `sha1_final` before the last compression: the buffer then holds the
        last final block, the state has absorbed the spilled block if there was one, and the
        counter covers the buffered tail. */
    method Pad()
      requires Shaped() && WellFormed(Value())
      modifies this`bitlen, data, state
      ensures Shaped() && data == old(data) && state == old(state) && k == old(k) && datalen == old(datalen)
      ensures k[..] == old(k[..]) && bitlen == FinalBitlen(old(Value()))
      ensures data[..] == FinalLast(old(Value()))
      ensures state[..] == HashBlocks(old(state[..]), k[..], FinalFront(old(Value())))
    {
      ghost var c0 := Value();
      ghost var blocks := FinalBlocks(c0);
      FinalBlockCount(c0);
      var i := datalen;
      data[i] := 0x80;
      i := i + 1;
      if i > 56 {
        FinalBlocksLong(c0);
        i := SpillBlock(i);
        assert data[..56] == Zeros(56);
        HashBlocksOne(c0.state, c0.k, blocks[..64]);
      } else {
        FinalBlocksShort(c0);
        assert FinalFront(c0) == [];
      }
      i := ZeroUntil(i, 56);
      bitlen := (bitlen + datalen * 8) % TWO_64;
      assert bitlen == FinalBitlen(c0);
      StoreLength(data, bitlen);
    }

    /** The spill branch of `sha1_final`: zeros to the end of the buffer, its compression,
        and `memset` of bytes 0..55; the cursor ends at 64. */
    method SpillBlock(i: nat) returns (j: nat)
      requires Shaped() && 56 < i <= 64
      modifies data, state
      ensures j == 64
      ensures state[..] == Compress(old(state[..]), k[..], ZeroFill(old(data[..]), i, 64))
      ensures data[..] == Zeros(56) + ZeroFill(old(data[..]), i, 64)[56..]
    {
      j := ZeroUntil(i, 64);
      Transform(data);
      ClearFront();
    }

    /** A zero-padding loop of `sha1_final`: from cursor `i`, bytes up to `to - 1` become 0;
        returns the cursor after the loop. */
    method ZeroUntil(i: nat, to: nat) returns (j: nat)
      requires data.Length == 64 && i <= 64 && to <= 64
      modifies data
      ensures j == if i < to then to else i
      ensures data[..] == ZeroFill(old(data[..]), i, to)
    {
      j := i;
      while j < to
        invariant i <= j && (j <= to || j == i)
        invariant forall t :: 0 <= t < 64 ==> data[t] == if i <= t < j then 0 else old(data[t])
      {
        data[j] := 0x00;
        j := j + 1;
      }
      assert data[..] == ZeroFill(old(data[..]), i, to);
    }

    /** `memset(ctx->data, 0, 56)`. */
    method ClearFront()
      requires data.Length == 64
      modifies data
      ensures data[..] == Zeros(56) + old(data[56..])
    {
      forall t | 0 <= t < 56 {
        data[t] := 0;
      }
      assert data[..] == Zeros(56) + old(data[56..]);
    }
  }

  /** Byte `t` of every state word is in place: `h[4 * w + t]` for word `w`. */
  ghost predicate OutputAt(h: seq<Byte>, s: seq<Word>, t: nat)
    requires |h| >= 20 && |s| == 5 && t < 4
  {
    h[t] == OutByte(s[0], t) && h[t + 4] == OutByte(s[1], t) && h[t + 8] == OutByte(s[2], t)
    && h[t + 12] == OutByte(s[3], t) && h[t + 16] == OutByte(s[4], t)
  }
}
