/**
  * The DES / Triple-DES routines as the code runs them: `f` with its local `e[6]` and
  * the in-place key mix, `InvIP` writing the output block, `des_key_setup` rotating `C`
  * and `D` and filling the schedule table, `des_crypt` updating `state[0]`/`state[1]`,
  * and the triple versions. Each is proved against the value model in `DesSpec`.
  */
module Des {
  import opened DesSpec

  /** Row `r` of a schedule table, `key[r]`, as a subkey. */
  function RowOf(a: array2<Byte>, r: nat): Subkey
    reads a
    requires r < a.Length0 && a.Length1 == 6
  {
    [a[r, 0], a[r, 1], a[r, 2], a[r, 3], a[r, 4], a[r, 5]]
  }

  /** The sixteen subkeys a schedule table holds. */
  function ScheduleOf(a: array2<Byte>): (ks: seq<Subkey>)
    reads a
    requires a.Length0 == 16 && a.Length1 == 6
    ensures |ks| == 16 && forall r :: 0 <= r < 16 ==> ks[r] == RowOf(a, r)
  {
    seq(16, r requires 0 <= r < 16 reads a => RowOf(a, r))
  }

  /** The round function `f`: the expansion copied into the local `e[0..6)`, the key
      xor-ed into `e` in place, then the S-box layer read from `e`. */
  method F(state: Word, key: Subkey) returns (r: Word)
    ensures r == RoundF(state, key)
  {
    var x := Expansion(state);
    var e := new Byte[6];
    e[0], e[1], e[2], e[3], e[4], e[5] := x[0], x[1], x[2], x[3], x[4], x[5];
    assert e[..] == x;
    MixKeyInto(e, key);
    r := SBoxLayer(e[..]);
  }

  /** `for (i = 0; i < 6; i++) e[i] ^= key[i];` */
  method MixKeyInto(e: array<Byte>, key: Subkey)
    requires e.Length == 6
    modifies e
    ensures e[..] == MixKey(old(e[..]), key)
  {
    for i := 0 to 6
      invariant forall j :: 0 <= j < 6 ==> e[j] == if j < i then old(e[j]) ^ key[j] else old(e[j])
    {
      e[i] := e[i] ^ key[i];
    }
  }

  /** `InvIP`: zero the eight output bytes, then assemble `out[0]`. */
  method InvIPOut(state: array<Word>, out: array<Byte>)
    requires state.Length == 2 && out.Length == 8
    modifies out
    ensures out[..] == InvIP(Halves(state[0], state[1]))
  {
    for i := 0 to 8
      invariant forall j :: 0 <= j < i ==> out[j] == 0
    {
      out[i] := 0;
    }
    out[0] := InvIPByte(Halves(state[0], state[1]));
  }

  /** `des_key_setup`: sixteen iterations that rotate `C` and `D` and clear row
      `idx` of the schedule. `C` and `D` start at 0 and stay 0; the key is not read. */
  method KeySetup(key: seq<Byte>, schedule: array2<Byte>, mode: Mode)
    requires schedule.Length0 == 16 && schedule.Length1 == 6
    modifies schedule
    ensures ScheduleOf(schedule) == KeySchedule(key, mode)
  {
    var c: Word, d: Word := 0, 0;
    for i := 0 to 16
      invariant c == 0 && d == 0
      invariant forall k, j :: 0 <= k < i && 0 <= j < 6 ==> schedule[RoundIndex(mode, k), j] == 0
    {
      RotateHalfZero(SHIFTS[i]);
      c := RotateHalf(c, SHIFTS[i]);
      d := RotateHalf(d, SHIFTS[i]);
      var idx := if mode == Decrypt then 15 - i else i;
      for j := 0 to 6
        invariant forall k, jj :: 0 <= k < i && 0 <= jj < 6 ==> schedule[RoundIndex(mode, k), jj] == 0
        invariant forall jj :: 0 <= jj < j ==> schedule[idx, jj] == 0
      {
        schedule[idx, j] := 0;
      }
    }
    forall r | 0 <= r < 16
      ensures RowOf(schedule, r) == KeySchedule(key, mode)[r]
    {
      RoundIndexBijective(mode, r, r);
      var k := RoundIndex(mode, r);
      assert schedule[RoundIndex(mode, k), 0] == 0;
    }
  }

  /** `des_crypt`: `IP`, fifteen swapping rounds, the last round, `InvIP`. `input` may be
      the same array as `out`: it is read in full before `out` is written. The schedule
      is only read, so it is passed as the sixteen subkeys it holds. */
  method Crypt(input: array<Byte>, out: array<Byte>, ks: seq<Subkey>)
    requires input.Length == 8 && out.Length == 8 && |ks| == 16
    modifies out
    ensures out[..] == DesSpec.Crypt(old(input[..]), ks)
  {
    var h := IP(input[..]);
    var state := new Word[2];
    state[0], state[1] := h.l, h.r;
    FeistelRounds(state, ks);
    InvIPOut(state, out);
  }

  /** The loop of `des_crypt` on `state[0]`, `state[1]`: fifteen rounds that swap the
      halves, then a last round that does not. */
  method FeistelRounds(state: array<Word>, ks: seq<Subkey>)
    requires state.Length == 2 && |ks| == 16
    modifies state
    ensures Halves(state[0], state[1]) == Network(RoundF, ks, old(Halves(state[0], state[1])))
  {
    ghost var h := Halves(state[0], state[1]);
    var i := 0;
    while i < 15
      invariant 0 <= i <= 15
      invariant Halves(state[0], state[1]) == Rounds(RoundF, ks, i, h)
    {
      SwapRoundStep(state, ks[i]);
      i := i + 1;
    }
    NetworkLast(RoundF, ks, h, Halves(state[0], state[1]));
    LastRoundStep(state, ks[15]);
  }

  /** One swapping round: `t = state[1]; state[1] = f(state[1], k) ^ state[0]; state[0] = t`. */
  method SwapRoundStep(state: array<Word>, k: Subkey)
    requires state.Length == 2
    modifies state
    ensures Halves(state[0], state[1]) == SwapRound(RoundF, k, old(Halves(state[0], state[1])))
  {
    var t := state[1];
    var v := F(state[1], k);
    state[1] := v ^ state[0];
    state[0] := t;
  }

  /** The last round: `state[0] = f(state[1], k) ^ state[0]`. */
  method LastRoundStep(state: array<Word>, k: Subkey)
    requires state.Length == 2
    modifies state
    ensures Halves(state[0], state[1]) == LastRound(RoundF, k, old(Halves(state[0], state[1])))
  {
    var v := F(state[1], k);
    state[0] := v ^ state[0];
  }

  /** `three_des_key_setup`: schedule 0 from key bytes 0..7 in `mode`, schedule 1 from
      bytes 8..15 in the other mode, schedule 2 from bytes 16..23 in `mode`. The three
      layers of the code's `schedule[3][16][6]` are three distinct tables here. */
  method TripleKeySetup(key: seq<Byte>, k0: array2<Byte>, k1: array2<Byte>, k2: array2<Byte>, mode: Mode)
    requires |key| >= 24
    requires k0.Length0 == 16 && k0.Length1 == 6 && k1.Length0 == 16 && k1.Length1 == 6
    requires k2.Length0 == 16 && k2.Length1 == 6
    requires k0 != k1 && k1 != k2 && k0 != k2
    modifies k0, k1, k2
    ensures ScheduleOf(k0) == KeySchedule(key[..8], mode)
    ensures ScheduleOf(k1) == KeySchedule(key[8..16], Flip(mode))
    ensures ScheduleOf(k2) == KeySchedule(key[16..24], mode)
  {
    KeySetup(key[..8], k0, mode);
    KeySetup(key[8..16], k1, Flip(mode));
    KeySetup(key[16..24], k2, mode);
  }

  /** `three_des_crypt`: three passes of `des_crypt`, the second and third in place. */
  method TripleCrypt(input: array<Byte>, out: array<Byte>, k0: seq<Subkey>, k1: seq<Subkey>, k2: seq<Subkey>)
    requires input.Length == 8 && out.Length == 8 && |k0| == 16 && |k1| == 16 && |k2| == 16
    modifies out
    ensures out[..] == DesSpec.TripleCrypt(old(input[..]), k0, k1, k2)
  {
    ghost var block := input[..];
    Crypt(input, out, k0);
    ghost var c0 := out[..];
    Crypt(out, out, k1);
    ghost var c1 := out[..];
    Crypt(out, out, k2);
    TripleCryptSteps(block, k0, k1, k2, c0, c1, out[..]);
  }
}
