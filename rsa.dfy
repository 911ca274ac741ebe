/**
  * The toy RSA routines as the code runs them: the loops of `gcd`, `modinv` and
  * `mod_exp`, the exponent search of `rsa_generate_keys`, the byte packing loops of
  * `str_to_long` and `long_to_str`, and the block loops of the string routines. Each
  * is proved against the value model in `RsaSpec`; every `long` product and sum is
  * shown to stay inside the 64-bit range under the stated preconditions.
  */
module Rsa {
  import opened RsaSpec

  /** `gcd`: Euclid's loop, which reassigns its two arguments. */
  method Gcd(a: int, b: int) returns (r: int)
    requires a >= 0 && b >= 0
    ensures r == RsaSpec.Gcd(a, b)
    ensures a > 0 || b > 0 ==>
      Divides(r, a) && Divides(r, b) && forall c :: Divides(c, a) && Divides(c, b) ==> c <= r
  {
    var x, y := a, b;
    while y != 0
      invariant x >= 0 && y >= 0
      invariant RsaSpec.Gcd(x, y) == RsaSpec.Gcd(a, b)
      decreases y
    {
      var t := y;
      y := x % y;
      x := t;
    }
    r := x;
    if a > 0 || b > 0 {
      GcdIsGreatest(a, b);
    }
  }

  /** `modinv`: the extended Euclidean algorithm on `(phi, e)`; `t` and `newt` track
      the coefficient of `e`. It returns -1 exactly when `e` has no inverse. */
  method ModInv(e: int, phi: int) returns (d: int)
    requires phi > 1 && e > 0 && phi <= LONG_MAX && e <= LONG_MAX
    ensures d == -1 <==> RsaSpec.Gcd(e, phi) != 1
    ensures d != -1 ==> 0 < d < phi && (e * d) % phi == 1
  {
    var t, newt := 0, 1;
    var r, newr := phi, e;
    EuclidStart(e, phi);
    while newr != 0
      invariant EuclidState(e, phi, t, newt, r, newr)
      decreases newr
    {
      var quotient := r / newr;
      EuclidStep(e, phi, t, newt, r, newr, quotient);
      assert InLong(quotient * newt) && InLong(t - quotient * newt);
      assert InLong(quotient * newr) && InLong(r - quotient * newr);
      var tmp := t;
      t := newt;
      newt := tmp - quotient * newt;
      tmp := r;
      r := newr;
      newr := tmp - quotient * newr;
    }
    GcdSymmetric(e, phi);
    if r > 1 {
      return -1;
    }
    InverseFromEuclid(e, phi, t);
    if t < 0 {
      t := t + phi;
    }
    d := t;
  }

  /** `mod_exp`: right-to-left square-and-multiply. With `exp <= 0` the loop does not
      run and the result is 1, even when `mod == 1`. */
  method ModExp(base: int, exp: int, mod: int) returns (result: int)
    requires base >= 0 && mod >= 1 && (mod - 1) * (mod - 1) <= LONG_MAX
    ensures result == ModPow(base, exp, mod)
    ensures exp <= 0 ==> result == 1
    ensures exp >= 0 && mod >= 2 ==> result == Pow(base, exp) % mod
    ensures exp > 0 && mod == 1 ==> result == 0
  {
    result := 1;
    var b := base % mod;
    var x := exp;
    while x > 0
      invariant 0 <= b < mod
      invariant exp <= 0 ==> x == exp && result == 1
      invariant exp > 0 ==> 0 <= x <= exp && (result * Pow(b, x)) % mod == Pow(base % mod, exp) % mod
      invariant 0 <= result < mod || result == 1
      invariant mod == 1 && exp > 0 && x == 0 ==> result == 0
      decreases x
    {
      MulMonotone(b, b, mod - 1, mod - 1);
      if x % 2 == 1 {
        MultiplyStep(result, b, x, mod);
        if result != 1 {
          MulMonotone(result, b, mod - 1, mod - 1);
        }
        assert InLong(result * b);
        result := (result * b) % mod;
      } else {
        SquareStep(result, b, x, mod);
      }
      x := x / 2;
      assert InLong(b * b);
      b := (b * b) % mod;
    }
    if exp > 0 {
      PowMod(base, exp, mod);
      if mod >= 2 {
        DivModUnique(result, mod, 0, result);
      }
    }
  }

  /** `rsa_generate_keys`: the key pair for primes `p` and `q`, or 0 and `key`
      untouched. The exponent is the first odd `e >= 3` coprime to `phi`; when the
      search reaches `phi` without finding one, the first odd number at or above
      `phi` is passed to `modinv` anyway. */
  method GenerateKeys(p: int, q: int, key: RsaKey) returns (ok: int, out: RsaKey)
    requires p >= 2 && q >= 2 && p * q <= LONG_MAX
    ensures ok == 0 || ok == 1
    ensures ok == 0 ==> out == key
    ensures ok == 1 <==>
      p != q && RsaSpec.Gcd(ChosenExponent((p - 1) * (q - 1)), (p - 1) * (q - 1)) == 1
    ensures ok == 1 ==>
      var phi := (p - 1) * (q - 1);
      out.n == p * q && out.e == ChosenExponent(phi) &&
      out.e % 2 == 1 && out.e >= 3 && RsaSpec.Gcd(out.e, phi) == 1 &&
      0 < out.d < phi && (out.e * out.d) % phi == 1
  {
    if p == q {
      return 0, key;
    }
    var n := p * q;
    MulMonotone(1, 1, p - 1, q - 1);
    var phi := (p - 1) * (q - 1);
    assert phi >= 2 by {
      if p > q {
        MulMonotone(2, 1, p - 1, q - 1);
      } else {
        MulMonotone(1, 2, p - 1, q - 1);
      }
    }
    assert phi < n;
    ChosenExponentLeast(phi);
    var e := 3;
    while e < phi
      invariant e % 2 == 1 && 3 <= e <= phi + 1
      invariant FirstExponent(phi, e) == ChosenExponent(phi)
      decreases phi - e
    {
      var g := Gcd(e, phi);
      if g == 1 {
        break;
      }
      e := e + 2;
    }
    var d := ModInv(e, phi);
    if d == -1 {
      return 0, key;
    }
    out := RsaKey(n, e, d);
    ok := 1;
  }

  /** The accumulation loop of `str_to_long`, also inlined in `rsa_encrypt_string`:
      `num = (num << 8) | s[off + i]` for `i < len`. */
  method ReadBigEndian(s: seq<Byte>, off: int, len: int) returns (num: int)
    requires 0 <= off && off + Iterations(len) <= |s| && len <= 7
    ensures num == BigEndian(s[off .. off + Iterations(len)])
  {
    num := 0;
    var i := 0;
    while i < len
      invariant 0 <= i <= Iterations(len)
      invariant num == BigEndian(s[off .. off + i])
    {
      assert s[off .. off + i + 1][..i] == s[off .. off + i];
      SevenBytes(i + 1);
      assert InLong(num * 256 + s[off + i]);
      num := num * 256 + s[off + i];
      i := i + 1;
    }
  }

  /** The shifting loop of `long_to_str`, also inlined in `rsa_decrypt_string`: for
      `j` from `len - 1` down to 0, `a[off + j] = num & 0xFF; num >>= 8`. */
  method WriteBigEndian(num: int, a: array<Byte>, off: int, len: int)
    requires 0 <= off && off + Iterations(len) <= a.Length
    modifies a
    ensures a[off .. off + Iterations(len)] == ToBytes(num, Iterations(len))
    ensures forall k :: 0 <= k < a.Length && !(off <= k < off + Iterations(len)) ==> a[k] == old(a[k])
  {
    var n := Iterations(len);
    var m := num;
    var j: int := n - 1;  // `len - 1`; for a negative `len` the loop does not run either way
    while j >= 0
      invariant -1 <= j < n
      invariant m == ShiftRight(num, n - 1 - j)
      invariant forall k :: off + j < k < off + n ==> a[k] == Digit(num, off + n - 1 - k)
      invariant forall k :: 0 <= k < a.Length && !(off + j < k < off + n) ==> a[k] == old(a[k])
      decreases j
    {
      PowPositive(256, n - 1 - j);
      DivDiv(num, Pow(256, n - 1 - j), 256);
      assert Pow(256, n - j) == Pow(256, n - 1 - j) * 256;
      a[off + j] := m % 256;
      m := m / 256;
      j := j - 1;
    }
    assert a[off .. off + n] == ToBytes(num, n);
  }

  /** `str_to_long`: the first `len` characters, big-endian. Up to seven fit. */
  method StrToLong(str: seq<Byte>, len: int) returns (num: int)
    requires Iterations(len) <= |str| && len <= 7
    ensures num == BigEndian(str[..Iterations(len)])
  {
    num := ReadBigEndian(str, 0, len);
  }

  /** `long_to_str`: the low `len` bytes of `num` into `str[0..len)`, most significant
      first; the rest of `str` is untouched. */
  method LongToStr(num: int, str: array<Byte>, len: int)
    requires InLong(num) && Iterations(len) <= str.Length
    modifies str
    ensures str[..Iterations(len)] == ToBytes(num, Iterations(len))
    ensures str[Iterations(len)..] == old(str[Iterations(len)..])
  {
    WriteBigEndian(num, str, 0, len);
  }

  /** `rsa_encrypt`: `msg^e mod n` (1 when `e <= 0`, even for `n == 1`). */
  method Encrypt(msg: int, key: RsaKey) returns (c: int)
    requires msg >= 0 && key.n >= 1 && (key.n - 1) * (key.n - 1) <= LONG_MAX
    ensures c == ModPow(msg, key.e, key.n)
    ensures key.e >= 0 && key.n >= 2 ==> c == Pow(msg, key.e) % key.n
  {
    c := ModExp(msg, key.e, key.n);
  }

  /** `rsa_decrypt`: `cipher^d mod n` (1 when `d <= 0`, even for `n == 1`). */
  method Decrypt(cipher: int, key: RsaKey) returns (m: int)
    requires cipher >= 0 && key.n >= 1 && (key.n - 1) * (key.n - 1) <= LONG_MAX
    ensures m == ModPow(cipher, key.d, key.n)
    ensures key.d >= 0 && key.n >= 2 ==> m == Pow(cipher, key.d) % key.n
  {
    m := ModExp(cipher, key.d, key.n);
  }

  /** `rsa_encrypt_string`: `msg` holds the characters before the terminating NUL, so
      `strlen(msg) == |msg|`. Block `i` is packed big-endian and encrypted into
      `cipher[i]`; the returned count is what the code stores in `*blocks`. */
  method EncryptString(msg: seq<Byte>, cipher: array<int>, key: RsaKey) returns (blocks: int)
    requires 0 !in msg && |msg| <= INT_MAX - 3
    requires BlockCount(|msg|) <= cipher.Length
    requires key.n >= 1 && (key.n - 1) * (key.n - 1) <= LONG_MAX
    modifies cipher
    ensures blocks == BlockCount(|msg|)
    ensures cipher[..blocks] == PowBlocks(PackedBlocks(msg), key.e, key.n)
    ensures cipher[blocks..] == old(cipher[blocks..])
  {
    var len := |msg|;
    blocks := (len + 4 - 1) / 4;
    var last := len % 4;
    if last == 0 {
      last := 4;
    }
    BlockLayout(len);
    var i := 0;
    while i < blocks
      invariant 0 <= i <= blocks
      invariant forall k :: 0 <= k < i ==> cipher[k] == ModPow(PackedBlocks(msg)[k], key.e, key.n)
      invariant cipher[blocks..] == old(cipher[blocks..])
    {
      var chunk := if i == blocks - 1 then last else 4;
      var m := ReadBigEndian(msg, i * 4, chunk);
      assert msg[i * 4 .. i * 4 + chunk] == Block(msg, i);
      cipher[i] := Encrypt(m, key);
      i := i + 1;
    }
    assert cipher[..blocks] == PowBlocks(PackedBlocks(msg), key.e, key.n);
  }

  /** `rsa_decrypt_string`: block `i` is decrypted and unpacked big-endian at offset
      `4i` (into `last` bytes for the final block), then a NUL is written at
      `blocks*4 - (4 - last)`. Everything after that position is untouched. */
  method DecryptString(cipher: array<int>, blocks: int, last: int, msg: array<Byte>, key: RsaKey)
    requires 0 <= blocks <= cipher.Length
    requires 0 <= last <= 4 && 0 <= 4 * (blocks - 1) + last < msg.Length
    requires forall i :: 0 <= i < blocks ==> cipher[i] >= 0
    requires key.n >= 1 && (key.n - 1) * (key.n - 1) <= LONG_MAX
    modifies msg
    ensures msg[..4 * (blocks - 1) + last] == Unpack(PowBlocks(cipher[..blocks], key.d, key.n), last)
    ensures msg[4 * (blocks - 1) + last] == 0
    ensures msg[4 * (blocks - 1) + last + 1..] == old(msg[4 * (blocks - 1) + last + 1..])
  {
    ghost var vals := PowBlocks(cipher[..blocks], key.d, key.n);
    ghost var w := 4 * (blocks - 1) + last;
    ghost var plain := Unpack(vals, last);
    var i := 0;
    ghost var done := 0;  // the bytes written so far: 4i, or w after the last block
    while i < blocks
      invariant 0 <= i <= blocks
      invariant done == if i < blocks then 4 * i else w
      invariant forall k :: 0 <= k < done ==> msg[k] == plain[k]
      invariant forall k :: done <= k < msg.Length ==> msg[k] == old(msg[k])
    {
      var m := Decrypt(cipher[i], key);
      var chunk := if i == blocks - 1 then last else 4;
      var off := i * 4;
      UnpackBlock(vals, last, i, off, chunk);
      WriteBigEndian(m, msg, off, chunk);
      forall k | off <= k < off + chunk
        ensures msg[k] == plain[k]
      {
        assert msg[k] == msg[off .. off + chunk][k - off];
      }
      i := i + 1;
      done := off + chunk;
    }
    msg[blocks * 4 - (4 - last)] := 0;
    assert msg[..w] == plain;
  }
}
