# Cryptography primitives in C — a verified Dafny model

This project models the three algorithm libraries of the Cryptography repository:

- **SHA-1** (`src/sha/sha1.c`). The `SHA1_CTX` context holds a 64-byte buffer, the cursor
  `datalen`, a 64-bit bit counter `bitlen`, five state words and four round constants.
  `sha1_update` buffers input one byte at a time and compresses each full block.
  `sha1_transform` builds the 80-word schedule and runs 80 rounds. `sha1_final` pads, appends
  the length and writes the digest big-endian. `Sha1Spec` is a pure model with two layers: the
  hash as FIPS 180-2 defines it (`Sha1(msg)`) and the context as a value (`Ctx`). `Sha1` holds
  the class `Sha1Ctx` with array fields, and its methods are proved against `Sha1Spec`. The end
  result (`Sha1Ctx.Final`) is that after init and any sequence of updates the 20 output bytes
  equal `Sha1` of the concatenated input. `Sha1Vectors` proves the first two known answers of
  `src/test/sha1_test.c`, both on `Sha1` and on the context object, and the digest of the
  empty message.
- **DES / Triple-DES** (`src/des/des.c`), modelled as the code is written. The code departs
  from FIPS 46-3 in three ways, and the model keeps all three:
  - `des_key_setup` never reads the key, so every subkey byte is 0;
  - `f` returns the packed S-box outputs with no P permutation;
  - `InvIP` sets only `out[0]` and zeroes `out[1..7]`.

  `DesSpec` holds the bit-level value model:
  - `IP` and its inverse;
  - the expansion, checked against the FIPS E table;
  - the S-boxes and `SBOXBIT`;
  - the round function;
  - a Feistel network generic in its round function.

  `Des` holds the imperative routines, proved against `DesSpec`. The Feistel structure of
  `des_crypt` is proved self-inverse under reversed subkeys for every round function. The
  known-answer round trip in `des_test.c` does not hold for this code, and a lemma proves it
  fails.
- **Toy RSA** (`src/rsa/rsa.c`). It covers:
  - Euclid's `gcd`;
  - the extended-Euclid `modinv`;
  - square-and-multiply `mod_exp`;
  - key generation;
  - big-endian packing of bytes into `long`s;
  - string encryption and decryption in 4-byte blocks.

  `RsaSpec` holds the number theory: `Gcd` and why it is the greatest common divisor, the
  invariant of the extended Euclid loop, `Pow`, the exponent search, and the packing round
  trips. `Rsa` holds the loops, proved against `RsaSpec`. C `long` is an unbounded `int` here.
  Each operation requires the ranges under which the C arithmetic cannot overflow.

## Model

| member | source | states |
|---|---|---|
| Sha1Spec.RotLeftRotates | src/sha/sha1.c:18 | `ROTLEFT` by 1, 5 and 30 (the only amounts used) is a 32-bit left rotation |
| Sha1Spec.WordBytesRead | src/sha/sha1.c:29-31 | reading the four big-endian bytes of a word back gives the word |
| Sha1Spec.ReadWordBytes | src/sha/sha1.c:130-136 | the big-endian bytes of the word assembled from `b0..b3` are `b0..b3` (packing and unpacking are inverse) |
| Sha1Spec.ExtendScheduleFacts | src/sha/sha1.c:33-34 | schedule extension keeps the given words; every later word up to 80 satisfies `m[i] = ROTL1(m[i-3]^m[i-8]^m[i-14]^m[i-16])` |
| Sha1Spec.ScheduleFacts | src/sha/sha1.c:29-34 | schedule word `i < 16` is `data[4i..4i+4)` read big-endian; words 16..79 follow the recurrence |
| Sha1.Expand | src/sha/sha1.c:29-34 | the two loops filling `m[80]` produce exactly that schedule, in a fresh array |
| Sha1Spec.RoundStep | src/sha/sha1.c:44-59 | round `i` uses Ch with `k[0]` for `i<20`, Parity with `k[1]` for 20..39, Maj with `k[2]` for 40..59, Parity with `k[3]` for 60..79, and shifts `a..e` as FIPS 180-2 section 6.1.2 says |
| Sha1.RunRounds | src/sha/sha1.c:37-59 | the four 20-iteration loops compute the 80 rounds from the state words |
| Sha1.Sha1Ctx.AddWorkingVars | src/sha/sha1.c:62-66 | each `state[j]` becomes `state[j] + working_j` mod 2^32; nothing else changes |
| Sha1.Sha1Ctx.Transform | src/sha/sha1.c:24-67 | `state` becomes the compression of the old state and the block; `data` and `k` are unchanged |
| Sha1Spec.HashBlocksAppend | src/sha/sha1.c:94-98 | compressing `a + b` block by block equals compressing `b` from the chaining value of `a` (`a` whole blocks) |
| Sha1Spec.HashBlocksOne | src/sha/sha1.c:127 | one 64-byte block is one compression |
| Sha1Spec.HashBlocksTwo | src/sha/sha1.c:109-127 | 128 bytes are two compressions, first half first |
| Sha1Spec.BitLengthAdd | src/sha/sha1.c:96 | adding `8*d` to the 64-bit counter keeps it equal to 8 times the byte count mod 2^64 |
| Sha1Spec.InitAbsorbed | src/sha/sha1.c:70-87 | a freshly initialised context holds the empty message |
| Sha1.Sha1Ctx.constructor | src/sha/sha1.h:30-36 | allocates the buffer (64 bytes), state (5 words) and constants (4 words) of the struct |
| Sha1.Sha1Ctx.Init | src/sha/sha1.c:70-87 | `datalen = 0`, `bitlen = 0`, state = 67452301 EFCDAB89 98BADCFE 10325476 C3D2E1F0, k = 5A827999 6ED9EBA1 8F1BBCDC CA62C1D6, buffer untouched; the context then holds the empty message |
| Sha1.Sha1Ctx.UpdateByte | src/sha/sha1.c:93-98 | one loop iteration: store the byte, and on a full buffer compress it, add 512 to `bitlen` and reset `datalen` |
| Sha1Spec.AbsorbByteAbsorbed | src/sha/sha1.c:92-99 | one iteration keeps the context invariant: `datalen = |msg| mod 64 < 64`, `bitlen` = 8 times the bytes compressed (mod 2^64), `data[0..datalen)` = unconsumed tail, state = chaining value of the consumed prefix |
| Sha1Spec.AbsorbAbsorbed | src/sha/sha1.c:90-100 | a whole `sha1_update` keeps that invariant, for the message extended by the input |
| Sha1.Sha1Ctx.Update | src/sha/sha1.c:90-100 | the context after the loop is the byte-by-byte absorption of the input, and it holds the old message plus the input |
| Sha1Spec.AbsorbConcat | src/sha/sha1.c:90-100 | streaming equivalence: `update(a); update(b)` leaves exactly the context that `update(a + b)` leaves, buffer bytes included; an empty update changes nothing |
| Sha1Spec.PaddedLength | src/sha/sha1.c:105-125 | message, `0x80`, `(55 - n) mod 64` zeros and 8 length bytes fill whole blocks |
| Sha1Spec.FinalBlockCount | src/sha/sha1.c:105-125 | the final blocks are the buffered bytes, `0x80`, zeros, then `bitlen + 8*datalen` big-endian in the last 8 bytes; 128 bytes (two compressions) when `datalen >= 56`, otherwise 64 (one) |
| Sha1Spec.FinalBlocksShort | src/sha/sha1.c:105-125 | when `datalen < 56`: zero-filling to 56 and appending the length gives the final block |
| Sha1Spec.FinalBlocksLong | src/sha/sha1.c:109-125 | when `datalen >= 56`: zero-filling to 64 gives the first final block; 56 zeros plus the length give the second |
| Sha1Spec.FinalBlocksPad | src/sha/sha1.c:105-125 | the final blocks are the buffered tail followed by the FIPS 180-2 section 5.1.1 padding of the message |
| Sha1Spec.PadSplit | src/sha/sha1.c:105-125 | padding the whole message equals the consumed prefix followed by the final blocks |
| Sha1Spec.FinalizeState | src/sha/sha1.c:103-127 | after final, the state is the compression of the one or two final blocks and the buffer holds the last one |
| Sha1.StoreLength | src/sha/sha1.c:117-125 | bytes 56..63 receive the counter big-endian; bytes 0..55 are unchanged |
| Sha1.Sha1Ctx.ClearFront | src/sha/sha1.c:112 | the `memset` zeroes bytes 0..55 and leaves 56..63 |
| Sha1.Sha1Ctx.ZeroUntil | src/sha/sha1.c:110 | the zeroing loop clears `data[i..to)` and leaves the cursor at `max(i, to)` |
| Sha1.Sha1Ctx.SpillBlock | src/sha/sha1.c:109-112 | the overflow path zero-fills to 64, compresses, and clears bytes 0..55 |
| Sha1.Sha1Ctx.Pad | src/sha/sha1.c:105-125 | the buffer becomes the last final block; the state absorbs the earlier final block, if any; `bitlen` becomes `bitlen + 8*datalen` mod 2^64 |
| Sha1.Sha1Ctx.PadAndCompress | src/sha/sha1.c:105-127 | padding plus the last transform give the finalised context |
| Sha1.OutByteBigEndian | src/sha/sha1.c:131-135 | `(w >> (24 - 8i)) & 0xff` is byte `i` of `w` big-endian |
| Sha1Spec.DigestWords | src/sha/sha1.c:130-136 | digest bytes `4j..4j+4)` read big-endian give `state[j]` for each of the 5 words |
| Sha1.Output | src/sha/sha1.c:129-136 | the output loop writes the big-endian digest of the state to `hash[0..20)`; later bytes are unchanged |
| Sha1Spec.FinalOfPrefix | src/sha/sha1.c:103-127 | a context whose state chains the whole blocks of a prefix, and whose counter covers them, finalises to the digest of the prefix followed by its buffered bytes |
| Sha1Spec.FinalDigest | src/sha/sha1.c:103-137 | finalising a context that holds `msg` gives the SHA-1 digest of `msg` |
| Sha1.Sha1Ctx.Final | src/sha/sha1.c:103-137 | `hash[0..20)` = SHA-1 of every byte fed since init, and the context becomes the finalised value |
| Sha1Vectors.Sha1Abc | src/test/sha1_test.c:23-30 | SHA-1 of "abc" (one padded block) is the expected `hash1`, a9993e36 4706816a ba3e2571 7850c26c 9cd0d89d: the digest of those five state words |
| Sha1Vectors.Sha1Abcdb | src/test/sha1_test.c:24-34 | SHA-1 of the 56-byte string (two padded blocks) is the expected `hash2`, 84983e44 1c3bd26e baae4aa1 f95129e5 e54670f1 |
| Sha1Vectors.Absorbing | src/test/sha1_test.c:45-46 | after `sha1_init` and one `sha1_update`, the context holds exactly the text |
| Sha1Vectors.HashOnce | src/test/sha1_test.c:45-47 | `sha1_init`, one `sha1_update` and `sha1_final` write SHA-1 of the text into the 20-byte buffer |
| Sha1Vectors.AbcDigestBytes | src/test/sha1_test.c:27-30 | the digest of those five words is the 20-byte `hash1` literal |
| Sha1Vectors.AbcdbDigestBytes | src/test/sha1_test.c:31-34 | the digest of those five words is the 20-byte `hash2` literal |
| Sha1Vectors.TestAbc | src/test/sha1_test.c:44-48 | the first test's buffer receives the 20 bytes of `hash1`, so its `memcmp` succeeds |
| Sha1Vectors.TestAbcdb | src/test/sha1_test.c:50-54 | the second test's buffer receives the 20 bytes of `hash2`, so its `memcmp` succeeds |
| Sha1Vectors.Sha1Empty | src/sha/sha1.c:70-137 | SHA-1 of the empty message (init, no update, final: one block of padding) is da39a3ee 5e6b4b0d 3255bfef 95601890 afd80709, as words |
| Sha1Vectors.EmptyDigestBytes | src/sha/sha1.c:129-136 | those five words are written out as the bytes da 39 a3 ee ... 07 09 |
| DesSpec.SBoxBitRowCol | src/des/des.c:23 | `SBOXBIT(a)` = 16·row + column: row from the outer two bits, column from the inner four |
| DesSpec.SBoxBitBijective | src/des/des.c:23 | `SBOXBIT` is a bijection of 0..63 onto 0..63, with an explicit inverse in both directions |
| DesSpec.SBoxesShape | src/des/des.c:26-80 | the eight S-box tables, 4 rows of 16 entries each |
| DesSpec.SBox | src/des/des.c:26-80 | the flat lookup `sboxN[SBOXBIT(a)]` is below 16 and is the entry at row and column of the FIPS 46-3 table |
| DesSpec.IPBijective | src/des/des.c:83-102 | `IP` is a bit permutation: with the explicit inverse it is invertible on both sides |
| DesSpec.IPInjective | src/des/des.c:83-102 | distinct input blocks give distinct states |
| DesSpec.InvIPBits | src/des/des.c:105-114 | `out[1..7]` are 0; `out[0]` depends only on bits 7/15/23/31 of each half, and equals byte 0 of the true inverse of `IP` |
| Des.InvIPOut | src/des/des.c:105-114 | the zeroing loop and the `out[0]` assignment write exactly that 8-byte block |
| DesSpec.ExpansionIsFips | src/des/des.c:122-133 | the six bytes built from `t1`, `t2` split into eight 6-bit groups that equal the FIPS 46-3 E-table groups |
| DesSpec.GroupMixKey | src/des/des.c:135 | xor-ing the key bytes xors each 6-bit group with the key's group |
| Des.MixKeyInto | src/des/des.c:135 | the loop sets `e[i] ^= key[i]` for each of the six bytes |
| DesSpec.Pack | src/des/des.c:137-147 | packing eight S-box outputs puts output `i` in nibble `i`, sbox1 highest |
| DesSpec.RoundFNibbles | src/des/des.c:117-148 | nibble `i` of `f(state, key)` is `S_i(E_i(state) xor K_i)`, with no P permutation |
| Des.F | src/des/des.c:117-148 | the routine with its local `e[6]` and in-place key mix returns that value |
| DesSpec.NetworkLast | src/des/des.c:169-174 | the network is the fifteen swapping rounds followed by the non-swapping last round |
| DesSpec.LastRoundInvolution | src/des/des.c:174 | the non-swapping last round undoes itself under the same subkey |
| DesSpec.ReversedRounds | src/des/des.c:169-174 | running the reversed subkeys over the network's output retraces its intermediate states |
| DesSpec.NetworkInvolution | src/des/des.c:169-174 | for ANY round function, the network run with the subkeys reversed inverts the network |
| Des.SwapRoundStep | src/des/des.c:170-172 | `t = state[1]; state[1] = f(state[1], k) ^ state[0]; state[0] = t` is one swapping round |
| Des.LastRoundStep | src/des/des.c:174 | `state[0] = f(state[1], k) ^ state[0]` is the last round |
| Des.FeistelRounds | src/des/des.c:169-174 | the loop plus the last round compute the network on `(state[0], state[1])` |
| DesSpec.ShiftsFullTurn | src/des/des.c:154 | the shift table has 16 entries summing to 28 |
| DesSpec.RotateHalfZero | src/des/des.c:157-158 | rotating a zero half gives zero, so `C` and `D` stay 0 |
| DesSpec.RoundIndexBijective | src/des/des.c:159 | `idx = mode == DES_DECRYPT ? 15 - i : i` is a self-inverse bijection of 0..15 |
| DesSpec.KeyScheduleZero | src/des/des.c:153-161 | every byte of every subkey is 0, whatever the key and mode, so all schedules are equal |
| DesSpec.DecryptScheduleReversed | src/des/des.c:159 | the decrypt schedule is the encrypt schedule reversed |
| Des.KeySetup | src/des/des.c:151-162 | the loop writes each of the 16 schedule rows, all zero |
| DesSpec.FeistelRoundTrip | src/des/des.c:151-174 | the Feistel core under the decrypt schedule inverts it under the encrypt schedule |
| Des.Crypt | src/des/des.c:165-176 | `IP`, network, `InvIP`; the input is read in full before `out` is written, so they may be one array |
| DesSpec.CryptOutputZero | src/des/des.c:165-176 | every `des_crypt` output has bytes 1..7 equal to 0 |
| DesSpec.CryptIgnoresKey | src/des/des.c:151-176 | the output does not depend on the key or the mode |
| DesSpec.TestRoundTripFails | src/test/des_test.c:18-29 | for the test plaintext and key, decrypt-after-encrypt differs from the plaintext, so the test's `memcmp` fails |
| Des.TripleKeySetup | src/des/des.c:179-184 | schedule 0 from key bytes 0..7 in `mode`, 1 from bytes 8..15 in the flipped mode, 2 from bytes 16..23 in `mode` |
| Des.TripleCrypt | src/des/des.c:186-191 | the output is `des_crypt(des_crypt(des_crypt(in, k0), k1), k2)`, the last two passes in place |
| Rsa.Gcd | src/rsa/rsa.c:6-13 | for `a, b >= 0` the loop ends and returns Euclid's `Gcd(a, b)`, which divides both and is their greatest common divisor |
| RsaSpec.GcdIsGreatest | src/rsa/rsa.c:6-13 | `Gcd(a, b)` divides `a` and `b`, and every common divisor is at most `Gcd(a, b)` |
| RsaSpec.GcdSymmetric | src/rsa/rsa.c:6-13 | `Gcd(a, b) == Gcd(b, a)` |
| RsaSpec.InverseNeedsCoprime | src/rsa/rsa.c:28 | if `e*d ≡ 1 (mod phi)` then `gcd(e, phi) = 1`, so returning -1 for other `e` loses no inverse |
| RsaSpec.EuclidStart | src/rsa/rsa.c:17-18 | the initial `t, newt, r, newr` satisfy the loop invariant |
| RsaSpec.EuclidStep | src/rsa/rsa.c:20-26 | one iteration keeps `t*e ≡ r`, `newt*e ≡ newr (mod phi)`, the gcd of the remainders, and bounds that keep every product inside `long` |
| RsaSpec.InverseFromEuclid | src/rsa/rsa.c:28-30 | when the loop ends with `r = 1`, `t` (plus `phi` if negative) lies in `(0, phi)` and is the inverse of `e` |
| Rsa.ModInv | src/rsa/rsa.c:16-31 | for `phi > 1, e > 0` it returns -1 exactly when `gcd(e, phi) != 1`, and otherwise `d` with `0 < d < phi` and `e*d mod phi = 1` |
| RsaSpec.ModPow | src/rsa/rsa.c:34-43 | the value `mod_exp` returns: 1 for any `exp <= 0` (the loop does not run), `base^exp mod m` for `exp >= 0` and `m >= 2`, and 0 for `exp > 0` and `m = 1` |
| RsaSpec.PowMod | src/rsa/rsa.c:36 | reducing the base first does not change `base^n mod m` |
| RsaSpec.SquareStep | src/rsa/rsa.c:39-40 | for an even exponent, squaring the base and halving the exponent keeps `result * base^exp mod m` |
| RsaSpec.MultiplyStep | src/rsa/rsa.c:38-40 | for an odd exponent, multiplying into `result`, squaring and halving keeps that value |
| Rsa.ModExp | src/rsa/rsa.c:34-43 | for any exponent the square-and-multiply loop returns `ModPow`: 1 when `exp <= 0`, `base^exp mod mod` when `exp >= 0` and `mod >= 2`, and 0 when `exp > 0` and `mod = 1` |
| RsaSpec.ChosenExponentLeast | src/rsa/rsa.c:52-55 | the searched `e` is odd and at least 3; every smaller odd candidate shares a factor with `phi`; an `e` below `phi` is coprime to it |
| Rsa.GenerateKeys | src/rsa/rsa.c:46-64 | returns 0 and leaves the key when `p == q` or the chosen `e` has no inverse; otherwise 1, with `n = p*q`, `e` odd and at least 3, `gcd(e, phi) = 1`, `0 < d < phi` and `e*d ≡ 1 (mod phi)` |
| RsaSpec.DigitOfBigEndian | src/rsa/rsa.c:67-82 | byte `k` from the right of a big-endian number is `s[|s|-1-k]` |
| RsaSpec.BytesRoundTrip | src/rsa/rsa.c:66-82 | `long_to_str(str_to_long(s, len), len)` gives back `s[0..len)` |
| RsaSpec.NumberRoundTrip | src/rsa/rsa.c:66-82 | `str_to_long(long_to_str(num, len), len)` gives back `num` when `num < 256^len` |
| Rsa.ReadBigEndian | src/rsa/rsa.c:68-73 | the shift-and-or loop computes the big-endian value of `len` bytes (none when `len <= 0`) |
| Rsa.StrToLong | src/rsa/rsa.c:67-74 | returns the big-endian value of `str[0..len)` |
| Rsa.WriteBigEndian | src/rsa/rsa.c:78-81 | the backwards loop writes the low `len` bytes of `num` big-endian and no other element |
| Rsa.LongToStr | src/rsa/rsa.c:77-82 | `str[0..len)` receives the low `len` bytes of `num` big-endian; the rest is unchanged |
| Rsa.Encrypt | src/rsa/rsa.c:85-87 | for any exponent and any `n >= 1` returns what `mod_exp` gives, which is `msg^e mod n` when `e >= 0` and `n >= 2` |
| Rsa.Decrypt | src/rsa/rsa.c:90-92 | for any exponent and any `n >= 1` returns what `mod_exp` gives, which is `cipher^d mod n` when `d >= 0` and `n >= 2` |
| RsaSpec.BlockLayout | src/rsa/rsa.c:96-100 | `blocks = ceil(len/4)` is 0 only for the empty string; the last block has 1..4 bytes (`len mod 4`, or 4); the blocks cover exactly `len` bytes |
| Rsa.EncryptString | src/rsa/rsa.c:95-111 | `blocks = ceil(len/4)`, and `cipher[i]` is the big-endian value of block `i` raised to `e` mod `n`; the rest of `cipher` is unchanged |
| Rsa.DecryptString | src/rsa/rsa.c:114-125 | each decrypted block is unpacked big-endian at `4i` (the last one with `last_block_size` bytes); a NUL follows at `4(blocks-1) + last`; nothing after it changes |
| RsaSpec.UnpackBlock | src/rsa/rsa.c:116-122 | bytes `4i .. 4i + chunk` of the unpacked message are `vals[i]` written big-endian into `chunk` bytes, and they lie inside the message |
| RsaSpec.UnpackPacked | src/rsa/rsa.c:95-125 | unpacking the packed blocks with the encrypt side's last block size returns the message |
| RsaSpec.StringRoundTrip | src/rsa/rsa.c:95-125 | when every block decrypts to its original value, decrypting the encrypted blocks returns the message |

## Left out

- `src/aes/aes.c` is not part of this model. Its `encrypt` and `decrypt` only call libmcrypt, whose behaviour is not visible, and `display` is console output.
- `src/main.c`, the interactive menu, is not part of this model. It only reads input, prints, and calls the three libraries.
- SHA-256 is not part of this model. Only its header declares it, and no implementation exists.
- The `main` functions of the tests, their pass flags, and what they print are not modelled. `Sha1Vectors` models only the hashing calls of the first two SHA-1 tests.
- The third SHA-1 known answer of `src/test/sha1_test.c` (100000 updates of "aaaaaaaaaa") is not proved. Its 15626 compressions are too many to evaluate one round at a time within the verifier's resource budget. The first two known answers are proved in `Sha1Vectors`.
- Sha1.Sha1Ctx.Final: this requires `hash` to be a different array from the context's buffer. `sha1_final` reads only `ctx->state` while it writes `hash`, so C would allow the two to alias. That case is not modelled.
- Sha1.Sha1Ctx: the C caller passes the address of the input buffer. Here the input is a `seq` value, so an input that aliases the context's own buffer is not modelled.
- Des.TripleKeySetup: the code's single `schedule[3][16][6]` array is modelled as three distinct 16×6 tables.
- Des.Crypt: the schedule is only read, so it is passed as the sequence of sixteen subkeys it holds.
- DesSpec.SBox: the C shifts of `int`-promoted S-box values are modelled on 32-bit words. Every entry is below 16, so no bit is lost. A shift into bit 31 (`sbox1[..] << 28` in `f`, and `BITNUM(in,57,31)` in `IP`) is undefined behaviour for a signed `int` in C. The model takes the two's-complement bits that the usual compilers produce.
- Sha1Spec.ReadWord: the `data[j] << 24` of the schedule in `src/sha/sha1.c` shifts an `int`-promoted byte into bit 31, which is undefined behaviour in C for bytes of 0x80 and above. The model takes the two's-complement bits that the usual compilers produce.
- RSA `long` overflow is not modelled. Each method requires the range in which the C arithmetic stays within 64-bit signed values:
  - Rsa.ModInv: `phi, e <= LONG_MAX`.
  - Rsa.ModExp: `(mod - 1)^2 <= LONG_MAX`.
  - Rsa.GenerateKeys: `p*q <= LONG_MAX`.
- Rsa.GenerateKeys: requires `p, q >= 2`, as primes are. `Rsa.ModInv` is modelled only for `phi > 1`. With smaller arguments the C code still runs: `p = 1` gives `phi = 0`, and `modinv` returns -1, so the result is 0. `p = 0, q = 5` gives `phi = -4`, and the truncating division in `modinv` ends with `t = 1`, so the result is 1 with the degenerate key `n = 0, e = 3, d = 1`. Neither case is modelled.
- Rsa.ModExp, Rsa.Encrypt, Rsa.Decrypt, Rsa.EncryptString, Rsa.DecryptString: these require a modulus `n >= 1`. With `n = 0` the C `%` divides by zero. A negative `n` is not modelled: C `%` takes the sign of the dividend, so residues would not lie in `[0, n)`.
- Rsa.ModExp, Rsa.Encrypt, Rsa.Decrypt, Rsa.DecryptString: these require a non-negative base, which for DecryptString means non-negative cipher blocks. C `%` truncates toward zero, so a negative base would yield negative residues, which are not modelled. Rsa.EncryptString always has a non-negative base, since its blocks are packed from unsigned bytes.
- RsaSpec.StringRoundTrip: RSA correctness, `(m^e)^d ≡ m (mod n)`, is not proved. The round trip is stated under the hypothesis that every block decrypts to its original value.
- Rsa.ReadBigEndian, Rsa.StrToLong: these require `len <= 7`, so that the accumulated value stays inside `long`. The code comments say it is used with at most 4 bytes.
- Rsa.GenerateKeys: the `RSAKey *key` out-parameter is modelled as a returned key value. On failure, that value is the unchanged input key.
- Rsa.EncryptString: the message is the sequence of bytes before its NUL terminator, taken as unsigned. `strlen` is its length, and it must fit an `int` with room for `len + 3`.
- Rsa.DecryptString: this requires `0 <= last_block_size <= 4` and a `msg` array large enough for the NUL. Other values are not modelled:
  - A negative value makes the last block write nothing, and the NUL at `4*blocks - (4 - last_block_size)` then overwrites a byte of an earlier block, or lands before `msg` when `blocks = 1`.
  - A value above 4 makes the last block write past `4*blocks`.
- Rsa.DecryptString, Rsa.LongToStr: their `char` stores of `& 0xFF` values are modelled as unsigned bytes.
