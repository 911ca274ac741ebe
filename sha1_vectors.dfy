/**
  * The first two known answers of the SHA-1 test program: SHA-1 of "abc" (one block) and
  * of the 56-byte string "abcdbcdecdef...nopq" (two blocks), proved on the reference
  * function `Sha1Spec.Sha1` and, through the context object `Sha1.Sha1Ctx`, on the init /
  * update / final sequence the test runs; and the digest of the empty message. Each compression is evaluated one step at a time: every
  * schedule word and the working variables after every round are written out, and
  * `ScheduleAt` and `RoundAt` check each of them from the ones before, so no proof step
  * does more than one round of 32-bit arithmetic on known words.
  */
module Sha1Vectors {
  import opened Sha1Spec
  import Engine = Sha1

  /** "abc" */
  const ABC: seq<Byte> := [0x61, 0x62, 0x63]

  /** "abcdbcdecdefdefgefghfghighijhijkijkljklmklmnlmnomnopnopq": the fourteen runs of four
      consecutive letters "abcd", "bcde", ..., "nopq". */
  const ABCDB: seq<Byte> :=
    [0x61, 0x62, 0x63, 0x64] + [0x62, 0x63, 0x64, 0x65] + [0x63, 0x64, 0x65, 0x66]
    + [0x64, 0x65, 0x66, 0x67] + [0x65, 0x66, 0x67, 0x68] + [0x66, 0x67, 0x68, 0x69]
    + [0x67, 0x68, 0x69, 0x6a] + [0x68, 0x69, 0x6a, 0x6b] + [0x69, 0x6a, 0x6b, 0x6c]
    + [0x6a, 0x6b, 0x6c, 0x6d] + [0x6b, 0x6c, 0x6d, 0x6e] + [0x6c, 0x6d, 0x6e, 0x6f]
    + [0x6d, 0x6e, 0x6f, 0x70] + [0x6e, 0x6f, 0x70, 0x71]

  /** One schedule word from the four earlier words it depends on. */
  lemma ScheduleAt(m: seq<Word>, i: nat, w3: Word, w8: Word, w14: Word, w16: Word)
    requires |m| == 80 && 16 <= i < 80 && Recurrence(m, i)
    requires m[i - 3] == w3 && m[i - 8] == w8 && m[i - 14] == w14 && m[i - 16] == w16
    ensures m[i] == ScheduleWord(w3, w8, w14, w16)
  {
  }

  /** One round from known working variables and a known schedule word. */
  lemma RoundAt(v0: Vars, m: seq<Word>, i: nat, a: Word, b: Word, c: Word, d: Word, e: Word, mt: Word)
    requires |m| == 80 && i < 80 && Rounds(v0, K, m, i) == Vars(a, b, c, d, e) && m[i] == mt
    ensures Rounds(v0, K, m, i + 1) == Vars(RoundTemp(a, RoundFunction(i, b, c, d), e, K[i / 20], mt), a, RotLeft(b, 30), c, d)
  {
  }

  /** Dividing a number below 2^16 by 2^16 or more leaves nothing. */
  lemma DivSmall(n: nat, d: nat)
    requires n < 0x1_0000 <= d
    ensures n / d == 0
  {
  }

  /** A bit length below 2^16 has six zero bytes in front. */
  lemma LengthBytesSmall(n: nat)
    requires n < 0x1_0000
    ensures LengthBytes(n) == [0, 0, 0, 0, 0, 0, (n / 0x100) as Byte, (n % 0x100) as Byte]
  {
    DivSmall(n, 0x100_0000_0000_0000);
    DivSmall(n, 0x1_0000_0000_0000);
    DivSmall(n, 0x100_0000_0000);
    DivSmall(n, 0x1_0000_0000);
    DivSmall(n, 0x100_0000);
    DivSmall(n, 0x1_0000);
    assert (n / 0x100) % 0x100 == n / 0x100;
  }

  // ---------------------------------------------------------------------------
  // SHA-1("abc"): one block
  // ---------------------------------------------------------------------------

  /** Big-endian words 0..3 of the padded "abc". */
  lemma AbcWords4(block: seq<Byte>)
    requires block == ABC + [0x80] + Zeros(52) + [0, 0, 0, 0, 0, 0, 0, 0x18]
    ensures |block| == 64
    ensures ReadWord(block, 0) == 0x61626380 && ReadWord(block, 4) == 0x00000000 && ReadWord(block, 8) == 0x00000000 && ReadWord(block, 12) == 0x00000000
  {
  }

  /** Big-endian words 4..7 of the padded "abc". */
  lemma AbcWords8(block: seq<Byte>)
    requires block == ABC + [0x80] + Zeros(52) + [0, 0, 0, 0, 0, 0, 0, 0x18]
    ensures |block| == 64
    ensures ReadWord(block, 16) == 0x00000000 && ReadWord(block, 20) == 0x00000000 && ReadWord(block, 24) == 0x00000000 && ReadWord(block, 28) == 0x00000000
  {
  }

  /** Big-endian words 8..11 of the padded "abc". */
  lemma AbcWords12(block: seq<Byte>)
    requires block == ABC + [0x80] + Zeros(52) + [0, 0, 0, 0, 0, 0, 0, 0x18]
    ensures |block| == 64
    ensures ReadWord(block, 32) == 0x00000000 && ReadWord(block, 36) == 0x00000000 && ReadWord(block, 40) == 0x00000000 && ReadWord(block, 44) == 0x00000000
  {
  }

  /** Big-endian words 12..15 of the padded "abc". */
  lemma AbcWords16(block: seq<Byte>)
    requires block == ABC + [0x80] + Zeros(52) + [0, 0, 0, 0, 0, 0, 0, 0x18]
    ensures |block| == 64
    ensures ReadWord(block, 48) == 0x00000000 && ReadWord(block, 52) == 0x00000000 && ReadWord(block, 56) == 0x00000000 && ReadWord(block, 60) == 0x00000018
  {
  }

  /** Schedule words 16..31 of the padded "abc". */
  lemma AbcSchedule32(m: seq<Word>)
    requires |m| == 80 && forall i :: 16 <= i < 80 ==> Recurrence(m, i)
    requires m[0] == 0x61626380 && m[1] == 0x00000000 && m[2] == 0x00000000 && m[3] == 0x00000000
    requires m[4] == 0x00000000 && m[5] == 0x00000000 && m[6] == 0x00000000 && m[7] == 0x00000000
    requires m[8] == 0x00000000 && m[9] == 0x00000000 && m[10] == 0x00000000 && m[11] == 0x00000000
    requires m[12] == 0x00000000 && m[13] == 0x00000000 && m[14] == 0x00000000 && m[15] == 0x00000018
    ensures m[16] == 0xC2C4C700 && m[17] == 0x00000000 && m[18] == 0x00000030 && m[19] == 0x85898E01
    ensures m[20] == 0x00000000 && m[21] == 0x00000060 && m[22] == 0x0B131C03 && m[23] == 0x00000030
    ensures m[24] == 0x85898EC1 && m[25] == 0x16263806 && m[26] == 0x00000000 && m[27] == 0x00000180
    ensures m[28] == 0x2C4C700C && m[29] == 0x000000F0 && m[30] == 0x93AFB507 && m[31] == 0x5898E048
  {
    ScheduleAt(m, 16, 0x00000000, 0x00000000, 0x00000000, 0x61626380);
    ScheduleAt(m, 17, 0x00000000, 0x00000000, 0x00000000, 0x00000000);
    ScheduleAt(m, 18, 0x00000018, 0x00000000, 0x00000000, 0x00000000);
    ScheduleAt(m, 19, 0xC2C4C700, 0x00000000, 0x00000000, 0x00000000);
    ScheduleAt(m, 20, 0x00000000, 0x00000000, 0x00000000, 0x00000000);
    ScheduleAt(m, 21, 0x00000030, 0x00000000, 0x00000000, 0x00000000);
    ScheduleAt(m, 22, 0x85898E01, 0x00000000, 0x00000000, 0x00000000);
    ScheduleAt(m, 23, 0x00000000, 0x00000018, 0x00000000, 0x00000000);
    ScheduleAt(m, 24, 0x00000060, 0xC2C4C700, 0x00000000, 0x00000000);
    ScheduleAt(m, 25, 0x0B131C03, 0x00000000, 0x00000000, 0x00000000);
    ScheduleAt(m, 26, 0x00000030, 0x00000030, 0x00000000, 0x00000000);
    ScheduleAt(m, 27, 0x85898EC1, 0x85898E01, 0x00000000, 0x00000000);
    ScheduleAt(m, 28, 0x16263806, 0x00000000, 0x00000000, 0x00000000);
    ScheduleAt(m, 29, 0x00000000, 0x00000060, 0x00000018, 0x00000000);
    ScheduleAt(m, 30, 0x00000180, 0x0B131C03, 0xC2C4C700, 0x00000000);
    ScheduleAt(m, 31, 0x2C4C700C, 0x00000030, 0x00000000, 0x00000018);
  }

  /** Schedule words 32..47 of the padded "abc". */
  lemma AbcSchedule48(m: seq<Word>)
    requires |m| == 80 && forall i :: 16 <= i < 80 ==> Recurrence(m, i)
    requires m[16] == 0xC2C4C700 && m[17] == 0x00000000 && m[18] == 0x00000030 && m[19] == 0x85898E01
    requires m[20] == 0x00000000 && m[21] == 0x00000060 && m[22] == 0x0B131C03 && m[23] == 0x00000030
    requires m[24] == 0x85898EC1 && m[25] == 0x16263806 && m[26] == 0x00000000 && m[27] == 0x00000180
    requires m[28] == 0x2C4C700C && m[29] == 0x000000F0 && m[30] == 0x93AFB507 && m[31] == 0x5898E048
    ensures m[32] == 0x8E9A9202 && m[33] == 0x00000600 && m[34] == 0xB131C0F0 && m[35] == 0x16263BC6
    ensures m[36] == 0x4EBED41E && m[37] == 0x626380A1 && m[38] == 0x16263806 && m[39] == 0x000018C0
    ensures m[40] == 0xD2E138C4 && m[41] == 0x00000F00 && m[42] == 0x3AFB5079 && m[43] == 0x898E04E5
    ensures m[44] == 0xE2BA3C2B && m[45] == 0x000060C0 && m[46] == 0x053A37CD && m[47] == 0x74458547
  {
    ScheduleAt(m, 32, 0x000000F0, 0x85898EC1, 0x00000030, 0xC2C4C700);
    ScheduleAt(m, 33, 0x93AFB507, 0x16263806, 0x85898E01, 0x00000000);
    ScheduleAt(m, 34, 0x5898E048, 0x00000000, 0x00000000, 0x00000030);
    ScheduleAt(m, 35, 0x8E9A9202, 0x00000180, 0x00000060, 0x85898E01);
    ScheduleAt(m, 36, 0x00000600, 0x2C4C700C, 0x0B131C03, 0x00000000);
    ScheduleAt(m, 37, 0xB131C0F0, 0x000000F0, 0x00000030, 0x00000060);
    ScheduleAt(m, 38, 0x16263BC6, 0x93AFB507, 0x85898EC1, 0x0B131C03);
    ScheduleAt(m, 39, 0x4EBED41E, 0x5898E048, 0x16263806, 0x00000030);
    ScheduleAt(m, 40, 0x626380A1, 0x8E9A9202, 0x00000000, 0x85898EC1);
    ScheduleAt(m, 41, 0x16263806, 0x00000600, 0x00000180, 0x16263806);
    ScheduleAt(m, 42, 0x000018C0, 0xB131C0F0, 0x2C4C700C, 0x00000000);
    ScheduleAt(m, 43, 0xD2E138C4, 0x16263BC6, 0x000000F0, 0x00000180);
    ScheduleAt(m, 44, 0x00000F00, 0x4EBED41E, 0x93AFB507, 0x2C4C700C);
    ScheduleAt(m, 45, 0x3AFB5079, 0x626380A1, 0x5898E048, 0x000000F0);
    ScheduleAt(m, 46, 0x898E04E5, 0x16263806, 0x8E9A9202, 0x93AFB507);
    ScheduleAt(m, 47, 0xE2BA3C2B, 0x000018C0, 0x00000600, 0x5898E048);
  }

  /** Schedule words 48..63 of the padded "abc". */
  lemma AbcSchedule64(m: seq<Word>)
    requires |m| == 80 && forall i :: 16 <= i < 80 ==> Recurrence(m, i)
    requires m[32] == 0x8E9A9202 && m[33] == 0x00000600 && m[34] == 0xB131C0F0 && m[35] == 0x16263BC6
    requires m[36] == 0x4EBED41E && m[37] == 0x626380A1 && m[38] == 0x16263806 && m[39] == 0x000018C0
    requires m[40] == 0xD2E138C4 && m[41] == 0x00000F00 && m[42] == 0x3AFB5079 && m[43] == 0x898E04E5
    requires m[44] == 0xE2BA3C2B && m[45] == 0x000060C0 && m[46] == 0x053A37CD && m[47] == 0x74458547
    ensures m[48] == 0xDA9415ED && m[49] == 0x26380A16 && m[50] == 0x626383A1 && m[51] == 0x4EBF54DE
    ensures m[52] == 0x3835B44B && m[53] == 0x0000F600 && m[54] == 0x1E84C7A3 && m[55] == 0x98E04D98
    ensures m[56] == 0x651D16A0 && m[57] == 0x62658CA1 && m[58] == 0x458544D6 && m[59] == 0x44584CB7
    ensures m[60] == 0x7BA06619 && m[61] == 0x6380AEA2 && m[62] == 0x0AE55269 && m[63] == 0x627B49A1
  {
    ScheduleAt(m, 48, 0x000060C0, 0xD2E138C4, 0xB131C0F0, 0x8E9A9202);
    ScheduleAt(m, 49, 0x053A37CD, 0x00000F00, 0x16263BC6, 0x00000600);
    ScheduleAt(m, 50, 0x74458547, 0x3AFB5079, 0x4EBED41E, 0xB131C0F0);
    ScheduleAt(m, 51, 0xDA9415ED, 0x898E04E5, 0x626380A1, 0x16263BC6);
    ScheduleAt(m, 52, 0x26380A16, 0xE2BA3C2B, 0x16263806, 0x4EBED41E);
    ScheduleAt(m, 53, 0x626383A1, 0x000060C0, 0x000018C0, 0x626380A1);
    ScheduleAt(m, 54, 0x4EBF54DE, 0x053A37CD, 0xD2E138C4, 0x16263806);
    ScheduleAt(m, 55, 0x3835B44B, 0x74458547, 0x00000F00, 0x000018C0);
    ScheduleAt(m, 56, 0x0000F600, 0xDA9415ED, 0x3AFB5079, 0xD2E138C4);
    ScheduleAt(m, 57, 0x1E84C7A3, 0x26380A16, 0x898E04E5, 0x00000F00);
    ScheduleAt(m, 58, 0x98E04D98, 0x626383A1, 0xE2BA3C2B, 0x3AFB5079);
    ScheduleAt(m, 59, 0x651D16A0, 0x4EBF54DE, 0x000060C0, 0x898E04E5);
    ScheduleAt(m, 60, 0x62658CA1, 0x3835B44B, 0x053A37CD, 0xE2BA3C2B);
    ScheduleAt(m, 61, 0x458544D6, 0x0000F600, 0x74458547, 0x000060C0);
    ScheduleAt(m, 62, 0x44584CB7, 0x1E84C7A3, 0xDA9415ED, 0x053A37CD);
    ScheduleAt(m, 63, 0x7BA06619, 0x98E04D98, 0x26380A16, 0x74458547);
  }

  /** Schedule words 64..79 of the padded "abc". */
  lemma AbcSchedule80(m: seq<Word>)
    requires |m| == 80 && forall i :: 16 <= i < 80 ==> Recurrence(m, i)
    requires m[48] == 0xDA9415ED && m[49] == 0x26380A16 && m[50] == 0x626383A1 && m[51] == 0x4EBF54DE
    requires m[52] == 0x3835B44B && m[53] == 0x0000F600 && m[54] == 0x1E84C7A3 && m[55] == 0x98E04D98
    requires m[56] == 0x651D16A0 && m[57] == 0x62658CA1 && m[58] == 0x458544D6 && m[59] == 0x44584CB7
    requires m[60] == 0x7BA06619 && m[61] == 0x6380AEA2 && m[62] == 0x0AE55269 && m[63] == 0x627B49A1
    ensures m[64] == 0x7CD45C9D && m[65] == 0x000F0000 && m[66] == 0xFB50753A && m[67] == 0xEC6765E8
    ensures m[68] == 0xBA3C2BE2 && m[69] == 0x0060C000 && m[70] == 0x3A37CD05 && m[71] == 0x458546F4
    ensures m[72] == 0xB8599DD6 && m[73] == 0x380A1A26 && m[74] == 0x01E02203 && m[75] == 0xE7CC3456
    ensures m[76] == 0xE6E60B69 && m[77] == 0x00F60A00 && m[78] == 0x5795EF4F && m[79] == 0x822E0879
  {
    ScheduleAt(m, 64, 0x6380AEA2, 0x651D16A0, 0x626383A1, 0xDA9415ED);
    ScheduleAt(m, 65, 0x0AE55269, 0x62658CA1, 0x4EBF54DE, 0x26380A16);
    ScheduleAt(m, 66, 0x627B49A1, 0x458544D6, 0x3835B44B, 0x626383A1);
    ScheduleAt(m, 67, 0x7CD45C9D, 0x44584CB7, 0x0000F600, 0x4EBF54DE);
    ScheduleAt(m, 68, 0x000F0000, 0x7BA06619, 0x1E84C7A3, 0x3835B44B);
    ScheduleAt(m, 69, 0xFB50753A, 0x6380AEA2, 0x98E04D98, 0x0000F600);
    ScheduleAt(m, 70, 0xEC6765E8, 0x0AE55269, 0x651D16A0, 0x1E84C7A3);
    ScheduleAt(m, 71, 0xBA3C2BE2, 0x627B49A1, 0x62658CA1, 0x98E04D98);
    ScheduleAt(m, 72, 0x0060C000, 0x7CD45C9D, 0x458544D6, 0x651D16A0);
    ScheduleAt(m, 73, 0x3A37CD05, 0x000F0000, 0x44584CB7, 0x62658CA1);
    ScheduleAt(m, 74, 0x458546F4, 0xFB50753A, 0x7BA06619, 0x458544D6);
    ScheduleAt(m, 75, 0xB8599DD6, 0xEC6765E8, 0x6380AEA2, 0x44584CB7);
    ScheduleAt(m, 76, 0x380A1A26, 0xBA3C2BE2, 0x0AE55269, 0x7BA06619);
    ScheduleAt(m, 77, 0x01E02203, 0x0060C000, 0x627B49A1, 0x6380AEA2);
    ScheduleAt(m, 78, 0xE7CC3456, 0x3A37CD05, 0x7CD45C9D, 0x0AE55269);
    ScheduleAt(m, 79, 0xE6E60B69, 0x458546F4, 0x000F0000, 0x627B49A1);
  }

  /** Rounds 0..19 of the padded "abc". */
  lemma AbcRounds20(v0: Vars, m: seq<Word>)
    requires |m| == 80 && Rounds(v0, K, m, 0) == Vars(0x67452301, 0xEFCDAB89, 0x98BADCFE, 0x10325476, 0xC3D2E1F0)
    requires m[0] == 0x61626380 && m[1] == 0x00000000 && m[2] == 0x00000000 && m[3] == 0x00000000
    requires m[4] == 0x00000000 && m[5] == 0x00000000 && m[6] == 0x00000000 && m[7] == 0x00000000
    requires m[8] == 0x00000000 && m[9] == 0x00000000 && m[10] == 0x00000000 && m[11] == 0x00000000
    requires m[12] == 0x00000000 && m[13] == 0x00000000 && m[14] == 0x00000000 && m[15] == 0x00000018
    requires m[16] == 0xC2C4C700 && m[17] == 0x00000000 && m[18] == 0x00000030 && m[19] == 0x85898E01
    ensures Rounds(v0, K, m, 20) == Vars(0xFD9E1D7D, 0xDC64901D, 0x20AA99CA, 0xD3A49608, 0xC82F758B)
  {
    RoundAt(v0, m, 0, 0x67452301, 0xEFCDAB89, 0x98BADCFE, 0x10325476, 0xC3D2E1F0, 0x61626380);
    assert Rounds(v0, K, m, 1) == Vars(0x0116FC33, 0x67452301, 0x7BF36AE2, 0x98BADCFE, 0x10325476);
    RoundAt(v0, m, 1, 0x0116FC33, 0x67452301, 0x7BF36AE2, 0x98BADCFE, 0x10325476, 0x00000000);
    assert Rounds(v0, K, m, 2) == Vars(0x8990536D, 0x0116FC33, 0x59D148C0, 0x7BF36AE2, 0x98BADCFE);
    RoundAt(v0, m, 2, 0x8990536D, 0x0116FC33, 0x59D148C0, 0x7BF36AE2, 0x98BADCFE, 0x00000000);
    assert Rounds(v0, K, m, 3) == Vars(0xA1390F08, 0x8990536D, 0xC045BF0C, 0x59D148C0, 0x7BF36AE2);
    RoundAt(v0, m, 3, 0xA1390F08, 0x8990536D, 0xC045BF0C, 0x59D148C0, 0x7BF36AE2, 0x00000000);
    assert Rounds(v0, K, m, 4) == Vars(0xCDD8E11B, 0xA1390F08, 0x626414DB, 0xC045BF0C, 0x59D148C0);
    RoundAt(v0, m, 4, 0xCDD8E11B, 0xA1390F08, 0x626414DB, 0xC045BF0C, 0x59D148C0, 0x00000000);
    assert Rounds(v0, K, m, 5) == Vars(0xCFD499DE, 0xCDD8E11B, 0x284E43C2, 0x626414DB, 0xC045BF0C);
    RoundAt(v0, m, 5, 0xCFD499DE, 0xCDD8E11B, 0x284E43C2, 0x626414DB, 0xC045BF0C, 0x00000000);
    assert Rounds(v0, K, m, 6) == Vars(0x3FC7CA40, 0xCFD499DE, 0xF3763846, 0x284E43C2, 0x626414DB);
    RoundAt(v0, m, 6, 0x3FC7CA40, 0xCFD499DE, 0xF3763846, 0x284E43C2, 0x626414DB, 0x00000000);
    assert Rounds(v0, K, m, 7) == Vars(0x993E30C1, 0x3FC7CA40, 0xB3F52677, 0xF3763846, 0x284E43C2);
    RoundAt(v0, m, 7, 0x993E30C1, 0x3FC7CA40, 0xB3F52677, 0xF3763846, 0x284E43C2, 0x00000000);
    assert Rounds(v0, K, m, 8) == Vars(0x9E8C07D4, 0x993E30C1, 0x0FF1F290, 0xB3F52677, 0xF3763846);
    RoundAt(v0, m, 8, 0x9E8C07D4, 0x993E30C1, 0x0FF1F290, 0xB3F52677, 0xF3763846, 0x00000000);
    assert Rounds(v0, K, m, 9) == Vars(0x4B6AE328, 0x9E8C07D4, 0x664F8C30, 0x0FF1F290, 0xB3F52677);
    RoundAt(v0, m, 9, 0x4B6AE328, 0x9E8C07D4, 0x664F8C30, 0x0FF1F290, 0xB3F52677, 0x00000000);
    assert Rounds(v0, K, m, 10) == Vars(0x8351F929, 0x4B6AE328, 0x27A301F5, 0x664F8C30, 0x0FF1F290);
    RoundAt(v0, m, 10, 0x8351F929, 0x4B6AE328, 0x27A301F5, 0x664F8C30, 0x0FF1F290, 0x00000000);
    assert Rounds(v0, K, m, 11) == Vars(0xFBDA9E89, 0x8351F929, 0x12DAB8CA, 0x27A301F5, 0x664F8C30);
    RoundAt(v0, m, 11, 0xFBDA9E89, 0x8351F929, 0x12DAB8CA, 0x27A301F5, 0x664F8C30, 0x00000000);
    assert Rounds(v0, K, m, 12) == Vars(0x63188FE4, 0xFBDA9E89, 0x60D47E4A, 0x12DAB8CA, 0x27A301F5);
    RoundAt(v0, m, 12, 0x63188FE4, 0xFBDA9E89, 0x60D47E4A, 0x12DAB8CA, 0x27A301F5, 0x00000000);
    assert Rounds(v0, K, m, 13) == Vars(0x4607B664, 0x63188FE4, 0x7EF6A7A2, 0x60D47E4A, 0x12DAB8CA);
    RoundAt(v0, m, 13, 0x4607B664, 0x63188FE4, 0x7EF6A7A2, 0x60D47E4A, 0x12DAB8CA, 0x00000000);
    assert Rounds(v0, K, m, 14) == Vars(0x9128F695, 0x4607B664, 0x18C623F9, 0x7EF6A7A2, 0x60D47E4A);
    RoundAt(v0, m, 14, 0x9128F695, 0x4607B664, 0x18C623F9, 0x7EF6A7A2, 0x60D47E4A, 0x00000000);
    assert Rounds(v0, K, m, 15) == Vars(0x196BEE77, 0x9128F695, 0x1181ED99, 0x18C623F9, 0x7EF6A7A2);
    RoundAt(v0, m, 15, 0x196BEE77, 0x9128F695, 0x1181ED99, 0x18C623F9, 0x7EF6A7A2, 0x00000018);
    assert Rounds(v0, K, m, 16) == Vars(0x20BDD62F, 0x196BEE77, 0x644A3DA5, 0x1181ED99, 0x18C623F9);
    RoundAt(v0, m, 16, 0x20BDD62F, 0x196BEE77, 0x644A3DA5, 0x1181ED99, 0x18C623F9, 0xC2C4C700);
    assert Rounds(v0, K, m, 17) == Vars(0x4E925823, 0x20BDD62F, 0xC65AFB9D, 0x644A3DA5, 0x1181ED99);
    RoundAt(v0, m, 17, 0x4E925823, 0x20BDD62F, 0xC65AFB9D, 0x644A3DA5, 0x1181ED99, 0x00000000);
    assert Rounds(v0, K, m, 18) == Vars(0x82AA6728, 0x4E925823, 0xC82F758B, 0xC65AFB9D, 0x644A3DA5);
    RoundAt(v0, m, 18, 0x82AA6728, 0x4E925823, 0xC82F758B, 0xC65AFB9D, 0x644A3DA5, 0x00000030);
    assert Rounds(v0, K, m, 19) == Vars(0xDC64901D, 0x82AA6728, 0xD3A49608, 0xC82F758B, 0xC65AFB9D);
    RoundAt(v0, m, 19, 0xDC64901D, 0x82AA6728, 0xD3A49608, 0xC82F758B, 0xC65AFB9D, 0x85898E01);
    assert Rounds(v0, K, m, 20) == Vars(0xFD9E1D7D, 0xDC64901D, 0x20AA99CA, 0xD3A49608, 0xC82F758B);
  }

  /** Rounds 20..39 of the padded "abc". */
  lemma AbcRounds40(v0: Vars, m: seq<Word>)
    requires |m| == 80 && Rounds(v0, K, m, 20) == Vars(0xFD9E1D7D, 0xDC64901D, 0x20AA99CA, 0xD3A49608, 0xC82F758B)
    requires m[20] == 0x00000000 && m[21] == 0x00000060 && m[22] == 0x0B131C03 && m[23] == 0x00000030
    requires m[24] == 0x85898EC1 && m[25] == 0x16263806 && m[26] == 0x00000000 && m[27] == 0x00000180
    requires m[28] == 0x2C4C700C && m[29] == 0x000000F0 && m[30] == 0x93AFB507 && m[31] == 0x5898E048
    requires m[32] == 0x8E9A9202 && m[33] == 0x00000600 && m[34] == 0xB131C0F0 && m[35] == 0x16263BC6
    requires m[36] == 0x4EBED41E && m[37] == 0x626380A1 && m[38] == 0x16263806 && m[39] == 0x000018C0
    ensures Rounds(v0, K, m, 40) == Vars(0x32DE1CBA, 0x4C986405, 0xF718E5CF, 0x03D447F6, 0xF72EEC32)
  {
    RoundAt(v0, m, 20, 0xFD9E1D7D, 0xDC64901D, 0x20AA99CA, 0xD3A49608, 0xC82F758B, 0x00000000);
    assert Rounds(v0, K, m, 21) == Vars(0x1A37B0CA, 0xFD9E1D7D, 0x77192407, 0x20AA99CA, 0xD3A49608);
    RoundAt(v0, m, 21, 0x1A37B0CA, 0xFD9E1D7D, 0x77192407, 0x20AA99CA, 0xD3A49608, 0x00000060);
    assert Rounds(v0, K, m, 22) == Vars(0x33A23BFC, 0x1A37B0CA, 0x7F67875F, 0x77192407, 0x20AA99CA);
    RoundAt(v0, m, 22, 0x33A23BFC, 0x1A37B0CA, 0x7F67875F, 0x77192407, 0x20AA99CA, 0x0B131C03);
    assert Rounds(v0, K, m, 23) == Vars(0x21283486, 0x33A23BFC, 0x868DEC32, 0x7F67875F, 0x77192407);
    RoundAt(v0, m, 23, 0x21283486, 0x33A23BFC, 0x868DEC32, 0x7F67875F, 0x77192407, 0x00000030);
    assert Rounds(v0, K, m, 24) == Vars(0xD541F12D, 0x21283486, 0x0CE88EFF, 0x868DEC32, 0x7F67875F);
    RoundAt(v0, m, 24, 0xD541F12D, 0x21283486, 0x0CE88EFF, 0x868DEC32, 0x7F67875F, 0x85898EC1);
    assert Rounds(v0, K, m, 25) == Vars(0xC7567DC6, 0xD541F12D, 0x884A0D21, 0x0CE88EFF, 0x868DEC32);
    RoundAt(v0, m, 25, 0xC7567DC6, 0xD541F12D, 0x884A0D21, 0x0CE88EFF, 0x868DEC32, 0x16263806);
    assert Rounds(v0, K, m, 26) == Vars(0x48413BA4, 0xC7567DC6, 0x75507C4B, 0x884A0D21, 0x0CE88EFF);
    RoundAt(v0, m, 26, 0x48413BA4, 0xC7567DC6, 0x75507C4B, 0x884A0D21, 0x0CE88EFF, 0x00000000);
    assert Rounds(v0, K, m, 27) == Vars(0xBE35FBD5, 0x48413BA4, 0xB1D59F71, 0x75507C4B, 0x884A0D21);
    RoundAt(v0, m, 27, 0xBE35FBD5, 0x48413BA4, 0xB1D59F71, 0x75507C4B, 0x884A0D21, 0x00000180);
    assert Rounds(v0, K, m, 28) == Vars(0x4AA84D97, 0xBE35FBD5, 0x12104EE9, 0xB1D59F71, 0x75507C4B);
    RoundAt(v0, m, 28, 0x4AA84D97, 0xBE35FBD5, 0x12104EE9, 0xB1D59F71, 0x75507C4B, 0x2C4C700C);
    assert Rounds(v0, K, m, 29) == Vars(0x8370B52E, 0x4AA84D97, 0x6F8D7EF5, 0x12104EE9, 0xB1D59F71);
    RoundAt(v0, m, 29, 0x8370B52E, 0x4AA84D97, 0x6F8D7EF5, 0x12104EE9, 0xB1D59F71, 0x000000F0);
    assert Rounds(v0, K, m, 30) == Vars(0xC5FBAF5D, 0x8370B52E, 0xD2AA1365, 0x6F8D7EF5, 0x12104EE9);
    RoundAt(v0, m, 30, 0xC5FBAF5D, 0x8370B52E, 0xD2AA1365, 0x6F8D7EF5, 0x12104EE9, 0x93AFB507);
    assert Rounds(v0, K, m, 31) == Vars(0x1267B407, 0xC5FBAF5D, 0xA0DC2D4B, 0xD2AA1365, 0x6F8D7EF5);
    RoundAt(v0, m, 31, 0x1267B407, 0xC5FBAF5D, 0xA0DC2D4B, 0xD2AA1365, 0x6F8D7EF5, 0x5898E048);
    assert Rounds(v0, K, m, 32) == Vars(0x3B845D33, 0x1267B407, 0x717EEBD7, 0xA0DC2D4B, 0xD2AA1365);
    RoundAt(v0, m, 32, 0x3B845D33, 0x1267B407, 0x717EEBD7, 0xA0DC2D4B, 0xD2AA1365, 0x8E9A9202);
    assert Rounds(v0, K, m, 33) == Vars(0x046FAA0A, 0x3B845D33, 0xC499ED01, 0x717EEBD7, 0xA0DC2D4B);
    RoundAt(v0, m, 33, 0x046FAA0A, 0x3B845D33, 0xC499ED01, 0x717EEBD7, 0xA0DC2D4B, 0x00000600);
    assert Rounds(v0, K, m, 34) == Vars(0x2C0EBC11, 0x046FAA0A, 0xCEE1174C, 0xC499ED01, 0x717EEBD7);
    RoundAt(v0, m, 34, 0x2C0EBC11, 0x046FAA0A, 0xCEE1174C, 0xC499ED01, 0x717EEBD7, 0xB131C0F0);
    assert Rounds(v0, K, m, 35) == Vars(0x21796AD4, 0x2C0EBC11, 0x811BEA82, 0xCEE1174C, 0xC499ED01);
    RoundAt(v0, m, 35, 0x21796AD4, 0x2C0EBC11, 0x811BEA82, 0xCEE1174C, 0xC499ED01, 0x16263BC6);
    assert Rounds(v0, K, m, 36) == Vars(0xDCBBB0CB, 0x21796AD4, 0x4B03AF04, 0x811BEA82, 0xCEE1174C);
    RoundAt(v0, m, 36, 0xDCBBB0CB, 0x21796AD4, 0x4B03AF04, 0x811BEA82, 0xCEE1174C, 0x4EBED41E);
    assert Rounds(v0, K, m, 37) == Vars(0x0F511FD8, 0xDCBBB0CB, 0x085E5AB5, 0x4B03AF04, 0x811BEA82);
    RoundAt(v0, m, 37, 0x0F511FD8, 0xDCBBB0CB, 0x085E5AB5, 0x4B03AF04, 0x811BEA82, 0x626380A1);
    assert Rounds(v0, K, m, 38) == Vars(0xDC63973F, 0x0F511FD8, 0xF72EEC32, 0x085E5AB5, 0x4B03AF04);
    RoundAt(v0, m, 38, 0xDC63973F, 0x0F511FD8, 0xF72EEC32, 0x085E5AB5, 0x4B03AF04, 0x16263806);
    assert Rounds(v0, K, m, 39) == Vars(0x4C986405, 0xDC63973F, 0x03D447F6, 0xF72EEC32, 0x085E5AB5);
    RoundAt(v0, m, 39, 0x4C986405, 0xDC63973F, 0x03D447F6, 0xF72EEC32, 0x085E5AB5, 0x000018C0);
    assert Rounds(v0, K, m, 40) == Vars(0x32DE1CBA, 0x4C986405, 0xF718E5CF, 0x03D447F6, 0xF72EEC32);
  }

  /** Rounds 40..59 of the padded "abc". */
  lemma AbcRounds60(v0: Vars, m: seq<Word>)
    requires |m| == 80 && Rounds(v0, K, m, 40) == Vars(0x32DE1CBA, 0x4C986405, 0xF718E5CF, 0x03D447F6, 0xF72EEC32)
    requires m[40] == 0xD2E138C4 && m[41] == 0x00000F00 && m[42] == 0x3AFB5079 && m[43] == 0x898E04E5
    requires m[44] == 0xE2BA3C2B && m[45] == 0x000060C0 && m[46] == 0x053A37CD && m[47] == 0x74458547
    requires m[48] == 0xDA9415ED && m[49] == 0x26380A16 && m[50] == 0x626383A1 && m[51] == 0x4EBF54DE
    requires m[52] == 0x3835B44B && m[53] == 0x0000F600 && m[54] == 0x1E84C7A3 && m[55] == 0x98E04D98
    requires m[56] == 0x651D16A0 && m[57] == 0x62658CA1 && m[58] == 0x458544D6 && m[59] == 0x44584CB7
    ensures Rounds(v0, K, m, 60) == Vars(0x3F52DE5A, 0x09D785FD, 0x3498BFD4, 0xF211824F, 0xD79915AB)
  {
    RoundAt(v0, m, 40, 0x32DE1CBA, 0x4C986405, 0xF718E5CF, 0x03D447F6, 0xF72EEC32, 0xD2E138C4);
    assert Rounds(v0, K, m, 41) == Vars(0xFC87DEDF, 0x32DE1CBA, 0x53261901, 0xF718E5CF, 0x03D447F6);
    RoundAt(v0, m, 41, 0xFC87DEDF, 0x32DE1CBA, 0x53261901, 0xF718E5CF, 0x03D447F6, 0x00000F00);
    assert Rounds(v0, K, m, 42) == Vars(0x970A0D5C, 0xFC87DEDF, 0x8CB7872E, 0x53261901, 0xF718E5CF);
    RoundAt(v0, m, 42, 0x970A0D5C, 0xFC87DEDF, 0x8CB7872E, 0x53261901, 0xF718E5CF, 0x3AFB5079);
    assert Rounds(v0, K, m, 43) == Vars(0x7F193DC5, 0x970A0D5C, 0xFF21F7B7, 0x8CB7872E, 0x53261901);
    RoundAt(v0, m, 43, 0x7F193DC5, 0x970A0D5C, 0xFF21F7B7, 0x8CB7872E, 0x53261901, 0x898E04E5);
    assert Rounds(v0, K, m, 44) == Vars(0xEE1B1AAF, 0x7F193DC5, 0x25C28357, 0xFF21F7B7, 0x8CB7872E);
    RoundAt(v0, m, 44, 0xEE1B1AAF, 0x7F193DC5, 0x25C28357, 0xFF21F7B7, 0x8CB7872E, 0xE2BA3C2B);
    assert Rounds(v0, K, m, 45) == Vars(0x40F28E09, 0xEE1B1AAF, 0x5FC64F71, 0x25C28357, 0xFF21F7B7);
    RoundAt(v0, m, 45, 0x40F28E09, 0xEE1B1AAF, 0x5FC64F71, 0x25C28357, 0xFF21F7B7, 0x000060C0);
    assert Rounds(v0, K, m, 46) == Vars(0x1C51E1F2, 0x40F28E09, 0xFB86C6AB, 0x5FC64F71, 0x25C28357);
    RoundAt(v0, m, 46, 0x1C51E1F2, 0x40F28E09, 0xFB86C6AB, 0x5FC64F71, 0x25C28357, 0x053A37CD);
    assert Rounds(v0, K, m, 47) == Vars(0xA01B846C, 0x1C51E1F2, 0x503CA382, 0xFB86C6AB, 0x5FC64F71);
    RoundAt(v0, m, 47, 0xA01B846C, 0x1C51E1F2, 0x503CA382, 0xFB86C6AB, 0x5FC64F71, 0x74458547);
    assert Rounds(v0, K, m, 48) == Vars(0xBEAD02CA, 0xA01B846C, 0x8714787C, 0x503CA382, 0xFB86C6AB);
    RoundAt(v0, m, 48, 0xBEAD02CA, 0xA01B846C, 0x8714787C, 0x503CA382, 0xFB86C6AB, 0xDA9415ED);
    assert Rounds(v0, K, m, 49) == Vars(0xBAF39337, 0xBEAD02CA, 0x2806E11B, 0x8714787C, 0x503CA382);
    RoundAt(v0, m, 49, 0xBAF39337, 0xBEAD02CA, 0x2806E11B, 0x8714787C, 0x503CA382, 0x26380A16);
    assert Rounds(v0, K, m, 50) == Vars(0x120731C5, 0xBAF39337, 0xAFAB40B2, 0x2806E11B, 0x8714787C);
    RoundAt(v0, m, 50, 0x120731C5, 0xBAF39337, 0xAFAB40B2, 0x2806E11B, 0x8714787C, 0x626383A1);
    assert Rounds(v0, K, m, 51) == Vars(0x641DB2CE, 0x120731C5, 0xEEBCE4CD, 0xAFAB40B2, 0x2806E11B);
    RoundAt(v0, m, 51, 0x641DB2CE, 0x120731C5, 0xEEBCE4CD, 0xAFAB40B2, 0x2806E11B, 0x4EBF54DE);
    assert Rounds(v0, K, m, 52) == Vars(0x3847AD66, 0x641DB2CE, 0x4481CC71, 0xEEBCE4CD, 0xAFAB40B2);
    RoundAt(v0, m, 52, 0x3847AD66, 0x641DB2CE, 0x4481CC71, 0xEEBCE4CD, 0xAFAB40B2, 0x3835B44B);
    assert Rounds(v0, K, m, 53) == Vars(0xE490436D, 0x3847AD66, 0x99076CB3, 0x4481CC71, 0xEEBCE4CD);
    RoundAt(v0, m, 53, 0xE490436D, 0x3847AD66, 0x99076CB3, 0x4481CC71, 0xEEBCE4CD, 0x0000F600);
    assert Rounds(v0, K, m, 54) == Vars(0x27E9F1D8, 0xE490436D, 0x8E11EB59, 0x99076CB3, 0x4481CC71);
    RoundAt(v0, m, 54, 0x27E9F1D8, 0xE490436D, 0x8E11EB59, 0x99076CB3, 0x4481CC71, 0x1E84C7A3);
    assert Rounds(v0, K, m, 55) == Vars(0x7B71F76D, 0x27E9F1D8, 0x792410DB, 0x8E11EB59, 0x99076CB3);
    RoundAt(v0, m, 55, 0x7B71F76D, 0x27E9F1D8, 0x792410DB, 0x8E11EB59, 0x99076CB3, 0x98E04D98);
    assert Rounds(v0, K, m, 56) == Vars(0x5E6456AF, 0x7B71F76D, 0x09FA7C76, 0x792410DB, 0x8E11EB59);
    RoundAt(v0, m, 56, 0x5E6456AF, 0x7B71F76D, 0x09FA7C76, 0x792410DB, 0x8E11EB59, 0x651D16A0);
    assert Rounds(v0, K, m, 57) == Vars(0xC846093F, 0x5E6456AF, 0x5EDC7DDB, 0x09FA7C76, 0x792410DB);
    RoundAt(v0, m, 57, 0xC846093F, 0x5E6456AF, 0x5EDC7DDB, 0x09FA7C76, 0x792410DB, 0x62658CA1);
    assert Rounds(v0, K, m, 58) == Vars(0xD262FF50, 0xC846093F, 0xD79915AB, 0x5EDC7DDB, 0x09FA7C76);
    RoundAt(v0, m, 58, 0xD262FF50, 0xC846093F, 0xD79915AB, 0x5EDC7DDB, 0x09FA7C76, 0x458544D6);
    assert Rounds(v0, K, m, 59) == Vars(0x09D785FD, 0xD262FF50, 0xF211824F, 0xD79915AB, 0x5EDC7DDB);
    RoundAt(v0, m, 59, 0x09D785FD, 0xD262FF50, 0xF211824F, 0xD79915AB, 0x5EDC7DDB, 0x44584CB7);
    assert Rounds(v0, K, m, 60) == Vars(0x3F52DE5A, 0x09D785FD, 0x3498BFD4, 0xF211824F, 0xD79915AB);
  }

  /** Rounds 60..79 of the padded "abc". */
  lemma AbcRounds80(v0: Vars, m: seq<Word>)
    requires |m| == 80 && Rounds(v0, K, m, 60) == Vars(0x3F52DE5A, 0x09D785FD, 0x3498BFD4, 0xF211824F, 0xD79915AB)
    requires m[60] == 0x7BA06619 && m[61] == 0x6380AEA2 && m[62] == 0x0AE55269 && m[63] == 0x627B49A1
    requires m[64] == 0x7CD45C9D && m[65] == 0x000F0000 && m[66] == 0xFB50753A && m[67] == 0xEC6765E8
    requires m[68] == 0xBA3C2BE2 && m[69] == 0x0060C000 && m[70] == 0x3A37CD05 && m[71] == 0x458546F4
    requires m[72] == 0xB8599DD6 && m[73] == 0x380A1A26 && m[74] == 0x01E02203 && m[75] == 0xE7CC3456
    requires m[76] == 0xE6E60B69 && m[77] == 0x00F60A00 && m[78] == 0x5795EF4F && m[79] == 0x822E0879
    ensures Rounds(v0, K, m, 80) == Vars(0x42541B35, 0x5738D5E1, 0x21834873, 0x681E6DF6, 0xD8FDF6AD)
  {
    RoundAt(v0, m, 60, 0x3F52DE5A, 0x09D785FD, 0x3498BFD4, 0xF211824F, 0xD79915AB, 0x7BA06619);
    assert Rounds(v0, K, m, 61) == Vars(0xD756C147, 0x3F52DE5A, 0x4275E17F, 0x3498BFD4, 0xF211824F);
    RoundAt(v0, m, 61, 0xD756C147, 0x3F52DE5A, 0x4275E17F, 0x3498BFD4, 0xF211824F, 0x6380AEA2);
    assert Rounds(v0, K, m, 62) == Vars(0x548C9CB2, 0xD756C147, 0x8FD4B796, 0x4275E17F, 0x3498BFD4);
    RoundAt(v0, m, 62, 0x548C9CB2, 0xD756C147, 0x8FD4B796, 0x4275E17F, 0x3498BFD4, 0x0AE55269);
    assert Rounds(v0, K, m, 63) == Vars(0xB66C020B, 0x548C9CB2, 0xF5D5B051, 0x8FD4B796, 0x4275E17F);
    RoundAt(v0, m, 63, 0xB66C020B, 0x548C9CB2, 0xF5D5B051, 0x8FD4B796, 0x4275E17F, 0x627B49A1);
    assert Rounds(v0, K, m, 64) == Vars(0x6B61C9E1, 0xB66C020B, 0x9523272C, 0xF5D5B051, 0x8FD4B796);
    RoundAt(v0, m, 64, 0x6B61C9E1, 0xB66C020B, 0x9523272C, 0xF5D5B051, 0x8FD4B796, 0x7CD45C9D);
    assert Rounds(v0, K, m, 65) == Vars(0x19DFA7AC, 0x6B61C9E1, 0xED9B0082, 0x9523272C, 0xF5D5B051);
    RoundAt(v0, m, 65, 0x19DFA7AC, 0x6B61C9E1, 0xED9B0082, 0x9523272C, 0xF5D5B051, 0x000F0000);
    assert Rounds(v0, K, m, 66) == Vars(0x101655F9, 0x19DFA7AC, 0x5AD87278, 0xED9B0082, 0x9523272C);
    RoundAt(v0, m, 66, 0x101655F9, 0x19DFA7AC, 0x5AD87278, 0xED9B0082, 0x9523272C, 0xFB50753A);
    assert Rounds(v0, K, m, 67) == Vars(0x0C3DF2B4, 0x101655F9, 0x0677E9EB, 0x5AD87278, 0xED9B0082);
    RoundAt(v0, m, 67, 0x0C3DF2B4, 0x101655F9, 0x0677E9EB, 0x5AD87278, 0xED9B0082, 0xEC6765E8);
    assert Rounds(v0, K, m, 68) == Vars(0x78DD4D2B, 0x0C3DF2B4, 0x4405957E, 0x0677E9EB, 0x5AD87278);
    RoundAt(v0, m, 68, 0x78DD4D2B, 0x0C3DF2B4, 0x4405957E, 0x0677E9EB, 0x5AD87278, 0xBA3C2BE2);
    assert Rounds(v0, K, m, 69) == Vars(0x497093C0, 0x78DD4D2B, 0x030F7CAD, 0x4405957E, 0x0677E9EB);
    RoundAt(v0, m, 69, 0x497093C0, 0x78DD4D2B, 0x030F7CAD, 0x4405957E, 0x0677E9EB, 0x0060C000);
    assert Rounds(v0, K, m, 70) == Vars(0x3F2588C2, 0x497093C0, 0xDE37534A, 0x030F7CAD, 0x4405957E);
    RoundAt(v0, m, 70, 0x3F2588C2, 0x497093C0, 0xDE37534A, 0x030F7CAD, 0x4405957E, 0x3A37CD05);
    assert Rounds(v0, K, m, 71) == Vars(0xC199F8C7, 0x3F2588C2, 0x125C24F0, 0xDE37534A, 0x030F7CAD);
    RoundAt(v0, m, 71, 0xC199F8C7, 0x3F2588C2, 0x125C24F0, 0xDE37534A, 0x030F7CAD, 0x458546F4);
    assert Rounds(v0, K, m, 72) == Vars(0x39859DE7, 0xC199F8C7, 0x8FC96230, 0x125C24F0, 0xDE37534A);
    RoundAt(v0, m, 72, 0x39859DE7, 0xC199F8C7, 0x8FC96230, 0x125C24F0, 0xDE37534A, 0xB8599DD6);
    assert Rounds(v0, K, m, 73) == Vars(0xEDB42DE4, 0x39859DE7, 0xF0667E31, 0x8FC96230, 0x125C24F0);
    RoundAt(v0, m, 73, 0xEDB42DE4, 0x39859DE7, 0xF0667E31, 0x8FC96230, 0x125C24F0, 0x380A1A26);
    assert Rounds(v0, K, m, 74) == Vars(0x11793F6F, 0xEDB42DE4, 0xCE616779, 0xF0667E31, 0x8FC96230);
    RoundAt(v0, m, 74, 0x11793F6F, 0xEDB42DE4, 0xCE616779, 0xF0667E31, 0x8FC96230, 0x01E02203);
    assert Rounds(v0, K, m, 75) == Vars(0x5EE76897, 0x11793F6F, 0x3B6D0B79, 0xCE616779, 0xF0667E31);
    RoundAt(v0, m, 75, 0x5EE76897, 0x11793F6F, 0x3B6D0B79, 0xCE616779, 0xF0667E31, 0xE7CC3456);
    assert Rounds(v0, K, m, 76) == Vars(0x63F7DAB7, 0x5EE76897, 0xC45E4FDB, 0x3B6D0B79, 0xCE616779);
    RoundAt(v0, m, 76, 0x63F7DAB7, 0x5EE76897, 0xC45E4FDB, 0x3B6D0B79, 0xCE616779, 0xE6E60B69);
    assert Rounds(v0, K, m, 77) == Vars(0xA079B7D9, 0x63F7DAB7, 0xD7B9DA25, 0xC45E4FDB, 0x3B6D0B79);
    RoundAt(v0, m, 77, 0xA079B7D9, 0x63F7DAB7, 0xD7B9DA25, 0xC45E4FDB, 0x3B6D0B79, 0x00F60A00);
    assert Rounds(v0, K, m, 78) == Vars(0x860D21CC, 0xA079B7D9, 0xD8FDF6AD, 0xD7B9DA25, 0xC45E4FDB);
    RoundAt(v0, m, 78, 0x860D21CC, 0xA079B7D9, 0xD8FDF6AD, 0xD7B9DA25, 0xC45E4FDB, 0x5795EF4F);
    assert Rounds(v0, K, m, 79) == Vars(0x5738D5E1, 0x860D21CC, 0x681E6DF6, 0xD8FDF6AD, 0xD7B9DA25);
    RoundAt(v0, m, 79, 0x5738D5E1, 0x860D21CC, 0x681E6DF6, 0xD8FDF6AD, 0xD7B9DA25, 0x822E0879);
    assert Rounds(v0, K, m, 80) == Vars(0x42541B35, 0x5738D5E1, 0x21834873, 0x681E6DF6, 0xD8FDF6AD);
  }

  /** The compression of the padded "abc" into the state [67452301, efcdab89, 98badcfe, 10325476, c3d2e1f0]. */
  lemma AbcCompress(block: seq<Byte>)
    requires block == ABC + [0x80] + Zeros(52) + [0, 0, 0, 0, 0, 0, 0, 0x18]
    ensures Compress([0x67452301, 0xEFCDAB89, 0x98BADCFE, 0x10325476, 0xC3D2E1F0], K, block) == [0xA9993E36, 0x4706816A, 0xBA3E2571, 0x7850C26C, 0x9CD0D89D]
  {
    AbcWords4(block);
    AbcWords8(block);
    AbcWords12(block);
    AbcWords16(block);
    var m := Schedule(block);
    ScheduleFacts(block);
    AbcSchedule32(m);
    AbcSchedule48(m);
    AbcSchedule64(m);
    AbcSchedule80(m);
    var v0 := Vars(0x67452301, 0xEFCDAB89, 0x98BADCFE, 0x10325476, 0xC3D2E1F0);
    AbcRounds20(v0, m);
    AbcRounds40(v0, m);
    AbcRounds60(v0, m);
    AbcRounds80(v0, m);
  }

  /** "abc" padded: 0x80, 52 zero bytes, then 24 as a 64-bit big-endian count. */
  lemma AbcPad()
    ensures Pad(ABC) == ABC + [0x80] + Zeros(52) + [0, 0, 0, 0, 0, 0, 0, 0x18]
  {
    assert BitLength(|ABC|) == 24;
    LengthBytesSmall(24);
  }

  /** SHA-1("abc") is a9993e36 4706816a ba3e2571 7850c26c 9cd0d89d. */
  lemma Sha1Abc()
    ensures Sha1(ABC) == Digest([0xA9993E36, 0x4706816A, 0xBA3E2571, 0x7850C26C, 0x9CD0D89D])
  {
    AbcPad();
    HashBlocksOne(H0, K, Pad(ABC));
    AbcCompress(Pad(ABC));
  }

  /** The digest of "abc" as the 20 bytes the test compares. */
  lemma AbcDigestBytes()
    ensures Digest([0xA9993E36, 0x4706816A, 0xBA3E2571, 0x7850C26C, 0x9CD0D89D]) ==
      [0xa9, 0x99, 0x3e, 0x36, 0x47, 0x06, 0x81, 0x6a, 0xba, 0x3e, 0x25, 0x71, 0x78, 0x50, 0xc2, 0x6c, 0x9c, 0xd0, 0xd8, 0x9d]
  {
  }

  // ---------------------------------------------------------------------------
  // SHA-1 of the empty message: one block
  // ---------------------------------------------------------------------------

  /** Big-endian words 0..3 of the padded empty message. */
  lemma EmptyWords4(block: seq<Byte>)
    requires block == [0x80] + Zeros(55) + [0, 0, 0, 0, 0, 0, 0, 0]
    ensures |block| == 64
    ensures ReadWord(block, 0) == 0x80000000 && ReadWord(block, 4) == 0x00000000 && ReadWord(block, 8) == 0x00000000 && ReadWord(block, 12) == 0x00000000
  {
  }

  /** Big-endian words 4..7 of the padded empty message. */
  lemma EmptyWords8(block: seq<Byte>)
    requires block == [0x80] + Zeros(55) + [0, 0, 0, 0, 0, 0, 0, 0]
    ensures |block| == 64
    ensures ReadWord(block, 16) == 0x00000000 && ReadWord(block, 20) == 0x00000000 && ReadWord(block, 24) == 0x00000000 && ReadWord(block, 28) == 0x00000000
  {
  }

  /** Big-endian words 8..11 of the padded empty message. */
  lemma EmptyWords12(block: seq<Byte>)
    requires block == [0x80] + Zeros(55) + [0, 0, 0, 0, 0, 0, 0, 0]
    ensures |block| == 64
    ensures ReadWord(block, 32) == 0x00000000 && ReadWord(block, 36) == 0x00000000 && ReadWord(block, 40) == 0x00000000 && ReadWord(block, 44) == 0x00000000
  {
  }

  /** Big-endian words 12..15 of the padded empty message. */
  lemma EmptyWords16(block: seq<Byte>)
    requires block == [0x80] + Zeros(55) + [0, 0, 0, 0, 0, 0, 0, 0]
    ensures |block| == 64
    ensures ReadWord(block, 48) == 0x00000000 && ReadWord(block, 52) == 0x00000000 && ReadWord(block, 56) == 0x00000000 && ReadWord(block, 60) == 0x00000000
  {
  }

  /** Schedule words 16..31 of the padded empty message. */
  lemma EmptySchedule32(m: seq<Word>)
    requires |m| == 80 && forall i :: 16 <= i < 80 ==> Recurrence(m, i)
    requires m[0] == 0x80000000 && m[1] == 0x00000000 && m[2] == 0x00000000 && m[3] == 0x00000000
    requires m[4] == 0x00000000 && m[5] == 0x00000000 && m[6] == 0x00000000 && m[7] == 0x00000000
    requires m[8] == 0x00000000 && m[9] == 0x00000000 && m[10] == 0x00000000 && m[11] == 0x00000000
    requires m[12] == 0x00000000 && m[13] == 0x00000000 && m[14] == 0x00000000 && m[15] == 0x00000000
    ensures m[16] == 0x00000001 && m[17] == 0x00000000 && m[18] == 0x00000000 && m[19] == 0x00000002
    ensures m[20] == 0x00000000 && m[21] == 0x00000000 && m[22] == 0x00000004 && m[23] == 0x00000000
    ensures m[24] == 0x00000002 && m[25] == 0x00000008 && m[26] == 0x00000000 && m[27] == 0x00000000
    ensures m[28] == 0x00000010 && m[29] == 0x00000000 && m[30] == 0x0000000A && m[31] == 0x00000020
  {
    ScheduleAt(m, 16, 0x00000000, 0x00000000, 0x00000000, 0x80000000);
    ScheduleAt(m, 17, 0x00000000, 0x00000000, 0x00000000, 0x00000000);
    ScheduleAt(m, 18, 0x00000000, 0x00000000, 0x00000000, 0x00000000);
    ScheduleAt(m, 19, 0x00000001, 0x00000000, 0x00000000, 0x00000000);
    ScheduleAt(m, 20, 0x00000000, 0x00000000, 0x00000000, 0x00000000);
    ScheduleAt(m, 21, 0x00000000, 0x00000000, 0x00000000, 0x00000000);
    ScheduleAt(m, 22, 0x00000002, 0x00000000, 0x00000000, 0x00000000);
    ScheduleAt(m, 23, 0x00000000, 0x00000000, 0x00000000, 0x00000000);
    ScheduleAt(m, 24, 0x00000000, 0x00000001, 0x00000000, 0x00000000);
    ScheduleAt(m, 25, 0x00000004, 0x00000000, 0x00000000, 0x00000000);
    ScheduleAt(m, 26, 0x00000000, 0x00000000, 0x00000000, 0x00000000);
    ScheduleAt(m, 27, 0x00000002, 0x00000002, 0x00000000, 0x00000000);
    ScheduleAt(m, 28, 0x00000008, 0x00000000, 0x00000000, 0x00000000);
    ScheduleAt(m, 29, 0x00000000, 0x00000000, 0x00000000, 0x00000000);
    ScheduleAt(m, 30, 0x00000000, 0x00000004, 0x00000001, 0x00000000);
    ScheduleAt(m, 31, 0x00000010, 0x00000000, 0x00000000, 0x00000000);
  }

  /** Schedule words 32..47 of the padded empty message. */
  lemma EmptySchedule48(m: seq<Word>)
    requires |m| == 80 && forall i :: 16 <= i < 80 ==> Recurrence(m, i)
    requires m[16] == 0x00000001 && m[17] == 0x00000000 && m[18] == 0x00000000 && m[19] == 0x00000002
    requires m[20] == 0x00000000 && m[21] == 0x00000000 && m[22] == 0x00000004 && m[23] == 0x00000000
    requires m[24] == 0x00000002 && m[25] == 0x00000008 && m[26] == 0x00000000 && m[27] == 0x00000000
    requires m[28] == 0x00000010 && m[29] == 0x00000000 && m[30] == 0x0000000A && m[31] == 0x00000020
    ensures m[32] == 0x00000006 && m[33] == 0x00000000 && m[34] == 0x00000040 && m[35] == 0x00000008
    ensures m[36] == 0x00000028 && m[37] == 0x00000080 && m[38] == 0x00000008 && m[39] == 0x00000000
    ensures m[40] == 0x00000108 && m[41] == 0x00000000 && m[42] == 0x000000A0 && m[43] == 0x00000200
    ensures m[44] == 0x00000064 && m[45] == 0x00000000 && m[46] == 0x00000408 && m[47] == 0x00000088
  {
    ScheduleAt(m, 32, 0x00000000, 0x00000002, 0x00000000, 0x00000001);
    ScheduleAt(m, 33, 0x0000000A, 0x00000008, 0x00000002, 0x00000000);
    ScheduleAt(m, 34, 0x00000020, 0x00000000, 0x00000000, 0x00000000);
    ScheduleAt(m, 35, 0x00000006, 0x00000000, 0x00000000, 0x00000002);
    ScheduleAt(m, 36, 0x00000000, 0x00000010, 0x00000004, 0x00000000);
    ScheduleAt(m, 37, 0x00000040, 0x00000000, 0x00000000, 0x00000000);
    ScheduleAt(m, 38, 0x00000008, 0x0000000A, 0x00000002, 0x00000004);
    ScheduleAt(m, 39, 0x00000028, 0x00000020, 0x00000008, 0x00000000);
    ScheduleAt(m, 40, 0x00000080, 0x00000006, 0x00000000, 0x00000002);
    ScheduleAt(m, 41, 0x00000008, 0x00000000, 0x00000000, 0x00000008);
    ScheduleAt(m, 42, 0x00000000, 0x00000040, 0x00000010, 0x00000000);
    ScheduleAt(m, 43, 0x00000108, 0x00000008, 0x00000000, 0x00000000);
    ScheduleAt(m, 44, 0x00000000, 0x00000028, 0x0000000A, 0x00000010);
    ScheduleAt(m, 45, 0x000000A0, 0x00000080, 0x00000020, 0x00000000);
    ScheduleAt(m, 46, 0x00000200, 0x00000008, 0x00000006, 0x0000000A);
    ScheduleAt(m, 47, 0x00000064, 0x00000000, 0x00000000, 0x00000020);
  }

  /** Schedule words 48..63 of the padded empty message. */
  lemma EmptySchedule64(m: seq<Word>)
    requires |m| == 80 && forall i :: 16 <= i < 80 ==> Recurrence(m, i)
    requires m[32] == 0x00000006 && m[33] == 0x00000000 && m[34] == 0x00000040 && m[35] == 0x00000008
    requires m[36] == 0x00000028 && m[37] == 0x00000080 && m[38] == 0x00000008 && m[39] == 0x00000000
    requires m[40] == 0x00000108 && m[41] == 0x00000000 && m[42] == 0x000000A0 && m[43] == 0x00000200
    requires m[44] == 0x00000064 && m[45] == 0x00000000 && m[46] == 0x00000408 && m[47] == 0x00000088
    ensures m[48] == 0x0000029C && m[49] == 0x00000800 && m[50] == 0x00000080 && m[51] == 0x00000028
    ensures m[52] == 0x00001088 && m[53] == 0x00000000 && m[54] == 0x00000A40 && m[55] == 0x00002000
    ensures m[56] == 0x00000668 && m[57] == 0x00000080 && m[58] == 0x00004088 && m[59] == 0x00000880
    ensures m[60] == 0x000028C8 && m[61] == 0x00008000 && m[62] == 0x000008A8 && m[63] == 0x00000080
  {
    ScheduleAt(m, 48, 0x00000000, 0x00000108, 0x00000040, 0x00000006);
    ScheduleAt(m, 49, 0x00000408, 0x00000000, 0x00000008, 0x00000000);
    ScheduleAt(m, 50, 0x00000088, 0x000000A0, 0x00000028, 0x00000040);
    ScheduleAt(m, 51, 0x0000029C, 0x00000200, 0x00000080, 0x00000008);
    ScheduleAt(m, 52, 0x00000800, 0x00000064, 0x00000008, 0x00000028);
    ScheduleAt(m, 53, 0x00000080, 0x00000000, 0x00000000, 0x00000080);
    ScheduleAt(m, 54, 0x00000028, 0x00000408, 0x00000108, 0x00000008);
    ScheduleAt(m, 55, 0x00001088, 0x00000088, 0x00000000, 0x00000000);
    ScheduleAt(m, 56, 0x00000000, 0x0000029C, 0x000000A0, 0x00000108);
    ScheduleAt(m, 57, 0x00000A40, 0x00000800, 0x00000200, 0x00000000);
    ScheduleAt(m, 58, 0x00002000, 0x00000080, 0x00000064, 0x000000A0);
    ScheduleAt(m, 59, 0x00000668, 0x00000028, 0x00000000, 0x00000200);
    ScheduleAt(m, 60, 0x00000080, 0x00001088, 0x00000408, 0x00000064);
    ScheduleAt(m, 61, 0x00004088, 0x00000000, 0x00000088, 0x00000000);
    ScheduleAt(m, 62, 0x00000880, 0x00000A40, 0x0000029C, 0x00000408);
    ScheduleAt(m, 63, 0x000028C8, 0x00002000, 0x00000800, 0x00000088);
  }

  /** Schedule words 64..79 of the padded empty message. */
  lemma EmptySchedule80(m: seq<Word>)
    requires |m| == 80 && forall i :: 16 <= i < 80 ==> Recurrence(m, i)
    requires m[48] == 0x0000029C && m[49] == 0x00000800 && m[50] == 0x00000080 && m[51] == 0x00000028
    requires m[52] == 0x00001088 && m[53] == 0x00000000 && m[54] == 0x00000A40 && m[55] == 0x00002000
    requires m[56] == 0x00000668 && m[57] == 0x00000080 && m[58] == 0x00004088 && m[59] == 0x00000880
    requires m[60] == 0x000028C8 && m[61] == 0x00008000 && m[62] == 0x000008A8 && m[63] == 0x00000080
    ensures m[64] == 0x000108E8 && m[65] == 0x00000000 && m[66] == 0x0000A000 && m[67] == 0x00020080
    ensures m[68] == 0x00006400 && m[69] == 0x00000000 && m[70] == 0x00040800 && m[71] == 0x00008800
    ensures m[72] == 0x00029C10 && m[73] == 0x00080000 && m[74] == 0x00008080 && m[75] == 0x00002820
    ensures m[76] == 0x001088C0 && m[77] == 0x00000000 && m[78] == 0x000A40C0 && m[79] == 0x00200080
  {
    ScheduleAt(m, 64, 0x00008000, 0x00000668, 0x00000080, 0x0000029C);
    ScheduleAt(m, 65, 0x000008A8, 0x00000080, 0x00000028, 0x00000800);
    ScheduleAt(m, 66, 0x00000080, 0x00004088, 0x00001088, 0x00000080);
    ScheduleAt(m, 67, 0x000108E8, 0x00000880, 0x00000000, 0x00000028);
    ScheduleAt(m, 68, 0x00000000, 0x000028C8, 0x00000A40, 0x00001088);
    ScheduleAt(m, 69, 0x0000A000, 0x00008000, 0x00002000, 0x00000000);
    ScheduleAt(m, 70, 0x00020080, 0x000008A8, 0x00000668, 0x00000A40);
    ScheduleAt(m, 71, 0x00006400, 0x00000080, 0x00000080, 0x00002000);
    ScheduleAt(m, 72, 0x00000000, 0x000108E8, 0x00004088, 0x00000668);
    ScheduleAt(m, 73, 0x00040800, 0x00000000, 0x00000880, 0x00000080);
    ScheduleAt(m, 74, 0x00008800, 0x0000A000, 0x000028C8, 0x00004088);
    ScheduleAt(m, 75, 0x00029C10, 0x00020080, 0x00008000, 0x00000880);
    ScheduleAt(m, 76, 0x00080000, 0x00006400, 0x000008A8, 0x000028C8);
    ScheduleAt(m, 77, 0x00008080, 0x00000000, 0x00000080, 0x00008000);
    ScheduleAt(m, 78, 0x00002820, 0x00040800, 0x000108E8, 0x000008A8);
    ScheduleAt(m, 79, 0x001088C0, 0x00008800, 0x00000000, 0x00000080);
  }

  /** Rounds 0..19 of the padded empty message. */
  lemma EmptyRounds20(v0: Vars, m: seq<Word>)
    requires |m| == 80 && Rounds(v0, K, m, 0) == Vars(0x67452301, 0xEFCDAB89, 0x98BADCFE, 0x10325476, 0xC3D2E1F0)
    requires m[0] == 0x80000000 && m[1] == 0x00000000 && m[2] == 0x00000000 && m[3] == 0x00000000
    requires m[4] == 0x00000000 && m[5] == 0x00000000 && m[6] == 0x00000000 && m[7] == 0x00000000
    requires m[8] == 0x00000000 && m[9] == 0x00000000 && m[10] == 0x00000000 && m[11] == 0x00000000
    requires m[12] == 0x00000000 && m[13] == 0x00000000 && m[14] == 0x00000000 && m[15] == 0x00000000
    requires m[16] == 0x00000001 && m[17] == 0x00000000 && m[18] == 0x00000000 && m[19] == 0x00000002
    ensures Rounds(v0, K, m, 20) == Vars(0xE758E8DA, 0x0B3088DD, 0x8A2A5483, 0xC1AFE45C, 0xF63F5951)
  {
    RoundAt(v0, m, 0, 0x67452301, 0xEFCDAB89, 0x98BADCFE, 0x10325476, 0xC3D2E1F0, 0x80000000);
    assert Rounds(v0, K, m, 1) == Vars(0x1FB498B3, 0x67452301, 0x7BF36AE2, 0x98BADCFE, 0x10325476);
    RoundAt(v0, m, 1, 0x1FB498B3, 0x67452301, 0x7BF36AE2, 0x98BADCFE, 0x10325476, 0x00000000);
    assert Rounds(v0, K, m, 2) == Vars(0x5D43E370, 0x1FB498B3, 0x59D148C0, 0x7BF36AE2, 0x98BADCFE);
    RoundAt(v0, m, 2, 0x5D43E370, 0x1FB498B3, 0x59D148C0, 0x7BF36AE2, 0x98BADCFE, 0x00000000);
    assert Rounds(v0, K, m, 3) == Vars(0x158D2F62, 0x5D43E370, 0xC7ED262C, 0x59D148C0, 0x7BF36AE2);
    RoundAt(v0, m, 3, 0x158D2F62, 0x5D43E370, 0xC7ED262C, 0x59D148C0, 0x7BF36AE2, 0x00000000);
    assert Rounds(v0, K, m, 4) == Vars(0xCDECFB5D, 0x158D2F62, 0x1750F8DC, 0xC7ED262C, 0x59D148C0);
    RoundAt(v0, m, 4, 0xCDECFB5D, 0x158D2F62, 0x1750F8DC, 0xC7ED262C, 0x59D148C0, 0x00000000);
    assert Rounds(v0, K, m, 5) == Vars(0x4953565E, 0xCDECFB5D, 0x85634BD8, 0x1750F8DC, 0xC7ED262C);
    RoundAt(v0, m, 5, 0x4953565E, 0xCDECFB5D, 0x85634BD8, 0x1750F8DC, 0xC7ED262C, 0x00000000);
    assert Rounds(v0, K, m, 6) == Vars(0xE44AB766, 0x4953565E, 0x737B3ED7, 0x85634BD8, 0x1750F8DC);
    RoundAt(v0, m, 6, 0xE44AB766, 0x4953565E, 0x737B3ED7, 0x85634BD8, 0x1750F8DC, 0x00000000);
    assert Rounds(v0, K, m, 7) == Vars(0xC09D7F27, 0xE44AB766, 0x9254D597, 0x737B3ED7, 0x85634BD8);
    RoundAt(v0, m, 7, 0xC09D7F27, 0xE44AB766, 0x9254D597, 0x737B3ED7, 0x85634BD8, 0x00000000);
    assert Rounds(v0, K, m, 8) == Vars(0x87074800, 0xC09D7F27, 0xB912ADD9, 0x9254D597, 0x737B3ED7);
    RoundAt(v0, m, 8, 0x87074800, 0xC09D7F27, 0xB912ADD9, 0x9254D597, 0x737B3ED7, 0x00000000);
    assert Rounds(v0, K, m, 9) == Vars(0x41376611, 0x87074800, 0xF0275FC9, 0xB912ADD9, 0x9254D597);
    RoundAt(v0, m, 9, 0x41376611, 0x87074800, 0xF0275FC9, 0xB912ADD9, 0x9254D597, 0x00000000);
    assert Rounds(v0, K, m, 10) == Vars(0xCBDBFF31, 0x41376611, 0x21C1D200, 0xF0275FC9, 0xB912ADD9);
    RoundAt(v0, m, 10, 0xCBDBFF31, 0x41376611, 0x21C1D200, 0xF0275FC9, 0xB912ADD9, 0x00000000);
    assert Rounds(v0, K, m, 11) == Vars(0x40166973, 0xCBDBFF31, 0x504DD984, 0x21C1D200, 0xF0275FC9);
    RoundAt(v0, m, 11, 0x40166973, 0xCBDBFF31, 0x504DD984, 0x21C1D200, 0xF0275FC9, 0x00000000);
    assert Rounds(v0, K, m, 12) == Vars(0xADC0E0CA, 0x40166973, 0x72F6FFCC, 0x504DD984, 0x21C1D200);
    RoundAt(v0, m, 12, 0xADC0E0CA, 0x40166973, 0x72F6FFCC, 0x504DD984, 0x21C1D200, 0x00000000);
    assert Rounds(v0, K, m, 13) == Vars(0x84C05EB2, 0xADC0E0CA, 0xD0059A5C, 0x72F6FFCC, 0x504DD984);
    RoundAt(v0, m, 13, 0x84C05EB2, 0xADC0E0CA, 0xD0059A5C, 0x72F6FFCC, 0x504DD984, 0x00000000);
    assert Rounds(v0, K, m, 14) == Vars(0x1512C8B9, 0x84C05EB2, 0xAB703832, 0xD0059A5C, 0x72F6FFCC);
    RoundAt(v0, m, 14, 0x1512C8B9, 0x84C05EB2, 0xAB703832, 0xD0059A5C, 0x72F6FFCC, 0x00000000);
    assert Rounds(v0, K, m, 15) == Vars(0x40182905, 0x1512C8B9, 0xA13017AC, 0xAB703832, 0xD0059A5C);
    RoundAt(v0, m, 15, 0x40182905, 0x1512C8B9, 0xA13017AC, 0xAB703832, 0xD0059A5C, 0x00000000);
    assert Rounds(v0, K, m, 16) == Vars(0xD8FD6547, 0x40182905, 0x4544B22E, 0xA13017AC, 0xAB703832);
    RoundAt(v0, m, 16, 0xD8FD6547, 0x40182905, 0x4544B22E, 0xA13017AC, 0xAB703832, 0x00000001);
    assert Rounds(v0, K, m, 17) == Vars(0x06BF9173, 0xD8FD6547, 0x50060A41, 0x4544B22E, 0xA13017AC);
    RoundAt(v0, m, 17, 0x06BF9173, 0xD8FD6547, 0x50060A41, 0x4544B22E, 0xA13017AC, 0x00000000);
    assert Rounds(v0, K, m, 18) == Vars(0x28A9520E, 0x06BF9173, 0xF63F5951, 0x50060A41, 0x4544B22E);
    RoundAt(v0, m, 18, 0x28A9520E, 0x06BF9173, 0xF63F5951, 0x50060A41, 0x4544B22E, 0x00000000);
    assert Rounds(v0, K, m, 19) == Vars(0x0B3088DD, 0x28A9520E, 0xC1AFE45C, 0xF63F5951, 0x50060A41);
    RoundAt(v0, m, 19, 0x0B3088DD, 0x28A9520E, 0xC1AFE45C, 0xF63F5951, 0x50060A41, 0x00000002);
    assert Rounds(v0, K, m, 20) == Vars(0xE758E8DA, 0x0B3088DD, 0x8A2A5483, 0xC1AFE45C, 0xF63F5951);
  }

  /** Rounds 20..39 of the padded empty message. */
  lemma EmptyRounds40(v0: Vars, m: seq<Word>)
    requires |m| == 80 && Rounds(v0, K, m, 20) == Vars(0xE758E8DA, 0x0B3088DD, 0x8A2A5483, 0xC1AFE45C, 0xF63F5951)
    requires m[20] == 0x00000000 && m[21] == 0x00000000 && m[22] == 0x00000004 && m[23] == 0x00000000
    requires m[24] == 0x00000002 && m[25] == 0x00000008 && m[26] == 0x00000000 && m[27] == 0x00000000
    requires m[28] == 0x00000010 && m[29] == 0x00000000 && m[30] == 0x0000000A && m[31] == 0x00000020
    requires m[32] == 0x00000006 && m[33] == 0x00000000 && m[34] == 0x00000040 && m[35] == 0x00000008
    requires m[36] == 0x00000028 && m[37] == 0x00000080 && m[38] == 0x00000008 && m[39] == 0x00000000
    ensures Rounds(v0, K, m, 40) == Vars(0x9BDBDD71, 0x62273351, 0xEC805E22, 0x413C1D9A, 0x2AEEAE62)
  {
    RoundAt(v0, m, 20, 0xE758E8DA, 0x0B3088DD, 0x8A2A5483, 0xC1AFE45C, 0xF63F5951, 0x00000000);
    assert Rounds(v0, K, m, 21) == Vars(0x90EB9850, 0xE758E8DA, 0x42CC2237, 0x8A2A5483, 0xC1AFE45C);
    RoundAt(v0, m, 21, 0x90EB9850, 0xE758E8DA, 0x42CC2237, 0x8A2A5483, 0xC1AFE45C, 0x00000000);
    assert Rounds(v0, K, m, 22) == Vars(0x7DBB787D, 0x90EB9850, 0xB9D63A36, 0x42CC2237, 0x8A2A5483);
    RoundAt(v0, m, 22, 0x7DBB787D, 0x90EB9850, 0xB9D63A36, 0x42CC2237, 0x8A2A5483, 0x00000004);
    assert Rounds(v0, K, m, 23) == Vars(0x1C64D028, 0x7DBB787D, 0x243AE614, 0xB9D63A36, 0x42CC2237);
    RoundAt(v0, m, 23, 0x1C64D028, 0x7DBB787D, 0x243AE614, 0xB9D63A36, 0x42CC2237, 0x00000000);
    assert Rounds(v0, K, m, 24) == Vars(0x1E97B73A, 0x1C64D028, 0x5F6EDE1F, 0x243AE614, 0xB9D63A36);
    RoundAt(v0, m, 24, 0x1E97B73A, 0x1C64D028, 0x5F6EDE1F, 0x243AE614, 0xB9D63A36, 0x00000002);
    assert Rounds(v0, K, m, 25) == Vars(0x62D7F53F, 0x1E97B73A, 0x0719340A, 0x5F6EDE1F, 0x243AE614);
    RoundAt(v0, m, 25, 0x62D7F53F, 0x1E97B73A, 0x0719340A, 0x5F6EDE1F, 0x243AE614, 0x00000008);
    assert Rounds(v0, K, m, 26) == Vars(0x34F3D6D8, 0x62D7F53F, 0x87A5EDCE, 0x0719340A, 0x5F6EDE1F);
    RoundAt(v0, m, 26, 0x34F3D6D8, 0x62D7F53F, 0x87A5EDCE, 0x0719340A, 0x5F6EDE1F, 0x00000000);
    assert Rounds(v0, K, m, 27) == Vars(0x4F2ED1C1, 0x34F3D6D8, 0xD8B5FD4F, 0x87A5EDCE, 0x0719340A);
    RoundAt(v0, m, 27, 0x4F2ED1C1, 0x34F3D6D8, 0xD8B5FD4F, 0x87A5EDCE, 0x0719340A, 0x00000000);
    assert Rounds(v0, K, m, 28) == Vars(0xC7B11E2D, 0x4F2ED1C1, 0x0D3CF5B6, 0xD8B5FD4F, 0x87A5EDCE);
    RoundAt(v0, m, 28, 0xC7B11E2D, 0x4F2ED1C1, 0x0D3CF5B6, 0xD8B5FD4F, 0x87A5EDCE, 0x00000010);
    assert Rounds(v0, K, m, 29) == Vars(0x874B786F, 0xC7B11E2D, 0x53CBB470, 0x0D3CF5B6, 0xD8B5FD4F);
    RoundAt(v0, m, 29, 0x874B786F, 0xC7B11E2D, 0x53CBB470, 0x0D3CF5B6, 0xD8B5FD4F, 0x00000000);
    assert Rounds(v0, K, m, 30) == Vars(0xCA4556CB, 0x874B786F, 0x71EC478B, 0x53CBB470, 0x0D3CF5B6);
    RoundAt(v0, m, 30, 0xCA4556CB, 0x874B786F, 0x71EC478B, 0x53CBB470, 0x0D3CF5B6, 0x0000000A);
    assert Rounds(v0, K, m, 31) == Vars(0x6A2E466E, 0xCA4556CB, 0xE1D2DE1B, 0x71EC478B, 0x53CBB470);
    RoundAt(v0, m, 31, 0x6A2E466E, 0xCA4556CB, 0xE1D2DE1B, 0x71EC478B, 0x53CBB470, 0x00000020);
    assert Rounds(v0, K, m, 32) == Vars(0x62EA3D59, 0x6A2E466E, 0xF29155B2, 0xE1D2DE1B, 0x71EC478B);
    RoundAt(v0, m, 32, 0x62EA3D59, 0x6A2E466E, 0xF29155B2, 0xE1D2DE1B, 0x71EC478B, 0x00000006);
    assert Rounds(v0, K, m, 33) == Vars(0xB77BAC25, 0x62EA3D59, 0x9A8B919B, 0xF29155B2, 0xE1D2DE1B);
    RoundAt(v0, m, 33, 0xB77BAC25, 0x62EA3D59, 0x9A8B919B, 0xF29155B2, 0xE1D2DE1B, 0x00000000);
    assert Rounds(v0, K, m, 34) == Vars(0x4B1347E2, 0xB77BAC25, 0x58BA8F56, 0x9A8B919B, 0xF29155B2);
    RoundAt(v0, m, 34, 0x4B1347E2, 0xB77BAC25, 0x58BA8F56, 0x9A8B919B, 0xF29155B2, 0x00000040);
    assert Rounds(v0, K, m, 35) == Vars(0x391EF0C4, 0x4B1347E2, 0x6DDEEB09, 0x58BA8F56, 0x9A8B919B);
    RoundAt(v0, m, 35, 0x391EF0C4, 0x4B1347E2, 0x6DDEEB09, 0x58BA8F56, 0x9A8B919B, 0x00000008);
    assert Rounds(v0, K, m, 36) == Vars(0xABBAB988, 0x391EF0C4, 0x92C4D1F8, 0x6DDEEB09, 0x58BA8F56);
    RoundAt(v0, m, 36, 0xABBAB988, 0x391EF0C4, 0x92C4D1F8, 0x6DDEEB09, 0x58BA8F56, 0x00000028);
    assert Rounds(v0, K, m, 37) == Vars(0x04F07669, 0xABBAB988, 0x0E47BC31, 0x92C4D1F8, 0x6DDEEB09);
    RoundAt(v0, m, 37, 0x04F07669, 0xABBAB988, 0x0E47BC31, 0x92C4D1F8, 0x6DDEEB09, 0x00000080);
    assert Rounds(v0, K, m, 38) == Vars(0xB201788B, 0x04F07669, 0x2AEEAE62, 0x0E47BC31, 0x92C4D1F8);
    RoundAt(v0, m, 38, 0xB201788B, 0x04F07669, 0x2AEEAE62, 0x0E47BC31, 0x92C4D1F8, 0x00000008);
    assert Rounds(v0, K, m, 39) == Vars(0x62273351, 0xB201788B, 0x413C1D9A, 0x2AEEAE62, 0x0E47BC31);
    RoundAt(v0, m, 39, 0x62273351, 0xB201788B, 0x413C1D9A, 0x2AEEAE62, 0x0E47BC31, 0x00000000);
    assert Rounds(v0, K, m, 40) == Vars(0x9BDBDD71, 0x62273351, 0xEC805E22, 0x413C1D9A, 0x2AEEAE62);
  }

  /** Rounds 40..59 of the padded empty message. */
  lemma EmptyRounds60(v0: Vars, m: seq<Word>)
    requires |m| == 80 && Rounds(v0, K, m, 40) == Vars(0x9BDBDD71, 0x62273351, 0xEC805E22, 0x413C1D9A, 0x2AEEAE62)
    requires m[40] == 0x00000108 && m[41] == 0x00000000 && m[42] == 0x000000A0 && m[43] == 0x00000200
    requires m[44] == 0x00000064 && m[45] == 0x00000000 && m[46] == 0x00000408 && m[47] == 0x00000088
    requires m[48] == 0x0000029C && m[49] == 0x00000800 && m[50] == 0x00000080 && m[51] == 0x00000028
    requires m[52] == 0x00001088 && m[53] == 0x00000000 && m[54] == 0x00000A40 && m[55] == 0x00002000
    requires m[56] == 0x00000668 && m[57] == 0x00000080 && m[58] == 0x00004088 && m[59] == 0x00000880
    ensures Rounds(v0, K, m, 60) == Vars(0x9B9D2913, 0x982BCBCA, 0xB86BEAC8, 0xC5A3382E, 0xAF9292FA)
  {
    RoundAt(v0, m, 40, 0x9BDBDD71, 0x62273351, 0xEC805E22, 0x413C1D9A, 0x2AEEAE62, 0x00000108);
    assert Rounds(v0, K, m, 41) == Vars(0x95AA398B, 0x9BDBDD71, 0x5889CCD4, 0xEC805E22, 0x413C1D9A);
    RoundAt(v0, m, 41, 0x95AA398B, 0x9BDBDD71, 0x5889CCD4, 0xEC805E22, 0x413C1D9A, 0x00000000);
    assert Rounds(v0, K, m, 42) == Vars(0x5E28E858, 0x95AA398B, 0x66F6F75C, 0x5889CCD4, 0xEC805E22);
    RoundAt(v0, m, 42, 0x5E28E858, 0x95AA398B, 0x66F6F75C, 0x5889CCD4, 0xEC805E22, 0x000000A0);
    assert Rounds(v0, K, m, 43) == Vars(0x95642485, 0x5E28E858, 0xE56A8E62, 0x66F6F75C, 0x5889CCD4);
    RoundAt(v0, m, 43, 0x95642485, 0x5E28E858, 0xE56A8E62, 0x66F6F75C, 0x5889CCD4, 0x00000200);
    assert Rounds(v0, K, m, 44) == Vars(0xFA950ABA, 0x95642485, 0x178A3A16, 0xE56A8E62, 0x66F6F75C);
    RoundAt(v0, m, 44, 0xFA950ABA, 0x95642485, 0x178A3A16, 0xE56A8E62, 0x66F6F75C, 0x00000064);
    assert Rounds(v0, K, m, 45) == Vars(0xDE1E3A01, 0xFA950ABA, 0x65590921, 0x178A3A16, 0xE56A8E62);
    RoundAt(v0, m, 45, 0xDE1E3A01, 0xFA950ABA, 0x65590921, 0x178A3A16, 0xE56A8E62, 0x00000000);
    assert Rounds(v0, K, m, 46) == Vars(0xAFE695AB, 0xDE1E3A01, 0xBEA542AE, 0x65590921, 0x178A3A16);
    RoundAt(v0, m, 46, 0xAFE695AB, 0xDE1E3A01, 0xBEA542AE, 0x65590921, 0x178A3A16, 0x00000408);
    assert Rounds(v0, K, m, 47) == Vars(0xA195BA90, 0xAFE695AB, 0x77878E80, 0xBEA542AE, 0x65590921);
    RoundAt(v0, m, 47, 0xA195BA90, 0xAFE695AB, 0x77878E80, 0xBEA542AE, 0x65590921, 0x00000088);
    assert Rounds(v0, K, m, 48) == Vars(0xE6D39F43, 0xA195BA90, 0xEBF9A56A, 0x77878E80, 0xBEA542AE);
    RoundAt(v0, m, 48, 0xE6D39F43, 0xA195BA90, 0xEBF9A56A, 0x77878E80, 0xBEA542AE, 0x0000029C);
    assert Rounds(v0, K, m, 49) == Vars(0x0BCA9922, 0xE6D39F43, 0x28656EA4, 0xEBF9A56A, 0x77878E80);
    RoundAt(v0, m, 49, 0x0BCA9922, 0xE6D39F43, 0x28656EA4, 0xEBF9A56A, 0x77878E80, 0x00000800);
    assert Rounds(v0, K, m, 50) == Vars(0x6AE826FF, 0x0BCA9922, 0xF9B4E7D0, 0x28656EA4, 0xEBF9A56A);
    RoundAt(v0, m, 50, 0x6AE826FF, 0x0BCA9922, 0xF9B4E7D0, 0x28656EA4, 0xEBF9A56A, 0x00000080);
    assert Rounds(v0, K, m, 51) == Vars(0x01FF3253, 0x6AE826FF, 0x82F2A648, 0xF9B4E7D0, 0x28656EA4);
    RoundAt(v0, m, 51, 0x01FF3253, 0x6AE826FF, 0x82F2A648, 0xF9B4E7D0, 0x28656EA4, 0x00000028);
    assert Rounds(v0, K, m, 52) == Vars(0xE2581CE0, 0x01FF3253, 0xDABA09BF, 0x82F2A648, 0xF9B4E7D0);
    RoundAt(v0, m, 52, 0xE2581CE0, 0x01FF3253, 0xDABA09BF, 0x82F2A648, 0xF9B4E7D0, 0x00001088);
    assert Rounds(v0, K, m, 53) == Vars(0x56CE73AB, 0xE2581CE0, 0xC07FCC94, 0xDABA09BF, 0x82F2A648);
    RoundAt(v0, m, 53, 0x56CE73AB, 0xE2581CE0, 0xC07FCC94, 0xDABA09BF, 0x82F2A648, 0x00000000);
    assert Rounds(v0, K, m, 54) == Vars(0xAE56E542, 0x56CE73AB, 0x38960738, 0xC07FCC94, 0xDABA09BF);
    RoundAt(v0, m, 54, 0xAE56E542, 0x56CE73AB, 0x38960738, 0xC07FCC94, 0xDABA09BF, 0x00000A40);
    assert Rounds(v0, K, m, 55) == Vars(0x8590C0E8, 0xAE56E542, 0xD5B39CEA, 0x38960738, 0xC07FCC94);
    RoundAt(v0, m, 55, 0x8590C0E8, 0xAE56E542, 0xD5B39CEA, 0x38960738, 0xC07FCC94, 0x00002000);
    assert Rounds(v0, K, m, 56) == Vars(0xBE4A4BEA, 0x8590C0E8, 0xAB95B950, 0xD5B39CEA, 0x38960738);
    RoundAt(v0, m, 56, 0xBE4A4BEA, 0x8590C0E8, 0xAB95B950, 0xD5B39CEA, 0x38960738, 0x00000668);
    assert Rounds(v0, K, m, 57) == Vars(0x168CE0BB, 0xBE4A4BEA, 0x2164303A, 0xAB95B950, 0xD5B39CEA);
    RoundAt(v0, m, 57, 0x168CE0BB, 0xBE4A4BEA, 0x2164303A, 0xAB95B950, 0xD5B39CEA, 0x00000080);
    assert Rounds(v0, K, m, 58) == Vars(0xE1AFAB22, 0x168CE0BB, 0xAF9292FA, 0x2164303A, 0xAB95B950);
    RoundAt(v0, m, 58, 0xE1AFAB22, 0x168CE0BB, 0xAF9292FA, 0x2164303A, 0xAB95B950, 0x00004088);
    assert Rounds(v0, K, m, 59) == Vars(0x982BCBCA, 0xE1AFAB22, 0xC5A3382E, 0xAF9292FA, 0x2164303A);
    RoundAt(v0, m, 59, 0x982BCBCA, 0xE1AFAB22, 0xC5A3382E, 0xAF9292FA, 0x2164303A, 0x00000880);
    assert Rounds(v0, K, m, 60) == Vars(0x9B9D2913, 0x982BCBCA, 0xB86BEAC8, 0xC5A3382E, 0xAF9292FA);
  }

  /** Rounds 60..79 of the padded empty message. */
  lemma EmptyRounds80(v0: Vars, m: seq<Word>)
    requires |m| == 80 && Rounds(v0, K, m, 60) == Vars(0x9B9D2913, 0x982BCBCA, 0xB86BEAC8, 0xC5A3382E, 0xAF9292FA)
    requires m[60] == 0x000028C8 && m[61] == 0x00008000 && m[62] == 0x000008A8 && m[63] == 0x00000080
    requires m[64] == 0x000108E8 && m[65] == 0x00000000 && m[66] == 0x0000A000 && m[67] == 0x00020080
    requires m[68] == 0x00006400 && m[69] == 0x00000000 && m[70] == 0x00040800 && m[71] == 0x00008800
    requires m[72] == 0x00029C10 && m[73] == 0x00080000 && m[74] == 0x00008080 && m[75] == 0x00002820
    requires m[76] == 0x001088C0 && m[77] == 0x00000000 && m[78] == 0x000A40C0 && m[79] == 0x00200080
    ensures Rounds(v0, K, m, 80) == Vars(0x72F480ED, 0x6E9D9F84, 0x999AE2F1, 0x852DC41A, 0xEC052519)
  {
    RoundAt(v0, m, 60, 0x9B9D2913, 0x982BCBCA, 0xB86BEAC8, 0xC5A3382E, 0xAF9292FA, 0x000028C8);
    assert Rounds(v0, K, m, 61) == Vars(0xD37DB937, 0x9B9D2913, 0xA60AF2F2, 0xB86BEAC8, 0xC5A3382E);
    RoundAt(v0, m, 61, 0xD37DB937, 0x9B9D2913, 0xA60AF2F2, 0xB86BEAC8, 0xC5A3382E, 0x00008000);
    assert Rounds(v0, K, m, 62) == Vars(0x85B9D227, 0xD37DB937, 0xE6E74A44, 0xA60AF2F2, 0xB86BEAC8);
    RoundAt(v0, m, 62, 0x85B9D227, 0xD37DB937, 0xE6E74A44, 0xA60AF2F2, 0xB86BEAC8, 0x000008A8);
    assert Rounds(v0, K, m, 63) == Vars(0xCD98FBB7, 0x85B9D227, 0xF4DF6E4D, 0xE6E74A44, 0xA60AF2F2);
    RoundAt(v0, m, 63, 0xCD98FBB7, 0x85B9D227, 0xF4DF6E4D, 0xE6E74A44, 0xA60AF2F2, 0x00000080);
    assert Rounds(v0, K, m, 64) == Vars(0xBB0F226F, 0xCD98FBB7, 0xE16E7489, 0xF4DF6E4D, 0xE6E74A44);
    RoundAt(v0, m, 64, 0xBB0F226F, 0xCD98FBB7, 0xE16E7489, 0xF4DF6E4D, 0xE6E74A44, 0x000108E8);
    assert Rounds(v0, K, m, 65) == Vars(0xEB59446C, 0xBB0F226F, 0xF3663EED, 0xE16E7489, 0xF4DF6E4D);
    RoundAt(v0, m, 65, 0xEB59446C, 0xBB0F226F, 0xF3663EED, 0xE16E7489, 0xF4DF6E4D, 0x00000000);
    assert Rounds(v0, K, m, 66) == Vars(0xD37225CB, 0xEB59446C, 0xEEC3C89B, 0xF3663EED, 0xE16E7489);
    RoundAt(v0, m, 66, 0xD37225CB, 0xEB59446C, 0xEEC3C89B, 0xF3663EED, 0xE16E7489, 0x0000A000);
    assert Rounds(v0, K, m, 67) == Vars(0x111341F3, 0xD37225CB, 0x3AD6511B, 0xEEC3C89B, 0xF3663EED);
    RoundAt(v0, m, 67, 0x111341F3, 0xD37225CB, 0x3AD6511B, 0xEEC3C89B, 0xF3663EED, 0x00020080);
    assert Rounds(v0, K, m, 68) == Vars(0xE79AFBF0, 0x111341F3, 0xF4DC8972, 0x3AD6511B, 0xEEC3C89B);
    RoundAt(v0, m, 68, 0xE79AFBF0, 0x111341F3, 0xF4DC8972, 0x3AD6511B, 0xEEC3C89B, 0x00006400);
    assert Rounds(v0, K, m, 69) == Vars(0x8BA00627, 0xE79AFBF0, 0xC444D07C, 0xF4DC8972, 0x3AD6511B);
    RoundAt(v0, m, 69, 0x8BA00627, 0xE79AFBF0, 0xC444D07C, 0xF4DC8972, 0x3AD6511B, 0x00000000);
    assert Rounds(v0, K, m, 70) == Vars(0x503C7AE0, 0x8BA00627, 0x39E6BEFC, 0xC444D07C, 0xF4DC8972);
    RoundAt(v0, m, 70, 0x503C7AE0, 0x8BA00627, 0x39E6BEFC, 0xC444D07C, 0xF4DC8972, 0x00040800);
    assert Rounds(v0, K, m, 71) == Vars(0x3CD517F9, 0x503C7AE0, 0xE2E80189, 0x39E6BEFC, 0xC444D07C);
    RoundAt(v0, m, 71, 0x3CD517F9, 0x503C7AE0, 0xE2E80189, 0x39E6BEFC, 0xC444D07C, 0x00008800);
    assert Rounds(v0, K, m, 72) == Vars(0xB47DDF0E, 0x3CD517F9, 0x140F1EB8, 0xE2E80189, 0x39E6BEFC);
    RoundAt(v0, m, 72, 0xB47DDF0E, 0x3CD517F9, 0x140F1EB8, 0xE2E80189, 0x39E6BEFC, 0x00029C10);
    assert Rounds(v0, K, m, 73) == Vars(0x5E3A0780, 0xB47DDF0E, 0x4F3545FE, 0x140F1EB8, 0xE2E80189);
    RoundAt(v0, m, 73, 0x5E3A0780, 0xB47DDF0E, 0x4F3545FE, 0x140F1EB8, 0xE2E80189, 0x00080000);
    assert Rounds(v0, K, m, 74) == Vars(0x63DB37B2, 0x5E3A0780, 0xAD1F77C3, 0x4F3545FE, 0x140F1EB8);
    RoundAt(v0, m, 74, 0x63DB37B2, 0x5E3A0780, 0xAD1F77C3, 0x4F3545FE, 0x140F1EB8, 0x00008080);
    assert Rounds(v0, K, m, 75) == Vars(0x15E98D17, 0x63DB37B2, 0x178E81E0, 0xAD1F77C3, 0x4F3545FE);
    RoundAt(v0, m, 75, 0x15E98D17, 0x63DB37B2, 0x178E81E0, 0xAD1F77C3, 0x4F3545FE, 0x00002820);
    assert Rounds(v0, K, m, 76) == Vars(0xB0149467, 0x15E98D17, 0x98F6CDEC, 0x178E81E0, 0xAD1F77C3);
    RoundAt(v0, m, 76, 0xB0149467, 0x15E98D17, 0x98F6CDEC, 0x178E81E0, 0xAD1F77C3, 0x001088C0);
    assert Rounds(v0, K, m, 77) == Vars(0x14B7106A, 0xB0149467, 0xC57A6345, 0x98F6CDEC, 0x178E81E0);
    RoundAt(v0, m, 77, 0x14B7106A, 0xB0149467, 0xC57A6345, 0x98F6CDEC, 0x178E81E0, 0x00000000);
    assert Rounds(v0, K, m, 78) == Vars(0x666B8BC6, 0x14B7106A, 0xEC052519, 0xC57A6345, 0x98F6CDEC);
    RoundAt(v0, m, 78, 0x666B8BC6, 0x14B7106A, 0xEC052519, 0xC57A6345, 0x98F6CDEC, 0x000A40C0);
    assert Rounds(v0, K, m, 79) == Vars(0x6E9D9F84, 0x666B8BC6, 0x852DC41A, 0xEC052519, 0xC57A6345);
    RoundAt(v0, m, 79, 0x6E9D9F84, 0x666B8BC6, 0x852DC41A, 0xEC052519, 0xC57A6345, 0x00200080);
    assert Rounds(v0, K, m, 80) == Vars(0x72F480ED, 0x6E9D9F84, 0x999AE2F1, 0x852DC41A, 0xEC052519);
  }

  /** The compression of the padded empty message into the state [67452301, efcdab89, 98badcfe, 10325476, c3d2e1f0]. */
  lemma EmptyCompress(block: seq<Byte>)
    requires block == [0x80] + Zeros(55) + [0, 0, 0, 0, 0, 0, 0, 0]
    ensures Compress([0x67452301, 0xEFCDAB89, 0x98BADCFE, 0x10325476, 0xC3D2E1F0], K, block) == [0xDA39A3EE, 0x5E6B4B0D, 0x3255BFEF, 0x95601890, 0xAFD80709]
  {
    EmptyWords4(block);
    EmptyWords8(block);
    EmptyWords12(block);
    EmptyWords16(block);
    var m := Schedule(block);
    ScheduleFacts(block);
    EmptySchedule32(m);
    EmptySchedule48(m);
    EmptySchedule64(m);
    EmptySchedule80(m);
    var v0 := Vars(0x67452301, 0xEFCDAB89, 0x98BADCFE, 0x10325476, 0xC3D2E1F0);
    EmptyRounds20(v0, m);
    EmptyRounds40(v0, m);
    EmptyRounds60(v0, m);
    EmptyRounds80(v0, m);
  }

  /** The empty message padded: 0x80, 55 zero bytes, then a zero 64-bit count. */
  lemma EmptyPad()
    ensures Pad([]) == [0x80] + Zeros(55) + [0, 0, 0, 0, 0, 0, 0, 0]
  {
    assert BitLength(0) == 0;
    LengthBytesSmall(0);
  }

  /** SHA-1 of the empty message is da39a3ee 5e6b4b0d 3255bfef 95601890 afd80709. */
  lemma Sha1Empty()
    ensures Sha1([]) == Digest([0xDA39A3EE, 0x5E6B4B0D, 0x3255BFEF, 0x95601890, 0xAFD80709])
  {
    EmptyPad();
    HashBlocksOne(H0, K, Pad([]));
    EmptyCompress(Pad([]));
  }

  /** The digest of the empty message as the 20 bytes the test compares. */
  lemma EmptyDigestBytes()
    ensures Digest([0xDA39A3EE, 0x5E6B4B0D, 0x3255BFEF, 0x95601890, 0xAFD80709]) ==
      [0xda, 0x39, 0xa3, 0xee, 0x5e, 0x6b, 0x4b, 0x0d, 0x32, 0x55, 0xbf, 0xef, 0x95, 0x60, 0x18, 0x90, 0xaf, 0xd8, 0x07, 0x09]
  {
  }

  // ---------------------------------------------------------------------------
  // SHA-1 of the 56-byte string: two blocks
  // ---------------------------------------------------------------------------

  /** Big-endian words 0..3 of the first block of the padded 56-byte string. */
  lemma AbcdbFirstWords4(block: seq<Byte>)
    requires block == ABCDB + [0x80] + Zeros(7)
    ensures |block| == 64
    ensures ReadWord(block, 0) == 0x61626364 && ReadWord(block, 4) == 0x62636465 && ReadWord(block, 8) == 0x63646566 && ReadWord(block, 12) == 0x64656667
  {
  }

  /** Big-endian words 4..7 of the first block of the padded 56-byte string. */
  lemma AbcdbFirstWords8(block: seq<Byte>)
    requires block == ABCDB + [0x80] + Zeros(7)
    ensures |block| == 64
    ensures ReadWord(block, 16) == 0x65666768 && ReadWord(block, 20) == 0x66676869 && ReadWord(block, 24) == 0x6768696A && ReadWord(block, 28) == 0x68696A6B
  {
  }

  /** Big-endian words 8..11 of the first block of the padded 56-byte string. */
  lemma AbcdbFirstWords12(block: seq<Byte>)
    requires block == ABCDB + [0x80] + Zeros(7)
    ensures |block| == 64
    ensures ReadWord(block, 32) == 0x696A6B6C && ReadWord(block, 36) == 0x6A6B6C6D && ReadWord(block, 40) == 0x6B6C6D6E && ReadWord(block, 44) == 0x6C6D6E6F
  {
  }

  /** Big-endian words 12..15 of the first block of the padded 56-byte string. */
  lemma AbcdbFirstWords16(block: seq<Byte>)
    requires block == ABCDB + [0x80] + Zeros(7)
    ensures |block| == 64
    ensures ReadWord(block, 48) == 0x6D6E6F70 && ReadWord(block, 52) == 0x6E6F7071 && ReadWord(block, 56) == 0x80000000 && ReadWord(block, 60) == 0x00000000
  {
  }

  /** Schedule words 16..31 of the first block of the padded 56-byte string. */
  lemma AbcdbFirstSchedule32(m: seq<Word>)
    requires |m| == 80 && forall i :: 16 <= i < 80 ==> Recurrence(m, i)
    requires m[0] == 0x61626364 && m[1] == 0x62636465 && m[2] == 0x63646566 && m[3] == 0x64656667
    requires m[4] == 0x65666768 && m[5] == 0x66676869 && m[6] == 0x6768696A && m[7] == 0x68696A6B
    requires m[8] == 0x696A6B6C && m[9] == 0x6A6B6C6D && m[10] == 0x6B6C6D6E && m[11] == 0x6C6D6E6F
    requires m[12] == 0x6D6E6F70 && m[13] == 0x6E6F7071 && m[14] == 0x80000000 && m[15] == 0x00000000
    ensures m[16] == 0x0A063A3E && m[17] == 0xD8DADCDF && m[18] == 0xDADCDEC0 && m[19] == 0xC8D2B4BE
    ensures m[20] == 0x6F757B5B && m[21] == 0x757B5967 && m[22] == 0x8DA16D70 && m[23] == 0xDAEEFABA
    ensures m[24] == 0xFAF6CAB6 && m[25] == 0xA6FB675A && m[26] == 0x0C604CC8 && m[27] == 0x604CC02C
    ensures m[28] == 0x49C0E6E2 && m[29] == 0x2EE8CBBC && m[30] == 0xCFD72EC4 && m[31] == 0x97E9810E
  {
    ScheduleAt(m, 16, 0x6E6F7071, 0x696A6B6C, 0x63646566, 0x61626364);
    ScheduleAt(m, 17, 0x80000000, 0x6A6B6C6D, 0x64656667, 0x62636465);
    ScheduleAt(m, 18, 0x00000000, 0x6B6C6D6E, 0x65666768, 0x63646566);
    ScheduleAt(m, 19, 0x0A063A3E, 0x6C6D6E6F, 0x66676869, 0x64656667);
    ScheduleAt(m, 20, 0xD8DADCDF, 0x6D6E6F70, 0x6768696A, 0x65666768);
    ScheduleAt(m, 21, 0xDADCDEC0, 0x6E6F7071, 0x68696A6B, 0x66676869);
    ScheduleAt(m, 22, 0xC8D2B4BE, 0x80000000, 0x696A6B6C, 0x6768696A);
    ScheduleAt(m, 23, 0x6F757B5B, 0x00000000, 0x6A6B6C6D, 0x68696A6B);
    ScheduleAt(m, 24, 0x757B5967, 0x0A063A3E, 0x6B6C6D6E, 0x696A6B6C);
    ScheduleAt(m, 25, 0x8DA16D70, 0xD8DADCDF, 0x6C6D6E6F, 0x6A6B6C6D);
    ScheduleAt(m, 26, 0xDAEEFABA, 0xDADCDEC0, 0x6D6E6F70, 0x6B6C6D6E);
    ScheduleAt(m, 27, 0xFAF6CAB6, 0xC8D2B4BE, 0x6E6F7071, 0x6C6D6E6F);
    ScheduleAt(m, 28, 0xA6FB675A, 0x6F757B5B, 0x80000000, 0x6D6E6F70);
    ScheduleAt(m, 29, 0x0C604CC8, 0x757B5967, 0x00000000, 0x6E6F7071);
    ScheduleAt(m, 30, 0x604CC02C, 0x8DA16D70, 0x0A063A3E, 0x80000000);
    ScheduleAt(m, 31, 0x49C0E6E2, 0xDAEEFABA, 0xD8DADCDF, 0x00000000);
  }

  /** Schedule words 32..47 of the first block of the padded 56-byte string. */
  lemma AbcdbFirstSchedule48(m: seq<Word>)
    requires |m| == 80 && forall i :: 16 <= i < 80 ==> Recurrence(m, i)
    requires m[16] == 0x0A063A3E && m[17] == 0xD8DADCDF && m[18] == 0xDADCDEC0 && m[19] == 0xC8D2B4BE
    requires m[20] == 0x6F757B5B && m[21] == 0x757B5967 && m[22] == 0x8DA16D70 && m[23] == 0xDAEEFABA
    requires m[24] == 0xFAF6CAB6 && m[25] == 0xA6FB675A && m[26] == 0x0C604CC8 && m[27] == 0x604CC02C
    requires m[28] == 0x49C0E6E2 && m[29] == 0x2EE8CBBC && m[30] == 0xCFD72EC4 && m[31] == 0x97E9810E
    ensures m[32] == 0x0989CBE8 && m[33] == 0xF24843FE && m[34] == 0x5C40D0BA && m[35] == 0xA8D9CC3B
    ensures m[36] == 0xB2B9666E && m[37] == 0xBA7B71B7 && m[38] == 0x20B28A72 && m[39] == 0xB28AF500
    ensures m[40] == 0x8AC87842 && m[41] == 0x289ADDF4 && m[42] == 0x56D51F21 && m[43] == 0xD96B7FD2
    ensures m[44] == 0x3868E778 && m[45] == 0xAB5E4848 && m[46] == 0x7F0E2118 && m[47] == 0xDE87A111
  {
    ScheduleAt(m, 32, 0x2EE8CBBC, 0xFAF6CAB6, 0xDADCDEC0, 0x0A063A3E);
    ScheduleAt(m, 33, 0xCFD72EC4, 0xA6FB675A, 0xC8D2B4BE, 0xD8DADCDF);
    ScheduleAt(m, 34, 0x97E9810E, 0x0C604CC8, 0x6F757B5B, 0xDADCDEC0);
    ScheduleAt(m, 35, 0x0989CBE8, 0x604CC02C, 0x757B5967, 0xC8D2B4BE);
    ScheduleAt(m, 36, 0xF24843FE, 0x49C0E6E2, 0x8DA16D70, 0x6F757B5B);
    ScheduleAt(m, 37, 0x5C40D0BA, 0x2EE8CBBC, 0xDAEEFABA, 0x757B5967);
    ScheduleAt(m, 38, 0xA8D9CC3B, 0xCFD72EC4, 0xFAF6CAB6, 0x8DA16D70);
    ScheduleAt(m, 39, 0xB2B9666E, 0x97E9810E, 0xA6FB675A, 0xDAEEFABA);
    ScheduleAt(m, 40, 0xBA7B71B7, 0x0989CBE8, 0x0C604CC8, 0xFAF6CAB6);
    ScheduleAt(m, 41, 0x20B28A72, 0xF24843FE, 0x604CC02C, 0xA6FB675A);
    ScheduleAt(m, 42, 0xB28AF500, 0x5C40D0BA, 0x49C0E6E2, 0x0C604CC8);
    ScheduleAt(m, 43, 0x8AC87842, 0xA8D9CC3B, 0x2EE8CBBC, 0x604CC02C);
    ScheduleAt(m, 44, 0x289ADDF4, 0xB2B9666E, 0xCFD72EC4, 0x49C0E6E2);
    ScheduleAt(m, 45, 0x56D51F21, 0xBA7B71B7, 0x97E9810E, 0x2EE8CBBC);
    ScheduleAt(m, 46, 0xD96B7FD2, 0x20B28A72, 0x0989CBE8, 0xCFD72EC4);
    ScheduleAt(m, 47, 0x3868E778, 0xB28AF500, 0xF24843FE, 0x97E9810E);
  }

  /** Schedule words 48..63 of the first block of the padded 56-byte string. */
  lemma AbcdbFirstSchedule64(m: seq<Word>)
    requires |m| == 80 && forall i :: 16 <= i < 80 ==> Recurrence(m, i)
    requires m[32] == 0x0989CBE8 && m[33] == 0xF24843FE && m[34] == 0x5C40D0BA && m[35] == 0xA8D9CC3B
    requires m[36] == 0xB2B9666E && m[37] == 0xBA7B71B7 && m[38] == 0x20B28A72 && m[39] == 0xB28AF500
    requires m[40] == 0x8AC87842 && m[41] == 0x289ADDF4 && m[42] == 0x56D51F21 && m[43] == 0xD96B7FD2
    requires m[44] == 0x3868E778 && m[45] == 0xAB5E4848 && m[46] == 0x7F0E2118 && m[47] == 0xDE87A111
    ensures m[48] == 0xE8BE56B0 && m[49] == 0x1A0AE652 && m[50] == 0xCD5611C8 && m[51] == 0x46EF29DC
    ensures m[52] == 0x60D3DA6D && m[53] == 0xDDF3BA6E && m[54] == 0x2737F5E9 && m[55] == 0x4888A710
    ensures m[56] == 0xD2A1177B && m[57] == 0x9999633B && m[58] == 0xD6C69D03 && m[59] == 0xCCF6127B
    ensures m[60] == 0x7C58FE6D && m[61] == 0xFDD99C68 && m[62] == 0xF8E32074 && m[63] == 0xE0BA3C7D
  {
    ScheduleAt(m, 48, 0xAB5E4848, 0x8AC87842, 0x5C40D0BA, 0x0989CBE8);
    ScheduleAt(m, 49, 0x7F0E2118, 0x289ADDF4, 0xA8D9CC3B, 0xF24843FE);
    ScheduleAt(m, 50, 0xDE87A111, 0x56D51F21, 0xB2B9666E, 0x5C40D0BA);
    ScheduleAt(m, 51, 0xE8BE56B0, 0xD96B7FD2, 0xBA7B71B7, 0xA8D9CC3B);
    ScheduleAt(m, 52, 0x1A0AE652, 0x3868E778, 0x20B28A72, 0xB2B9666E);
    ScheduleAt(m, 53, 0xCD5611C8, 0xAB5E4848, 0xB28AF500, 0xBA7B71B7);
    ScheduleAt(m, 54, 0x46EF29DC, 0x7F0E2118, 0x8AC87842, 0x20B28A72);
    ScheduleAt(m, 55, 0x60D3DA6D, 0xDE87A111, 0x289ADDF4, 0xB28AF500);
    ScheduleAt(m, 56, 0xDDF3BA6E, 0xE8BE56B0, 0x56D51F21, 0x8AC87842);
    ScheduleAt(m, 57, 0x2737F5E9, 0x1A0AE652, 0xD96B7FD2, 0x289ADDF4);
    ScheduleAt(m, 58, 0x4888A710, 0xCD5611C8, 0x3868E778, 0x56D51F21);
    ScheduleAt(m, 59, 0xD2A1177B, 0x46EF29DC, 0xAB5E4848, 0xD96B7FD2);
    ScheduleAt(m, 60, 0x9999633B, 0x60D3DA6D, 0x7F0E2118, 0x3868E778);
    ScheduleAt(m, 61, 0xD6C69D03, 0xDDF3BA6E, 0xDE87A111, 0xAB5E4848);
    ScheduleAt(m, 62, 0xCCF6127B, 0x2737F5E9, 0xE8BE56B0, 0x7F0E2118);
    ScheduleAt(m, 63, 0x7C58FE6D, 0x4888A710, 0x1A0AE652, 0xDE87A111);
  }

  /** Schedule words 64..79 of the first block of the padded 56-byte string. */
  lemma AbcdbFirstSchedule80(m: seq<Word>)
    requires |m| == 80 && forall i :: 16 <= i < 80 ==> Recurrence(m, i)
    requires m[48] == 0xE8BE56B0 && m[49] == 0x1A0AE652 && m[50] == 0xCD5611C8 && m[51] == 0x46EF29DC
    requires m[52] == 0x60D3DA6D && m[53] == 0xDDF3BA6E && m[54] == 0x2737F5E9 && m[55] == 0x4888A710
    requires m[56] == 0xD2A1177B && m[57] == 0x9999633B && m[58] == 0xD6C69D03 && m[59] == 0xCCF6127B
    requires m[60] == 0x7C58FE6D && m[61] == 0xFDD99C68 && m[62] == 0xF8E32074 && m[63] == 0xE0BA3C7D
    ensures m[64] == 0x152198D6 && m[65] == 0x7B3F1982 && m[66] == 0x37F2D5B7 && m[67] == 0x8596323E
    ensures m[68] == 0x810790D6 && m[69] == 0xBEA0A942 && m[70] == 0x11C7E1B1 && m[71] == 0x6158D101
    ensures m[72] == 0x5FCD77D9 && m[73] == 0x7F2F12E6 && m[74] == 0xF868CFB1 && m[75] == 0xD6E997E9
    ensures m[76] == 0xF526B852 && m[77] == 0xB7578DCC && m[78] == 0x55D99DF4 && m[79] == 0x1FF69958
  {
    ScheduleAt(m, 64, 0xFDD99C68, 0xD2A1177B, 0xCD5611C8, 0xE8BE56B0);
    ScheduleAt(m, 65, 0xF8E32074, 0x9999633B, 0x46EF29DC, 0x1A0AE652);
    ScheduleAt(m, 66, 0xE0BA3C7D, 0xD6C69D03, 0x60D3DA6D, 0xCD5611C8);
    ScheduleAt(m, 67, 0x152198D6, 0xCCF6127B, 0xDDF3BA6E, 0x46EF29DC);
    ScheduleAt(m, 68, 0x7B3F1982, 0x7C58FE6D, 0x2737F5E9, 0x60D3DA6D);
    ScheduleAt(m, 69, 0x37F2D5B7, 0xFDD99C68, 0x4888A710, 0xDDF3BA6E);
    ScheduleAt(m, 70, 0x8596323E, 0xF8E32074, 0xD2A1177B, 0x2737F5E9);
    ScheduleAt(m, 71, 0x810790D6, 0xE0BA3C7D, 0x9999633B, 0x4888A710);
    ScheduleAt(m, 72, 0xBEA0A942, 0x152198D6, 0xD6C69D03, 0xD2A1177B);
    ScheduleAt(m, 73, 0x11C7E1B1, 0x7B3F1982, 0xCCF6127B, 0x9999633B);
    ScheduleAt(m, 74, 0x6158D101, 0x37F2D5B7, 0x7C58FE6D, 0xD6C69D03);
    ScheduleAt(m, 75, 0x5FCD77D9, 0x8596323E, 0xFDD99C68, 0xCCF6127B);
    ScheduleAt(m, 76, 0x7F2F12E6, 0x810790D6, 0xF8E32074, 0x7C58FE6D);
    ScheduleAt(m, 77, 0xF868CFB1, 0xBEA0A942, 0xE0BA3C7D, 0xFDD99C68);
    ScheduleAt(m, 78, 0xD6E997E9, 0x11C7E1B1, 0x152198D6, 0xF8E32074);
    ScheduleAt(m, 79, 0xF526B852, 0x6158D101, 0x7B3F1982, 0xE0BA3C7D);
  }

  /** Rounds 0..19 of the first block of the padded 56-byte string. */
  lemma AbcdbFirstRounds20(v0: Vars, m: seq<Word>)
    requires |m| == 80 && Rounds(v0, K, m, 0) == Vars(0x67452301, 0xEFCDAB89, 0x98BADCFE, 0x10325476, 0xC3D2E1F0)
    requires m[0] == 0x61626364 && m[1] == 0x62636465 && m[2] == 0x63646566 && m[3] == 0x64656667
    requires m[4] == 0x65666768 && m[5] == 0x66676869 && m[6] == 0x6768696A && m[7] == 0x68696A6B
    requires m[8] == 0x696A6B6C && m[9] == 0x6A6B6C6D && m[10] == 0x6B6C6D6E && m[11] == 0x6C6D6E6F
    requires m[12] == 0x6D6E6F70 && m[13] == 0x6E6F7071 && m[14] == 0x80000000 && m[15] == 0x00000000
    requires m[16] == 0x0A063A3E && m[17] == 0xD8DADCDF && m[18] == 0xDADCDEC0 && m[19] == 0xC8D2B4BE
    ensures Rounds(v0, K, m, 20) == Vars(0x6C445652, 0x944B1BD1, 0x509AE70D, 0x1AC1A012, 0x5098DF8E)
  {
    RoundAt(v0, m, 0, 0x67452301, 0xEFCDAB89, 0x98BADCFE, 0x10325476, 0xC3D2E1F0, 0x61626364);
    assert Rounds(v0, K, m, 1) == Vars(0x0116FC17, 0x67452301, 0x7BF36AE2, 0x98BADCFE, 0x10325476);
    RoundAt(v0, m, 1, 0x0116FC17, 0x67452301, 0x7BF36AE2, 0x98BADCFE, 0x10325476, 0x62636465);
    assert Rounds(v0, K, m, 2) == Vars(0xEBF3B452, 0x0116FC17, 0x59D148C0, 0x7BF36AE2, 0x98BADCFE);
    RoundAt(v0, m, 2, 0xEBF3B452, 0x0116FC17, 0x59D148C0, 0x7BF36AE2, 0x98BADCFE, 0x63646566);
    assert Rounds(v0, K, m, 3) == Vars(0x5109913A, 0xEBF3B452, 0xC045BF05, 0x59D148C0, 0x7BF36AE2);
    RoundAt(v0, m, 3, 0x5109913A, 0xEBF3B452, 0xC045BF05, 0x59D148C0, 0x7BF36AE2, 0x64656667);
    assert Rounds(v0, K, m, 4) == Vars(0x2C4F6EAC, 0x5109913A, 0xBAFCED14, 0xC045BF05, 0x59D148C0);
    RoundAt(v0, m, 4, 0x2C4F6EAC, 0x5109913A, 0xBAFCED14, 0xC045BF05, 0x59D148C0, 0x65666768);
    assert Rounds(v0, K, m, 5) == Vars(0x33F4AE5B, 0x2C4F6EAC, 0x9442644E, 0xBAFCED14, 0xC045BF05);
    RoundAt(v0, m, 5, 0x33F4AE5B, 0x2C4F6EAC, 0x9442644E, 0xBAFCED14, 0xC045BF05, 0x66676869);
    assert Rounds(v0, K, m, 6) == Vars(0x96B85189, 0x33F4AE5B, 0x0B13DBAB, 0x9442644E, 0xBAFCED14);
    RoundAt(v0, m, 6, 0x96B85189, 0x33F4AE5B, 0x0B13DBAB, 0x9442644E, 0xBAFCED14, 0x6768696A);
    assert Rounds(v0, K, m, 7) == Vars(0xDB04CB58, 0x96B85189, 0xCCFD2B96, 0x0B13DBAB, 0x9442644E);
    RoundAt(v0, m, 7, 0xDB04CB58, 0x96B85189, 0xCCFD2B96, 0x0B13DBAB, 0x9442644E, 0x68696A6B);
    assert Rounds(v0, K, m, 8) == Vars(0x45833F0F, 0xDB04CB58, 0x65AE1462, 0xCCFD2B96, 0x0B13DBAB);
    RoundAt(v0, m, 8, 0x45833F0F, 0xDB04CB58, 0x65AE1462, 0xCCFD2B96, 0x0B13DBAB, 0x696A6B6C);
    assert Rounds(v0, K, m, 9) == Vars(0xC565C35E, 0x45833F0F, 0x36C132D6, 0x65AE1462, 0xCCFD2B96);
    RoundAt(v0, m, 9, 0xC565C35E, 0x45833F0F, 0x36C132D6, 0x65AE1462, 0xCCFD2B96, 0x6A6B6C6D);
    assert Rounds(v0, K, m, 10) == Vars(0x6350AFDA, 0xC565C35E, 0xD160CFC3, 0x36C132D6, 0x65AE1462);
    RoundAt(v0, m, 10, 0x6350AFDA, 0xC565C35E, 0xD160CFC3, 0x36C132D6, 0x65AE1462, 0x6B6C6D6E);
    assert Rounds(v0, K, m, 11) == Vars(0x8993EA77, 0x6350AFDA, 0xB15970D7, 0xD160CFC3, 0x36C132D6);
    RoundAt(v0, m, 11, 0x8993EA77, 0x6350AFDA, 0xB15970D7, 0xD160CFC3, 0x36C132D6, 0x6C6D6E6F);
    assert Rounds(v0, K, m, 12) == Vars(0xE19ECAA2, 0x8993EA77, 0x98D42BF6, 0xB15970D7, 0xD160CFC3);
    RoundAt(v0, m, 12, 0xE19ECAA2, 0x8993EA77, 0x98D42BF6, 0xB15970D7, 0xD160CFC3, 0x6D6E6F70);
    assert Rounds(v0, K, m, 13) == Vars(0x8603481E, 0xE19ECAA2, 0xE264FA9D, 0x98D42BF6, 0xB15970D7);
    RoundAt(v0, m, 13, 0x8603481E, 0xE19ECAA2, 0xE264FA9D, 0x98D42BF6, 0xB15970D7, 0x6E6F7071);
    assert Rounds(v0, K, m, 14) == Vars(0x32F94A85, 0x8603481E, 0xB867B2A8, 0xE264FA9D, 0x98D42BF6);
    RoundAt(v0, m, 14, 0x32F94A85, 0x8603481E, 0xB867B2A8, 0xE264FA9D, 0x98D42BF6, 0x80000000);
    assert Rounds(v0, K, m, 15) == Vars(0xB2E7A8BE, 0x32F94A85, 0xA180D207, 0xB867B2A8, 0xE264FA9D);
    RoundAt(v0, m, 15, 0xB2E7A8BE, 0x32F94A85, 0xA180D207, 0xB867B2A8, 0xE264FA9D, 0x00000000);
    assert Rounds(v0, K, m, 16) == Vars(0x42637E39, 0xB2E7A8BE, 0x4CBE52A1, 0xA180D207, 0xB867B2A8);
    RoundAt(v0, m, 16, 0x42637E39, 0xB2E7A8BE, 0x4CBE52A1, 0xA180D207, 0xB867B2A8, 0x0A063A3E);
    assert Rounds(v0, K, m, 17) == Vars(0x6B068048, 0x42637E39, 0xACB9EA2F, 0x4CBE52A1, 0xA180D207);
    RoundAt(v0, m, 17, 0x6B068048, 0x42637E39, 0xACB9EA2F, 0x4CBE52A1, 0xA180D207, 0xD8DADCDF);
    assert Rounds(v0, K, m, 18) == Vars(0x426B9C35, 0x6B068048, 0x5098DF8E, 0xACB9EA2F, 0x4CBE52A1);
    RoundAt(v0, m, 18, 0x426B9C35, 0x6B068048, 0x5098DF8E, 0xACB9EA2F, 0x4CBE52A1, 0xDADCDEC0);
    assert Rounds(v0, K, m, 19) == Vars(0x944B1BD1, 0x426B9C35, 0x1AC1A012, 0x5098DF8E, 0xACB9EA2F);
    RoundAt(v0, m, 19, 0x944B1BD1, 0x426B9C35, 0x1AC1A012, 0x5098DF8E, 0xACB9EA2F, 0xC8D2B4BE);
    assert Rounds(v0, K, m, 20) == Vars(0x6C445652, 0x944B1BD1, 0x509AE70D, 0x1AC1A012, 0x5098DF8E);
  }

  /** Rounds 20..39 of the first block of the padded 56-byte string. */
  lemma AbcdbFirstRounds40(v0: Vars, m: seq<Word>)
    requires |m| == 80 && Rounds(v0, K, m, 20) == Vars(0x6C445652, 0x944B1BD1, 0x509AE70D, 0x1AC1A012, 0x5098DF8E)
    requires m[20] == 0x6F757B5B && m[21] == 0x757B5967 && m[22] == 0x8DA16D70 && m[23] == 0xDAEEFABA
    requires m[24] == 0xFAF6CAB6 && m[25] == 0xA6FB675A && m[26] == 0x0C604CC8 && m[27] == 0x604CC02C
    requires m[28] == 0x49C0E6E2 && m[29] == 0x2EE8CBBC && m[30] == 0xCFD72EC4 && m[31] == 0x97E9810E
    requires m[32] == 0x0989CBE8 && m[33] == 0xF24843FE && m[34] == 0x5C40D0BA && m[35] == 0xA8D9CC3B
    requires m[36] == 0xB2B9666E && m[37] == 0xBA7B71B7 && m[38] == 0x20B28A72 && m[39] == 0xB28AF500
    ensures Rounds(v0, K, m, 40) == Vars(0xADEB7478, 0x24957F22, 0x50FE1EBA, 0x564CFF26, 0xAADF0CBB)
  {
    RoundAt(v0, m, 20, 0x6C445652, 0x944B1BD1, 0x509AE70D, 0x1AC1A012, 0x5098DF8E, 0x6F757B5B);
    assert Rounds(v0, K, m, 21) == Vars(0x95836DA5, 0x6C445652, 0x6512C6F4, 0x509AE70D, 0x1AC1A012);
    RoundAt(v0, m, 21, 0x95836DA5, 0x6C445652, 0x6512C6F4, 0x509AE70D, 0x1AC1A012, 0x757B5967);
    assert Rounds(v0, K, m, 22) == Vars(0x09511177, 0x95836DA5, 0x9B111594, 0x6512C6F4, 0x509AE70D);
    RoundAt(v0, m, 22, 0x09511177, 0x95836DA5, 0x9B111594, 0x6512C6F4, 0x509AE70D, 0x8DA16D70);
    assert Rounds(v0, K, m, 23) == Vars(0xE2B92DC4, 0x09511177, 0x6560DB69, 0x9B111594, 0x6512C6F4);
    RoundAt(v0, m, 23, 0xE2B92DC4, 0x09511177, 0x6560DB69, 0x9B111594, 0x6512C6F4, 0xDAEEFABA);
    assert Rounds(v0, K, m, 24) == Vars(0xFD224575, 0xE2B92DC4, 0xC254445D, 0x6560DB69, 0x9B111594);
    RoundAt(v0, m, 24, 0xFD224575, 0xE2B92DC4, 0xC254445D, 0x6560DB69, 0x9B111594, 0xFAF6CAB6);
    assert Rounds(v0, K, m, 25) == Vars(0xEEB82D9A, 0xFD224575, 0x38AE4B71, 0xC254445D, 0x6560DB69);
    RoundAt(v0, m, 25, 0xEEB82D9A, 0xFD224575, 0x38AE4B71, 0xC254445D, 0x6560DB69, 0xA6FB675A);
    assert Rounds(v0, K, m, 26) == Vars(0x5A142C1A, 0xEEB82D9A, 0x7F48915D, 0x38AE4B71, 0xC254445D);
    RoundAt(v0, m, 26, 0x5A142C1A, 0xEEB82D9A, 0x7F48915D, 0x38AE4B71, 0xC254445D, 0x0C604CC8);
    assert Rounds(v0, K, m, 27) == Vars(0x2972F7C7, 0x5A142C1A, 0xBBAE0B66, 0x7F48915D, 0x38AE4B71);
    RoundAt(v0, m, 27, 0x2972F7C7, 0x5A142C1A, 0xBBAE0B66, 0x7F48915D, 0x38AE4B71, 0x604CC02C);
    assert Rounds(v0, K, m, 28) == Vars(0xD526A644, 0x2972F7C7, 0x96850B06, 0xBBAE0B66, 0x7F48915D);
    RoundAt(v0, m, 28, 0xD526A644, 0x2972F7C7, 0x96850B06, 0xBBAE0B66, 0x7F48915D, 0x49C0E6E2);
    assert Rounds(v0, K, m, 29) == Vars(0xE1122421, 0xD526A644, 0xCA5CBDF1, 0x96850B06, 0xBBAE0B66);
    RoundAt(v0, m, 29, 0xE1122421, 0xD526A644, 0xCA5CBDF1, 0x96850B06, 0xBBAE0B66, 0x2EE8CBBC);
    assert Rounds(v0, K, m, 30) == Vars(0x05B457B2, 0xE1122421, 0x3549A991, 0xCA5CBDF1, 0x96850B06);
    RoundAt(v0, m, 30, 0x05B457B2, 0xE1122421, 0x3549A991, 0xCA5CBDF1, 0x96850B06, 0xCFD72EC4);
    assert Rounds(v0, K, m, 31) == Vars(0xA9C84BEC, 0x05B457B2, 0x78448908, 0x3549A991, 0xCA5CBDF1);
    RoundAt(v0, m, 31, 0xA9C84BEC, 0x05B457B2, 0x78448908, 0x3549A991, 0xCA5CBDF1, 0x97E9810E);
    assert Rounds(v0, K, m, 32) == Vars(0x52E31F60, 0xA9C84BEC, 0x816D15EC, 0x78448908, 0x3549A991);
    RoundAt(v0, m, 32, 0x52E31F60, 0xA9C84BEC, 0x816D15EC, 0x78448908, 0x3549A991, 0x0989CBE8);
    assert Rounds(v0, K, m, 33) == Vars(0x5AF3242C, 0x52E31F60, 0x2A7212FB, 0x816D15EC, 0x78448908);
    RoundAt(v0, m, 33, 0x5AF3242C, 0x52E31F60, 0x2A7212FB, 0x816D15EC, 0x78448908, 0xF24843FE);
    assert Rounds(v0, K, m, 34) == Vars(0x31C756A9, 0x5AF3242C, 0x14B8C7D8, 0x2A7212FB, 0x816D15EC);
    RoundAt(v0, m, 34, 0x31C756A9, 0x5AF3242C, 0x14B8C7D8, 0x2A7212FB, 0x816D15EC, 0x5C40D0BA);
    assert Rounds(v0, K, m, 35) == Vars(0xE9AC987C, 0x31C756A9, 0x16BCC90B, 0x14B8C7D8, 0x2A7212FB);
    RoundAt(v0, m, 35, 0xE9AC987C, 0x31C756A9, 0x16BCC90B, 0x14B8C7D8, 0x2A7212FB, 0xA8D9CC3B);
    assert Rounds(v0, K, m, 36) == Vars(0xAB7C32EE, 0xE9AC987C, 0x4C71D5AA, 0x16BCC90B, 0x14B8C7D8);
    RoundAt(v0, m, 36, 0xAB7C32EE, 0xE9AC987C, 0x4C71D5AA, 0x16BCC90B, 0x14B8C7D8, 0xB2B9666E);
    assert Rounds(v0, K, m, 37) == Vars(0x5933FC99, 0xAB7C32EE, 0x3A6B261F, 0x4C71D5AA, 0x16BCC90B);
    RoundAt(v0, m, 37, 0x5933FC99, 0xAB7C32EE, 0x3A6B261F, 0x4C71D5AA, 0x16BCC90B, 0xBA7B71B7);
    assert Rounds(v0, K, m, 38) == Vars(0x43F87AE9, 0x5933FC99, 0xAADF0CBB, 0x3A6B261F, 0x4C71D5AA);
    RoundAt(v0, m, 38, 0x43F87AE9, 0x5933FC99, 0xAADF0CBB, 0x3A6B261F, 0x4C71D5AA, 0x20B28A72);
    assert Rounds(v0, K, m, 39) == Vars(0x24957F22, 0x43F87AE9, 0x564CFF26, 0xAADF0CBB, 0x3A6B261F);
    RoundAt(v0, m, 39, 0x24957F22, 0x43F87AE9, 0x564CFF26, 0xAADF0CBB, 0x3A6B261F, 0xB28AF500);
    assert Rounds(v0, K, m, 40) == Vars(0xADEB7478, 0x24957F22, 0x50FE1EBA, 0x564CFF26, 0xAADF0CBB);
  }

  /** Rounds 40..59 of the first block of the padded 56-byte string. */
  lemma AbcdbFirstRounds60(v0: Vars, m: seq<Word>)
    requires |m| == 80 && Rounds(v0, K, m, 40) == Vars(0xADEB7478, 0x24957F22, 0x50FE1EBA, 0x564CFF26, 0xAADF0CBB)
    requires m[40] == 0x8AC87842 && m[41] == 0x289ADDF4 && m[42] == 0x56D51F21 && m[43] == 0xD96B7FD2
    requires m[44] == 0x3868E778 && m[45] == 0xAB5E4848 && m[46] == 0x7F0E2118 && m[47] == 0xDE87A111
    requires m[48] == 0xE8BE56B0 && m[49] == 0x1A0AE652 && m[50] == 0xCD5611C8 && m[51] == 0x46EF29DC
    requires m[52] == 0x60D3DA6D && m[53] == 0xDDF3BA6E && m[54] == 0x2737F5E9 && m[55] == 0x4888A710
    requires m[56] == 0xD2A1177B && m[57] == 0x9999633B && m[58] == 0xD6C69D03 && m[59] == 0xCCF6127B
    ensures Rounds(v0, K, m, 60) == Vars(0x9EF775C3, 0xF03D3782, 0xEB029E53, 0xE9A06DC8, 0x1DDB0E44)
  {
    RoundAt(v0, m, 40, 0xADEB7478, 0x24957F22, 0x50FE1EBA, 0x564CFF26, 0xAADF0CBB, 0x8AC87842);
    assert Rounds(v0, K, m, 41) == Vars(0xD70E5010, 0xADEB7478, 0x89255FC8, 0x50FE1EBA, 0x564CFF26);
    RoundAt(v0, m, 41, 0xD70E5010, 0xADEB7478, 0x89255FC8, 0x50FE1EBA, 0x564CFF26, 0x289ADDF4);
    assert Rounds(v0, K, m, 42) == Vars(0x79BCFB08, 0xD70E5010, 0x2B7ADD1E, 0x89255FC8, 0x50FE1EBA);
    RoundAt(v0, m, 42, 0x79BCFB08, 0xD70E5010, 0x2B7ADD1E, 0x89255FC8, 0x50FE1EBA, 0x56D51F21);
    assert Rounds(v0, K, m, 43) == Vars(0xF9BCB8DE, 0x79BCFB08, 0x35C39404, 0x2B7ADD1E, 0x89255FC8);
    RoundAt(v0, m, 43, 0xF9BCB8DE, 0x79BCFB08, 0x35C39404, 0x2B7ADD1E, 0x89255FC8, 0xD96B7FD2);
    assert Rounds(v0, K, m, 44) == Vars(0x633E9561, 0xF9BCB8DE, 0x1E6F3EC2, 0x35C39404, 0x2B7ADD1E);
    RoundAt(v0, m, 44, 0x633E9561, 0xF9BCB8DE, 0x1E6F3EC2, 0x35C39404, 0x2B7ADD1E, 0x3868E778);
    assert Rounds(v0, K, m, 45) == Vars(0x98C1EA64, 0x633E9561, 0xBE6F2E37, 0x1E6F3EC2, 0x35C39404);
    RoundAt(v0, m, 45, 0x98C1EA64, 0x633E9561, 0xBE6F2E37, 0x1E6F3EC2, 0x35C39404, 0xAB5E4848);
    assert Rounds(v0, K, m, 46) == Vars(0xC6EA241E, 0x98C1EA64, 0x58CFA558, 0xBE6F2E37, 0x1E6F3EC2);
    RoundAt(v0, m, 46, 0xC6EA241E, 0x98C1EA64, 0x58CFA558, 0xBE6F2E37, 0x1E6F3EC2, 0x7F0E2118);
    assert Rounds(v0, K, m, 47) == Vars(0xA2AD4F02, 0xC6EA241E, 0x26307A99, 0x58CFA558, 0xBE6F2E37);
    RoundAt(v0, m, 47, 0xA2AD4F02, 0xC6EA241E, 0x26307A99, 0x58CFA558, 0xBE6F2E37, 0xDE87A111);
    assert Rounds(v0, K, m, 48) == Vars(0xC8A69090, 0xA2AD4F02, 0xB1BA8907, 0x26307A99, 0x58CFA558);
    RoundAt(v0, m, 48, 0xC8A69090, 0xA2AD4F02, 0xB1BA8907, 0x26307A99, 0x58CFA558, 0xE8BE56B0);
    assert Rounds(v0, K, m, 49) == Vars(0x88341600, 0xC8A69090, 0xA8AB53C0, 0xB1BA8907, 0x26307A99);
    RoundAt(v0, m, 49, 0x88341600, 0xC8A69090, 0xA8AB53C0, 0xB1BA8907, 0x26307A99, 0x1A0AE652);
    assert Rounds(v0, K, m, 50) == Vars(0x7E846F58, 0x88341600, 0x3229A424, 0xA8AB53C0, 0xB1BA8907);
    RoundAt(v0, m, 50, 0x7E846F58, 0x88341600, 0x3229A424, 0xA8AB53C0, 0xB1BA8907, 0xCD5611C8);
    assert Rounds(v0, K, m, 51) == Vars(0x86E358BA, 0x7E846F58, 0x220D0580, 0x3229A424, 0xA8AB53C0);
    RoundAt(v0, m, 51, 0x86E358BA, 0x7E846F58, 0x220D0580, 0x3229A424, 0xA8AB53C0, 0x46EF29DC);
    assert Rounds(v0, K, m, 52) == Vars(0x8D2E76C8, 0x86E358BA, 0x1FA11BD6, 0x220D0580, 0x3229A424);
    RoundAt(v0, m, 52, 0x8D2E76C8, 0x86E358BA, 0x1FA11BD6, 0x220D0580, 0x3229A424, 0x60D3DA6D);
    assert Rounds(v0, K, m, 53) == Vars(0xCE892E10, 0x8D2E76C8, 0xA1B8D62E, 0x1FA11BD6, 0x220D0580);
    RoundAt(v0, m, 53, 0xCE892E10, 0x8D2E76C8, 0xA1B8D62E, 0x1FA11BD6, 0x220D0580, 0xDDF3BA6E);
    assert Rounds(v0, K, m, 54) == Vars(0xEDEA95B1, 0xCE892E10, 0x234B9DB2, 0xA1B8D62E, 0x1FA11BD6);
    RoundAt(v0, m, 54, 0xEDEA95B1, 0xCE892E10, 0x234B9DB2, 0xA1B8D62E, 0x1FA11BD6, 0x2737F5E9);
    assert Rounds(v0, K, m, 55) == Vars(0x36D1230A, 0xEDEA95B1, 0x33A24B84, 0x234B9DB2, 0xA1B8D62E);
    RoundAt(v0, m, 55, 0x36D1230A, 0xEDEA95B1, 0x33A24B84, 0x234B9DB2, 0xA1B8D62E, 0x4888A710);
    assert Rounds(v0, K, m, 56) == Vars(0x776C3910, 0x36D1230A, 0x7B7AA56C, 0x33A24B84, 0x234B9DB2);
    RoundAt(v0, m, 56, 0x776C3910, 0x36D1230A, 0x7B7AA56C, 0x33A24B84, 0x234B9DB2, 0xD2A1177B);
    assert Rounds(v0, K, m, 57) == Vars(0xA681B723, 0x776C3910, 0x8DB448C2, 0x7B7AA56C, 0x33A24B84);
    RoundAt(v0, m, 57, 0xA681B723, 0x776C3910, 0x8DB448C2, 0x7B7AA56C, 0x33A24B84, 0x9999633B);
    assert Rounds(v0, K, m, 58) == Vars(0xAC0A794F, 0xA681B723, 0x1DDB0E44, 0x8DB448C2, 0x7B7AA56C);
    RoundAt(v0, m, 58, 0xAC0A794F, 0xA681B723, 0x1DDB0E44, 0x8DB448C2, 0x7B7AA56C, 0xD6C69D03);
    assert Rounds(v0, K, m, 59) == Vars(0xF03D3782, 0xAC0A794F, 0xE9A06DC8, 0x1DDB0E44, 0x8DB448C2);
    RoundAt(v0, m, 59, 0xF03D3782, 0xAC0A794F, 0xE9A06DC8, 0x1DDB0E44, 0x8DB448C2, 0xCCF6127B);
    assert Rounds(v0, K, m, 60) == Vars(0x9EF775C3, 0xF03D3782, 0xEB029E53, 0xE9A06DC8, 0x1DDB0E44);
  }

  /** Rounds 60..79 of the first block of the padded 56-byte string. */
  lemma AbcdbFirstRounds80(v0: Vars, m: seq<Word>)
    requires |m| == 80 && Rounds(v0, K, m, 60) == Vars(0x9EF775C3, 0xF03D3782, 0xEB029E53, 0xE9A06DC8, 0x1DDB0E44)
    requires m[60] == 0x7C58FE6D && m[61] == 0xFDD99C68 && m[62] == 0xF8E32074 && m[63] == 0xE0BA3C7D
    requires m[64] == 0x152198D6 && m[65] == 0x7B3F1982 && m[66] == 0x37F2D5B7 && m[67] == 0x8596323E
    requires m[68] == 0x810790D6 && m[69] == 0xBEA0A942 && m[70] == 0x11C7E1B1 && m[71] == 0x6158D101
    requires m[72] == 0x5FCD77D9 && m[73] == 0x7F2F12E6 && m[74] == 0xF868CFB1 && m[75] == 0xD6E997E9
    requires m[76] == 0xF526B852 && m[77] == 0xB7578DCC && m[78] == 0x55D99DF4 && m[79] == 0x1FF69958
    ensures Rounds(v0, K, m, 80) == Vars(0x8CE34517, 0xD3AD7C25, 0x6B4E1883, 0x74351CD2, 0x86838382)
  {
    RoundAt(v0, m, 60, 0x9EF775C3, 0xF03D3782, 0xEB029E53, 0xE9A06DC8, 0x1DDB0E44, 0x7C58FE6D);
    assert Rounds(v0, K, m, 61) == Vars(0x36254B13, 0x9EF775C3, 0xBC0F4DE0, 0xEB029E53, 0xE9A06DC8);
    RoundAt(v0, m, 61, 0x36254B13, 0x9EF775C3, 0xBC0F4DE0, 0xEB029E53, 0xE9A06DC8, 0xFDD99C68);
    assert Rounds(v0, K, m, 62) == Vars(0x4080D4DC, 0x36254B13, 0xE7BDDD70, 0xBC0F4DE0, 0xEB029E53);
    RoundAt(v0, m, 62, 0x4080D4DC, 0x36254B13, 0xE7BDDD70, 0xBC0F4DE0, 0xEB029E53, 0xF8E32074);
    assert Rounds(v0, K, m, 63) == Vars(0x2BFAF7A8, 0x4080D4DC, 0xCD8952C4, 0xE7BDDD70, 0xBC0F4DE0);
    RoundAt(v0, m, 63, 0x2BFAF7A8, 0x4080D4DC, 0xCD8952C4, 0xE7BDDD70, 0xBC0F4DE0, 0xE0BA3C7D);
    assert Rounds(v0, K, m, 64) == Vars(0x513F9CA0, 0x2BFAF7A8, 0x10203537, 0xCD8952C4, 0xE7BDDD70);
    RoundAt(v0, m, 64, 0x513F9CA0, 0x2BFAF7A8, 0x10203537, 0xCD8952C4, 0xE7BDDD70, 0x152198D6);
    assert Rounds(v0, K, m, 65) == Vars(0xE5895C81, 0x513F9CA0, 0x0AFEBDEA, 0x10203537, 0xCD8952C4);
    RoundAt(v0, m, 65, 0xE5895C81, 0x513F9CA0, 0x0AFEBDEA, 0x10203537, 0xCD8952C4, 0x7B3F1982);
    assert Rounds(v0, K, m, 66) == Vars(0x1037D2D5, 0xE5895C81, 0x144FE728, 0x0AFEBDEA, 0x10203537);
    RoundAt(v0, m, 66, 0x1037D2D5, 0xE5895C81, 0x144FE728, 0x0AFEBDEA, 0x10203537, 0x37F2D5B7);
    assert Rounds(v0, K, m, 67) == Vars(0x14A82DA9, 0x1037D2D5, 0x79625720, 0x144FE728, 0x0AFEBDEA);
    RoundAt(v0, m, 67, 0x14A82DA9, 0x1037D2D5, 0x79625720, 0x144FE728, 0x0AFEBDEA, 0x8596323E);
    assert Rounds(v0, K, m, 68) == Vars(0x6D17C9FD, 0x14A82DA9, 0x440DF4B5, 0x79625720, 0x144FE728);
    RoundAt(v0, m, 68, 0x6D17C9FD, 0x14A82DA9, 0x440DF4B5, 0x79625720, 0x144FE728, 0x810790D6);
    assert Rounds(v0, K, m, 69) == Vars(0x2C7B07BD, 0x6D17C9FD, 0x452A0B6A, 0x440DF4B5, 0x79625720);
    RoundAt(v0, m, 69, 0x2C7B07BD, 0x6D17C9FD, 0x452A0B6A, 0x440DF4B5, 0x79625720, 0xBEA0A942);
    assert Rounds(v0, K, m, 70) == Vars(0xFDF6EFFF, 0x2C7B07BD, 0x5B45F27F, 0x452A0B6A, 0x440DF4B5);
    RoundAt(v0, m, 70, 0xFDF6EFFF, 0x2C7B07BD, 0x5B45F27F, 0x452A0B6A, 0x440DF4B5, 0x11C7E1B1);
    assert Rounds(v0, K, m, 71) == Vars(0x112B96E3, 0xFDF6EFFF, 0x4B1EC1EF, 0x5B45F27F, 0x452A0B6A);
    RoundAt(v0, m, 71, 0x112B96E3, 0xFDF6EFFF, 0x4B1EC1EF, 0x5B45F27F, 0x452A0B6A, 0x6158D101);
    assert Rounds(v0, K, m, 72) == Vars(0x84065712, 0x112B96E3, 0xFF7DBBFF, 0x4B1EC1EF, 0x5B45F27F);
    RoundAt(v0, m, 72, 0x84065712, 0x112B96E3, 0xFF7DBBFF, 0x4B1EC1EF, 0x5B45F27F, 0x5FCD77D9);
    assert Rounds(v0, K, m, 73) == Vars(0xAB89FB71, 0x84065712, 0xC44AE5B8, 0xFF7DBBFF, 0x4B1EC1EF);
    RoundAt(v0, m, 73, 0xAB89FB71, 0x84065712, 0xC44AE5B8, 0xFF7DBBFF, 0x4B1EC1EF, 0x7F2F12E6);
    assert Rounds(v0, K, m, 74) == Vars(0xC5210E35, 0xAB89FB71, 0xA10195C4, 0xC44AE5B8, 0xFF7DBBFF);
    RoundAt(v0, m, 74, 0xC5210E35, 0xAB89FB71, 0xA10195C4, 0xC44AE5B8, 0xFF7DBBFF, 0xF868CFB1);
    assert Rounds(v0, K, m, 75) == Vars(0x352D9F4B, 0xC5210E35, 0x6AE27EDC, 0xA10195C4, 0xC44AE5B8);
    RoundAt(v0, m, 75, 0x352D9F4B, 0xC5210E35, 0x6AE27EDC, 0xA10195C4, 0xC44AE5B8, 0xD6E997E9);
    assert Rounds(v0, K, m, 76) == Vars(0x1A0E0E0A, 0x352D9F4B, 0x7148438D, 0x6AE27EDC, 0xA10195C4);
    RoundAt(v0, m, 76, 0x1A0E0E0A, 0x352D9F4B, 0x7148438D, 0x6AE27EDC, 0xA10195C4, 0xF526B852);
    assert Rounds(v0, K, m, 77) == Vars(0xD0D47349, 0x1A0E0E0A, 0xCD4B67D2, 0x7148438D, 0x6AE27EDC);
    RoundAt(v0, m, 77, 0xD0D47349, 0x1A0E0E0A, 0xCD4B67D2, 0x7148438D, 0x6AE27EDC, 0xB7578DCC);
    assert Rounds(v0, K, m, 78) == Vars(0xAD38620D, 0xD0D47349, 0x86838382, 0xCD4B67D2, 0x7148438D);
    RoundAt(v0, m, 78, 0xAD38620D, 0xD0D47349, 0x86838382, 0xCD4B67D2, 0x7148438D, 0x55D99DF4);
    assert Rounds(v0, K, m, 79) == Vars(0xD3AD7C25, 0xAD38620D, 0x74351CD2, 0x86838382, 0xCD4B67D2);
    RoundAt(v0, m, 79, 0xD3AD7C25, 0xAD38620D, 0x74351CD2, 0x86838382, 0xCD4B67D2, 0x1FF69958);
    assert Rounds(v0, K, m, 80) == Vars(0x8CE34517, 0xD3AD7C25, 0x6B4E1883, 0x74351CD2, 0x86838382);
  }

  /** The compression of the first block of the padded 56-byte string into the state [67452301, efcdab89, 98badcfe, 10325476, c3d2e1f0]. */
  lemma AbcdbFirstCompress(block: seq<Byte>)
    requires block == ABCDB + [0x80] + Zeros(7)
    ensures Compress([0x67452301, 0xEFCDAB89, 0x98BADCFE, 0x10325476, 0xC3D2E1F0], K, block) == [0xF4286818, 0xC37B27AE, 0x0408F581, 0x84677148, 0x4A566572]
  {
    AbcdbFirstWords4(block);
    AbcdbFirstWords8(block);
    AbcdbFirstWords12(block);
    AbcdbFirstWords16(block);
    var m := Schedule(block);
    ScheduleFacts(block);
    AbcdbFirstSchedule32(m);
    AbcdbFirstSchedule48(m);
    AbcdbFirstSchedule64(m);
    AbcdbFirstSchedule80(m);
    var v0 := Vars(0x67452301, 0xEFCDAB89, 0x98BADCFE, 0x10325476, 0xC3D2E1F0);
    AbcdbFirstRounds20(v0, m);
    AbcdbFirstRounds40(v0, m);
    AbcdbFirstRounds60(v0, m);
    AbcdbFirstRounds80(v0, m);
  }

  /** Big-endian words 0..3 of the second block of the padded 56-byte string. */
  lemma AbcdbSecondWords4(block: seq<Byte>)
    requires block == Zeros(56) + [0, 0, 0, 0, 0, 0, 0x01, 0xc0]
    ensures |block| == 64
    ensures ReadWord(block, 0) == 0x00000000 && ReadWord(block, 4) == 0x00000000 && ReadWord(block, 8) == 0x00000000 && ReadWord(block, 12) == 0x00000000
  {
  }

  /** Big-endian words 4..7 of the second block of the padded 56-byte string. */
  lemma AbcdbSecondWords8(block: seq<Byte>)
    requires block == Zeros(56) + [0, 0, 0, 0, 0, 0, 0x01, 0xc0]
    ensures |block| == 64
    ensures ReadWord(block, 16) == 0x00000000 && ReadWord(block, 20) == 0x00000000 && ReadWord(block, 24) == 0x00000000 && ReadWord(block, 28) == 0x00000000
  {
  }

  /** Big-endian words 8..11 of the second block of the padded 56-byte string. */
  lemma AbcdbSecondWords12(block: seq<Byte>)
    requires block == Zeros(56) + [0, 0, 0, 0, 0, 0, 0x01, 0xc0]
    ensures |block| == 64
    ensures ReadWord(block, 32) == 0x00000000 && ReadWord(block, 36) == 0x00000000 && ReadWord(block, 40) == 0x00000000 && ReadWord(block, 44) == 0x00000000
  {
  }

  /** Big-endian words 12..15 of the second block of the padded 56-byte string. */
  lemma AbcdbSecondWords16(block: seq<Byte>)
    requires block == Zeros(56) + [0, 0, 0, 0, 0, 0, 0x01, 0xc0]
    ensures |block| == 64
    ensures ReadWord(block, 48) == 0x00000000 && ReadWord(block, 52) == 0x00000000 && ReadWord(block, 56) == 0x00000000 && ReadWord(block, 60) == 0x000001C0
  {
  }

  /** Schedule words 16..31 of the second block of the padded 56-byte string. */
  lemma AbcdbSecondSchedule32(m: seq<Word>)
    requires |m| == 80 && forall i :: 16 <= i < 80 ==> Recurrence(m, i)
    requires m[0] == 0x00000000 && m[1] == 0x00000000 && m[2] == 0x00000000 && m[3] == 0x00000000
    requires m[4] == 0x00000000 && m[5] == 0x00000000 && m[6] == 0x00000000 && m[7] == 0x00000000
    requires m[8] == 0x00000000 && m[9] == 0x00000000 && m[10] == 0x00000000 && m[11] == 0x00000000
    requires m[12] == 0x00000000 && m[13] == 0x00000000 && m[14] == 0x00000000 && m[15] == 0x000001C0
    ensures m[16] == 0x00000000 && m[17] == 0x00000000 && m[18] == 0x00000380 && m[19] == 0x00000000
    ensures m[20] == 0x00000000 && m[21] == 0x00000700 && m[22] == 0x00000000 && m[23] == 0x00000380
    ensures m[24] == 0x00000E00 && m[25] == 0x00000000 && m[26] == 0x00000000 && m[27] == 0x00001C00
    ensures m[28] == 0x00000000 && m[29] == 0x00000D80 && m[30] == 0x00003800 && m[31] == 0x00000480
  {
    ScheduleAt(m, 16, 0x00000000, 0x00000000, 0x00000000, 0x00000000);
    ScheduleAt(m, 17, 0x00000000, 0x00000000, 0x00000000, 0x00000000);
    ScheduleAt(m, 18, 0x000001C0, 0x00000000, 0x00000000, 0x00000000);
    ScheduleAt(m, 19, 0x00000000, 0x00000000, 0x00000000, 0x00000000);
    ScheduleAt(m, 20, 0x00000000, 0x00000000, 0x00000000, 0x00000000);
    ScheduleAt(m, 21, 0x00000380, 0x00000000, 0x00000000, 0x00000000);
    ScheduleAt(m, 22, 0x00000000, 0x00000000, 0x00000000, 0x00000000);
    ScheduleAt(m, 23, 0x00000000, 0x000001C0, 0x00000000, 0x00000000);
    ScheduleAt(m, 24, 0x00000700, 0x00000000, 0x00000000, 0x00000000);
    ScheduleAt(m, 25, 0x00000000, 0x00000000, 0x00000000, 0x00000000);
    ScheduleAt(m, 26, 0x00000380, 0x00000380, 0x00000000, 0x00000000);
    ScheduleAt(m, 27, 0x00000E00, 0x00000000, 0x00000000, 0x00000000);
    ScheduleAt(m, 28, 0x00000000, 0x00000000, 0x00000000, 0x00000000);
    ScheduleAt(m, 29, 0x00000000, 0x00000700, 0x000001C0, 0x00000000);
    ScheduleAt(m, 30, 0x00001C00, 0x00000000, 0x00000000, 0x00000000);
    ScheduleAt(m, 31, 0x00000000, 0x00000380, 0x00000000, 0x000001C0);
  }

  /** Schedule words 32..47 of the second block of the padded 56-byte string. */
  lemma AbcdbSecondSchedule48(m: seq<Word>)
    requires |m| == 80 && forall i :: 16 <= i < 80 ==> Recurrence(m, i)
    requires m[16] == 0x00000000 && m[17] == 0x00000000 && m[18] == 0x00000380 && m[19] == 0x00000000
    requires m[20] == 0x00000000 && m[21] == 0x00000700 && m[22] == 0x00000000 && m[23] == 0x00000380
    requires m[24] == 0x00000E00 && m[25] == 0x00000000 && m[26] == 0x00000000 && m[27] == 0x00001C00
    requires m[28] == 0x00000000 && m[29] == 0x00000D80 && m[30] == 0x00003800 && m[31] == 0x00000480
    ensures m[32] == 0x00000000 && m[33] == 0x00007000 && m[34] == 0x00000E00 && m[35] == 0x00003600
    ensures m[36] == 0x0000E000 && m[37] == 0x00000E00 && m[38] == 0x00000000 && m[39] == 0x0001CE00
    ensures m[40] == 0x00000000 && m[41] == 0x0000D800 && m[42] == 0x00038000 && m[43] == 0x00004F00
    ensures m[44] == 0x00000000 && m[45] == 0x00070E00 && m[46] == 0x0000EE00 && m[47] == 0x00037500
  {
    ScheduleAt(m, 32, 0x00000D80, 0x00000E00, 0x00000380, 0x00000000);
    ScheduleAt(m, 33, 0x00003800, 0x00000000, 0x00000000, 0x00000000);
    ScheduleAt(m, 34, 0x00000480, 0x00000000, 0x00000000, 0x00000380);
    ScheduleAt(m, 35, 0x00000000, 0x00001C00, 0x00000700, 0x00000000);
    ScheduleAt(m, 36, 0x00007000, 0x00000000, 0x00000000, 0x00000000);
    ScheduleAt(m, 37, 0x00000E00, 0x00000D80, 0x00000380, 0x00000700);
    ScheduleAt(m, 38, 0x00003600, 0x00003800, 0x00000E00, 0x00000000);
    ScheduleAt(m, 39, 0x0000E000, 0x00000480, 0x00000000, 0x00000380);
    ScheduleAt(m, 40, 0x00000E00, 0x00000000, 0x00000000, 0x00000E00);
    ScheduleAt(m, 41, 0x00000000, 0x00007000, 0x00001C00, 0x00000000);
    ScheduleAt(m, 42, 0x0001CE00, 0x00000E00, 0x00000000, 0x00000000);
    ScheduleAt(m, 43, 0x00000000, 0x00003600, 0x00000D80, 0x00001C00);
    ScheduleAt(m, 44, 0x0000D800, 0x0000E000, 0x00003800, 0x00000000);
    ScheduleAt(m, 45, 0x00038000, 0x00000E00, 0x00000480, 0x00000D80);
    ScheduleAt(m, 46, 0x00004F00, 0x00000000, 0x00000000, 0x00003800);
    ScheduleAt(m, 47, 0x00000000, 0x0001CE00, 0x00007000, 0x00000480);
  }

  /** Schedule words 48..63 of the second block of the padded 56-byte string. */
  lemma AbcdbSecondSchedule64(m: seq<Word>)
    requires |m| == 80 && forall i :: 16 <= i < 80 ==> Recurrence(m, i)
    requires m[32] == 0x00000000 && m[33] == 0x00007000 && m[34] == 0x00000E00 && m[35] == 0x00003600
    requires m[36] == 0x0000E000 && m[37] == 0x00000E00 && m[38] == 0x00000000 && m[39] == 0x0001CE00
    requires m[40] == 0x00000000 && m[41] == 0x0000D800 && m[42] == 0x00038000 && m[43] == 0x00004F00
    requires m[44] == 0x00000000 && m[45] == 0x00070E00 && m[46] == 0x0000EE00 && m[47] == 0x00037500
    ensures m[48] == 0x000E0000 && m[49] == 0x0000E000 && m[50] == 0x00003600 && m[51] == 0x001CEE00
    ensures m[52] == 0x00000000 && m[53] == 0x000DF000 && m[54] == 0x00380000 && m[55] == 0x0004C600
    ensures m[56] == 0x0000E000 && m[57] == 0x0070EE00 && m[58] == 0x000EE000 && m[59] == 0x00369E00
    ensures m[60] == 0x00E00000 && m[61] == 0x000ED600 && m[62] == 0x0000E000 && m[63] == 0x01CEA600
  {
    ScheduleAt(m, 48, 0x00070E00, 0x00000000, 0x00000E00, 0x00000000);
    ScheduleAt(m, 49, 0x0000EE00, 0x0000D800, 0x00003600, 0x00007000);
    ScheduleAt(m, 50, 0x00037500, 0x00038000, 0x0000E000, 0x00000E00);
    ScheduleAt(m, 51, 0x000E0000, 0x00004F00, 0x00000E00, 0x00003600);
    ScheduleAt(m, 52, 0x0000E000, 0x00000000, 0x00000000, 0x0000E000);
    ScheduleAt(m, 53, 0x00003600, 0x00070E00, 0x0001CE00, 0x00000E00);
    ScheduleAt(m, 54, 0x001CEE00, 0x0000EE00, 0x00000000, 0x00000000);
    ScheduleAt(m, 55, 0x00000000, 0x00037500, 0x0000D800, 0x0001CE00);
    ScheduleAt(m, 56, 0x000DF000, 0x000E0000, 0x00038000, 0x00000000);
    ScheduleAt(m, 57, 0x00380000, 0x0000E000, 0x00004F00, 0x0000D800);
    ScheduleAt(m, 58, 0x0004C600, 0x00003600, 0x00000000, 0x00038000);
    ScheduleAt(m, 59, 0x0000E000, 0x001CEE00, 0x00070E00, 0x00004F00);
    ScheduleAt(m, 60, 0x0070EE00, 0x00000000, 0x0000EE00, 0x00000000);
    ScheduleAt(m, 61, 0x000EE000, 0x000DF000, 0x00037500, 0x00070E00);
    ScheduleAt(m, 62, 0x00369E00, 0x00380000, 0x000E0000, 0x0000EE00);
    ScheduleAt(m, 63, 0x00E00000, 0x0004C600, 0x0000E000, 0x00037500);
  }

  /** Schedule words 64..79 of the second block of the padded 56-byte string. */
  lemma AbcdbSecondSchedule80(m: seq<Word>)
    requires |m| == 80 && forall i :: 16 <= i < 80 ==> Recurrence(m, i)
    requires m[48] == 0x000E0000 && m[49] == 0x0000E000 && m[50] == 0x00003600 && m[51] == 0x001CEE00
    requires m[52] == 0x00000000 && m[53] == 0x000DF000 && m[54] == 0x00380000 && m[55] == 0x0004C600
    requires m[56] == 0x0000E000 && m[57] == 0x0070EE00 && m[58] == 0x000EE000 && m[59] == 0x00369E00
    requires m[60] == 0x00E00000 && m[61] == 0x000ED600 && m[62] == 0x0000E000 && m[63] == 0x01CEA600
    ensures m[64] == 0x00000000 && m[65] == 0x00D80000 && m[66] == 0x0380E000 && m[67] == 0x004F0000
    ensures m[68] == 0x00000000 && m[69] == 0x070E0000 && m[70] == 0x00EE0000 && m[71] == 0x03751C00
    ensures m[72] == 0x0E000000 && m[73] == 0x00E0E000 && m[74] == 0x00363800 && m[75] == 0x1CEE9000
    ensures m[76] == 0x00000000 && m[77] == 0x0DF09000 && m[78] == 0x3800E000 && m[79] == 0x04C77400
  {
    ScheduleAt(m, 64, 0x000ED600, 0x0000E000, 0x00003600, 0x000E0000);
    ScheduleAt(m, 65, 0x0000E000, 0x0070EE00, 0x001CEE00, 0x0000E000);
    ScheduleAt(m, 66, 0x01CEA600, 0x000EE000, 0x00000000, 0x00003600);
    ScheduleAt(m, 67, 0x00000000, 0x00369E00, 0x000DF000, 0x001CEE00);
    ScheduleAt(m, 68, 0x00D80000, 0x00E00000, 0x00380000, 0x00000000);
    ScheduleAt(m, 69, 0x0380E000, 0x000ED600, 0x0004C600, 0x000DF000);
    ScheduleAt(m, 70, 0x004F0000, 0x0000E000, 0x0000E000, 0x00380000);
    ScheduleAt(m, 71, 0x00000000, 0x01CEA600, 0x0070EE00, 0x0004C600);
    ScheduleAt(m, 72, 0x070E0000, 0x00000000, 0x000EE000, 0x0000E000);
    ScheduleAt(m, 73, 0x00EE0000, 0x00D80000, 0x00369E00, 0x0070EE00);
    ScheduleAt(m, 74, 0x03751C00, 0x0380E000, 0x00E00000, 0x000EE000);
    ScheduleAt(m, 75, 0x0E000000, 0x004F0000, 0x000ED600, 0x00369E00);
    ScheduleAt(m, 76, 0x00E0E000, 0x00000000, 0x0000E000, 0x00E00000);
    ScheduleAt(m, 77, 0x00363800, 0x070E0000, 0x01CEA600, 0x000ED600);
    ScheduleAt(m, 78, 0x1CEE9000, 0x00EE0000, 0x00000000, 0x0000E000);
    ScheduleAt(m, 79, 0x00000000, 0x03751C00, 0x00D80000, 0x01CEA600);
  }

  /** Rounds 0..19 of the second block of the padded 56-byte string. */
  lemma AbcdbSecondRounds20(v0: Vars, m: seq<Word>)
    requires |m| == 80 && Rounds(v0, K, m, 0) == Vars(0xF4286818, 0xC37B27AE, 0x0408F581, 0x84677148, 0x4A566572)
    requires m[0] == 0x00000000 && m[1] == 0x00000000 && m[2] == 0x00000000 && m[3] == 0x00000000
    requires m[4] == 0x00000000 && m[5] == 0x00000000 && m[6] == 0x00000000 && m[7] == 0x00000000
    requires m[8] == 0x00000000 && m[9] == 0x00000000 && m[10] == 0x00000000 && m[11] == 0x00000000
    requires m[12] == 0x00000000 && m[13] == 0x00000000 && m[14] == 0x00000000 && m[15] == 0x000001C0
    requires m[16] == 0x00000000 && m[17] == 0x00000000 && m[18] == 0x00000380 && m[19] == 0x00000000
    ensures Rounds(v0, K, m, 20) == Vars(0xD8992153, 0xC2EB709F, 0x2946D62F, 0x9541F6DB, 0x365DC8D8)
  {
    RoundAt(v0, m, 0, 0xF4286818, 0xC37B27AE, 0x0408F581, 0x84677148, 0x4A566572, 0x00000000);
    assert Rounds(v0, K, m, 1) == Vars(0x2DF257E9, 0xF4286818, 0xB0DEC9EB, 0x0408F581, 0x84677148);
    RoundAt(v0, m, 1, 0x2DF257E9, 0xF4286818, 0xB0DEC9EB, 0x0408F581, 0x84677148, 0x00000000);
    assert Rounds(v0, K, m, 2) == Vars(0x4D3DC58F, 0x2DF257E9, 0x3D0A1A06, 0xB0DEC9EB, 0x0408F581);
    RoundAt(v0, m, 2, 0x4D3DC58F, 0x2DF257E9, 0x3D0A1A06, 0xB0DEC9EB, 0x0408F581, 0x00000000);
    assert Rounds(v0, K, m, 3) == Vars(0xC352BB05, 0x4D3DC58F, 0x4B7C95FA, 0x3D0A1A06, 0xB0DEC9EB);
    RoundAt(v0, m, 3, 0xC352BB05, 0x4D3DC58F, 0x4B7C95FA, 0x3D0A1A06, 0xB0DEC9EB, 0x00000000);
    assert Rounds(v0, K, m, 4) == Vars(0xEEF743C6, 0xC352BB05, 0xD34F7163, 0x4B7C95FA, 0x3D0A1A06);
    RoundAt(v0, m, 4, 0xEEF743C6, 0xC352BB05, 0xD34F7163, 0x4B7C95FA, 0x3D0A1A06, 0x00000000);
    assert Rounds(v0, K, m, 5) == Vars(0x41E34277, 0xEEF743C6, 0x70D4AEC1, 0xD34F7163, 0x4B7C95FA);
    RoundAt(v0, m, 5, 0x41E34277, 0xEEF743C6, 0x70D4AEC1, 0xD34F7163, 0x4B7C95FA, 0x00000000);
    assert Rounds(v0, K, m, 6) == Vars(0x5443915C, 0x41E34277, 0xBBBDD0F1, 0x70D4AEC1, 0xD34F7163);
    RoundAt(v0, m, 6, 0x5443915C, 0x41E34277, 0xBBBDD0F1, 0x70D4AEC1, 0xD34F7163, 0x00000000);
    assert Rounds(v0, K, m, 7) == Vars(0xE7FA0377, 0x5443915C, 0xD078D09D, 0xBBBDD0F1, 0x70D4AEC1);
    RoundAt(v0, m, 7, 0xE7FA0377, 0x5443915C, 0xD078D09D, 0xBBBDD0F1, 0x70D4AEC1, 0x00000000);
    assert Rounds(v0, K, m, 8) == Vars(0xC6946813, 0xE7FA0377, 0x1510E457, 0xD078D09D, 0xBBBDD0F1);
    RoundAt(v0, m, 8, 0xC6946813, 0xE7FA0377, 0x1510E457, 0xD078D09D, 0xBBBDD0F1, 0x00000000);
    assert Rounds(v0, K, m, 9) == Vars(0xFDDE1DE1, 0xC6946813, 0xF9FE80DD, 0x1510E457, 0xD078D09D);
    RoundAt(v0, m, 9, 0xFDDE1DE1, 0xC6946813, 0xF9FE80DD, 0x1510E457, 0xD078D09D, 0x00000000);
    assert Rounds(v0, K, m, 10) == Vars(0xB8538ACA, 0xFDDE1DE1, 0xF1A51A04, 0xF9FE80DD, 0x1510E457);
    RoundAt(v0, m, 10, 0xB8538ACA, 0xFDDE1DE1, 0xF1A51A04, 0xF9FE80DD, 0x1510E457, 0x00000000);
    assert Rounds(v0, K, m, 11) == Vars(0x6BA94F63, 0xB8538ACA, 0x7F778778, 0xF1A51A04, 0xF9FE80DD);
    RoundAt(v0, m, 11, 0x6BA94F63, 0xB8538ACA, 0x7F778778, 0xF1A51A04, 0xF9FE80DD, 0x00000000);
    assert Rounds(v0, K, m, 12) == Vars(0x43A2792F, 0x6BA94F63, 0xAE14E2B2, 0x7F778778, 0xF1A51A04);
    RoundAt(v0, m, 12, 0x43A2792F, 0x6BA94F63, 0xAE14E2B2, 0x7F778778, 0xF1A51A04, 0x00000000);
    assert Rounds(v0, K, m, 13) == Vars(0xFECD7BBF, 0x43A2792F, 0xDAEA53D8, 0xAE14E2B2, 0x7F778778);
    RoundAt(v0, m, 13, 0xFECD7BBF, 0x43A2792F, 0xDAEA53D8, 0xAE14E2B2, 0x7F778778, 0x00000000);
    assert Rounds(v0, K, m, 14) == Vars(0xA2604CA8, 0xFECD7BBF, 0xD0E89E4B, 0xDAEA53D8, 0xAE14E2B2);
    RoundAt(v0, m, 14, 0xA2604CA8, 0xFECD7BBF, 0xD0E89E4B, 0xDAEA53D8, 0xAE14E2B2, 0x00000000);
    assert Rounds(v0, K, m, 15) == Vars(0x258B0BAA, 0xA2604CA8, 0xFFB35EEF, 0xD0E89E4B, 0xDAEA53D8);
    RoundAt(v0, m, 15, 0x258B0BAA, 0xA2604CA8, 0xFFB35EEF, 0xD0E89E4B, 0xDAEA53D8, 0x000001C0);
    assert Rounds(v0, K, m, 16) == Vars(0xD9772360, 0x258B0BAA, 0x2898132A, 0xFFB35EEF, 0xD0E89E4B);
    RoundAt(v0, m, 16, 0xD9772360, 0x258B0BAA, 0x2898132A, 0xFFB35EEF, 0xD0E89E4B, 0x00000000);
    assert Rounds(v0, K, m, 17) == Vars(0x5507DB6E, 0xD9772360, 0x8962C2EA, 0x2898132A, 0xFFB35EEF);
    RoundAt(v0, m, 17, 0x5507DB6E, 0xD9772360, 0x8962C2EA, 0x2898132A, 0xFFB35EEF, 0x00000000);
    assert Rounds(v0, K, m, 18) == Vars(0xA51B58BC, 0x5507DB6E, 0x365DC8D8, 0x8962C2EA, 0x2898132A);
    RoundAt(v0, m, 18, 0xA51B58BC, 0x5507DB6E, 0x365DC8D8, 0x8962C2EA, 0x2898132A, 0x00000380);
    assert Rounds(v0, K, m, 19) == Vars(0xC2EB709F, 0xA51B58BC, 0x9541F6DB, 0x365DC8D8, 0x8962C2EA);
    RoundAt(v0, m, 19, 0xC2EB709F, 0xA51B58BC, 0x9541F6DB, 0x365DC8D8, 0x8962C2EA, 0x00000000);
    assert Rounds(v0, K, m, 20) == Vars(0xD8992153, 0xC2EB709F, 0x2946D62F, 0x9541F6DB, 0x365DC8D8);
  }

  /** Rounds 20..39 of the second block of the padded 56-byte string. */
  lemma AbcdbSecondRounds40(v0: Vars, m: seq<Word>)
    requires |m| == 80 && Rounds(v0, K, m, 20) == Vars(0xD8992153, 0xC2EB709F, 0x2946D62F, 0x9541F6DB, 0x365DC8D8)
    requires m[20] == 0x00000000 && m[21] == 0x00000700 && m[22] == 0x00000000 && m[23] == 0x00000380
    requires m[24] == 0x00000E00 && m[25] == 0x00000000 && m[26] == 0x00000000 && m[27] == 0x00001C00
    requires m[28] == 0x00000000 && m[29] == 0x00000D80 && m[30] == 0x00003800 && m[31] == 0x00000480
    requires m[32] == 0x00000000 && m[33] == 0x00007000 && m[34] == 0x00000E00 && m[35] == 0x00003600
    requires m[36] == 0x0000E000 && m[37] == 0x00000E00 && m[38] == 0x00000000 && m[39] == 0x0001CE00
    ensures Rounds(v0, K, m, 40) == Vars(0x03BB6310, 0x84E2A5F2, 0x21F56E03, 0xB3BD6B84, 0x1A5B6901)
  {
    RoundAt(v0, m, 20, 0xD8992153, 0xC2EB709F, 0x2946D62F, 0x9541F6DB, 0x365DC8D8, 0x00000000);
    assert Rounds(v0, K, m, 21) == Vars(0x37482F5F, 0xD8992153, 0xF0BADC27, 0x2946D62F, 0x9541F6DB);
    RoundAt(v0, m, 21, 0x37482F5F, 0xD8992153, 0xF0BADC27, 0x2946D62F, 0x9541F6DB, 0x00000700);
    assert Rounds(v0, K, m, 22) == Vars(0xEE8700BD, 0x37482F5F, 0xF6264854, 0xF0BADC27, 0x2946D62F);
    RoundAt(v0, m, 22, 0xEE8700BD, 0x37482F5F, 0xF6264854, 0xF0BADC27, 0x2946D62F, 0x00000000);
    assert Rounds(v0, K, m, 23) == Vars(0x9AD594B9, 0xEE8700BD, 0xCDD20BD7, 0xF6264854, 0xF0BADC27);
    RoundAt(v0, m, 23, 0x9AD594B9, 0xEE8700BD, 0xCDD20BD7, 0xF6264854, 0xF0BADC27, 0x00000380);
    assert Rounds(v0, K, m, 24) == Vars(0x8FBAA5B9, 0x9AD594B9, 0x7BA1C02F, 0xCDD20BD7, 0xF6264854);
    RoundAt(v0, m, 24, 0x8FBAA5B9, 0x9AD594B9, 0x7BA1C02F, 0xCDD20BD7, 0xF6264854, 0x00000E00);
    assert Rounds(v0, K, m, 25) == Vars(0x88FB5867, 0x8FBAA5B9, 0x66B5652E, 0x7BA1C02F, 0xCDD20BD7);
    RoundAt(v0, m, 25, 0x88FB5867, 0x8FBAA5B9, 0x66B5652E, 0x7BA1C02F, 0xCDD20BD7, 0x00000000);
    assert Rounds(v0, K, m, 26) == Vars(0xEEC50521, 0x88FB5867, 0x63EEA96E, 0x66B5652E, 0x7BA1C02F);
    RoundAt(v0, m, 26, 0xEEC50521, 0x88FB5867, 0x63EEA96E, 0x66B5652E, 0x7BA1C02F, 0x00000000);
    assert Rounds(v0, K, m, 27) == Vars(0x50BCE434, 0xEEC50521, 0xE23ED619, 0x63EEA96E, 0x66B5652E);
    RoundAt(v0, m, 27, 0x50BCE434, 0xEEC50521, 0xE23ED619, 0x63EEA96E, 0x66B5652E, 0x00001C00);
    assert Rounds(v0, K, m, 28) == Vars(0x5C416DAF, 0x50BCE434, 0x7BB14148, 0xE23ED619, 0x63EEA96E);
    RoundAt(v0, m, 28, 0x5C416DAF, 0x50BCE434, 0x7BB14148, 0xE23ED619, 0x63EEA96E, 0x00000000);
    assert Rounds(v0, K, m, 29) == Vars(0x2429BE5F, 0x5C416DAF, 0x142F390D, 0x7BB14148, 0xE23ED619);
    RoundAt(v0, m, 29, 0x2429BE5F, 0x5C416DAF, 0x142F390D, 0x7BB14148, 0xE23ED619, 0x00000D80);
    assert Rounds(v0, K, m, 30) == Vars(0x0A2FB108, 0x2429BE5F, 0xD7105B6B, 0x142F390D, 0x7BB14148);
    RoundAt(v0, m, 30, 0x0A2FB108, 0x2429BE5F, 0xD7105B6B, 0x142F390D, 0x7BB14148, 0x00003800);
    assert Rounds(v0, K, m, 31) == Vars(0x17986223, 0x0A2FB108, 0xC90A6F97, 0xD7105B6B, 0x142F390D);
    RoundAt(v0, m, 31, 0x17986223, 0x0A2FB108, 0xC90A6F97, 0xD7105B6B, 0x142F390D, 0x00000480);
    assert Rounds(v0, K, m, 32) == Vars(0x8A4AF384, 0x17986223, 0x028BEC42, 0xC90A6F97, 0xD7105B6B);
    RoundAt(v0, m, 32, 0x8A4AF384, 0x17986223, 0x028BEC42, 0xC90A6F97, 0xD7105B6B, 0x00000000);
    assert Rounds(v0, K, m, 33) == Vars(0x6B629993, 0x8A4AF384, 0xC5E61888, 0x028BEC42, 0xC90A6F97);
    RoundAt(v0, m, 33, 0x6B629993, 0x8A4AF384, 0xC5E61888, 0x028BEC42, 0xC90A6F97, 0x00007000);
    assert Rounds(v0, K, m, 34) == Vars(0xF15F04F3, 0x6B629993, 0x2292BCE1, 0xC5E61888, 0x028BEC42);
    RoundAt(v0, m, 34, 0xF15F04F3, 0x6B629993, 0x2292BCE1, 0xC5E61888, 0x028BEC42, 0x00000E00);
    assert Rounds(v0, K, m, 35) == Vars(0x295CC25B, 0xF15F04F3, 0xDAD8A664, 0x2292BCE1, 0xC5E61888);
    RoundAt(v0, m, 35, 0x295CC25B, 0xF15F04F3, 0xDAD8A664, 0x2292BCE1, 0xC5E61888, 0x00003600);
    assert Rounds(v0, K, m, 36) == Vars(0x696DA404, 0x295CC25B, 0xFC57C13C, 0xDAD8A664, 0x2292BCE1);
    RoundAt(v0, m, 36, 0x696DA404, 0x295CC25B, 0xFC57C13C, 0xDAD8A664, 0x2292BCE1, 0x0000E000);
    assert Rounds(v0, K, m, 37) == Vars(0xCEF5AE12, 0x696DA404, 0xCA573096, 0xFC57C13C, 0xDAD8A664);
    RoundAt(v0, m, 37, 0xCEF5AE12, 0x696DA404, 0xCA573096, 0xFC57C13C, 0xDAD8A664, 0x00000E00);
    assert Rounds(v0, K, m, 38) == Vars(0x87D5B80C, 0xCEF5AE12, 0x1A5B6901, 0xCA573096, 0xFC57C13C);
    RoundAt(v0, m, 38, 0x87D5B80C, 0xCEF5AE12, 0x1A5B6901, 0xCA573096, 0xFC57C13C, 0x00000000);
    assert Rounds(v0, K, m, 39) == Vars(0x84E2A5F2, 0x87D5B80C, 0xB3BD6B84, 0x1A5B6901, 0xCA573096);
    RoundAt(v0, m, 39, 0x84E2A5F2, 0x87D5B80C, 0xB3BD6B84, 0x1A5B6901, 0xCA573096, 0x0001CE00);
    assert Rounds(v0, K, m, 40) == Vars(0x03BB6310, 0x84E2A5F2, 0x21F56E03, 0xB3BD6B84, 0x1A5B6901);
  }

  /** Rounds 40..59 of the second block of the padded 56-byte string. */
  lemma AbcdbSecondRounds60(v0: Vars, m: seq<Word>)
    requires |m| == 80 && Rounds(v0, K, m, 40) == Vars(0x03BB6310, 0x84E2A5F2, 0x21F56E03, 0xB3BD6B84, 0x1A5B6901)
    requires m[40] == 0x00000000 && m[41] == 0x0000D800 && m[42] == 0x00038000 && m[43] == 0x00004F00
    requires m[44] == 0x00000000 && m[45] == 0x00070E00 && m[46] == 0x0000EE00 && m[47] == 0x00037500
    requires m[48] == 0x000E0000 && m[49] == 0x0000E000 && m[50] == 0x00003600 && m[51] == 0x001CEE00
    requires m[52] == 0x00000000 && m[53] == 0x000DF000 && m[54] == 0x00380000 && m[55] == 0x0004C600
    requires m[56] == 0x0000E000 && m[57] == 0x0070EE00 && m[58] == 0x000EE000 && m[59] == 0x00369E00
    ensures Rounds(v0, K, m, 60) == Vars(0xA65818F7, 0x5B086C42, 0xB9E15956, 0xEA1256A6, 0xDB69CB9F)
  {
    RoundAt(v0, m, 40, 0x03BB6310, 0x84E2A5F2, 0x21F56E03, 0xB3BD6B84, 0x1A5B6901, 0x00000000);
    assert Rounds(v0, K, m, 41) == Vars(0xC2D8F75F, 0x03BB6310, 0xA138A97C, 0x21F56E03, 0xB3BD6B84);
    RoundAt(v0, m, 41, 0xC2D8F75F, 0x03BB6310, 0xA138A97C, 0x21F56E03, 0xB3BD6B84, 0x0000D800);
    assert Rounds(v0, K, m, 42) == Vars(0xBFB25768, 0xC2D8F75F, 0x00EED8C4, 0xA138A97C, 0x21F56E03);
    RoundAt(v0, m, 42, 0xBFB25768, 0xC2D8F75F, 0x00EED8C4, 0xA138A97C, 0x21F56E03, 0x00038000);
    assert Rounds(v0, K, m, 43) == Vars(0x28589152, 0xBFB25768, 0xF0B63DD7, 0x00EED8C4, 0xA138A97C);
    RoundAt(v0, m, 43, 0x28589152, 0xBFB25768, 0xF0B63DD7, 0x00EED8C4, 0xA138A97C, 0x00004F00);
    assert Rounds(v0, K, m, 44) == Vars(0xEC1D3D61, 0x28589152, 0x2FEC95DA, 0xF0B63DD7, 0x00EED8C4);
    RoundAt(v0, m, 44, 0xEC1D3D61, 0x28589152, 0x2FEC95DA, 0xF0B63DD7, 0x00EED8C4, 0x00000000);
    assert Rounds(v0, K, m, 45) == Vars(0x3CAED7AF, 0xEC1D3D61, 0x8A162454, 0x2FEC95DA, 0xF0B63DD7);
    RoundAt(v0, m, 45, 0x3CAED7AF, 0xEC1D3D61, 0x8A162454, 0x2FEC95DA, 0xF0B63DD7, 0x00070E00);
    assert Rounds(v0, K, m, 46) == Vars(0xC3D033EA, 0x3CAED7AF, 0x7B074F58, 0x8A162454, 0x2FEC95DA);
    RoundAt(v0, m, 46, 0xC3D033EA, 0x3CAED7AF, 0x7B074F58, 0x8A162454, 0x2FEC95DA, 0x0000EE00);
    assert Rounds(v0, K, m, 47) == Vars(0x7316056A, 0xC3D033EA, 0xCF2BB5EB, 0x7B074F58, 0x8A162454);
    RoundAt(v0, m, 47, 0x7316056A, 0xC3D033EA, 0xCF2BB5EB, 0x7B074F58, 0x8A162454, 0x00037500);
    assert Rounds(v0, K, m, 48) == Vars(0x46F93B68, 0x7316056A, 0xB0F40CFA, 0xCF2BB5EB, 0x7B074F58);
    RoundAt(v0, m, 48, 0x46F93B68, 0x7316056A, 0xB0F40CFA, 0xCF2BB5EB, 0x7B074F58, 0x000E0000);
    assert Rounds(v0, K, m, 49) == Vars(0xDC8E7F26, 0x46F93B68, 0x9CC5815A, 0xB0F40CFA, 0xCF2BB5EB);
    RoundAt(v0, m, 49, 0xDC8E7F26, 0x46F93B68, 0x9CC5815A, 0xB0F40CFA, 0xCF2BB5EB, 0x0000E000);
    assert Rounds(v0, K, m, 50) == Vars(0x850D411C, 0xDC8E7F26, 0x11BE4EDA, 0x9CC5815A, 0xB0F40CFA);
    RoundAt(v0, m, 50, 0x850D411C, 0xDC8E7F26, 0x11BE4EDA, 0x9CC5815A, 0xB0F40CFA, 0x00003600);
    assert Rounds(v0, K, m, 51) == Vars(0x7E4672C0, 0x850D411C, 0xB7239FC9, 0x11BE4EDA, 0x9CC5815A);
    RoundAt(v0, m, 51, 0x7E4672C0, 0x850D411C, 0xB7239FC9, 0x11BE4EDA, 0x9CC5815A, 0x001CEE00);
    assert Rounds(v0, K, m, 52) == Vars(0x89FBD41D, 0x7E4672C0, 0x21435047, 0xB7239FC9, 0x11BE4EDA);
    RoundAt(v0, m, 52, 0x89FBD41D, 0x7E4672C0, 0x21435047, 0xB7239FC9, 0x11BE4EDA, 0x00000000);
    assert Rounds(v0, K, m, 53) == Vars(0x1797E228, 0x89FBD41D, 0x1F919CB0, 0x21435047, 0xB7239FC9);
    RoundAt(v0, m, 53, 0x1797E228, 0x89FBD41D, 0x1F919CB0, 0x21435047, 0xB7239FC9, 0x000DF000);
    assert Rounds(v0, K, m, 54) == Vars(0x431D65BC, 0x1797E228, 0x627EF507, 0x1F919CB0, 0x21435047);
    RoundAt(v0, m, 54, 0x431D65BC, 0x1797E228, 0x627EF507, 0x1F919CB0, 0x21435047, 0x00380000);
    assert Rounds(v0, K, m, 55) == Vars(0x2BDBB8CB, 0x431D65BC, 0x05E5F88A, 0x627EF507, 0x1F919CB0);
    RoundAt(v0, m, 55, 0x2BDBB8CB, 0x431D65BC, 0x05E5F88A, 0x627EF507, 0x1F919CB0, 0x0004C600);
    assert Rounds(v0, K, m, 56) == Vars(0x6DA72E7F, 0x2BDBB8CB, 0x10C7596F, 0x05E5F88A, 0x627EF507);
    RoundAt(v0, m, 56, 0x6DA72E7F, 0x2BDBB8CB, 0x10C7596F, 0x05E5F88A, 0x627EF507, 0x0000E000);
    assert Rounds(v0, K, m, 57) == Vars(0xA8495A9B, 0x6DA72E7F, 0xCAF6EE32, 0x10C7596F, 0x05E5F88A);
    RoundAt(v0, m, 57, 0xA8495A9B, 0x6DA72E7F, 0xCAF6EE32, 0x10C7596F, 0x05E5F88A, 0x0070EE00);
    assert Rounds(v0, K, m, 58) == Vars(0xE785655A, 0xA8495A9B, 0xDB69CB9F, 0xCAF6EE32, 0x10C7596F);
    RoundAt(v0, m, 58, 0xE785655A, 0xA8495A9B, 0xDB69CB9F, 0xCAF6EE32, 0x10C7596F, 0x000EE000);
    assert Rounds(v0, K, m, 59) == Vars(0x5B086C42, 0xE785655A, 0xEA1256A6, 0xDB69CB9F, 0xCAF6EE32);
    RoundAt(v0, m, 59, 0x5B086C42, 0xE785655A, 0xEA1256A6, 0xDB69CB9F, 0xCAF6EE32, 0x00369E00);
    assert Rounds(v0, K, m, 60) == Vars(0xA65818F7, 0x5B086C42, 0xB9E15956, 0xEA1256A6, 0xDB69CB9F);
  }

  /** Rounds 60..79 of the second block of the padded 56-byte string. */
  lemma AbcdbSecondRounds80(v0: Vars, m: seq<Word>)
    requires |m| == 80 && Rounds(v0, K, m, 60) == Vars(0xA65818F7, 0x5B086C42, 0xB9E15956, 0xEA1256A6, 0xDB69CB9F)
    requires m[60] == 0x00E00000 && m[61] == 0x000ED600 && m[62] == 0x0000E000 && m[63] == 0x01CEA600
    requires m[64] == 0x00000000 && m[65] == 0x00D80000 && m[66] == 0x0380E000 && m[67] == 0x004F0000
    requires m[68] == 0x00000000 && m[69] == 0x070E0000 && m[70] == 0x00EE0000 && m[71] == 0x03751C00
    requires m[72] == 0x0E000000 && m[73] == 0x00E0E000 && m[74] == 0x00363800 && m[75] == 0x1CEE9000
    requires m[76] == 0x00000000 && m[77] == 0x0DF09000 && m[78] == 0x3800E000 && m[79] == 0x04C77400
    ensures Rounds(v0, K, m, 80) == Vars(0x906FD62C, 0x58C0AAC0, 0xB6A55520, 0x74E9B89D, 0x9AF00B7F)
  {
    RoundAt(v0, m, 60, 0xA65818F7, 0x5B086C42, 0xB9E15956, 0xEA1256A6, 0xDB69CB9F, 0x00E00000);
    assert Rounds(v0, K, m, 61) == Vars(0x7AAB101B, 0xA65818F7, 0x96C21B10, 0xB9E15956, 0xEA1256A6);
    RoundAt(v0, m, 61, 0x7AAB101B, 0xA65818F7, 0x96C21B10, 0xB9E15956, 0xEA1256A6, 0x000ED600);
    assert Rounds(v0, K, m, 62) == Vars(0x93614C9C, 0x7AAB101B, 0xE996063D, 0x96C21B10, 0xB9E15956);
    RoundAt(v0, m, 62, 0x93614C9C, 0x7AAB101B, 0xE996063D, 0x96C21B10, 0xB9E15956, 0x0000E000);
    assert Rounds(v0, K, m, 63) == Vars(0xF66D9BF4, 0x93614C9C, 0xDEAAC406, 0xE996063D, 0x96C21B10);
    RoundAt(v0, m, 63, 0xF66D9BF4, 0x93614C9C, 0xDEAAC406, 0xE996063D, 0x96C21B10, 0x01CEA600);
    assert Rounds(v0, K, m, 64) == Vars(0xD504902B, 0xF66D9BF4, 0x24D85327, 0xDEAAC406, 0xE996063D);
    RoundAt(v0, m, 64, 0xD504902B, 0xF66D9BF4, 0x24D85327, 0xDEAAC406, 0xE996063D, 0x00000000);
    assert Rounds(v0, K, m, 65) == Vars(0x60A9DA62, 0xD504902B, 0x3D9B66FD, 0x24D85327, 0xDEAAC406);
    RoundAt(v0, m, 65, 0x60A9DA62, 0xD504902B, 0x3D9B66FD, 0x24D85327, 0xDEAAC406, 0x00D80000);
    assert Rounds(v0, K, m, 66) == Vars(0x8B687819, 0x60A9DA62, 0xF541240A, 0x3D9B66FD, 0x24D85327);
    RoundAt(v0, m, 66, 0x8B687819, 0x60A9DA62, 0xF541240A, 0x3D9B66FD, 0x24D85327, 0x0380E000);
    assert Rounds(v0, K, m, 67) == Vars(0x083E90C3, 0x8B687819, 0x982A7698, 0xF541240A, 0x3D9B66FD);
    RoundAt(v0, m, 67, 0x083E90C3, 0x8B687819, 0x982A7698, 0xF541240A, 0x3D9B66FD, 0x004F0000);
    assert Rounds(v0, K, m, 68) == Vars(0xF6226BBF, 0x083E90C3, 0x62DA1E06, 0x982A7698, 0xF541240A);
    RoundAt(v0, m, 68, 0xF6226BBF, 0x083E90C3, 0x62DA1E06, 0x982A7698, 0xF541240A, 0x00000000);
    assert Rounds(v0, K, m, 69) == Vars(0x76C0563B, 0xF6226BBF, 0xC20FA430, 0x62DA1E06, 0x982A7698);
    RoundAt(v0, m, 69, 0x76C0563B, 0xF6226BBF, 0xC20FA430, 0x62DA1E06, 0x982A7698, 0x070E0000);
    assert Rounds(v0, K, m, 70) == Vars(0x989DD165, 0x76C0563B, 0xFD889AEF, 0xC20FA430, 0x62DA1E06);
    RoundAt(v0, m, 70, 0x989DD165, 0x76C0563B, 0xFD889AEF, 0xC20FA430, 0x62DA1E06, 0x00EE0000);
    assert Rounds(v0, K, m, 71) == Vars(0x8B2C7573, 0x989DD165, 0xDDB0158E, 0xFD889AEF, 0xC20FA430);
    RoundAt(v0, m, 71, 0x8B2C7573, 0x989DD165, 0xDDB0158E, 0xFD889AEF, 0xC20FA430, 0x03751C00);
    assert Rounds(v0, K, m, 72) == Vars(0xAE1B8E7B, 0x8B2C7573, 0x66277459, 0xDDB0158E, 0xFD889AEF);
    RoundAt(v0, m, 72, 0xAE1B8E7B, 0x8B2C7573, 0x66277459, 0xDDB0158E, 0xFD889AEF, 0x0E000000);
    assert Rounds(v0, K, m, 73) == Vars(0xCA1840DE, 0xAE1B8E7B, 0xE2CB1D5C, 0x66277459, 0xDDB0158E);
    RoundAt(v0, m, 73, 0xCA1840DE, 0xAE1B8E7B, 0xE2CB1D5C, 0x66277459, 0xDDB0158E, 0x00E0E000);
    assert Rounds(v0, K, m, 74) == Vars(0x16F3BABB, 0xCA1840DE, 0xEB86E39E, 0xE2CB1D5C, 0x66277459);
    RoundAt(v0, m, 74, 0x16F3BABB, 0xCA1840DE, 0xEB86E39E, 0xE2CB1D5C, 0x66277459, 0x00363800);
    assert Rounds(v0, K, m, 75) == Vars(0xD28D83AD, 0x16F3BABB, 0xB2861037, 0xEB86E39E, 0xE2CB1D5C);
    RoundAt(v0, m, 75, 0xD28D83AD, 0x16F3BABB, 0xB2861037, 0xEB86E39E, 0xE2CB1D5C, 0x1CEE9000);
    assert Rounds(v0, K, m, 76) == Vars(0x6BC02DFE, 0xD28D83AD, 0xC5BCEEAE, 0xB2861037, 0xEB86E39E);
    RoundAt(v0, m, 76, 0x6BC02DFE, 0xD28D83AD, 0xC5BCEEAE, 0xB2861037, 0xEB86E39E, 0x00000000);
    assert Rounds(v0, K, m, 77) == Vars(0xD3A6E275, 0x6BC02DFE, 0x74A360EB, 0xC5BCEEAE, 0xB2861037);
    RoundAt(v0, m, 77, 0xD3A6E275, 0x6BC02DFE, 0x74A360EB, 0xC5BCEEAE, 0xB2861037, 0x0DF09000);
    assert Rounds(v0, K, m, 78) == Vars(0xDA955482, 0xD3A6E275, 0x9AF00B7F, 0x74A360EB, 0xC5BCEEAE);
    RoundAt(v0, m, 78, 0xDA955482, 0xD3A6E275, 0x9AF00B7F, 0x74A360EB, 0xC5BCEEAE, 0x3800E000);
    assert Rounds(v0, K, m, 79) == Vars(0x58C0AAC0, 0xDA955482, 0x74E9B89D, 0x9AF00B7F, 0x74A360EB);
    RoundAt(v0, m, 79, 0x58C0AAC0, 0xDA955482, 0x74E9B89D, 0x9AF00B7F, 0x74A360EB, 0x04C77400);
    assert Rounds(v0, K, m, 80) == Vars(0x906FD62C, 0x58C0AAC0, 0xB6A55520, 0x74E9B89D, 0x9AF00B7F);
  }

  /** The compression of the second block of the padded 56-byte string into the state [f4286818, c37b27ae, 0408f581, 84677148, 4a566572]. */
  lemma AbcdbSecondCompress(block: seq<Byte>)
    requires block == Zeros(56) + [0, 0, 0, 0, 0, 0, 0x01, 0xc0]
    ensures Compress([0xF4286818, 0xC37B27AE, 0x0408F581, 0x84677148, 0x4A566572], K, block) == [0x84983E44, 0x1C3BD26E, 0xBAAE4AA1, 0xF95129E5, 0xE54670F1]
  {
    AbcdbSecondWords4(block);
    AbcdbSecondWords8(block);
    AbcdbSecondWords12(block);
    AbcdbSecondWords16(block);
    var m := Schedule(block);
    ScheduleFacts(block);
    AbcdbSecondSchedule32(m);
    AbcdbSecondSchedule48(m);
    AbcdbSecondSchedule64(m);
    AbcdbSecondSchedule80(m);
    var v0 := Vars(0xF4286818, 0xC37B27AE, 0x0408F581, 0x84677148, 0x4A566572);
    AbcdbSecondRounds20(v0, m);
    AbcdbSecondRounds40(v0, m);
    AbcdbSecondRounds60(v0, m);
    AbcdbSecondRounds80(v0, m);
  }

  /** The 56-byte string padded is two blocks: the string, 0x80 and seven zeros; then 56 zeros
      and 448 as a 64-bit big-endian count. */
  lemma AbcdbPad()
    ensures |Pad(ABCDB)| == 128
    ensures Pad(ABCDB)[..64] == ABCDB + [0x80] + Zeros(7)
    ensures Pad(ABCDB)[64..] == Zeros(56) + [0, 0, 0, 0, 0, 0, 0x01, 0xc0]
  {
    var first := ABCDB + [0x80] + Zeros(7);
    var second := Zeros(56) + [0, 0, 0, 0, 0, 0, 0x01, 0xc0];
    assert BitLength(|ABCDB|) == 448;
    LengthBytesSmall(448);
    ZerosAppend(7, 56);
    assert Pad(ABCDB) == first + second;
  }

  /** SHA-1 of the 56-byte string is 84983e44 1c3bd26e baae4aa1 f95129e5 e54670f1. */
  lemma Sha1Abcdb()
    ensures Sha1(ABCDB) == Digest([0x84983E44, 0x1C3BD26E, 0xBAAE4AA1, 0xF95129E5, 0xE54670F1])
  {
    AbcdbPad();
    HashBlocksTwo(H0, K, Pad(ABCDB));
    AbcdbFirstCompress(Pad(ABCDB)[..64]);
    AbcdbSecondCompress(Pad(ABCDB)[64..]);
  }

  /** The digest of the 56-byte string as the 20 bytes the test compares. */
  lemma AbcdbDigestBytes()
    ensures Digest([0x84983E44, 0x1C3BD26E, 0xBAAE4AA1, 0xF95129E5, 0xE54670F1]) ==
      [0x84, 0x98, 0x3e, 0x44, 0x1c, 0x3b, 0xd2, 0x6e, 0xba, 0xae, 0x4a, 0xa1, 0xf9, 0x51, 0x29, 0xe5, 0xe5, 0x46, 0x70, 0xf1]
  {
  }

  // ---------------------------------------------------------------------------
  // The test sequence on the context object
  // ---------------------------------------------------------------------------

  /** `sha1_init` then one `sha1_update` with `text`. */
  method Absorbing(ctx: Engine.Sha1Ctx, text: seq<Byte>)
    requires ctx.Shaped()
    modifies ctx, ctx.data, ctx.state, ctx.k
    ensures ctx.Valid() && ctx.msg == text
    ensures ctx.data == old(ctx.data) && ctx.state == old(ctx.state) && ctx.k == old(ctx.k)
  {
    ctx.Init();
    ctx.Update(text);
  }

  /** `sha1_init`, one `sha1_update` with `text`, then `sha1_final` into `buf`: the
      sequence each of the first two tests runs. */
  method HashOnce(ctx: Engine.Sha1Ctx, text: seq<Byte>, buf: array<Byte>)
    requires ctx.Shaped() && buf.Length == 20 && buf != ctx.data
    modifies ctx, ctx.data, ctx.state, ctx.k, buf
    ensures buf[..] == Sha1(text)
  {
    Absorbing(ctx, text);
    ctx.Final(buf);
    assert buf[..] == buf[..20];
  }

  /** The first test: the digest of "abc" written into `buf`. */
  method TestAbc(ctx: Engine.Sha1Ctx, buf: array<Byte>)
    requires ctx.Shaped() && buf.Length == 20 && buf != ctx.data
    modifies ctx, ctx.data, ctx.state, ctx.k, buf
    ensures buf[..] == [0xa9, 0x99, 0x3e, 0x36, 0x47, 0x06, 0x81, 0x6a, 0xba, 0x3e, 0x25, 0x71, 0x78, 0x50, 0xc2, 0x6c, 0x9c, 0xd0, 0xd8, 0x9d]
  {
    HashOnce(ctx, ABC, buf);
    Sha1Abc();
    AbcDigestBytes();
  }

  /** The second test: the digest of the 56-byte string written into `buf`. */
  method TestAbcdb(ctx: Engine.Sha1Ctx, buf: array<Byte>)
    requires ctx.Shaped() && buf.Length == 20 && buf != ctx.data
    modifies ctx, ctx.data, ctx.state, ctx.k, buf
    ensures buf[..] == [0x84, 0x98, 0x3e, 0x44, 0x1c, 0x3b, 0xd2, 0x6e, 0xba, 0xae, 0x4a, 0xa1, 0xf9, 0x51, 0x29, 0xe5, 0xe5, 0x46, 0x70, 0xf1]
  {
    HashOnce(ctx, ABCDB, buf);
    Sha1Abcdb();
    AbcdbDigestBytes();
  }
}
