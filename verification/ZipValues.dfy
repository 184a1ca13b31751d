/** Published and worked values: the CRC's check value, one more sum, and the fixed bytes of every archive. */
module ZipValues {
  import opened Crc32
  import opened ZipWriter

  /** One byte through the register, given the nine values the register takes. */
  lemma Fed(c: bv32, b: Byte, a0: bv32, a1: bv32, a2: bv32, a3: bv32, a4: bv32, a5: bv32, a6: bv32, a7: bv32, a8: bv32)
    requires a0 == c ^ (b as bv32)
    requires BitStep(a0) == a1 && BitStep(a1) == a2 && BitStep(a2) == a3 && BitStep(a3) == a4
    requires BitStep(a4) == a5 && BitStep(a5) == a6 && BitStep(a6) == a7 && BitStep(a7) == a8
    ensures Feed(c, b) == a8
  {
    Eight(BitStep, a0, a1, a2, a3, a4, a5, a6, a7, a8);
  }

  lemma Fed1()
    ensures Feed(0xffffffff, 49) == 0x7c231048
  {
    Fed(0xffffffff, 49, 0xffffffce, 0x7fffffe7, 0xd2477cd3, 0x849b3d49,
        0xaff51d84, 0x57fa8ec2, 0x2bfd4761, 0xf8462090, 0x7c231048);
  }

  lemma Fed2()
    ensures Feed(0x7c231048, 50) == 0xb0acbb32
  {
    Fed(0x7c231048, 50, 0x7c23107a, 0x3e11883d, 0xf2b0473e, 0x7958239f,
        0xd11492ef, 0x8532ca57, 0xaf21e60b, 0xba287025, 0xb0acbb32);
  }

  lemma Fed3()
    ensures Feed(0xb0acbb32, 51) == 0x77b79c2d
  {
    Fed(0xb0acbb32, 51, 0xb0acbb01, 0xb5eedea0, 0x5af76f50, 0x2d7bb7a8,
        0x16bddbd4, 0x0b5eedea, 0x05af76f5, 0xef6f385a, 0x77b79c2d);
  }

  lemma Fed4()
    ensures Feed(0x77b79c2d, 52) == 0x641c1f5c
  {
    Fed(0x77b79c2d, 52, 0x77b79c19, 0xd6634d2c, 0x6b31a696, 0x3598d34b,
        0xf774ea85, 0x9602f662, 0x4b017b31, 0xc8383eb8, 0x641c1f5c);
  }

  lemma Fed5()
    ensures Feed(0x641c1f5c, 53) == 0x340ac5e3
  {
    Fed(0x641c1f5c, 53, 0x641c1f69, 0xdfb68c94, 0x6fdb464a, 0x37eda325,
        0xf64e52b2, 0x7b272959, 0xd02b178c, 0x68158bc6, 0x340ac5e3);
  }

  lemma Fed6()
    ensures Feed(0x340ac5e3, 54) == 0xf68d2c9e
  {
    Fed(0x340ac5e3, 54, 0x340ac5d5, 0xf7bde1ca, 0x7bdef0e5, 0xd057fb52,
        0x682bfda9, 0xd9ad7df4, 0x6cd6befa, 0x366b5f7d, 0xf68d2c9e);
  }

  lemma Fed7()
    ensures Feed(0xf68d2c9e, 55) == 0xaffc9660
  {
    Fed(0xf68d2c9e, 55, 0xf68d2ca9, 0x96fe1574, 0x4b7f0aba, 0x25bf855d,
        0xff67418e, 0x7fb3a0c7, 0xd2615343, 0x84882a81, 0xaffc9660);
  }

  lemma Fed8()
    ensures Feed(0xaffc9660, 56) == 0x651f2550
  {
    Fed(0xaffc9660, 56, 0xaffc9658, 0x57fe4b2c, 0x2bff2596, 0x15ff92cb,
        0xe7474a45, 0x9e1b2602, 0x4f0d9301, 0xca3e4aa0, 0x651f2550);
  }

  lemma Fed9()
    ensures Feed(0x651f2550, 57) == 0x340bc6d9
  {
    Fed(0x651f2550, 57, 0x651f2569, 0xdf371194, 0x6f9b88ca, 0x37cdc465,
        0xf65e6112, 0x7b2f3089, 0xd02f1b64, 0x68178db2, 0x340bc6d9);
  }

  lemma FedA()
    ensures Feed(0xffffffff, 97) == 0x174841bc
  {
    Fed(0xffffffff, 97, 0xffffff9e, 0x7fffffcf, 0xd2477cc7, 0x849b3d43,
        0xaff51d81, 0xba420de0, 0x5d2106f0, 0x2e908378, 0x174841bc);
  }

  lemma OneMore<S, T>(f: (S, T) -> S, x: T, rest: seq<T>, s: S, s': S)
    requires f(s, x) == s'
    ensures Fold(f, [x] + rest, s) == Fold(f, rest, s')
  {
    assert ([x] + rest)[1..] == rest;
  }

  lemma ThreeMore<S, T>(f: (S, T) -> S, x: T, y: T, z: T, rest: seq<T>, s: S, s1: S, s2: S, s3: S)
    requires f(s, x) == s1 && f(s1, y) == s2 && f(s2, z) == s3
    ensures Fold(f, [x, y, z] + rest, s) == Fold(f, rest, s3)
  {
    OneMore(f, z, rest, s2, s3);
    OneMore(f, y, [z] + rest, s1, s2);
    OneMore(f, x, [y] + ([z] + rest), s, s1);
    assert [x, y, z] + rest == [x] + ([y] + ([z] + rest));
  }

  lemma Digits123(rest: seq<Byte>)
    ensures Register([49, 50, 51] + rest, 0xffffffff) == Register(rest, 0x77b79c2d)
  {
    Fed1();
    Fed2();
    Fed3();
    ThreeMore(Feed, 49, 50, 51, rest, 0xffffffff, 0x7c231048, 0xb0acbb32, 0x77b79c2d);
  }

  lemma Digits456(rest: seq<Byte>)
    ensures Register([52, 53, 54] + rest, 0x77b79c2d) == Register(rest, 0xf68d2c9e)
  {
    Fed4();
    Fed5();
    Fed6();
    ThreeMore(Feed, 52, 53, 54, rest, 0x77b79c2d, 0x641c1f5c, 0x340ac5e3, 0xf68d2c9e);
  }

  lemma Digits789()
    ensures Register([55, 56, 57] + [], 0xf68d2c9e) == 0x340bc6d9
  {
    Fed7();
    Fed8();
    Fed9();
    ThreeMore(Feed, 55, 56, 57, [], 0xf68d2c9e, 0xaffc9660, 0x651f2550, 0x340bc6d9);
  }

  const DIGITS: seq<Byte> := [49, 50, 51] + ([52, 53, 54] + ([55, 56, 57] + []))

  /** The published check value: the sum of the nine digits' bytes. */
  lemma CheckValue()
    ensures Crc(DIGITS) == 0xcbf43926
  {
    Digits123([52, 53, 54] + ([55, 56, 57] + []));
    Digits456([55, 56, 57] + []);
    Digits789();
  }

  // ---------- a file holding the one byte 'a' ----------

  const LETTER: seq<Byte> := [97]

  /** A file of one byte 'a' is stored with this sum. */
  lemma LetterSum()
    ensures Sum(LETTER) == 0xe8b7be43 && LE32(Sum(LETTER)) == [67, 190, 183, 232]
  {
    FedA();
    OneMore(Feed, 97, [], 0xffffffff, 0x174841bc);
    assert [97] + [] == LETTER;
    SumIs();
    Digits32(0xe8b7be43, 67, 190, 183, 232);
  }

  lemma SumIs()
    requires Register(LETTER, 0xffffffff) == 0x174841bc
    ensures Sum(LETTER) == 0xe8b7be43
  {}

  lemma Digits16(n: nat, a: Byte, b: Byte)
    requires n == a as int + 0x100 * b as int
    ensures LE16(n) == [a, b]
  {
    assert Digit(n, 0) == a && Digit(n, 1) == Digit(n / 256, 0) == b;
  }

  lemma Digits32(n: nat, a: Byte, b: Byte, c: Byte, d: Byte)
    requires n == a as int + 0x100 * (b as int + 0x100 * (c as int + 0x100 * d as int))
    ensures LE32(n) == [a, b, c, d]
  {
    var n1 := b as int + 0x100 * (c as int + 0x100 * d as int);
    var n2 := c as int + 0x100 * d as int;
    assert n / 256 == n1 && n1 / 256 == n2 && n2 / 256 == d as int;
    assert Digit(n, 0) == a && Digit(n, 1) == Digit(n1, 0) == b;
    assert Digit(n, 2) == Digit(n1, 1) == Digit(n2, 0) == c;
    assert Digit(n, 3) == Digit(n1, 2) == Digit(n2, 1) == Digit(d as int, 0) == d;
  }

  // ---------- the fixed bytes of every archive ----------

  lemma Signatures()
    ensures LE32(LOCAL) == [80, 75, 3, 4] && LE32(CENTRAL) == [80, 75, 1, 2] && LE32(END) == [80, 75, 5, 6]
    ensures LE16(VERSION) == [20, 0] && LE16(UTF8) == [0, 8]
  {
    Digits32(LOCAL, 80, 75, 3, 4);
    Digits32(CENTRAL, 80, 75, 1, 2);
    Digits32(END, 80, 75, 5, 6);
    Digits16(VERSION, 20, 0);
    Digits16(UTF8, 0, 8);
  }

  /** Every local header starts "PK" 3 4, asks for version 2.0, has names in UTF-8, and stores without a time. */
  lemma LocalStarts(e: Entry)
    ensures LocalHeader(e)[..14] == [80, 75, 3, 4, 20, 0, 0, 8, 0, 0, 0, 0, 0, 0] && LocalHeader(e)[28..] == [0, 0]
  {
    Signatures();
  }

  lemma CentralStarts(e: Entry, offset: nat)
    ensures CentralHeader(e, offset)[..16] == [80, 75, 1, 2, 20, 0, 20, 0, 0, 8, 0, 0, 0, 0, 0, 0]
    ensures CentralHeader(e, offset)[30..42] == [0, 0, 0, 0, 0, 0, 0, 0, 0, 0, 0, 0]
  {
    Signatures();
  }

  lemma EndStarts(count: nat, size: nat, offset: nat)
    ensures EndRecord(count, size, offset)[..8] == [80, 75, 5, 6, 0, 0, 0, 0] && EndRecord(count, size, offset)[20..] == [0, 0]
  {
    Signatures();
  }
}
