/**
  What the CRC computes, apart from registers and tables: the remainder of a message over GF(2)
  modulo the polynomial with the exponents 32, 26, 23, 22, 16, 12, 11, 10, 8, 7, 5, 4, 2, 1 and 0
  (section 8 of RFC 1952, and section 8.1.1.6.2 of ITU-T V.42).

  The register holds a polynomial in reflected order: its lowest bit is the highest exponent. One
  bit step is one step of the division, exclusive or is the sum, the preset is what the division
  starts with, and the complement adds all the powers below 32 to the remainder. No two registers
  hold one polynomial, so the remainder fixes the CRC.
 */
module CrcPolynomial {
  import opened Crc32
  import opened Gf2

  const P: set<nat> := {32, 26, 23, 22, 16, 12, 11, 10, 8, 7, 5, 4, 2, 1, 0}

  // ---------- the register as a polynomial ----------

  /** The register's bit for x to the e; the lowest bit stands for x to the 31. */
  function Mask(e: nat): bv32 {
    if e == 0 then 0x80000000 else Mask(e - 1) >> 1
  }

  lemma Masks0()
    ensures Mask(0) == 0x80000000 && Mask(1) == 0x40000000 && Mask(2) == 0x20000000 && Mask(3) == 0x10000000
    ensures Mask(4) == 0x08000000 && Mask(5) == 0x04000000 && Mask(6) == 0x02000000 && Mask(7) == 0x01000000
  {
  }

  lemma Masks8()
    ensures Mask(8) == 0x00800000 && Mask(9) == 0x00400000 && Mask(10) == 0x00200000 && Mask(11) == 0x00100000
    ensures Mask(12) == 0x00080000 && Mask(13) == 0x00040000 && Mask(14) == 0x00020000 && Mask(15) == 0x00010000
  {
    Masks0();
  }

  lemma Masks16()
    ensures Mask(16) == 0x00008000 && Mask(17) == 0x00004000 && Mask(18) == 0x00002000 && Mask(19) == 0x00001000
    ensures Mask(20) == 0x00000800 && Mask(21) == 0x00000400 && Mask(22) == 0x00000200 && Mask(23) == 0x00000100
  {
    Masks0();
    Masks8();
  }

  lemma Masks24()
    ensures Mask(24) == 0x00000080 && Mask(25) == 0x00000040 && Mask(26) == 0x00000020 && Mask(27) == 0x00000010
    ensures Mask(28) == 0x00000008 && Mask(29) == 0x00000004 && Mask(30) == 0x00000002 && Mask(31) == 0x00000001
  {
    Masks8();
    Masks16();
  }

  predicate HasBit(c: bv32, mask: bv32) {
    c & mask != 0
  }

  function Poly(c: bv32): set<nat> {
    set e: nat | e < 32 && HasBit(c, Mask(e))
  }

  predicate OneBit(m: bv32) {
    m != 0 && m & (m - 1) == 0
  }

  lemma OneBits(e: nat)
    requires e < 32
    ensures OneBit(Mask(e)) && Mask(e) << 1 == if e == 0 then 0 else Mask(e - 1)
  {
    if e < 8 { BitsBelow8(e); } else if e < 16 { BitsBelow16(e); } else if e < 24 { BitsBelow24(e); } else { BitsBelow32(e); }
  }

  const TAPS: bv32 := 0xedb88320

  lemma TapsAre(e: nat)
    requires e < 32
    ensures HasBit(TAPS, Mask(e)) <==> e in P
  {
    if e < 8 { BitsBelow8(e); } else if e < 16 { BitsBelow16(e); } else if e < 24 { BitsBelow24(e); } else { BitsBelow32(e); }
  }

  lemma BitsBelow8(e: nat)
    requires 0 <= e < 8
    ensures Mask(e) & 255 == 0
    ensures OneBit(Mask(e)) && Mask(e) << 1 == if e == 0 then 0 else Mask(e - 1)
    ensures HasBit(TAPS, Mask(e)) <==> e in P
  {
    Masks0();
    if e == 0 {} else if e == 1 {} else if e == 2 {} else if e == 3 {} else if e == 4 {} else if e == 5 {} else if e == 6 {} else {}
  }

  lemma BitsBelow16(e: nat)
    requires 8 <= e < 16
    ensures Mask(e) & 255 == 0
    ensures OneBit(Mask(e)) && Mask(e) << 1 == if e == 0 then 0 else Mask(e - 1)
    ensures HasBit(TAPS, Mask(e)) <==> e in P
  {
    Masks0();
    Masks8();
    if e == 8 {} else if e == 9 {} else if e == 10 {} else if e == 11 {} else if e == 12 {} else if e == 13 {} else if e == 14 {} else {}
  }

  lemma BitsBelow24(e: nat)
    requires 16 <= e < 24
    ensures Mask(e) & 255 == 0
    ensures OneBit(Mask(e)) && Mask(e) << 1 == if e == 0 then 0 else Mask(e - 1)
    ensures HasBit(TAPS, Mask(e)) <==> e in P
  {
    Masks8();
    Masks16();
    if e == 16 {} else if e == 17 {} else if e == 18 {} else if e == 19 {} else if e == 20 {} else if e == 21 {} else if e == 22 {} else {}
  }

  lemma BitsBelow32(e: nat)
    requires 24 <= e < 32
    ensures OneBit(Mask(e)) && Mask(e) << 1 == if e == 0 then 0 else Mask(e - 1)
    ensures HasBit(TAPS, Mask(e)) <==> e in P
  {
    Masks16();
    Masks24();
    if e == 24 {} else if e == 25 {} else if e == 26 {} else if e == 27 {} else if e == 28 {} else if e == 29 {} else if e == 30 {} else {}
  }

  // ---------- one bit step is one step of long division ----------

  lemma StepBit(c: bv32, m: bv32)
    requires OneBit(m)
    ensures HasBit(BitStep(c), m) <==> HasBit(c, m << 1) != (HasBit(c, 1) && HasBit(TAPS, m))
  {}

  /** The quotient's next coefficient: whether x to the 31 is in the register. */
  predicate Carry(c: bv32) {
    31 in Poly(c)
  }

  lemma CarryIs(c: bv32)
    ensures Carry(c) <==> HasBit(c, 1)
  {
    Masks24();
  }

  lemma StepAt(c: bv32, e: nat)
    requires e < 32
    ensures e in Poly(BitStep(c)) <==> (e > 0 && e - 1 in Poly(c)) != (Carry(c) && e in P)
  {
    OneBits(e);
    StepBit(c, Mask(e));
    CarryIs(c);
    TapsAre(e);
  }

  /** The register times x, less P if that has x to the 32. */
  lemma StepPoly(c: bv32, e: nat)
    ensures e in Poly(BitStep(c)) <==> (e in Shift(Poly(c), 1)) != (Carry(c) && e in P)
  {
    ShiftIn(Poly(c), 1, e);
    if e < 32 { StepAt(c, e); }
  }

  lemma DivideBit(all: set<nat>, q: seq<bool>, c: bv32)
    requires Divided(all, P, q, Poly(c))
    ensures Divided(Shift(all, 1), P, q + [Carry(c)], Poly(BitStep(c)))
  {
    forall e: nat ensures e in Poly(BitStep(c)) <==> (e in Shift(Poly(c), 1)) != (Carry(c) && e in P) { StepPoly(c, e); }
    DivideStep(all, P, q, Poly(c), Carry(c), Poly(BitStep(c)));
  }

  lemma DivideBits(all: set<nat>, q: seq<bool>, c: bv32, n: nat) returns (q': seq<bool>)
    requires Divided(all, P, q, Poly(c))
    ensures Divided(Shift(all, n), P, q', Poly(BitSteps(c, n)))
    decreases n
  {
    if n == 0 {
      q' := q;
      ShiftNone(all);
    } else {
      DivideBit(all, q, c);
      q' := DivideBits(Shift(all, 1), q + [Carry(c)], BitStep(c), n - 1);
      ShiftTwice(all, 1, n - 1);
    }
  }

  /** This bit of a sum is the sum of the bits. */
  predicate XorsAt(a: bv32, b: bv32, m: bv32) {
    HasBit(Xor(a, b), m) <==> HasBit(a, m) != HasBit(b, m)
  }

  lemma TopBit(x: bv32)
    ensures HasBit(x, 0x80000000) <==> HasBit(x >> 1, 0x40000000)
  {}

  lemma XorSecond(a: bv32, b: bv32)
    ensures HasBit(a ^ b, 0x40000000) <==> HasBit(a, 0x40000000) != HasBit(b, 0x40000000)
  {}

  lemma XorTop(a: bv32, b: bv32)
    ensures HasBit(a ^ b, 0x80000000) <==> HasBit(a, 0x80000000) != HasBit(b, 0x80000000)
  {
    TopBit(a);
    TopBit(b);
    TopBit(a ^ b);
    XorShift(a, b);
    XorSecond(a >> 1, b >> 1);
  }

  lemma XorBelow1(a: bv32, b: bv32, e: nat)
    requires e == 0
    ensures XorsAt(a, b, Mask(e))
  {
    XorTop(a, b);
  }

  lemma XorBelow4(a: bv32, b: bv32, e: nat)
    requires 1 <= e < 4
    ensures XorsAt(a, b, Mask(e))
  {
    Masks0();
    if e == 1 {} else if e == 2 {} else {}
  }

  lemma XorBelow8(a: bv32, b: bv32, e: nat)
    requires 4 <= e < 8
    ensures XorsAt(a, b, Mask(e))
  {
    Masks0();
    if e == 4 {} else if e == 5 {} else if e == 6 {} else {}
  }

  lemma XorBelow12(a: bv32, b: bv32, e: nat)
    requires 8 <= e < 12
    ensures XorsAt(a, b, Mask(e))
  {
    Masks8();
    if e == 8 {} else if e == 9 {} else if e == 10 {} else {}
  }

  lemma XorBelow16(a: bv32, b: bv32, e: nat)
    requires 12 <= e < 16
    ensures XorsAt(a, b, Mask(e))
  {
    Masks8();
    if e == 12 {} else if e == 13 {} else if e == 14 {} else {}
  }

  lemma XorBelow20(a: bv32, b: bv32, e: nat)
    requires 16 <= e < 20
    ensures XorsAt(a, b, Mask(e))
  {
    Masks16();
    if e == 16 {} else if e == 17 {} else if e == 18 {} else {}
  }

  lemma XorBelow24(a: bv32, b: bv32, e: nat)
    requires 20 <= e < 24
    ensures XorsAt(a, b, Mask(e))
  {
    Masks16();
    if e == 20 {} else if e == 21 {} else if e == 22 {} else {}
  }

  lemma XorBelow28(a: bv32, b: bv32, e: nat)
    requires 24 <= e < 28
    ensures XorsAt(a, b, Mask(e))
  {
    Masks24();
    if e == 24 {} else if e == 25 {} else if e == 26 {} else {}
  }

  lemma XorBelow32(a: bv32, b: bv32, e: nat)
    requires 28 <= e < 32
    ensures XorsAt(a, b, Mask(e))
  {
    Masks24();
    if e == 28 {} else if e == 29 {} else if e == 30 {} else {}
  }

  lemma XorAt(a: bv32, b: bv32, e: nat)
    requires e < 32
    ensures XorsAt(a, b, Mask(e))
  {
    if e < 1 { XorBelow1(a, b, e); } else if e < 4 { XorBelow4(a, b, e); } else if e < 8 { XorBelow8(a, b, e); } else if e < 12 { XorBelow12(a, b, e); } else if e < 16 { XorBelow16(a, b, e); } else if e < 20 { XorBelow20(a, b, e); } else if e < 24 { XorBelow24(a, b, e); } else if e < 28 { XorBelow28(a, b, e); } else { XorBelow32(a, b, e); }
  }

  lemma XorPoly(a: bv32, b: bv32)
    ensures Poly(Xor(a, b)) == Add(Poly(a), Poly(b))
  {
    forall e ensures e in Poly(Xor(a, b)) <==> e in Add(Poly(a), Poly(b)) {
      if e < 32 { XorAt(a, b, e); }
    }
  }

  // ---------- bytes ----------

  /** A byte's bits in the register, the lowest as x to the 31. */
  function BytePoly(b: Byte): set<nat> {
    Poly(b as bv32)
  }

  lemma NoHighBit(y: bv32, m: bv32)
    requires y >> 8 == 0 && m & 255 == 0
    ensures !HasBit(y, m)
  {}

  lemma ByteIsLow(b: Byte)
    ensures (b as bv32) >> 8 == 0
  {
    ByteBelow(0, b);
  }

  lemma ByteBits(b: Byte)
    ensures IsByte(BytePoly(b))
  {
    forall e: nat ensures e in BytePoly(b) ==> 24 <= e < 32 {
      if e < 24 {
        ByteIsLow(b);
        if e < 8 { BitsBelow8(e); } else if e < 16 { BitsBelow16(e); } else { BitsBelow24(e); }
        NoHighBit(b as bv32, Mask(e));
      }
    }
  }

  lemma DivideByte(all: set<nat>, q: seq<bool>, c: bv32, b: Byte) returns (q': seq<bool>)
    requires Divided(all, P, q, Poly(c))
    ensures Divided(Shift(Add(all, BytePoly(b)), 8), P, q', Poly(Feed(c, b)))
  {
    XorPoly(c, b as bv32);
    DividedPlus(all, P, q, Poly(c), BytePoly(b));
    q' := DivideBits(Add(all, BytePoly(b)), q, c ^ (b as bv32), 8);
  }

  function Mapped<A, B>(f: A -> B, xs: seq<A>): (r: seq<B>)
    ensures |r| == |xs| && forall i :: 0 <= i < |xs| ==> r[i] == f(xs[i])
  {
    if xs == [] then [] else Mapped(f, xs[..|xs| - 1]) + [f(xs[|xs| - 1])]
  }

  lemma MappedLast<A, B>(f: A -> B, xs: seq<A>, x: A)
    ensures Mapped(f, xs + [x]) == Mapped(f, xs) + [f(x)]
  {
    assert (xs + [x])[..|xs|] == xs;
  }

  lemma {:induction false} FoldLast<S, T>(f: (S, T) -> S, xs: seq<T>, x: T, s: S)
    ensures Fold(f, xs + [x], s) == f(Fold(f, xs, s), x)
  {
    if xs == [] {
      assert [x][1..] == [];
    } else {
      assert (xs + [x])[1..] == xs[1..] + [x];
      FoldLast(f, xs[1..], x, f(s, xs[0]));
    }
  }

  lemma AugmentedLast(start: set<nat>, parts: seq<set<nat>>, last: set<nat>)
    ensures Augmented(start, parts + [last]) == Shift(Add(Augmented(start, parts), last), 8)
  {
    assert (parts + [last])[..|parts|] == parts;
  }

  lemma {:induction false} DivideBytes(start: bv32, bytes: seq<Byte>) returns (q: seq<bool>)
    ensures Divided(Augmented(Poly(start), Mapped(BytePoly, bytes)), P, q, Poly(Register(bytes, start)))
    decreases |bytes|
  {
    if bytes == [] {
      q := [];
    } else {
      var n := |bytes| - 1;
      var front, last := bytes[..n], bytes[n];
      q := DivideBytes(start, front);
      q := DivideByte(Augmented(Poly(start), Mapped(BytePoly, front)), q, Register(front, start), last);
      assert bytes == front + [last];
      FoldLast(Feed, front, last, start);
      MappedLast(BytePoly, front, last);
      AugmentedLast(Poly(start), Mapped(BytePoly, front), BytePoly(last));
    }
  }

  // ---------- the checksum ----------

  /** The register before the first byte, and what the result is complemented with. */
  const ONES: bv32 := 0xffffffff

  /**
    The message as a polynomial, byte by byte from the highest power down, each byte from its lowest
    bit; times x to the 32, with its first 32 coefficients complemented.
   */
  function Message(bytes: seq<Byte>): set<nat> {
    Dividend(Poly(ONES), Mapped(BytePoly, bytes))
  }

  /** The checksum, complemented, is the remainder of the message by P. */
  lemma CrcIsRemainder(bytes: seq<Byte>) returns (q: seq<bool>)
    ensures Divided(Message(bytes), P, q, Poly(Xor(Crc(bytes), ONES))) && Below(Poly(Xor(Crc(bytes), ONES)), 32)
  {
    q := DivideBytes(ONES, bytes);
    forall i | 0 <= i < |bytes| ensures IsByte(Mapped(BytePoly, bytes)[i]) { ByteBits(bytes[i]); }
    AugmentedIs(Poly(ONES), Mapped(BytePoly, bytes));
    Complemented(Register(bytes, ONES));
  }

  lemma Complemented(c: bv32)
    ensures Xor(c ^ 0xffffffff, ONES) == c
  {}

  // ---------- and nothing else is ----------

  lemma NoneOf0(x: bv32)
    requires forall e: nat :: 0 <= e < 8 ==> !HasBit(x, Mask(e))
    ensures x & 0xff000000 == 0
  {
    Masks0();
    Eight0(x);
  }

  lemma Eight0(x: bv32)
    requires !HasBit(x, 0x80000000) && !HasBit(x, 0x40000000) && !HasBit(x, 0x20000000) && !HasBit(x, 0x10000000)
    requires !HasBit(x, 0x08000000) && !HasBit(x, 0x04000000) && !HasBit(x, 0x02000000) && !HasBit(x, 0x01000000)
    ensures x & 0xff000000 == 0
  {}

  lemma NoneOf8(x: bv32)
    requires forall e: nat :: 8 <= e < 16 ==> !HasBit(x, Mask(e))
    ensures x & 0x00ff0000 == 0
  {
    Masks8();
    Eight8(x);
  }

  lemma Eight8(x: bv32)
    requires !HasBit(x, 0x00800000) && !HasBit(x, 0x00400000) && !HasBit(x, 0x00200000) && !HasBit(x, 0x00100000)
    requires !HasBit(x, 0x00080000) && !HasBit(x, 0x00040000) && !HasBit(x, 0x00020000) && !HasBit(x, 0x00010000)
    ensures x & 0x00ff0000 == 0
  {}

  lemma NoneOf16(x: bv32)
    requires forall e: nat :: 16 <= e < 24 ==> !HasBit(x, Mask(e))
    ensures x & 0x0000ff00 == 0
  {
    Masks16();
    Eight16(x);
  }

  lemma Eight16(x: bv32)
    requires !HasBit(x, 0x00008000) && !HasBit(x, 0x00004000) && !HasBit(x, 0x00002000) && !HasBit(x, 0x00001000)
    requires !HasBit(x, 0x00000800) && !HasBit(x, 0x00000400) && !HasBit(x, 0x00000200) && !HasBit(x, 0x00000100)
    ensures x & 0x0000ff00 == 0
  {}

  lemma NoneOf24(x: bv32)
    requires forall e: nat :: 24 <= e < 32 ==> !HasBit(x, Mask(e))
    ensures x & 0x000000ff == 0
  {
    Masks24();
    Eight24(x);
  }

  lemma Eight24(x: bv32)
    requires !HasBit(x, 0x00000080) && !HasBit(x, 0x00000040) && !HasBit(x, 0x00000020) && !HasBit(x, 0x00000010)
    requires !HasBit(x, 0x00000008) && !HasBit(x, 0x00000004) && !HasBit(x, 0x00000002) && !HasBit(x, 0x00000001)
    ensures x & 0x000000ff == 0
  {}

  lemma NoBits(x: bv32)
    requires x & 0xff000000 == 0 && x & 0x00ff0000 == 0 && x & 0x0000ff00 == 0 && x & 0x000000ff == 0
    ensures x == 0
  {}

  lemma SameIfNoDifference(a: bv32, b: bv32)
    ensures Xor(a, b) == 0 ==> a == b
    ensures Xor(a, ONES) == Xor(b, ONES) ==> a == b
  {}

  lemma PolyIsOneToOne(a: bv32, b: bv32)
    requires Poly(a) == Poly(b)
    ensures a == b
  {
    var x := Xor(a, b);
    forall e: nat | e < 32 ensures !HasBit(x, Mask(e)) {
      XorAt(a, b, e);
      assert e in Poly(a) <==> e in Poly(b);
    }
    NoneOf0(x);
    NoneOf8(x);
    NoneOf16(x);
    NoneOf24(x);
    NoBits(x);
    SameIfNoDifference(a, b);
  }

  /** The checksum of a message is the one number whose complement is the remainder by P. */
  lemma CrcIff(bytes: seq<Byte>, sum: bv32)
    ensures sum == Crc(bytes) <==> exists q :: Divided(Message(bytes), P, q, Poly(Xor(sum, ONES)))
  {
    var q := CrcIsRemainder(bytes);
    if q' :| Divided(Message(bytes), P, q', Poly(Xor(sum, ONES))) {
      RemainderIsUnique(Message(bytes), P, 32, q, Poly(Xor(Crc(bytes), ONES)), q', Poly(Xor(sum, ONES)));
      PolyIsOneToOne(Xor(Crc(bytes), ONES), Xor(sum, ONES));
      SameIfNoDifference(Crc(bytes), sum);
    }
  }
}
