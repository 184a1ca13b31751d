/** The CRC-32 of section 8 of RFC 1952, bit by bit and by table. */
module Crc32 {
  newtype Byte = x: int | 0 <= x < 256

  /** One bit through the register. */
  function BitStep(c: bv32): bv32 {
    if c & 1 == 1 then 0xedb88320 ^ (c >> 1) else c >> 1
  }

  function Iterate<T>(f: T -> T, x: T, n: nat): T
    decreases n
  {
    if n == 0 then x else Iterate(f, f(x), n - 1)
  }

  function BitSteps(c: bv32, n: nat): bv32 {
    Iterate(BitStep, c, n)
  }

  function Xor(a: bv32, b: bv32): bv32 {
    a ^ b
  }

  /** One byte mixed in and shifted out bit by bit. */
  function Feed(c: bv32, b: Byte): bv32 {
    BitSteps(c ^ (b as bv32), 8)
  }

  function Fold<S, T>(f: (S, T) -> S, xs: seq<T>, s: S): S {
    if xs == [] then s else Fold(f, xs[1..], f(s, xs[0]))
  }

  function Register(bytes: seq<Byte>, c: bv32): bv32 {
    Fold(Feed, bytes, c)
  }

  function Crc(bytes: seq<Byte>): bv32 {
    Register(bytes, 0xffffffff) ^ 0xffffffff
  }

  // ---------- a table entry does the work of eight bit steps ----------

  lemma XorShift(x: bv32, y: bv32)
    ensures (x ^ y) >> 1 == (x >> 1) ^ (y >> 1)
  {}

  lemma XorLow(x: bv32, y: bv32)
    ensures (x ^ y) & 1 == (x & 1) ^ (y & 1)
  {}

  lemma LowBit(x: bv32)
    ensures x & 1 == 0 || x & 1 == 1
  {}

  lemma XorMoves(p: bv32, a: bv32, b: bv32)
    ensures (p ^ a) ^ b == p ^ (a ^ b) && a ^ (p ^ b) == p ^ (a ^ b) && (p ^ a) ^ (p ^ b) == a ^ b
  {}

  lemma StepLinear(x: bv32, y: bv32)
    ensures BitStep(x ^ y) == BitStep(x) ^ BitStep(y)
  {
    XorShift(x, y);
    XorLow(x, y);
    LowBit(x);
    LowBit(y);
    XorMoves(0xedb88320, x >> 1, y >> 1);
  }

  lemma {:induction false} IterateLinear<T(!new)>(f: T -> T, xor: (T, T) -> T, x: T, y: T, n: nat)
    requires forall a, b :: f(xor(a, b)) == xor(f(a), f(b))
    ensures Iterate(f, xor(x, y), n) == xor(Iterate(f, x, n), Iterate(f, y, n))
    decreases n
  {
    if n > 0 { IterateLinear(f, xor, f(x), f(y), n - 1); }
  }

  lemma StepsLinear(x: bv32, y: bv32, n: nat)
    ensures BitSteps(Xor(x, y), n) == Xor(BitSteps(x, n), BitSteps(y, n))
  {
    forall a, b ensures BitStep(Xor(a, b)) == Xor(BitStep(a), BitStep(b)) { StepLinear(a, b); }
    IterateLinear(BitStep, Xor, x, y, n);
  }

  lemma Eight<T>(f: T -> T, a0: T, a1: T, a2: T, a3: T, a4: T, a5: T, a6: T, a7: T, a8: T)
    requires f(a0) == a1 && f(a1) == a2 && f(a2) == a3 && f(a3) == a4
    requires f(a4) == a5 && f(a5) == a6 && f(a6) == a7 && f(a7) == a8
    ensures Iterate(f, a0, 8) == a8
  {}

  lemma Move0(h: bv32)
    requires h & 255 == 0
    ensures BitStep(h) == h >> 1
  {}

  lemma Move1(h: bv32)
    requires h & 255 == 0
    ensures BitStep(h >> 1) == h >> 2
  {}

  lemma Move2(h: bv32)
    requires h & 255 == 0
    ensures BitStep(h >> 2) == h >> 3
  {}

  lemma Move3(h: bv32)
    requires h & 255 == 0
    ensures BitStep(h >> 3) == h >> 4
  {}

  lemma Move4(h: bv32)
    requires h & 255 == 0
    ensures BitStep(h >> 4) == h >> 5
  {}

  lemma Move5(h: bv32)
    requires h & 255 == 0
    ensures BitStep(h >> 5) == h >> 6
  {}

  lemma Move6(h: bv32)
    requires h & 255 == 0
    ensures BitStep(h >> 6) == h >> 7
  {}

  lemma Move7(h: bv32)
    requires h & 255 == 0
    ensures BitStep(h >> 7) == h >> 8
  {}

  lemma HighBits(c: bv32)
    ensures (c & 0xffffff00) & 255 == 0 && (c & 0xffffff00) >> 8 == c >> 8 && c == (c & 255) ^ (c & 0xffffff00)
  {}

  /** Bits above the lowest eight only move down. */
  lemma HighSteps(h: bv32)
    requires h & 255 == 0
    ensures BitSteps(h, 8) == h >> 8
  {
    Move0(h);
    Move1(h);
    Move2(h);
    Move3(h);
    Move4(h);
    Move5(h);
    Move6(h);
    Move7(h);
    Eight(BitStep, h, h >> 1, h >> 2, h >> 3, h >> 4, h >> 5, h >> 6, h >> 7, h >> 8);
  }

  lemma TableStep(c: bv32)
    ensures BitSteps(c, 8) == Xor(BitSteps(c & 255, 8), c >> 8)
  {
    HighBits(c);
    StepsLinear(c & 255, c & 0xffffff00, 8);
    HighSteps(c & 0xffffff00);
  }

  lemma ByteBelow(c: bv32, b: Byte)
    ensures (c ^ (b as bv32)) >> 8 == c >> 8
  {}

  lemma LowByte(x: bv32)
    ensures 0 <= (x & 255) as int < 256
  {}

  // ---------- the program ----------

  ghost predicate EntryOk(table: seq<bv32>, n: nat)
    requires n < |table| <= 256
  {
    table[n] == BitSteps(n as bv32, 8)
  }

  ghost predicate Filled(table: seq<bv32>) {
    |table| <= 256 && forall n :: 0 <= n < |table| ==> EntryOk(table, n)
  }

  ghost predicate IsTable(table: seq<bv32>) {
    |table| == 256 && Filled(table)
  }

  lemma FillOne(table: seq<bv32>, c: bv32)
    requires Filled(table) && |table| < 256 && c == BitSteps(|table| as bv32, 8)
    ensures Filled(table + [c])
  {
    var more := table + [c];
    forall n | 0 <= n < |more| ensures EntryOk(more, n) {
      if n < |table| { assert EntryOk(table, n); }
    }
  }

  lemma OneStep(c: bv32, n: nat)
    requires n > 0
    ensures BitSteps(c, n) == BitSteps(BitStep(c), n - 1)
  {}

  method TableEntry(n: bv32) returns (c: bv32)
    ensures c == BitSteps(n, 8)
  {
    c := n;
    for i := 0 to 8
      invariant BitSteps(n, 8) == BitSteps(c, 8 - i)
    {
      OneStep(c, 8 - i);
      c := if c & 1 == 1 then 0xedb88320 ^ (c >> 1) else c >> 1;
    }
  }

  method MakeTable() returns (table: seq<bv32>)
    ensures IsTable(table)
  {
    table := [];
    for n := 0 to 256
      invariant |table| == n && Filled(table)
    {
      var c := TableEntry(n as bv32);
      FillOne(table, c);
      table := table + [c];
    }
  }

  function Looked(table: seq<bv32>, c: bv32, b: Byte): bv32
    requires IsTable(table)
  {
    LowByte(c ^ (b as bv32));
    Xor(table[((c ^ (b as bv32)) & 255) as int], c >> 8)
  }

  lemma Back(y: bv32)
    ensures (y as int) as bv32 == y
  {}

  lemma EntryIs(table: seq<bv32>, y: bv32)
    requires IsTable(table) && y as int < 256
    ensures table[y as int] == BitSteps(y, 8)
  {
    Back(y);
    assert EntryOk(table, y as int);
  }

  lemma LookedIs(table: seq<bv32>, c: bv32, b: Byte)
    requires IsTable(table)
    ensures Looked(table, c, b) == Feed(c, b)
  {
    var x := c ^ (b as bv32);
    LowByte(x);
    EntryIs(table, x & 255);
    TableStep(x);
    ByteBelow(c, b);
  }

  lemma FoldOne<S, T>(f: (S, T) -> S, xs: seq<T>, i: nat, s: S)
    requires i < |xs|
    ensures Fold(f, xs[i..], s) == Fold(f, xs[i + 1..], f(s, xs[i]))
  {
    assert xs[i..][0] == xs[i] && xs[i..][1..] == xs[i + 1..];
  }

  /** One table lookup per byte. */
  method TableCrc(table: seq<bv32>, bytes: seq<Byte>) returns (sum: bv32)
    requires IsTable(table)
    ensures sum == Crc(bytes)
  {
    var c: bv32 := 0xffffffff;
    assert bytes[0..] == bytes;
    for i := 0 to |bytes|
      invariant Register(bytes, 0xffffffff) == Register(bytes[i..], c)
    {
      FoldOne(Feed, bytes, i, c);
      LookedIs(table, c, bytes[i]);
      c := Looked(table, c, bytes[i]);
    }
    assert bytes[|bytes|..] == [];
    sum := c ^ 0xffffffff;
  }
}
