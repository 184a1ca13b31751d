/**
  Reading an archive from its end record, and when that gives back what was written.

  The reader is an independent definition: it finds the end record at the end of the bytes,
  walks the central directory from the place the record names, and for every directory header
  goes to the local header it points at, checking signatures, packing, sizes and the sum of
  the contents against the bit-by-bit CRC-32. The writer's archive reads back to the entries it
  was made from exactly when every number fits its field: names and counts in 16 bits, sizes
  and places in 32. Both directions are proved; a number that is too wide loses its high bits
  when it is written, and then the reader finds something else.
 */
module ZipReader {
  import opened Wrappers
  import opened Crc32
  import opened ZipWriter

  // ---------- the numbers in the records ----------

  datatype LocalInfo = LocalInfo(signature: nat, packing: nat, sum: nat, packed: nat, size: nat, name: nat, extra: nat)
  datatype CentralInfo = CentralInfo(signature: nat, packing: nat, sum: nat, packed: nat, size: nat, name: nat,
                                     extra: nat, comment: nat, place: nat)
  datatype EndInfo = EndInfo(signature: nat, here: nat, count: nat, size: nat, place: nat, comment: nat)

  function LocalOf(h: seq<Byte>): LocalInfo
    requires |h| == 30
  {
    LocalInfo(U32(h, 0), U16(h, 8), U32(h, 14), U32(h, 18), U32(h, 22), U16(h, 26), U16(h, 28))
  }

  function CentralOf(h: seq<Byte>): CentralInfo
    requires |h| == 46
  {
    CentralInfo(U32(h, 0), U16(h, 10), U32(h, 16), U32(h, 20), U32(h, 24), U16(h, 28), U16(h, 30), U16(h, 32), U32(h, 42))
  }

  function EndOf(h: seq<Byte>): EndInfo
    requires |h| == 22
  {
    EndInfo(U32(h, 0), U16(h, 8), U16(h, 10), U32(h, 12), U32(h, 16), U16(h, 20))
  }

  // ---------- a reader that checks everything the records say ----------

  /** The file behind a local header: stored, with the size and sum that are expected. */
  function ReadLocal(z: seq<Byte>, at: nat, info: LocalInfo, size: nat, sum: nat): Option<Entry> {
    var start := at + 30 + info.name + info.extra;
    if info.signature != LOCAL || info.packing != 0 || info.packed != size || info.size != size || info.sum != sum then None
    else if start + size > |z| || Sum(z[start..start + size]) != sum then None
    else Some(Entry(z[at + 30..at + 30 + info.name], z[start..start + size]))
  }

  function LocalAt(z: seq<Byte>, at: nat, size: nat, sum: nat): Option<Entry> {
    if at + 30 > |z| then None else ReadLocal(z, at, LocalOf(z[at..at + 30]), size, sum)
  }

  /** One record of the directory with the file of that name, and the place of the next record. */
  function ReadCentral(z: seq<Byte>, at: nat, info: CentralInfo, file: (nat, nat, nat) -> Option<Entry>): (r: Option<(Entry, nat)>)
    ensures r.Some? ==> |r.value.0.name| == info.name
  {
    var named := at + 46 + info.name;
    if info.signature != CENTRAL || info.packing != 0 || info.packed != info.size || named > |z| then None
    else
      var e := file(info.place, info.size, info.sum);
      if e.None? || e.value.name != z[at + 46..named] then None
      else Some((e.value, named + info.extra + info.comment))
  }

  function CentralAt(z: seq<Byte>, at: nat, file: (nat, nat, nat) -> Option<Entry>): (r: Option<(Entry, nat)>)
    ensures r.Some? ==> |r.value.0.name| < 0x1_0000
  {
    if at + 46 > |z| then None else ReadCentral(z, at, CentralOf(z[at..at + 46]), file)
  }

  function ReadAll<T>(one: nat -> Option<(T, nat)>, at: nat, count: nat): Option<(seq<T>, nat)>
    decreases count
  {
    if count == 0 then Some(([], at))
    else
      var first := one(at);
      if first.None? then None
      else
        var rest := ReadAll(one, first.value.1, count - 1);
        if rest.None? then None else Some(([first.value.0] + rest.value.0, rest.value.1))
  }

  /** The directory must lie right before the end record and be used up. */
  function ReadBy(one: nat -> Option<(Entry, nat)>, end: nat, info: EndInfo): Option<seq<Entry>> {
    if info.signature != END || info.comment != 0 || info.here != info.count || info.place + info.size != end then None
    else
      var all := ReadAll(one, info.place, info.count);
      if all.None? || all.value.1 != end then None else Some(all.value.0)
  }

  function Files(z: seq<Byte>): (nat, nat, nat) -> Option<Entry> {
    (at: nat, size: nat, sum: nat) => LocalAt(z, at, size, sum)
  }

  function Directory(z: seq<Byte>): nat -> Option<(Entry, nat)> {
    (at: nat) => CentralAt(z, at, Files(z))
  }

  function Read(z: seq<Byte>): Option<seq<Entry>> {
    if |z| < 22 then None else ReadBy(Directory(z), |z| - 22, EndOf(z[|z| - 22..]))
  }

  /** Every number fits its field: 16 bits for counts and names, 32 for the two parts. */
  predicate Fits(entries: seq<Entry>) {
    && |entries| < 0x1_0000 && (forall i :: 0 <= i < |entries| ==> |entries[i].name| < 0x1_0000)
    && |Flat(Locals(entries))| < 0x1_0000_0000 && |Flat(Centrals(entries))| < 0x1_0000_0000
  }

  // ---------- the numbers that were written ----------

  lemma Digits(n: nat)
    ensures n % 256 + 0x100 * (n / 0x100 % 256) + 0x1_0000 * (n / 0x1_0000 % 256) + 0x100_0000 * (n / 0x100_0000 % 256)
         == n % 0x1_0000_0000
  {
    var a, b, c, d := n / 0x100, n / 0x1_0000, n / 0x100_0000, n / 0x1_0000_0000;
    assert b == a / 0x100 && c == b / 0x100 && d == c / 0x100;
  }

  lemma Value32(n: nat)
    ensures U32(LE32(n), 0) == n % 0x1_0000_0000
  {
    Digits(n);
    DigitsAre(n);
  }

  lemma DigitsAre(n: nat)
    ensures Digit(n, 0) as int == n % 256 && Digit(n, 1) as int == n / 0x100 % 256
    ensures Digit(n, 2) as int == n / 0x1_0000 % 256 && Digit(n, 3) as int == n / 0x100_0000 % 256
  {
    assert n / 0x1_0000 == n / 0x100 / 0x100 && n / 0x100_0000 == n / 0x100 / 0x100 / 0x100;
    assert Digit(n, 2) == Digit(n / 0x100 / 0x100, 0) && Digit(n, 3) == Digit(n / 0x100 / 0x100 / 0x100, 0);
  }

  lemma Value16(n: nat)
    ensures U16(LE16(n), 0) == n % 0x1_0000
  {
    assert Digit(n, 1) as int == n / 0x100 % 256;
  }

  lemma Within(z: seq<Byte>, a: nat, piece: seq<Byte>)
    requires a + |piece| <= |z| && z[a..a + |piece|] == piece
    ensures 2 <= |piece| ==> U16(z, a) == U16(piece, 0)
    ensures 4 <= |piece| ==> U32(z, a) == U32(piece, 0)
  {
    var y := z[a..a + |piece|];
    if 2 <= |piece| { assert y[0] == piece[0] && y[1] == piece[1]; }
    if 4 <= |piece| { assert y[2] == piece[2] && y[3] == piece[3]; }
  }

  lemma Field32(s: seq<Byte>, at: nat, n: nat)
    requires at + 4 <= |s| && s[at..at + 4] == LE32(n)
    ensures U32(s, at) == n % 0x1_0000_0000
  {
    Within(s, at, LE32(n));
    Value32(n);
  }

  lemma Exact32(s: seq<Byte>, at: nat, n: nat)
    requires at + 4 <= |s| && s[at..at + 4] == LE32(n) && n < 0x1_0000_0000
    ensures U32(s, at) == n
  {
    Field32(s, at, n);
  }

  lemma Field16(s: seq<Byte>, at: nat, n: nat)
    requires at + 2 <= |s| && s[at..at + 2] == LE16(n)
    ensures U16(s, at) == n % 0x1_0000
  {
    Within(s, at, LE16(n));
    Value16(n);
  }

  lemma FieldZero(s: seq<Byte>, at: nat)
    requires at + 2 <= |s| && s[at] == 0 && s[at + 1] == 0
    ensures U16(s, at) == 0
  {}

  lemma Exact16(s: seq<Byte>, at: nat, n: nat)
    requires at + 2 <= |s| && s[at..at + 2] == LE16(n) && n < 0x1_0000
    ensures U16(s, at) == n
  {
    Field16(s, at, n);
  }

  lemma LocalSums(e: Entry)
    ensures var h := LocalHeader(e);
            && U32(h, 0) == LOCAL && U16(h, 8) == 0 && U32(h, 14) == Sum(e.bytes)
  {
    var h := LocalHeader(e);
    var sum := Sum(e.bytes);
    assert h[0..4] == LE32(LOCAL) && h[14..18] == LE32(sum) && h[8] == 0 && h[9] == 0;
    Exact32(h, 0, LOCAL);
    FieldZero(h, 8);
    Exact32(h, 14, sum);
  }

  lemma LocalSizes(e: Entry)
    requires |e.name| < 0x1_0000 && |e.bytes| < 0x1_0000_0000
    ensures var h := LocalHeader(e);
            && U32(h, 18) == |e.bytes| && U32(h, 22) == |e.bytes| && U16(h, 26) == |e.name| && U16(h, 28) == 0
  {
    var h := LocalHeader(e);
    assert h[18..22] == LE32(|e.bytes|) && h[22..26] == LE32(|e.bytes|) && h[26..28] == LE16(|e.name|) && h[28] == 0 && h[29] == 0;
    Exact32(h, 18, |e.bytes|);
    Exact32(h, 22, |e.bytes|);
    Exact16(h, 26, |e.name|);
    FieldZero(h, 28);
  }

  lemma CentralSums(e: Entry, offset: nat)
    requires offset < 0x1_0000_0000
    ensures var h := CentralHeader(e, offset);
            && U32(h, 0) == CENTRAL && U16(h, 10) == 0 && U32(h, 16) == Sum(e.bytes) && U32(h, 42) == offset
  {
    var h := CentralHeader(e, offset);
    var sum := Sum(e.bytes);
    assert h[0..4] == LE32(CENTRAL) && h[16..20] == LE32(sum) && h[42..46] == LE32(offset) && h[10] == 0 && h[11] == 0;
    Exact32(h, 0, CENTRAL);
    FieldZero(h, 10);
    Exact32(h, 16, sum);
    Exact32(h, 42, offset);
  }

  lemma CentralSizes(e: Entry, offset: nat)
    requires |e.name| < 0x1_0000 && |e.bytes| < 0x1_0000_0000
    ensures var h := CentralHeader(e, offset);
            && U32(h, 20) == |e.bytes| && U32(h, 24) == |e.bytes| && U16(h, 28) == |e.name| && U16(h, 30) == 0 && U16(h, 32) == 0
  {
    var h := CentralHeader(e, offset);
    assert h[20..24] == LE32(|e.bytes|) && h[24..28] == LE32(|e.bytes|) && h[28..30] == LE16(|e.name|);
    assert h[30] == 0 && h[31] == 0 && h[32] == 0 && h[33] == 0;
    Exact32(h, 20, |e.bytes|);
    Exact32(h, 24, |e.bytes|);
    Exact16(h, 28, |e.name|);
    FieldZero(h, 30);
    FieldZero(h, 32);
  }

  lemma EndFields(count: nat, size: nat, offset: nat)
    ensures EndOf(EndRecord(count, size, offset))
         == EndInfo(END, count % 0x1_0000, count % 0x1_0000, size % 0x1_0000_0000, offset % 0x1_0000_0000, 0)
  {
    var h := EndRecord(count, size, offset);
    assert h[0..4] == LE32(END) && h[8..10] == LE16(count) && h[10..12] == LE16(count);
    assert h[12..16] == LE32(size) && h[16..20] == LE32(offset) && h[20] == 0 && h[21] == 0;
    Exact32(h, 0, END);
    Field16(h, 8, count);
    Field16(h, 10, count);
    Field32(h, 12, size);
    Field32(h, 16, offset);
    FieldZero(h, 20);
  }

  lemma LocalNumbers(e: Entry)
    requires |e.name| < 0x1_0000 && |e.bytes| < 0x1_0000_0000
    ensures LocalOf(LocalHeader(e)) == LocalInfo(LOCAL, 0, Sum(e.bytes), |e.bytes|, |e.bytes|, |e.name|, 0)
  {
    LocalSums(e);
    LocalSizes(e);
  }

  lemma CentralNumbers(e: Entry, offset: nat)
    requires |e.name| < 0x1_0000 && |e.bytes| < 0x1_0000_0000 && offset < 0x1_0000_0000
    ensures CentralOf(CentralHeader(e, offset))
         == CentralInfo(CENTRAL, 0, Sum(e.bytes), |e.bytes|, |e.bytes|, |e.name|, 0, 0, offset)
  {
    CentralSums(e, offset);
    CentralSizes(e, offset);
  }

  // ---------- what was written is read back ----------

  lemma SubSlice(z: seq<Byte>, a: nat, b: nat, c: nat, d: nat)
    requires a <= b <= |z| && c <= d <= b - a
    ensures z[a..b][c..d] == z[a + c..a + d]
  {
    forall k | 0 <= k < d - c ensures z[a..b][c..d][k] == z[a + c..a + d][k] {}
  }

  /** A file whose name and contents stand behind its header is read as it is. */
  lemma LocalReads(z: seq<Byte>, at: nat, e: Entry, sum: nat, start: nat)
    requires start == at + 30 + |e.name| && start + |e.bytes| <= |z| && sum == Sum(z[start..start + |e.bytes|])
    requires z[at + 30..start] == e.name && z[start..start + |e.bytes|] == e.bytes
    ensures ReadLocal(z, at, LocalInfo(LOCAL, 0, sum, |e.bytes|, |e.bytes|, |e.name|, 0), |e.bytes|, sum) == Some(e)
  {}

  lemma LocalSlices(z: seq<Byte>, at: nat, h: seq<Byte>, name: seq<Byte>, bytes: seq<Byte>)
    requires at + |h| + |name| + |bytes| <= |z| && z[at..at + |h| + |name| + |bytes|] == h + name + bytes
    ensures z[at..at + |h|] == h && z[at + |h|..at + |h| + |name|] == name
    ensures z[at + |h| + |name|..at + |h| + |name| + |bytes|] == bytes
  {
    var m, n := |h| + |name|, |h| + |name| + |bytes|;
    ThreeSlices(h, name, bytes);
    SubSlice(z, at, at + n, 0, |h|);
    SubSlice(z, at, at + n, |h|, m);
    SubSlice(z, at, at + n, m, n);
  }

  lemma ReadLocalBack(z: seq<Byte>, at: nat, h: seq<Byte>, e: Entry, sum: nat)
    requires |h| == 30 && sum == Sum(e.bytes)
    requires at + 30 + |e.name| + |e.bytes| <= |z| && z[at..at + 30 + |e.name| + |e.bytes|] == h + e.name + e.bytes
    ensures z[at..at + 30] == h
    ensures ReadLocal(z, at, LocalInfo(LOCAL, 0, sum, |e.bytes|, |e.bytes|, |e.name|, 0), |e.bytes|, sum) == Some(e)
  {
    LocalSlices(z, at, h, e.name, e.bytes);
    LocalReads(z, at, e, sum, at + 30 + |e.name|);
  }

  lemma ThreeSlices(a: seq<Byte>, b: seq<Byte>, c: seq<Byte>)
    ensures (a + b + c)[0..|a|] == a && (a + b + c)[|a|..|a| + |b|] == b && (a + b + c)[|a| + |b|..|a| + |b| + |c|] == c
  {}

  lemma LocalBack(z: seq<Byte>, at: nat, e: Entry, r: seq<Byte>)
    requires r == LocalRecord(e) && at + |r| <= |z| && z[at..at + |r|] == r
    requires |e.name| < 0x1_0000 && |e.bytes| < 0x1_0000_0000
    ensures LocalAt(z, at, |e.bytes|, Sum(e.bytes)) == Some(e)
  {
    LocalNumbers(e);
    ReadLocalBack(z, at, LocalHeader(e), e, Sum(e.bytes));
  }

  lemma ReadCentralBack(z: seq<Byte>, at: nat, h: seq<Byte>, e: Entry, sum: nat, place: nat, file: (nat, nat, nat) -> Option<Entry>)
    requires |h| == 46 && at + 46 + |e.name| <= |z| && z[at..at + 46 + |e.name|] == h + e.name
    requires file(place, |e.bytes|, sum) == Some(e)
    ensures z[at..at + 46] == h
    ensures ReadCentral(z, at, CentralInfo(CENTRAL, 0, sum, |e.bytes|, |e.bytes|, |e.name|, 0, 0, place), file)
         == Some((e, at + 46 + |e.name|))
  {
    var n := 46 + |e.name|;
    SubSlice(z, at, at + n, 0, 46);
    SubSlice(z, at, at + n, 46, n);
    assert (h + e.name)[0..46] == h && (h + e.name)[46..n] == e.name;
  }

  lemma CentralBack(z: seq<Byte>, at: nat, e: Entry, place: nat, r: seq<Byte>, file: (nat, nat, nat) -> Option<Entry>)
    requires r == CentralRecord(e, place) && at + |r| <= |z| && z[at..at + |r|] == r
    requires file(place, |e.bytes|, Sum(e.bytes)) == Some(e)
    requires |e.name| < 0x1_0000 && |e.bytes| < 0x1_0000_0000 && place < 0x1_0000_0000
    ensures CentralAt(z, at, file) == Some((e, at + |r|))
  {
    CentralNumbers(e, place);
    ReadCentralBack(z, at, CentralHeader(e, place), e, Sum(e.bytes), place, file);
  }

  // ---------- one directory record and its file ----------

  ghost predicate SlotOf(z: seq<Byte>, at: nat, piece: seq<Byte>) {
    at + |piece| <= |z| && z[at..at + |piece|] == piece
  }

  ghost predicate HasFile(file: (nat, nat, nat) -> Option<Entry>, e: Entry, a: nat) {
    file(a, |e.bytes|, Sum(e.bytes)) == Some(e) && a < 0x1_0000_0000 && |e.bytes| < 0x1_0000_0000
  }

  lemma FileLeads(z: seq<Byte>, e: Entry, a: nat, r: seq<Byte>)
    requires SlotOf(z, a, r) && r == LocalRecord(e) && a + |r| < 0x1_0000_0000 && |e.name| < 0x1_0000
    ensures HasFile(Files(z), e, a)
  {
    Sized(e, r);
    LocalBack(z, a, e, r);
  }

  lemma Sized(e: Entry, r: seq<Byte>)
    requires r == LocalRecord(e)
    ensures |r| == 30 + |e.name| + |e.bytes|
  {}

  lemma RecordLeads(z: seq<Byte>, e: Entry, a: nat, b: nat, c: seq<Byte>, file: (nat, nat, nat) -> Option<Entry>)
    requires SlotOf(z, b, c) && c == CentralRecord(e, a) && HasFile(file, e, a) && |e.name| < 0x1_0000
    ensures CentralAt(z, b, file) == Some((e, b + |c|))
  {
    CentralBack(z, b, e, a, c, file);
  }

  // ---------- records at known places ----------

  /** A directory, read place by place, gives its entries in order. */
  lemma {:induction false} AllBack<T>(one: nat -> Option<(T, nat)>, entries: seq<T>, b: seq<nat>, i: nat)
    requires |b| == |entries| + 1 && i <= |entries|
    requires forall k :: 0 <= k < |entries| ==> one(b[k]) == Some((entries[k], b[k + 1]))
    ensures ReadAll(one, b[i], |entries| - i) == Some((entries[i..], b[|entries|]))
    decreases |entries| - i
  {
    if i < |entries| {
      AllBack(one, entries, b, i + 1);
      assert one(b[i]) == Some((entries[i], b[i + 1]));
      assert entries[i..] == [entries[i]] + entries[i + 1..];
    }
  }

  // ---------- where the written records lie ----------

  /** How far the parts before the k-th reach, from a start. */
  function Reach(start: nat, parts: seq<seq<Byte>>, k: nat): nat
    requires k <= |parts|
    decreases k
  {
    if k == 0 then start else Reach(start, parts, k - 1) + |parts[k - 1]|
  }

  lemma {:induction false} ReachFrom(start: nat, parts: seq<seq<Byte>>, k: nat)
    requires k <= |parts|
    ensures Reach(start, parts, k) == start + Reach(0, parts, k)
    decreases k
  {
    if k > 0 { ReachFrom(start, parts, k - 1); }
  }

  ghost predicate PackedAt(whole: seq<Byte>, parts: seq<seq<Byte>>, k: nat)
    requires k < |parts|
  {
    SlotOf(whole, Reach(0, parts, k), parts[k])
  }

  ghost predicate Packed(whole: seq<Byte>, parts: seq<seq<Byte>>) {
    |whole| == Reach(0, parts, |parts|) && forall k :: 0 <= k < |parts| ==> PackedAt(whole, parts, k)
  }

  lemma {:induction false} ReachPrefix(parts: seq<seq<Byte>>, part: seq<Byte>, k: nat)
    requires k <= |parts|
    ensures Reach(0, parts + [part], k) == Reach(0, parts, k)
    decreases k
  {
    if k > 0 { ReachPrefix(parts, part, k - 1); }
  }

  lemma SlotKept(whole: seq<Byte>, part: seq<Byte>, at: nat, piece: seq<Byte>)
    requires SlotOf(whole, at, piece)
    ensures SlotOf(whole + part, at, piece)
  {
    assert (whole + part)[at..at + |piece|] == whole[at..at + |piece|];
  }

  lemma SlotAtEnd(whole: seq<Byte>, part: seq<Byte>)
    ensures SlotOf(whole + part, |whole|, part)
  {}

  lemma PackedOne(whole: seq<Byte>, parts: seq<seq<Byte>>, part: seq<Byte>, k: nat)
    requires |whole| == Reach(0, parts, |parts|) && k <= |parts| && (k < |parts| ==> PackedAt(whole, parts, k))
    ensures PackedAt(whole + part, parts + [part], k)
  {
    ReachPrefix(parts, part, k);
    if k < |parts| { SlotKept(whole, part, Reach(0, parts, k), parts[k]); } else { SlotAtEnd(whole, part); }
  }

  lemma PackedMore(whole: seq<Byte>, parts: seq<seq<Byte>>, part: seq<Byte>)
    requires Packed(whole, parts)
    ensures Packed(whole + part, parts + [part])
  {
    ReachPrefix(parts, part, |parts|);
    forall k | 0 <= k < |parts + [part]| ensures PackedAt(whole + part, parts + [part], k) {
      PackedOne(whole, parts, part, k);
    }
  }

  /** Every part lies where the ones before it end. */
  lemma {:induction false} FlatPacked(parts: seq<seq<Byte>>)
    ensures Packed(Flat(parts), parts)
  {
    if parts != [] {
      var n := |parts| - 1;
      FlatPacked(parts[..n]);
      PackedMore(Flat(parts[..n]), parts[..n], parts[n]);
      assert parts == parts[..n] + [parts[n]];
    }
  }

  lemma {:induction false} ReachIsFlat(parts: seq<seq<Byte>>, k: nat)
    requires k <= |parts|
    ensures |Flat(parts[..k])| == Reach(0, parts, k)
    decreases k
  {
    if k > 0 {
      ReachIsFlat(parts, k - 1);
      assert parts[..k][..k - 1] == parts[..k - 1];
    }
  }

  lemma SlotWithin(z: seq<Byte>, front: seq<Byte>, whole: seq<Byte>, back: seq<Byte>, at: nat, piece: seq<Byte>)
    requires z == front + whole + back && SlotOf(whole, at, piece)
    ensures SlotOf(z, |front| + at, piece)
  {}

  lemma {:induction false} EachIs(part: seq<Entry> -> seq<Byte>, entries: seq<Entry>, i: nat)
    requires i < |entries|
    ensures Each(part, entries)[..i] == Each(part, entries[..i]) && Each(part, entries)[i] == part(entries[..i + 1])
  {
    var n := |entries| - 1;
    if i < n {
      EachIs(part, entries[..n], i);
      assert entries[..n][..i] == entries[..i] && entries[..n][..i + 1] == entries[..i + 1];
    } else {
      assert entries[..i + 1] == entries;
    }
  }

  /** A local record at one place, within a limit, and a directory record at another. */
  ghost predicate PlacedAt(z: seq<Byte>, r: seq<Byte>, c: seq<Byte>, a: nat, b: nat, limit: nat) {
    SlotOf(z, a, r) && a + |r| <= limit && SlotOf(z, b, c)
  }

  lemma PlacedBy(z: seq<Byte>, f: seq<Byte>, c: seq<Byte>, end: seq<Byte>, r: seq<Byte>, q: seq<Byte>, a: nat, b: nat, at: nat)
    requires z == f + c + end && SlotOf(f, a, r) && SlotOf(c, b, q) && at == |f| + b
    ensures PlacedAt(z, r, q, a, at, |f|)
  {
    assert z == [] + f + (c + end);
    SlotWithin(z, [], f, c + end, a, r);
    SlotWithin(z, f, c, end, b, q);
  }

  lemma Placed(z: seq<Byte>, f: seq<Byte>, c: seq<Byte>, end: seq<Byte>, local: seq<seq<Byte>>, central: seq<seq<Byte>>, k: nat)
    requires z == f + c + end && Packed(f, local) && Packed(c, central) && k < |local| == |central|
    ensures PlacedAt(z, local[k], central[k], Reach(0, local, k), Reach(|f|, central, k), |f|)
  {
    assert PackedAt(f, local, k) && PackedAt(c, central, k);
    ReachFrom(|f|, central, k);
    PlacedBy(z, f, c, end, local[k], central[k], Reach(0, local, k), Reach(0, central, k), Reach(|f|, central, k));
  }

  /** These are the records of this entry, its local record lying at this place. */
  ghost predicate RecordsOf(e: Entry, r: seq<Byte>, c: seq<Byte>, a: nat) {
    r == LocalRecord(e) && c == CentralRecord(e, a)
  }

  lemma RecordsAre(entries: seq<Entry>, k: nat)
    requires k < |entries|
    ensures RecordsOf(entries[k], Locals(entries)[k], Centrals(entries)[k], Reach(0, Locals(entries), k))
  {
    EachIs(LastLocal, entries, k);
    EachIs(LastCentral, entries, k);
    ReachIsFlat(Locals(entries), k);
    assert entries[..k + 1][..k] == entries[..k];
  }

  ghost predicate RecordsAt(entries: seq<Entry>, local: seq<seq<Byte>>, central: seq<seq<Byte>>, k: nat)
    requires k < |entries| == |local| == |central|
  {
    RecordsOf(entries[k], local[k], central[k], Reach(0, local, k))
  }

  ghost predicate AllRecords(entries: seq<Entry>, local: seq<seq<Byte>>, central: seq<seq<Byte>>) {
    && |local| == |central| == |entries|
    && forall k :: 0 <= k < |entries| ==> RecordsAt(entries, local, central, k)
  }

  lemma AllRecordsAre(entries: seq<Entry>)
    ensures AllRecords(entries, Locals(entries), Centrals(entries))
  {
    forall k | 0 <= k < |entries| ensures RecordsAt(entries, Locals(entries), Centrals(entries), k) {
      RecordsAre(entries, k);
    }
  }

  /** The directory leads from each of its records to the next. */
  ghost predicate LeadsOn<T>(one: nat -> Option<(T, nat)>, e: T, central: seq<seq<Byte>>, front: nat, k: nat)
    requires k < |central|
  {
    one(Reach(front, central, k)) == Some((e, Reach(front, central, k + 1)))
  }

  lemma EntryLeads(z: seq<Byte>, e: Entry, r: seq<Byte>, c: seq<Byte>, a: nat, b: nat, limit: nat)
    requires PlacedAt(z, r, c, a, b, limit) && RecordsOf(e, r, c, a) && limit < 0x1_0000_0000 && |e.name| < 0x1_0000
    ensures CentralAt(z, b, Files(z)) == Some((e, b + |c|))
  {
    FileLeads(z, e, a, r);
    RecordLeads(z, e, a, b, c, Files(z));
  }

  lemma LedToAll<T>(one: nat -> Option<(T, nat)>, entries: seq<T>, central: seq<seq<Byte>>, front: nat)
    requires AllLead(one, entries, central, front)
    ensures ReadAll(one, front, |entries|) == Some((entries, Reach(front, central, |central|)))
  {
    var b := seq(|entries| + 1, i requires 0 <= i <= |entries| => Reach(front, central, i));
    forall k | 0 <= k < |entries| ensures one(b[k]) == Some((entries[k], b[k + 1])) {
      assert LeadsOn(one, entries[k], central, front, k);
    }
    AllBack(one, entries, b, 0);
    assert entries[0..] == entries;
  }

  lemma TailIs(z: seq<Byte>, body: seq<Byte>, end: seq<Byte>)
    requires z == body + end && |end| == 22
    ensures |z| >= 22 && |z| - 22 == |body| && z[|z| - 22..] == end
  {}

  /** The end record, read back: every number as far as its field holds it. */
  lemma EndBack(z: seq<Byte>, entries: seq<Entry>, front: nat, size: nat)
    requires z == Archive(entries) && front == |Flat(Locals(entries))| && size == |Flat(Centrals(entries))|
    ensures |z| >= 22 && |z| - 22 == front + size
    ensures EndOf(z[|z| - 22..])
         == EndInfo(END, |entries| % 0x1_0000, |entries| % 0x1_0000, size % 0x1_0000_0000, front % 0x1_0000_0000, 0)
  {
    EndFields(|entries|, size, front);
    TailIs(z, Flat(Locals(entries)) + Flat(Centrals(entries)), EndRecord(|entries|, size, front));
  }

  lemma ReadIs(z: seq<Byte>, end: nat, info: EndInfo)
    requires |z| >= 22 && |z| - 22 == end && EndOf(z[|z| - 22..]) == info
    ensures Read(z) == ReadBy(Directory(z), end, info)
  {}

  lemma ByIs(one: nat -> Option<(Entry, nat)>, entries: seq<Entry>, front: nat, size: nat, info: EndInfo)
    requires info == EndInfo(END, |entries| % 0x1_0000, |entries| % 0x1_0000, size % 0x1_0000_0000, front % 0x1_0000_0000, 0)
    requires |entries| < 0x1_0000 && size < 0x1_0000_0000 && front < 0x1_0000_0000
    requires ReadAll(one, front, |entries|) == Some((entries, front + size))
    ensures ReadBy(one, front + size, info) == Some(entries)
  {}

  /** An archive by its parts: the end record leads to the directory, and that to the entries. */
  lemma PartsReadBack(z: seq<Byte>, entries: seq<Entry>, body: seq<Byte>, end: seq<Byte>, front: nat, size: nat, info: EndInfo)
    requires z == body + end && |end| == 22 && EndOf(end) == info && |body| == front + size
    requires info == EndInfo(END, |entries| % 0x1_0000, |entries| % 0x1_0000, size % 0x1_0000_0000, front % 0x1_0000_0000, 0)
    requires |entries| < 0x1_0000 && size < 0x1_0000_0000 && front < 0x1_0000_0000
    requires ReadAll(Directory(z), front, |entries|) == Some((entries, front + size))
    ensures Read(z) == Some(entries)
  {
    TailIs(z, body, end);
    ReadIs(z, front + size, info);
    ByIs(Directory(z), entries, front, size, info);
  }

  lemma OneIs(z: seq<Byte>, b: nat)
    ensures Directory(z)(b) == CentralAt(z, b, Files(z))
  {}

  lemma EntryLedTo(z: seq<Byte>, e: Entry, r: seq<Byte>, c: seq<Byte>, a: nat, b: nat, next: nat, limit: nat)
    requires PlacedAt(z, r, c, a, b, limit) && RecordsOf(e, r, c, a) && limit < 0x1_0000_0000 && |e.name| < 0x1_0000
    requires next == b + |c|
    ensures Directory(z)(b) == Some((e, next))
  {
    EntryLeads(z, e, r, c, a, b, limit);
    OneIs(z, b);
  }

  lemma ReachNext(from: nat, parts: seq<seq<Byte>>, k: nat)
    requires k < |parts|
    ensures Reach(from, parts, k + 1) == Reach(from, parts, k) + |parts[k]|
  {}

  lemma DirectoryLeads(z: seq<Byte>, e: Entry, r: seq<Byte>, a: nat, central: seq<seq<Byte>>, front: nat, k: nat,
                       one: nat -> Option<(Entry, nat)>)
    requires k < |central| && front < 0x1_0000_0000 && |e.name| < 0x1_0000 && one == Directory(z)
    requires PlacedAt(z, r, central[k], a, Reach(front, central, k), front) && RecordsOf(e, r, central[k], a)
    ensures LeadsOn(one, e, central, front, k)
  {
    ReachNext(front, central, k);
    EntryLedTo(z, e, r, central[k], a, Reach(front, central, k), Reach(front, central, k + 1), front);
  }

  ghost predicate AllLead<T>(one: nat -> Option<(T, nat)>, entries: seq<T>, central: seq<seq<Byte>>, front: nat) {
    |central| == |entries| && forall k :: 0 <= k < |entries| ==> LeadsOn(one, entries[k], central, front, k)
  }

  lemma DirectoryAllLead(z: seq<Byte>, entries: seq<Entry>, f: seq<Byte>, c: seq<Byte>, end: seq<Byte>,
                         local: seq<seq<Byte>>, central: seq<seq<Byte>>)
    requires z == f + c + end && Packed(f, local) && Packed(c, central) && AllRecords(entries, local, central)
    requires |f| < 0x1_0000_0000 && forall i :: 0 <= i < |entries| ==> |entries[i].name| < 0x1_0000
    ensures AllLead(Directory(z), entries, central, |f|)
  {
    forall k | 0 <= k < |entries| ensures LeadsOn(Directory(z), entries[k], central, |f|, k) {
      assert RecordsAt(entries, local, central, k);
      Placed(z, f, c, end, local, central, k);
      DirectoryLeads(z, entries[k], local[k], Reach(0, local, k), central, |f|, k, Directory(z));
    }
  }

  /** An archive by its parts, with a directory that leads to every entry. */
  lemma PackedReadsBack(z: seq<Byte>, entries: seq<Entry>, body: seq<Byte>, end: seq<Byte>, central: seq<seq<Byte>>,
                        front: nat, size: nat, info: EndInfo)
    requires AllLead(Directory(z), entries, central, front) && size == Reach(0, central, |central|)
    requires z == body + end && |end| == 22 && |body| == front + size && EndOf(end) == info
    requires info == EndInfo(END, |entries| % 0x1_0000, |entries| % 0x1_0000, size % 0x1_0000_0000, front % 0x1_0000_0000, 0)
    requires |entries| < 0x1_0000 && size < 0x1_0000_0000 && front < 0x1_0000_0000
    ensures Read(z) == Some(entries)
  {
    LedToAll(Directory(z), entries, central, front);
    ReachFrom(front, central, |central|);
    PartsReadBack(z, entries, body, end, front, size, info);
  }

  lemma WrittenLeads(entries: seq<Entry>, z: seq<Byte>, end: seq<Byte>)
    requires Fits(entries) && z == Flat(Locals(entries)) + Flat(Centrals(entries)) + end
    ensures AllLead(Directory(z), entries, Centrals(entries), |Flat(Locals(entries))|)
  {
    FlatPacked(Locals(entries));
    FlatPacked(Centrals(entries));
    AllRecordsAre(entries);
    DirectoryAllLead(z, entries, Flat(Locals(entries)), Flat(Centrals(entries)), end, Locals(entries), Centrals(entries));
  }

  lemma FittingReadsBack(entries: seq<Entry>, z: seq<Byte>, f: seq<Byte>, c: seq<Byte>)
    requires Fits(entries) && f == Flat(Locals(entries)) && c == Flat(Centrals(entries))
    requires z == f + c + EndRecord(|entries|, |c|, |f|)
    ensures Read(z) == Some(entries)
  {
    var end := EndRecord(|entries|, |c|, |f|);
    EndFields(|entries|, |c|, |f|);
    WrittenLeads(entries, z, end);
    FlatPacked(Centrals(entries));
    PackedReadsBack(z, entries, f + c, end, Centrals(entries), |f|, |c|, EndOf(end));
  }

  // ---------- and nothing else is ----------

  lemma {:induction false} ReadShape(one: nat -> Option<(Entry, nat)>, at: nat, count: nat)
    requires forall place :: one(place).Some? ==> |one(place).value.0.name| < 0x1_0000
    ensures ReadAll(one, at, count).Some? ==>
              var es := ReadAll(one, at, count).value.0;
              |es| == count && forall i :: 0 <= i < |es| ==> |es[i].name| < 0x1_0000
    decreases count
  {
    if count > 0 && one(at).Some? { ReadShape(one, one(at).value.1, count - 1); }
  }

  lemma ByImplies(one: nat -> Option<(Entry, nat)>, entries: seq<Entry>, front: nat, size: nat, info: EndInfo)
    requires forall place :: one(place).Some? ==> |one(place).value.0.name| < 0x1_0000
    requires info == EndInfo(END, |entries| % 0x1_0000, |entries| % 0x1_0000, size % 0x1_0000_0000, front % 0x1_0000_0000, 0)
    requires ReadBy(one, front + size, info) == Some(entries)
    ensures |entries| < 0x1_0000 && front < 0x1_0000_0000 && size < 0x1_0000_0000
    ensures forall i :: 0 <= i < |entries| ==> |entries[i].name| < 0x1_0000
  {
    ReadShape(one, info.place, info.count);
  }

  lemma NamesShort(z: seq<Byte>)
    ensures forall place :: Directory(z)(place).Some? ==> |Directory(z)(place).value.0.name| < 0x1_0000
  {
    forall place | Directory(z)(place).Some? ensures |Directory(z)(place).value.0.name| < 0x1_0000 {
      assert Directory(z)(place) == CentralAt(z, place, Files(z));
    }
  }

  lemma ReadImpliesFits(entries: seq<Entry>, z: seq<Byte>, front: nat, size: nat, info: EndInfo)
    requires z == Archive(entries) && Read(z) == Some(entries)
    requires front == |Flat(Locals(entries))| && size == |Flat(Centrals(entries))|
    requires info == EndInfo(END, |entries| % 0x1_0000, |entries| % 0x1_0000, size % 0x1_0000_0000, front % 0x1_0000_0000, 0)
    ensures Fits(entries)
  {
    EndBack(z, entries, front, size);
    ReadIs(z, front + size, info);
    NamesShort(z);
    ByImplies(Directory(z), entries, front, size, info);
  }

  /**
    Reading the archive from its end record gives back exactly the names and contents that were
    written, in order, with every sum the bit-by-bit CRC-32 of its contents, exactly when the
    numbers fit their fields.
   */
  lemma ReadsBackIff(entries: seq<Entry>)
    ensures Read(Archive(entries)) == Some(entries) <==> Fits(entries)
  {
    var front, size := |Flat(Locals(entries))|, |Flat(Centrals(entries))|;
    var info := EndInfo(END, |entries| % 0x1_0000, |entries| % 0x1_0000, size % 0x1_0000_0000, front % 0x1_0000_0000, 0);
    if Fits(entries) { FittingReadsBack(entries, Archive(entries), Flat(Locals(entries)), Flat(Centrals(entries))); }
    if Read(Archive(entries)) == Some(entries) { ReadImpliesFits(entries, Archive(entries), front, size, info); }
  }
}
