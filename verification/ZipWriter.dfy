/**
  Writing a stored-only ZIP archive: local records, the central directory and its end record
  (sections 4.3.7, 4.3.12, 4.3.16 and 4.4.7 of the PKWARE ZIP APPNOTE), and reading one back.
 */
module ZipWriter {
  import opened Wrappers
  import opened Crc32

  /** A file: its name and its contents, already encoded. */
  datatype Entry = Entry(name: seq<Byte>, bytes: seq<Byte>)

  // ---------- little-endian fields; a value too wide for its field loses its high bits ----------

  /** The k-th base-256 digit. */
  function Digit(n: nat, k: nat): Byte
    decreases k
  {
    if k == 0 then (n % 256) as Byte else Digit(n / 256, k - 1)
  }

  function LE16(n: nat): (r: seq<Byte>)
    ensures |r| == 2
  {
    seq(2, k requires 0 <= k < 2 => Digit(n, k))
  }

  function LE32(n: nat): (r: seq<Byte>)
    ensures |r| == 4
  {
    seq(4, k requires 0 <= k < 4 => Digit(n, k))
  }

  function Zeros(n: nat): (r: seq<Byte>)
    ensures |r| == n
  {
    seq(n, _ => 0)
  }

  function U16(s: seq<Byte>, at: nat): nat
    requires at + 2 <= |s|
  {
    s[at] as int + 0x100 * s[at + 1] as int
  }

  function U32(s: seq<Byte>, at: nat): nat
    requires at + 4 <= |s|
  {
    s[at] as int + 0x100 * s[at + 1] as int + 0x1_0000 * s[at + 2] as int + 0x100_0000 * s[at + 3] as int
  }

  // ---------- the records ----------

  const LOCAL := 0x04034b50
  const CENTRAL := 0x02014b50
  const END := 0x06054b50
  const VERSION := 20
  const UTF8 := 0x800

  function Sum(bytes: seq<Byte>): (r: nat)
    ensures r < 0x1_0000_0000
  {
    Crc(bytes) as int
  }

  /** Signature, version, flags; stored, no time; sum, sizes and name length; no extra field. */
  function LocalHeader(e: Entry): (r: seq<Byte>)
    ensures |r| == 30
  {
    LE32(LOCAL) + LE16(VERSION) + LE16(UTF8) + Zeros(6) + LE32(Sum(e.bytes))
    + LE32(|e.bytes|) + LE32(|e.bytes|) + LE16(|e.name|) + Zeros(2)
  }

  /** The same, twice the version, no extra field, comment or attributes, and the local record's place. */
  function CentralHeader(e: Entry, offset: nat): (r: seq<Byte>)
    ensures |r| == 46
  {
    LE32(CENTRAL) + LE16(VERSION) + LE16(VERSION) + LE16(UTF8) + Zeros(6) + LE32(Sum(e.bytes))
    + LE32(|e.bytes|) + LE32(|e.bytes|) + LE16(|e.name|) + Zeros(12) + LE32(offset)
  }

  /** One disk: the number of records twice, size and place of the directory; no comment. */
  function EndRecord(count: nat, size: nat, offset: nat): (r: seq<Byte>)
    ensures |r| == 22
  {
    LE32(END) + Zeros(4) + LE16(count) + LE16(count) + LE32(size) + LE32(offset) + Zeros(2)
  }

  function LocalRecord(e: Entry): seq<Byte> {
    LocalHeader(e) + e.name + e.bytes
  }

  function CentralRecord(e: Entry, offset: nat): seq<Byte> {
    CentralHeader(e, offset) + e.name
  }

  /** Pieces one after the other, as a blob of parts holds them. */
  function Flat(parts: seq<seq<Byte>>): seq<Byte> {
    if parts == [] then [] else Flat(parts[..|parts| - 1]) + parts[|parts| - 1]
  }

  /** One part for every entry, made from the entries up to it. */
  function Each(part: seq<Entry> -> seq<Byte>, entries: seq<Entry>): (r: seq<seq<Byte>>)
    ensures |r| == |entries|
  {
    if entries == [] then [] else Each(part, entries[..|entries| - 1]) + [part(entries)]
  }

  function LastLocal(entries: seq<Entry>): seq<Byte> {
    if entries == [] then [] else LocalRecord(entries[|entries| - 1])
  }

  function Locals(entries: seq<Entry>): seq<seq<Byte>> {
    Each(LastLocal, entries)
  }

  /** A central record names the place of its local record. */
  function LastCentral(entries: seq<Entry>): seq<Byte> {
    if entries == [] then []
    else CentralRecord(entries[|entries| - 1], |Flat(Locals(entries[..|entries| - 1]))|)
  }

  function Centrals(entries: seq<Entry>): seq<seq<Byte>> {
    Each(LastCentral, entries)
  }

  function Archive(entries: seq<Entry>): seq<Byte> {
    var local, central := Flat(Locals(entries)), Flat(Centrals(entries));
    local + central + EndRecord(|entries|, |central|, |local|)
  }

  // ---------- the writer ----------

  function Write(s: seq<Byte>, at: nat, field: seq<Byte>): (r: seq<Byte>)
    requires at + |field| <= |s|
    ensures |r| == |s|
  {
    s[..at] + field + s[at + |field|..]
  }

  /** A buffer of zeros, with the writes of a little-endian view on it. */
  class View {
    const data: array<Byte>

    constructor (size: nat)
      ensures fresh(data) && data[..] == Zeros(size)
    {
      data := new Byte[size](_ => 0);
      new;
      assert data[..] == Zeros(size);
    }

    method SetUint16(at: nat, value: nat)
      requires at + 2 <= data.Length
      modifies data
      ensures data[..] == Write(old(data[..]), at, LE16(value))
    {
      data[at], data[at + 1] := Digit(value, 0), Digit(value, 1);
    }

    method SetUint32(at: nat, value: nat)
      requires at + 4 <= data.Length
      modifies data
      ensures data[..] == Write(old(data[..]), at, LE32(value))
    {
      data[at], data[at + 1] := Digit(value, 0), Digit(value, 1);
      data[at + 2], data[at + 3] := Digit(value, 2), Digit(value, 3);
    }
  }

  /** The next field, after a gap that stays zero. */
  lemma WriteNext(s: seq<Byte>, front: seq<Byte>, gap: nat, field: seq<Byte>, rest: nat)
    requires s == front + Zeros(gap + |field| + rest)
    ensures Write(s, |front| + gap, field) == front + Zeros(gap) + field + Zeros(rest)
  {}

  lemma WriteHere(s: seq<Byte>, front: seq<Byte>, field: seq<Byte>, rest: nat)
    requires s == front + Zeros(|field| + rest)
    ensures Write(s, |front|, field) == front + field + Zeros(rest)
  {}

  /** The same field again. */
  lemma WriteAgain(s: seq<Byte>, front: seq<Byte>, was: seq<Byte>, field: seq<Byte>, rest: nat)
    requires s == front + was + Zeros(rest) && |was| == |field|
    ensures Write(s, |front|, field) == front + field + Zeros(rest)
  {}

  function LocalStart(): (r: seq<Byte>)
    ensures |r| == 30
  {
    Write(Write(Write(Write(Zeros(30), 0, LE32(LOCAL)), 4, LE16(VERSION)), 6, LE16(VERSION)), 6, LE16(UTF8))
  }

  lemma LocalStartIs()
    ensures LocalStart() == LE32(LOCAL) + LE16(VERSION) + LE16(UTF8) + Zeros(22)
  {
    var s1 := Write(Zeros(30), 0, LE32(LOCAL));
    WriteHere(Zeros(30), [], LE32(LOCAL), 26);
    assert s1 == LE32(LOCAL) + Zeros(26);
    WriteHere(s1, LE32(LOCAL), LE16(VERSION), 24);
    var s2 := Write(s1, 4, LE16(VERSION));
    WriteHere(s2, LE32(LOCAL) + LE16(VERSION), LE16(VERSION), 22);
    WriteAgain(Write(s2, 6, LE16(VERSION)), LE32(LOCAL) + LE16(VERSION), LE16(VERSION), LE16(UTF8), 22);
  }

  function CentralStart(): (r: seq<Byte>)
    ensures |r| == 46
  {
    Write(Write(Write(Write(Zeros(46), 0, LE32(CENTRAL)), 4, LE16(VERSION)), 6, LE16(VERSION)), 8, LE16(UTF8))
  }

  lemma CentralStartIs()
    ensures CentralStart() == LE32(CENTRAL) + LE16(VERSION) + LE16(VERSION) + LE16(UTF8) + Zeros(36)
  {
    var s1 := Write(Zeros(46), 0, LE32(CENTRAL));
    WriteHere(Zeros(46), [], LE32(CENTRAL), 42);
    assert s1 == LE32(CENTRAL) + Zeros(42);
    WriteHere(s1, LE32(CENTRAL), LE16(VERSION), 40);
    var s2 := Write(s1, 4, LE16(VERSION));
    WriteHere(s2, LE32(CENTRAL) + LE16(VERSION), LE16(VERSION), 38);
    WriteHere(Write(s2, 6, LE16(VERSION)), LE32(CENTRAL) + LE16(VERSION) + LE16(VERSION), LE16(UTF8), 36);
  }

  /** The fields both headers share: sum, sizes and name length, from a place on. */
  function Described(s: seq<Byte>, at: nat, e: Entry): (r: seq<Byte>)
    requires at + 14 <= |s|
    ensures |r| == |s|
  {
    Write(Write(Write(Write(s, at, LE32(Sum(e.bytes))), at + 4, LE32(|e.bytes|)), at + 8, LE32(|e.bytes|)),
          at + 12, LE16(|e.name|))
  }

  lemma DescribedIs(s: seq<Byte>, front: seq<Byte>, e: Entry, rest: nat)
    requires s == front + Zeros(20 + rest)
    ensures Described(s, |front| + 6, e)
         == front + Zeros(6) + LE32(Sum(e.bytes)) + LE32(|e.bytes|) + LE32(|e.bytes|) + LE16(|e.name|) + Zeros(rest)
  {
    var sum, size := LE32(Sum(e.bytes)), LE32(|e.bytes|);
    WriteNext(s, front, 6, sum, 10 + rest);
    var s1 := Write(s, |front| + 6, sum);
    WriteHere(s1, front + Zeros(6) + sum, size, 6 + rest);
    var s2 := Write(s1, |front| + 10, size);
    WriteHere(s2, front + Zeros(6) + sum + size, size, 2 + rest);
    var s3 := Write(s2, |front| + 14, size);
    WriteHere(s3, front + Zeros(6) + sum + size + size, LE16(|e.name|), rest);
  }

  method Describe(v: View, at: nat, e: Entry, sum: bv32)
    requires sum == Crc(e.bytes) && at + 14 <= v.data.Length
    modifies v.data
    ensures v.data[..] == Described(old(v.data[..]), at, e)
  {
    v.SetUint32(at, sum as int);
    v.SetUint32(at + 4, |e.bytes|);
    v.SetUint32(at + 8, |e.bytes|);
    v.SetUint16(at + 12, |e.name|);
  }

  method WriteLocal(e: Entry, sum: bv32) returns (header: seq<Byte>)
    requires sum == Crc(e.bytes)
    ensures header == LocalHeader(e)
  {
    var v := new View(30);
    v.SetUint32(0, LOCAL);
    v.SetUint16(4, VERSION);
    v.SetUint16(6, VERSION);
    v.SetUint16(6, UTF8);
    LocalStartIs();
    DescribedIs(v.data[..], LE32(LOCAL) + LE16(VERSION) + LE16(UTF8), e, 2);
    Describe(v, 14, e, sum);
    header := v.data[..];
  }

  method WriteCentral(e: Entry, sum: bv32, offset: nat) returns (header: seq<Byte>)
    requires sum == Crc(e.bytes)
    ensures header == CentralHeader(e, offset)
  {
    var w := new View(46);
    w.SetUint32(0, CENTRAL);
    w.SetUint16(4, VERSION);
    w.SetUint16(6, VERSION);
    w.SetUint16(8, UTF8);
    CentralStartIs();
    ghost var front := LE32(CENTRAL) + LE16(VERSION) + LE16(VERSION) + LE16(UTF8);
    DescribedIs(w.data[..], front, e, 16);
    Describe(w, 16, e, sum);
    WriteLast(w.data[..], w.data[..30], 12, LE32(offset));
    w.SetUint32(42, offset);
    header := w.data[..];
  }

  lemma WriteLast(s: seq<Byte>, front: seq<Byte>, gap: nat, field: seq<Byte>)
    requires s == front + Zeros(gap + |field|)
    ensures Write(s, |front| + gap, field) == front + Zeros(gap) + field
  {}

  method WriteEnd(count: nat, size: nat, offset: nat) returns (header: seq<Byte>)
    ensures header == EndRecord(count, size, offset)
  {
    var x := new View(22);
    x.SetUint32(0, END);
    x.SetUint16(8, count);
    x.SetUint16(10, count);
    x.SetUint32(12, size);
    x.SetUint32(16, offset);
    header := x.data[..];
    EndWrites(count, size, offset);
  }

  lemma EndWrites(count: nat, size: nat, offset: nat)
    ensures Write(Write(Write(Write(Write(Zeros(22), 0, LE32(END)), 8, LE16(count)), 10, LE16(count)), 12, LE32(size)), 16, LE32(offset))
         == EndRecord(count, size, offset)
  {
    var s1 := Write(Zeros(22), 0, LE32(END));
    WriteHere(Zeros(22), [], LE32(END), 18);
    assert s1 == LE32(END) + Zeros(18);
    var s2 := Write(s1, 8, LE16(count));
    WriteNext(s1, LE32(END), 4, LE16(count), 12);
    var f2 := LE32(END) + Zeros(4) + LE16(count);
    WriteHere(s2, f2, LE16(count), 10);
    var s3 := Write(s2, 10, LE16(count));
    WriteHere(s3, f2 + LE16(count), LE32(size), 6);
    WriteHere(Write(s3, 12, LE32(size)), f2 + LE16(count) + LE32(size), LE32(offset), 2);
  }

  lemma FlatMore(parts: seq<seq<Byte>>, part: seq<Byte>)
    ensures Flat(parts + [part]) == Flat(parts) + part
  {
    assert (parts + [part])[..|parts|] == parts;
  }

  /** What one more entry adds to the local records and to the directory. */
  lemma OneMoreEntry(entries: seq<Entry>, i: nat)
    requires i < |entries|
    ensures Locals(entries[..i + 1]) == Locals(entries[..i]) + [LocalRecord(entries[i])]
    ensures Centrals(entries[..i + 1]) == Centrals(entries[..i]) + [CentralRecord(entries[i], |Flat(Locals(entries[..i]))|)]
    ensures |Flat(Locals(entries[..i + 1]))| == |Flat(Locals(entries[..i]))| + |LocalRecord(entries[i])|
  {
    assert entries[..i + 1][..i] == entries[..i];
    FlatMore(Locals(entries[..i]), LocalRecord(entries[i]));
  }

  method MakeZip(entries: seq<Entry>) returns (zip: seq<Byte>)
    ensures zip == Archive(entries)
  {
    var table := MakeTable();
    var local, central, offset := [], [], 0;
    for i := 0 to |entries|
      invariant local == Locals(entries[..i]) && central == Centrals(entries[..i]) && offset == |Flat(Locals(entries[..i]))|
    {
      var e := entries[i];
      OneMoreEntry(entries, i);
      var sum := TableCrc(table, e.bytes);
      var a := WriteLocal(e, sum);
      local := local + [a + e.name + e.bytes];
      var b := WriteCentral(e, sum, offset);
      central := central + [b + e.name];
      offset := offset + |a| + |e.name| + |e.bytes|;
    }
    assert entries[..|entries|] == entries;
    var end := WriteEnd(|entries|, |Flat(central)|, offset);
    zip := Flat(local) + Flat(central) + end;
  }
}
