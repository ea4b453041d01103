/**
 The ZIP writer (APPNOTE.TXT sections 4.3.7, 4.3.12 and 4.3.16, stored entries only), a reader that
 starts from the end record, and the proof that the reader undoes the writer.
 */
module Zip {
  import opened Words
  import opened Results
  import Crc32

  datatype Entry = Entry(name: seq<Byte>, data: seq<Byte>)

  /** What the reader recovers: the entry and the checksum stored with it. */
  datatype Member = Member(name: seq<Byte>, data: seq<Byte>, crc: Word)

  const LOCAL_SIGNATURE: Word := 0x0403_4B50
  const CENTRAL_SIGNATURE: Word := 0x0201_4B50
  const END_SIGNATURE: Word := 0x0605_4B50

  const LIMIT16: nat := 0x1_0000
  const LIMIT32: nat := 0x1_0000_0000

  // ---------------------------------------------------------------- little-endian fields

  function LittleEndian(v: nat, n: nat): (r: seq<Byte>)
    ensures |r| == n
  {
    if n == 0 then [] else [v % 0x100] + LittleEndian(v / 0x100, n - 1)
  }

  function LE16(v: nat): (r: seq<Byte>)
    requires v < LIMIT16
    ensures |r| == 2
  {
    LittleEndian(v, 2)
  }

  function LE32(v: nat): (r: seq<Byte>)
    requires v < LIMIT32
    ensures |r| == 4
  {
    LittleEndian(v, 4)
  }

  function Value(s: seq<Byte>): nat {
    if s == [] then 0 else (s[0] as nat) + 0x100 * Value(s[1..])
  }

  function Get16(s: seq<Byte>, at: nat): nat
    requires at + 2 <= |s|
  {
    Value(s[at..at + 2])
  }

  function Get32(s: seq<Byte>, at: nat): nat
    requires at + 4 <= |s|
  {
    Value(s[at..at + 4])
  }

  lemma EightDoublings(k: nat)
    ensures Pow2(k + 8) == 0x100 * Pow2(k)
  {
    assert Pow2(k + 8) == 4 * Pow2(k + 6);
    assert Pow2(k + 6) == 4 * Pow2(k + 4);
    assert Pow2(k + 4) == 4 * Pow2(k + 2);
  }

  lemma {:induction false} ValueOf(v: nat, n: nat)
    requires v < Pow2(8 * n)
    ensures Value(LittleEndian(v, n)) == v
  {
    if n > 0 {
      EightDoublings(8 * (n - 1));
      ValueOf(v / 0x100, n - 1);
    }
  }

  /** A field keeps its value wherever the bytes around it end up. */
  lemma Field16(s: seq<Byte>, at: nat, v: nat)
    requires v < LIMIT16 && at + 2 <= |s| && s[at..at + 2] == LE16(v)
    ensures Get16(s, at) == v
  {
    Pow2Values();
    EightDoublings(8);
    ValueOf(v, 2);
  }

  lemma Field32(s: seq<Byte>, at: nat, v: nat)
    requires v < LIMIT32 && at + 4 <= |s| && s[at..at + 4] == LE32(v)
    ensures Get32(s, at) == v
  {
    Pow2Values();
    ValueOf(v, 4);
  }

  /** Lowest byte first, byte by byte. */
  lemma FieldBytes(v: nat)
    ensures v < 0x1_0000 ==> LE16(v) == [v % 0x100, v / 0x100]
    ensures v < 0x1_0000_0000 ==> LE32(v) == [v % 0x100, v / 0x100 % 0x100, v / 0x1_0000 % 0x100, v / 0x100_0000]
  {
    var a, b, c := v / 0x100, v / 0x100 / 0x100, v / 0x100 / 0x100 / 0x100;
    assert b == v / 0x1_0000 && c == v / 0x100_0000;
    assert LittleEndian(c, 1) == [c % 0x100] && LittleEndian(b, 2) == [b % 0x100] + LittleEndian(c, 1);
    assert LittleEndian(a, 3) == [a % 0x100] + LittleEndian(b, 2);
    assert LittleEndian(v, 2) == [v % 0x100] + LittleEndian(a, 1) && LittleEndian(a, 1) == [a % 0x100];
  }

  // ---------------------------------------------------------------- the three records

  /** The fields both headers of an entry share. */
  function EntryFields(crc: Word, size: nat, nameLength: nat): (r: seq<Byte>)
    requires size < LIMIT32 && nameLength < LIMIT16
    ensures |r| == 14
  {
    LE32(crc) + LE32(size) + LE32(size) + LE16(nameLength)
  }

  function LocalPreamble(): (r: seq<Byte>)
    ensures |r| == 14
  {
    LE32(LOCAL_SIGNATURE) + LE16(20) + LE16(0) + LE16(0) + LE16(0) + LE16(0)
  }

  function LocalHeader(crc: Word, size: nat, nameLength: nat): (r: seq<Byte>)
    requires size < LIMIT32 && nameLength < LIMIT16
    ensures |r| == 30
  {
    LocalPreamble() + EntryFields(crc, size, nameLength) + LE16(0)
  }

  function CentralPreamble(): (r: seq<Byte>)
    ensures |r| == 16
  {
    LE32(CENTRAL_SIGNATURE) + LE16(20) + LE16(20) + LE16(0) + LE16(0) + LE16(0) + LE16(0)
  }

  function CentralHeader(crc: Word, size: nat, nameLength: nat, offset: nat): (r: seq<Byte>)
    requires size < LIMIT32 && nameLength < LIMIT16 && offset < LIMIT32
    ensures |r| == 46
  {
    CentralPreamble() + EntryFields(crc, size, nameLength)
    + LE16(0) + LE16(0) + LE16(0) + LE16(0) + LE32(0) + LE32(offset)
  }

  function EndRecord(count: nat, centralSize: nat, centralStart: nat): (r: seq<Byte>)
    requires count < LIMIT16 && centralSize < LIMIT32 && centralStart < LIMIT32
    ensures |r| == 22
  {
    LE32(END_SIGNATURE) + LE16(0) + LE16(0) + LE16(count) + LE16(count)
    + LE32(centralSize) + LE32(centralStart) + LE16(0)
  }

  // What a reader finds in each of them.

  ghost predicate IsLocalHeader(h: seq<Byte>, crc: Word, size: nat, nameLength: nat) {
    && |h| == 30
    && Get32(h, 0) == 0x0403_4B50 && Get16(h, 4) == 20
    && Get16(h, 6) == 0 && Get16(h, 8) == 0 && Get16(h, 10) == 0 && Get16(h, 12) == 0
    && Get32(h, 14) == crc && Get32(h, 18) == size && Get32(h, 22) == size
    && Get16(h, 26) == nameLength && Get16(h, 28) == 0
  }

  lemma LocalHeaderFields(crc: Word, size: nat, nameLength: nat)
    requires size < LIMIT32 && nameLength < LIMIT16
    ensures IsLocalHeader(LocalHeader(crc, size, nameLength), crc, size, nameLength)
  {
    hide LittleEndian, Get16, Get32;
    var h := LocalHeader(crc, size, nameLength);
    Field32(h, 0, LOCAL_SIGNATURE);
    Field16(h, 4, 20);
    Field16(h, 6, 0);
    Field16(h, 8, 0);
    Field16(h, 10, 0);
    Field16(h, 12, 0);
    Field32(h, 14, crc);
    Field32(h, 18, size);
    Field32(h, 22, size);
    Field16(h, 26, nameLength);
    Field16(h, 28, 0);
  }

  ghost predicate IsCentralHeader(h: seq<Byte>, crc: Word, size: nat, nameLength: nat, offset: nat) {
    && |h| == 46
    && Get32(h, 0) == 0x0201_4B50 && Get16(h, 4) == 20 && Get16(h, 6) == 20
    && Get16(h, 8) == 0 && Get16(h, 10) == 0 && Get16(h, 12) == 0 && Get16(h, 14) == 0
    && Get32(h, 16) == crc && Get32(h, 20) == size && Get32(h, 24) == size
    && Get16(h, 28) == nameLength && Get16(h, 30) == 0 && Get16(h, 32) == 0
    && Get16(h, 34) == 0 && Get16(h, 36) == 0 && Get32(h, 38) == 0 && Get32(h, 42) == offset
  }

  lemma CentralStart()
    ensures var p := CentralPreamble();
      && Get32(p, 0) == 0x0201_4B50 && Get16(p, 4) == 20 && Get16(p, 6) == 20
      && Get16(p, 8) == 0 && Get16(p, 10) == 0 && Get16(p, 12) == 0 && Get16(p, 14) == 0
  {
    hide LittleEndian, Get16, Get32;
    var p := CentralPreamble();
    Field32(p, 0, CENTRAL_SIGNATURE);
    Field16(p, 4, 20);
    Field16(p, 6, 20);
    Field16(p, 8, 0);
    Field16(p, 10, 0);
    Field16(p, 12, 0);
    Field16(p, 14, 0);
  }

  lemma CentralTail(t: seq<Byte>, offset: nat)
    requires offset < LIMIT32 && t == LE16(0) + LE16(0) + LE16(0) + LE16(0) + LE32(0) + LE32(offset)
    ensures |t| == 16 && Get16(t, 0) == 0 && Get16(t, 2) == 0 && Get16(t, 4) == 0 && Get16(t, 6) == 0
    ensures Get32(t, 8) == 0 && Get32(t, 12) == offset
  {
    hide LE16, LE32, Get16, Get32;
    FieldBytes(0);
    var zeros: seq<Byte> := [0, 0, 0, 0, 0, 0, 0, 0, 0, 0, 0, 0];
    assert t == zeros + LE32(offset);
    Field16(t, 0, 0);
    Field16(t, 2, 0);
    Field16(t, 4, 0);
    Field16(t, 6, 0);
    Field32(t, 8, 0);
    Field32(t, 12, offset);
  }

  lemma CentralHeaderFields(crc: Word, size: nat, nameLength: nat, offset: nat)
    requires size < LIMIT32 && nameLength < LIMIT16 && offset < LIMIT32
    ensures IsCentralHeader(CentralHeader(crc, size, nameLength, offset), crc, size, nameLength, offset)
  {
    hide LittleEndian, Get16, Get32, CentralPreamble;
    var h := CentralHeader(crc, size, nameLength, offset);
    var tail := LE16(0) + LE16(0) + LE16(0) + LE16(0) + LE32(0) + LE32(offset);
    assert h == CentralPreamble() + EntryFields(crc, size, nameLength) + tail;
    CentralStart();
    Shifted(h, 0, CentralPreamble());
    assert Get32(h, 0 + 0) == 0x0201_4B50;
    Field32(h, 16, crc);
    Field32(h, 20, size);
    Field32(h, 24, size);
    Field16(h, 28, nameLength);
    CentralTail(tail, offset);
    Shifted(h, 30, tail);
    assert Get16(h, 30 + 0) == 0;
  }

  ghost predicate IsEndRecord(h: seq<Byte>, count: nat, centralSize: nat, centralStart: nat) {
    && |h| == 22
    && Get32(h, 0) == 0x0605_4B50 && Get16(h, 4) == 0 && Get16(h, 6) == 0 && Get16(h, 8) == count
    && Get16(h, 10) == count && Get32(h, 12) == centralSize && Get32(h, 16) == centralStart && Get16(h, 20) == 0
  }

  lemma EndRecordFields(count: nat, centralSize: nat, centralStart: nat)
    requires count < LIMIT16 && centralSize < LIMIT32 && centralStart < LIMIT32
    ensures IsEndRecord(EndRecord(count, centralSize, centralStart), count, centralSize, centralStart)
  {
    hide LittleEndian, Get16, Get32;
    var h := EndRecord(count, centralSize, centralStart);
    Field32(h, 0, END_SIGNATURE);
    Field16(h, 4, 0);
    Field16(h, 6, 0);
    Field16(h, 8, count);
    Field16(h, 10, count);
    Field32(h, 12, centralSize);
    Field32(h, 16, centralStart);
    Field16(h, 20, 0);
  }

  // ---------------------------------------------------------------- the archive as a value

  function RecordSize(e: Entry): nat {
    30 + |e.name| + |e.data|
  }

  /** Where the local record of entry k starts; for k == |es|, where the central directory does. */
  function Offset(es: seq<Entry>, k: nat): nat
    requires k <= |es|
  {
    if k == 0 then 0 else Offset(es, k - 1) + RecordSize(es[k - 1])
  }

  /** Where the central record of entry k starts, counted from the start of the directory. */
  function DirectoryOffset(es: seq<Entry>, k: nat): nat
    requires k <= |es|
  {
    if k == 0 then 0 else DirectoryOffset(es, k - 1) + 46 + |es[k - 1].name|
  }

  /** The fields of one entry fit: its name length, its data size and its starting offset. */
  ghost predicate EntryFits(e: Entry, offset: nat) {
    |e.name| < LIMIT16 && |e.data| < LIMIT32 && offset < LIMIT32
  }

  ghost predicate FirstFit(es: seq<Entry>, k: nat)
    requires k <= |es|
  {
    k == 0 || (FirstFit(es, k - 1) && EntryFits(es[k - 1], Offset(es, k - 1)))
  }

  /** Every number the writer stores is within its field. */
  ghost predicate Fits(es: seq<Entry>) {
    && FirstFit(es, |es|)
    && |es| < LIMIT16
    && DirectoryOffset(es, |es|) < LIMIT32
    && Offset(es, |es|) < LIMIT32
  }

  function LocalRecord(e: Entry): (r: seq<Byte>)
    requires |e.name| < LIMIT16 && |e.data| < LIMIT32
    ensures |r| == RecordSize(e)
  {
    LocalHeader(Crc32.Crc(e.data), |e.data|, |e.name|) + e.name + e.data
  }

  function CentralRecord(e: Entry, offset: nat): (r: seq<Byte>)
    requires EntryFits(e, offset)
    ensures |r| == 46 + |e.name|
  {
    CentralHeader(Crc32.Crc(e.data), |e.data|, |e.name|, offset) + e.name
  }

  /** The local records of the first k entries. */
  ghost function Locals(es: seq<Entry>, k: nat): (r: seq<seq<Byte>>)
    requires k <= |es| && FirstFit(es, k)
    ensures |r| == k
  {
    if k == 0 then [] else Locals(es, k - 1) + [LocalRecord(es[k - 1])]
  }

  /** The central records of the first k entries. */
  ghost function Centrals(es: seq<Entry>, k: nat): (r: seq<seq<Byte>>)
    requires k <= |es| && FirstFit(es, k)
    ensures |r| == k
  {
    if k == 0 then [] else Centrals(es, k - 1) + [CentralRecord(es[k - 1], Offset(es, k - 1))]
  }

  /** The first k pieces, one after the other. */
  function Flat(pieces: seq<seq<Byte>>, k: nat): seq<Byte>
    requires k <= |pieces|
  {
    if k == 0 then [] else Flat(pieces, k - 1) + pieces[k - 1]
  }

  ghost function End(es: seq<Entry>): (r: seq<Byte>)
    requires Fits(es)
    ensures |r| == 22
  {
    EndRecord(|es|, DirectoryOffset(es, |es|), Offset(es, |es|))
  }

  /** The bytes of the archive: all local records, the central directory, the end record. */
  ghost function Archive(es: seq<Entry>): seq<Byte>
    requires Fits(es)
  {
    Flat(Locals(es, |es|), |es|) + Flat(Centrals(es, |es|), |es|) + End(es)
  }

  // ---------------------------------------------------------------- the writer

  /** Writes a field in place. Node throws a RangeError for a value that does not fit; the builders
      below test each value that might not, where it would throw. */
  method WriteUInt16LE(buf: array<Byte>, v: nat, at: nat)
    requires at + 2 <= buf.Length && v < LIMIT16
    modifies buf
    ensures buf[..at + 2] == old(buf[..at]) + LE16(v) == old(buf[..at]) + [v % 0x100, v / 0x100]
    ensures buf[at + 2..] == old(buf[at + 2..])
  {
    FieldBytes(v);
    buf[at], buf[at + 1] := v % 0x100, v / 0x100;
  }

  method WriteUInt32LE(buf: array<Byte>, v: nat, at: nat)
    requires at + 4 <= buf.Length && v < LIMIT32
    modifies buf
    ensures buf[..at + 4] == old(buf[..at]) + LE32(v)
    ensures buf[at + 4..] == old(buf[at + 4..])
  {
    FieldBytes(v);
    buf[at], buf[at + 1] := v % 0x100, v / 0x100 % 0x100;
    buf[at + 2], buf[at + 3] := v / 0x1_0000 % 0x100, v / 0x100_0000;
  }

  method WriteEntryFields(buf: array<Byte>, crc: Word, size: nat, nameLength: nat, at: nat) returns (r: Outcome)
    requires at + 14 <= buf.Length
    modifies buf
    ensures r.Done? <==> size < LIMIT32 && nameLength < LIMIT16
    ensures r.Done? ==> buf[..at + 14] == old(buf[..at]) + EntryFields(crc, size, nameLength)
  {
    hide LittleEndian;
    WriteUInt32LE(buf, crc, at);
    if size >= LIMIT32 { return Failed; }
    WriteUInt32LE(buf, size, at + 4);
    WriteUInt32LE(buf, size, at + 8);
    if nameLength >= LIMIT16 { return Failed; }
    WriteUInt16LE(buf, nameLength, at + 12);
    return Done;
  }

  method WriteLocalPreamble(buf: array<Byte>)
    requires buf.Length == 30
    modifies buf
    ensures buf[..14] == LocalPreamble()
  {
    hide LittleEndian;
    WriteUInt32LE(buf, LOCAL_SIGNATURE, 0);
    WriteUInt16LE(buf, 20, 4);
    WriteUInt16LE(buf, 0, 6);
    WriteUInt16LE(buf, 0, 8);
    WriteUInt16LE(buf, 0, 10);
    WriteUInt16LE(buf, 0, 12);
  }

  method BuildLocalHeader(crc: Word, size: nat, nameLength: nat) returns (r: Result<seq<Byte>>)
    ensures r.Ok? <==> size < 0x1_0000_0000 && nameLength < 0x1_0000
    ensures r.Ok? ==> r.value == LocalHeader(crc, size, nameLength)
    ensures r.Ok? ==> IsLocalHeader(r.value, crc, size, nameLength)
  {
    hide LittleEndian, Get16, Get32;
    var local := new Byte[30](_ => 0);
    WriteLocalPreamble(local);
    :- WriteEntryFields(local, crc, size, nameLength, 14);
    WriteUInt16LE(local, 0, 28);
    assert local[..] == local[..30];
    LocalHeaderFields(crc, size, nameLength);
    return Ok(local[..]);
  }

  method WriteCentralPreamble(buf: array<Byte>)
    requires buf.Length == 46
    modifies buf
    ensures buf[..16] == CentralPreamble()
  {
    hide LittleEndian;
    WriteUInt32LE(buf, CENTRAL_SIGNATURE, 0);
    WriteUInt16LE(buf, 20, 4);
    WriteUInt16LE(buf, 20, 6);
    WriteUInt16LE(buf, 0, 8);
    WriteUInt16LE(buf, 0, 10);
    WriteUInt16LE(buf, 0, 12);
    WriteUInt16LE(buf, 0, 14);
  }

  method BuildCentralHeader(crc: Word, size: nat, nameLength: nat, offset: nat) returns (r: Result<seq<Byte>>)
    ensures r.Ok? <==> size < 0x1_0000_0000 && nameLength < 0x1_0000 && offset < 0x1_0000_0000
    ensures r.Ok? ==> r.value == CentralHeader(crc, size, nameLength, offset)
    ensures r.Ok? ==> IsCentralHeader(r.value, crc, size, nameLength, offset)
  {
    hide LittleEndian, Get16, Get32;
    var central := new Byte[46](_ => 0);
    WriteCentralPreamble(central);
    :- WriteEntryFields(central, crc, size, nameLength, 16);
    WriteUInt16LE(central, 0, 30);
    WriteUInt16LE(central, 0, 32);
    WriteUInt16LE(central, 0, 34);
    WriteUInt16LE(central, 0, 36);
    WriteUInt32LE(central, 0, 38);
    if offset >= LIMIT32 { return Thrown; }
    WriteUInt32LE(central, offset, 42);
    assert central[..] == central[..46];
    CentralHeaderFields(crc, size, nameLength, offset);
    return Ok(central[..]);
  }

  method BuildEndRecord(count: nat, centralSize: nat, centralStart: nat) returns (r: Result<seq<Byte>>)
    ensures r.Ok? <==> count < 0x1_0000 && centralSize < 0x1_0000_0000 && centralStart < 0x1_0000_0000
    ensures r.Ok? ==> r.value == EndRecord(count, centralSize, centralStart)
    ensures r.Ok? ==> IsEndRecord(r.value, count, centralSize, centralStart)
  {
    hide LittleEndian, Get16, Get32;
    var end := new Byte[22](_ => 0);
    WriteUInt32LE(end, END_SIGNATURE, 0);
    WriteUInt16LE(end, 0, 4);
    WriteUInt16LE(end, 0, 6);
    if count >= LIMIT16 { return Thrown; }
    WriteUInt16LE(end, count, 8);
    WriteUInt16LE(end, count, 10);
    if centralSize >= LIMIT32 { return Thrown; }
    WriteUInt32LE(end, centralSize, 12);
    if centralStart >= LIMIT32 { return Thrown; }
    WriteUInt32LE(end, centralStart, 16);
    WriteUInt16LE(end, 0, 20);
    assert end[..] == end[..22];
    EndRecordFields(count, centralSize, centralStart);
    return Ok(end[..]);
  }

  method BuildRecords(e: Entry, offset: nat) returns (r: Result<(seq<Byte>, seq<Byte>)>)
    ensures r.Ok? <==> EntryFits(e, offset)
    ensures r.Ok? ==> r.value == (LocalRecord(e), CentralRecord(e, offset))
  {
    var crc := Crc32.Compute(e.data);
    var size := |e.data|;
    var local :- BuildLocalHeader(crc, size, |e.name|);
    var central :- BuildCentralHeader(crc, size, |e.name|, offset);
    return Ok((local + e.name + e.data, central + e.name));
  }

  lemma {:induction false} SizesAgree(es: seq<Entry>, ls: seq<seq<Byte>>, cs: seq<seq<Byte>>, k: nat)
    requires k <= |es| == |ls| == |cs|
    requires forall i :: 0 <= i < k ==> |ls[i]| == RecordSize(es[i]) && |cs[i]| == 46 + |es[i].name|
    ensures |Flat(ls, k)| == Offset(es, k) && |Flat(cs, k)| == DirectoryOffset(es, k)
  {
    if k > 0 { SizesAgree(es, ls, cs, k - 1); }
  }

  lemma {:induction false} RecordsOf(es: seq<Entry>, k: nat, n: nat)
    requires k < n <= |es| && FirstFit(es, n)
    ensures EntryFits(es[k], Offset(es, k))
    ensures Locals(es, n)[k] == LocalRecord(es[k])
    ensures Centrals(es, n)[k] == CentralRecord(es[k], Offset(es, k))
    decreases n
  {
    hide LocalRecord, CentralRecord;
    if k < n - 1 { RecordsOf(es, k, n - 1); }
  }

  lemma OffsetsAgree(es: seq<Entry>, k: nat)
    requires FirstFit(es, |es|) && k <= |es|
    ensures |Flat(Locals(es, |es|), k)| == Offset(es, k)
    ensures |Flat(Centrals(es, |es|), k)| == DirectoryOffset(es, k)
  {
    hide LocalRecord, CentralRecord;
    var ls, cs := Locals(es, |es|), Centrals(es, |es|);
    forall i | 0 <= i < |es|
      ensures |ls[i]| == RecordSize(es[i]) && |cs[i]| == 46 + |es[i].name|
    {
      RecordsOf(es, i, |es|);
    }
    SizesAgree(es, ls, cs, k);
  }

  lemma {:induction false} FitsEarlier(es: seq<Entry>, k: nat, n: nat)
    requires k <= n <= |es| && FirstFit(es, n)
    ensures FirstFit(es, k)
    decreases n
  {
    if k < n { FitsEarlier(es, k, n - 1); }
  }

  /** The writer: succeeds exactly when every field fits, and then yields the archive. */
  method BuildZipBytes(entries: seq<Entry>) returns (r: Result<seq<Byte>>)
    ensures r.Ok? <==> Fits(entries)
    ensures r.Ok? ==> r.value == Archive(entries)
  {
    var localHeaders: seq<seq<Byte>> := [];
    var centralDirs: seq<seq<Byte>> := [];
    var offset := 0;
    for i := 0 to |entries|
      invariant FirstFit(entries, i)
      invariant offset == Offset(entries, i)
      invariant localHeaders == Locals(entries, i)
      invariant centralDirs == Centrals(entries, i)
    {
      var e := entries[i];
      if Fits(entries) { FitsEarlier(entries, i + 1, |entries|); }
      var records :- BuildRecords(e, offset);
      localHeaders := localHeaders + [records.0];
      centralDirs := centralDirs + [records.1];
      offset := offset + 30 + |e.name| + |e.data|;
    }
    var centralStart := offset;
    var centralBytes := Flat(centralDirs, |centralDirs|);
    OffsetsAgree(entries, |entries|);
    var end :- BuildEndRecord(|entries|, |centralBytes|, centralStart);
    return Ok(Flat(localHeaders, |localHeaders|) + centralBytes + end);
  }

  // ---------------------------------------------------------------- the reader

  /** Reads the local record at `at`: no flags, stored method, matching sizes, no truncation, right checksum. */
  function ReadLocal(z: seq<Byte>, at: nat): Option<Member> {
    if at + 30 > |z| || Get32(z, at) != LOCAL_SIGNATURE || Get16(z, at + 6) != 0 || Get16(z, at + 8) != 0 then None
    else
      var size := Get32(z, at + 18);
      var nameAt := at + 30;
      var dataAt := nameAt + Get16(z, at + 26) + Get16(z, at + 28);
      if Get32(z, at + 22) != size || dataAt + size > |z| then None
      else
        var name, data := z[nameAt..nameAt + Get16(z, at + 26)], z[dataAt..dataAt + size];
        if Crc32.Crc(data) != Get32(z, at + 14) then None
        else Some(Member(name, data, Crc32.Crc(data)))
  }

  /** Reads `count` central records from `at`, which must end exactly at `end`. Each must agree with
      the local record its offset leads to. */
  function ReadDirectory(z: seq<Byte>, at: nat, count: nat, end: nat): Option<seq<Member>>
    requires end <= |z|
    decreases count
  {
    if count == 0 then
      if at == end then Some([]) else None
    else if || at + 46 > end || Get32(z, at) != CENTRAL_SIGNATURE
            || Get16(z, at + 8) != 0 || Get16(z, at + 10) != 0 then None
    else
      var nameAt := at + 46;
      var next := nameAt + Get16(z, at + 28) + Get16(z, at + 30) + Get16(z, at + 32);
      if next > end then None
      else
        match ReadLocal(z, Get32(z, at + 42))
        case None => None
        case Some(m) =>
          if || m.name != z[nameAt..nameAt + Get16(z, at + 28)]
             || m.crc != Get32(z, at + 16)
             || |m.data| != Get32(z, at + 20)
             || |m.data| != Get32(z, at + 24) then None
          else
            match ReadDirectory(z, next, count - 1, end)
            case None => None
            case Some(rest) => Some([m] + rest)
  }

  /** The whole reader, starting from the 22 bytes of the end record. */
  function Unzip(z: seq<Byte>): Option<seq<Member>> {
    if |z| < 22 then None
    else
      var e := |z| - 22;
      if || Get32(z, e) != END_SIGNATURE
         || Get16(z, e + 4) != 0 || Get16(z, e + 6) != 0
         || Get16(z, e + 8) != Get16(z, e + 10)
         || Get32(z, e + 16) + Get32(z, e + 12) != e
         || Get16(z, e + 20) != 0 then None
      else ReadDirectory(z, Get32(z, e + 16), Get16(z, e + 8), e)
  }

  // ---------------------------------------------------------------- the reader undoes the writer

  function Sealed(e: Entry): Member {
    Member(e.name, e.data, Crc32.Crc(e.data))
  }

  function AllSealed(es: seq<Entry>): (r: seq<Member>)
    ensures |r| == |es|
    ensures forall i :: 0 <= i < |es| ==> r[i] == Sealed(es[i])
  {
    seq(|es|, i requires 0 <= i < |es| => Sealed(es[i]))
  }

  /** Reading a field of z at `at + k` is reading it at k in the part of z that starts at `at`. */
  lemma Shifted(z: seq<Byte>, at: nat, h: seq<Byte>)
    requires at + |h| <= |z| && z[at..at + |h|] == h
    ensures forall k: nat :: k + 2 <= |h| ==> Get16(z, at + k) == Get16(h, k)
    ensures forall k: nat :: k + 4 <= |h| ==> Get32(z, at + k) == Get32(h, k)
  {
    forall k: nat | k + 2 <= |h|
      ensures Get16(z, at + k) == Get16(h, k)
    {
      SliceOfSlice(z, at, h, k, k + 2);
    }
    forall k: nat | k + 4 <= |h|
      ensures Get32(z, at + k) == Get32(h, k)
    {
      SliceOfSlice(z, at, h, k, k + 4);
    }
  }

  lemma SliceOfSlice(z: seq<Byte>, at: nat, h: seq<Byte>, from: nat, to: nat)
    requires at + |h| <= |z| && z[at..at + |h|] == h && from <= to <= |h|
    ensures z[at + from..at + to] == h[from..to]
  {
    forall i | from <= i < to
      ensures z[at + i] == h[i]
    {
      assert z[at..at + |h|][i] == z[at + i];
    }
  }

  /** Where two parts lie one after the other, each is found. */
  lemma TwoParts(z: seq<Byte>, at: nat, a: seq<Byte>, b: seq<Byte>)
    requires at + |a| + |b| <= |z| && z[at..at + |a| + |b|] == a + b
    ensures z[at..at + |a|] == a && z[at + |a|..at + |a| + |b|] == b
  {
    SliceOfSlice(z, at, a + b, 0, |a|);
    SliceOfSlice(z, at, a + b, |a|, |a| + |b|);
    assert (a + b)[0..|a|] == a && (a + b)[|a|..|a| + |b|] == b;
  }

  lemma ThreeParts(z: seq<Byte>, at: nat, a: seq<Byte>, b: seq<Byte>, c: seq<Byte>)
    requires at + |a| + |b| + |c| <= |z| && z[at..at + |a| + |b| + |c|] == a + b + c
    ensures z[at..at + |a|] == a && z[at + |a|..at + |a| + |b|] == b
    ensures z[at + |a| + |b|..at + |a| + |b| + |c|] == c
  {
    assert a + b + c == a + (b + c);
    TwoParts(z, at, a, b + c);
    TwoParts(z, at + |a|, b, c);
  }

  /** A piece is found at the summed length of the pieces before it. */
  lemma {:induction false} FlatAt(pieces: seq<seq<Byte>>, k: nat, n: nat)
    requires k < n <= |pieces|
    ensures |Flat(pieces, k + 1)| == |Flat(pieces, k)| + |pieces[k]| <= |Flat(pieces, n)|
    ensures Flat(pieces, n)[|Flat(pieces, k)|..|Flat(pieces, k + 1)|] == pieces[k]
    decreases n
  {
    var before, last := Flat(pieces, n - 1), pieces[n - 1];
    assert Flat(pieces, n) == before + last;
    if k < n - 1 {
      FlatAt(pieces, k, n - 1);
      var from, to := |Flat(pieces, k)|, |Flat(pieces, k + 1)|;
      assert (before + last)[from..to] == before[from..to];
    } else {
      assert (before + last)[|before|..|before| + |last|] == last;
    }
  }

  lemma SliceOfParts(a: seq<Byte>, b: seq<Byte>, c: seq<Byte>, from: nat, to: nat)
    requires from <= to
    ensures to <= |a| ==> (a + b + c)[from..to] == a[from..to]
    ensures to <= |b| ==> (a + b + c)[|a| + from..|a| + to] == b[from..to]
  {
  }

  /** Where the central record of entry k starts in the archive. */
  ghost function CentralAt(es: seq<Entry>, k: nat): nat
    requires k <= |es|
  {
    Offset(es, |es|) + DirectoryOffset(es, k)
  }

  /** Where the two records of entry k lie. */
  lemma RecordsAt(es: seq<Entry>, k: nat, z: seq<Byte>)
    requires Fits(es) && k < |es| && z == Archive(es)
    ensures EntryFits(es[k], Offset(es, k))
    ensures Offset(es, k) + RecordSize(es[k]) <= |z|
    ensures z[Offset(es, k)..Offset(es, k) + RecordSize(es[k])] == LocalRecord(es[k])
    ensures CentralAt(es, k) + 46 + |es[k].name| == CentralAt(es, k + 1) <= |z| - 22
    ensures z[CentralAt(es, k)..CentralAt(es, k + 1)] == CentralRecord(es[k], Offset(es, k))
  {
    hide LocalRecord, CentralRecord, EndRecord, Crc32.Crc;
    var n := |es|;
    var ls, cs := Locals(es, n), Centrals(es, n);
    OffsetsAgree(es, k);
    OffsetsAgree(es, k + 1);
    OffsetsAgree(es, n);
    RecordsOf(es, k, n);
    FlatAt(ls, k, n);
    FlatAt(cs, k, n);
    var a, b, c := Flat(ls, n), Flat(cs, n), End(es);
    assert z == a + b + c && |c| == 22;
    hide Flat, Locals, Centrals, Archive, End;
    SliceOfParts(a, b, c, Offset(es, k), Offset(es, k + 1));
    SliceOfParts(a, b, c, DirectoryOffset(es, k), DirectoryOffset(es, k + 1));
  }

  lemma ReadLocalAt(z: seq<Byte>, at: nat, h: seq<Byte>, name: seq<Byte>, data: seq<Byte>, crc: Word)
    requires IsLocalHeader(h, crc, |data|, |name|) && crc == Crc32.Crc(data)
    requires at + 30 + |name| + |data| <= |z|
    requires z[at..at + 30 + |name| + |data|] == h + name + data
    ensures ReadLocal(z, at) == Some(Member(name, data, crc))
  {
    hide Get16, Get32, Crc32.Crc;
    ThreeParts(z, at, h, name, data);
    Shifted(z, at, h);
    assert Get32(z, at + 0) == LOCAL_SIGNATURE;
  }

  lemma ReadCentralAt(z: seq<Byte>, at: nat, count: nat, end: nat, h: seq<Byte>, m: Member, offset: nat)
    requires 0 < count && at + 46 + |m.name| <= end <= |z|
    requires IsCentralHeader(h, m.crc, |m.data|, |m.name|, offset)
    requires z[at..at + 46 + |m.name|] == h + m.name
    requires ReadLocal(z, offset) == Some(m)
    ensures Get32(z, at) == CENTRAL_SIGNATURE && Get32(z, at + 42) == offset
    ensures ReadDirectory(z, at, count, end)
         == match ReadDirectory(z, at + 46 + |m.name|, count - 1, end)
            case None => None
            case Some(rest) => Some([m] + rest)
  {
    hide Get16, Get32, Crc32.Crc, ReadLocal;
    TwoParts(z, at, h, m.name);
    Shifted(z, at, h);
    assert Get32(z, at + 0) == CENTRAL_SIGNATURE;
  }

  /** Both records of entry k are read back, and its central offset lands on its own local record. */
  lemma EntryRead(es: seq<Entry>, k: nat, z: seq<Byte>, count: nat)
    requires Fits(es) && k < |es| && z == Archive(es) && 0 < count
    ensures CentralAt(es, k) + 46 <= CentralAt(es, k + 1) <= |z| - 22
    ensures Get32(z, CentralAt(es, k)) == CENTRAL_SIGNATURE
    ensures ReadLocal(z, Get32(z, CentralAt(es, k) + 42)) == Some(Sealed(es[k]))
    ensures ReadDirectory(z, CentralAt(es, k), count, |z| - 22)
         == match ReadDirectory(z, CentralAt(es, k + 1), count - 1, |z| - 22)
            case None => None
            case Some(rest) => Some([Sealed(es[k])] + rest)
  {
    hide LocalHeader, CentralHeader, EndRecord, ReadLocal, Get16, Get32, Crc32.Crc, IsLocalHeader, IsCentralHeader;
    var e, crc, offset := es[k], Crc32.Crc(es[k].data), Offset(es, k);
    RecordsAt(es, k, z);
    LocalHeaderFields(crc, |e.data|, |e.name|);
    ReadLocalAt(z, offset, LocalHeader(crc, |e.data|, |e.name|), e.name, e.data, crc);
    CentralHeaderFields(crc, |e.data|, |e.name|, offset);
    ReadCentralAt(z, CentralAt(es, k), count, |z| - 22,
                  CentralHeader(crc, |e.data|, |e.name|, offset), Sealed(e), offset);
  }

  lemma ArchiveLength(es: seq<Entry>)
    requires Fits(es)
    ensures |Archive(es)| == CentralAt(es, |es|) + 22
  {
    hide LocalRecord, CentralRecord, EndRecord;
    OffsetsAgree(es, |es|);
  }

  // ---------------------------------------------------------------- how long an archive is

  function NameBytes(es: seq<Entry>): nat {
    if es == [] then 0 else NameBytes(es[..|es| - 1]) + |es[|es| - 1].name|
  }

  function DataBytes(es: seq<Entry>): nat {
    if es == [] then 0 else DataBytes(es[..|es| - 1]) + |es[|es| - 1].data|
  }

  lemma {:induction false} OffsetIs(es: seq<Entry>, k: nat)
    requires k <= |es|
    ensures Offset(es, k) == 30 * k + NameBytes(es[..k]) + DataBytes(es[..k])
    ensures DirectoryOffset(es, k) == 46 * k + NameBytes(es[..k])
  {
    if k > 0 {
      OffsetIs(es, k - 1);
      assert es[..k][..k - 1] == es[..k - 1];
    }
  }

  lemma {:induction false} FirstFitIs(es: seq<Entry>, k: nat)
    requires k <= |es|
    ensures FirstFit(es, k) <==>
      forall i :: 0 <= i < k ==> EntryFits(es[i], Offset(es, i))
  {
    hide EntryFits, Offset;
    if k > 0 { FirstFitIs(es, k - 1); }
  }

  /** When the writer succeeds, in numbers: fewer than 2^16 entries, every name shorter than 2^16 bytes, and
      both the local records and the directory shorter than 2^32 bytes. */
  lemma FitsWhen(es: seq<Entry>)
    ensures Fits(es) <==>
      && |es| < 0x1_0000
      && (forall i :: 0 <= i < |es| ==> |es[i].name| < 0x1_0000)
      && 30 * |es| + NameBytes(es) + DataBytes(es) < 0x1_0000_0000
      && 46 * |es| + NameBytes(es) < 0x1_0000_0000
  {
    hide Offset, DirectoryOffset, FirstFit;
    OffsetIs(es, |es|);
    assert es[..|es|] == es;
    FirstFitIs(es, |es|);
    forall i | 0 <= i < |es|
      ensures Offset(es, i) + |es[i].data| <= Offset(es, |es|)
    {
      OffsetsGrow(es, i + 1, |es|);
      OneMore(es, i);
    }
  }

  lemma OneMore(es: seq<Entry>, i: nat)
    requires i < |es|
    ensures Offset(es, i + 1) == Offset(es, i) + RecordSize(es[i])
  {
  }

  /** No byte is spare: 76 bytes and twice the name for every entry, its data, and 22 bytes at the end. */
  lemma ArchiveIsTight(es: seq<Entry>)
    requires Fits(es)
    ensures |Archive(es)| == 76 * |es| + 2 * NameBytes(es) + DataBytes(es) + 22
  {
    hide Archive, Fits;
    ArchiveLength(es);
    OffsetIs(es, |es|);
    assert es[..|es|] == es;
  }

  lemma AllSealedFrom(es: seq<Entry>, k: nat)
    requires k < |es|
    ensures AllSealed(es[k..]) == [Sealed(es[k])] + AllSealed(es[k + 1..])
  {
  }

  lemma {:induction false} ReadDirectoryFrom(es: seq<Entry>, k: nat, z: seq<Byte>)
    requires Fits(es) && k <= |es| && z == Archive(es)
    ensures ReadDirectory(z, CentralAt(es, k), |es| - k, |z| - 22) == Some(AllSealed(es[k..]))
    decreases |es| - k
  {
    hide Archive, Fits, CentralAt, ReadLocal, Get16, Get32;
    ArchiveLength(es);
    if k < |es| {
      EntryRead(es, k, z, |es| - k);
      ReadDirectoryFrom(es, k + 1, z);
      AllSealedFrom(es, k);
    }
  }

  lemma ReadEnd(z: seq<Byte>, e: nat, count: nat, size: nat, start: nat)
    requires |z| == e + 22 && start + size == e
    requires IsEndRecord(z[e..e + 22], count, size, start)
    ensures Unzip(z) == ReadDirectory(z, start, count, e)
  {
    Shifted(z, e, z[e..e + 22]);
    assert Get32(z, e + 0) == END_SIGNATURE;
  }

  /** Round trip: whenever the writer succeeds, the reader recovers exactly the names, the data and
      the checksums, in order. */
  lemma UnzipArchive(es: seq<Entry>)
    requires Fits(es)
    ensures Unzip(Archive(es)) == Some(AllSealed(es))
  {
    hide LocalRecord, CentralRecord, EndRecord, ReadLocal, ReadDirectory, Get16, Get32, Unzip;
    var z, e := Archive(es), CentralAt(es, |es|);
    ReadDirectoryFrom(es, 0, z);
    ArchiveLength(es);
    assert z[e..e + 22] == End(es);
    EndRecordFields(|es|, DirectoryOffset(es, |es|), Offset(es, |es|));
    ReadEnd(z, e, |es|, DirectoryOffset(es, |es|), Offset(es, |es|));
    assert es[0..] == es;
  }

  /** Hence two entry lists never share an archive. */
  lemma ArchiveInjective(a: seq<Entry>, b: seq<Entry>)
    requires Fits(a) && Fits(b) && Archive(a) == Archive(b)
    ensures a == b
  {
    UnzipArchive(a);
    UnzipArchive(b);
    forall i | 0 <= i < |a|
      ensures a[i] == b[i]
    {
      assert AllSealed(a)[i] == AllSealed(b)[i];
    }
  }

  // ---------------------------------------------------------------- damage is noticed

  /** Where the data of entry k starts. */
  ghost function DataAt(es: seq<Entry>, k: nat): nat
    requires k < |es|
  {
    Offset(es, k) + 30 + |es[k].name|
  }

  /** The archive z with other bytes where the data of entry k was. */
  ghost function Damaged(es: seq<Entry>, k: nat, z: seq<Byte>, data: seq<Byte>): (d: seq<Byte>)
    requires k < |es| && |data| == |es[k].data| && DataAt(es, k) + |data| <= |z|
    ensures |d| == |z|
  {
    z[..DataAt(es, k)] + data + z[DataAt(es, k) + |data|..]
  }

  lemma WrongChecksum(z: seq<Byte>, at: nat, h: seq<Byte>, name: seq<Byte>, data: seq<Byte>, crc: Word)
    requires IsLocalHeader(h, crc, |data|, |name|) && crc != Crc32.Crc(data)
    requires at + 30 + |name| + |data| <= |z|
    requires z[at..at + 30 + |name| + |data|] == h + name + data
    ensures ReadLocal(z, at) == None
  {
    hide Get16, Get32, Crc32.Crc;
    ThreeParts(z, at, h, name, data);
    Shifted(z, at, h);
  }

  lemma DamagedLocal(es: seq<Entry>, k: nat, z: seq<Byte>, data: seq<Byte>, d: seq<Byte>)
    requires Fits(es) && k < |es| && z == Archive(es)
    requires |data| == |es[k].data| && Crc32.Crc(data) != Crc32.Crc(es[k].data)
    requires DataAt(es, k) + |data| <= |z| && d == Damaged(es, k, z, data)
    ensures ReadLocal(d, Offset(es, k)) == None
  {
    hide LocalHeader, CentralRecord, ReadLocal, Crc32.Crc, IsLocalHeader, Archive, Fits, CentralAt;
    var e, at, crc := es[k], Offset(es, k), Crc32.Crc(es[k].data);
    RecordsAt(es, k, z);
    var h := LocalHeader(crc, |e.data|, |e.name|);
    LocalHeaderFields(crc, |e.data|, |e.name|);
    assert z[at..DataAt(es, k)] == LocalRecord(e)[..30 + |e.name|] == h + e.name;
    assert d[at..at + 30 + |e.name| + |data|] == h + e.name + data;
    WrongChecksum(d, at, h, e.name, data, crc);
  }

  lemma SameTail(z: seq<Byte>, d: seq<Byte>, s: nat, from: nat, to: nat)
    requires |d| == |z| && s <= from <= to <= |z| && d[s..] == z[s..]
    ensures d[from..to] == z[from..to]
  {
    forall i | from <= i < to
      ensures d[i] == z[i]
    {
      assert d[s..][i - s] == z[s..][i - s];
    }
  }

  /** The directory is as it was, so the reader comes to entry k unless it gives up before. */
  lemma DamagedCentral(es: seq<Entry>, j: nat, z: seq<Byte>, d: seq<Byte>)
    requires Fits(es) && j < |es| && z == Archive(es)
    requires |d| == |z| && Offset(es, |es|) <= |z| && d[Offset(es, |es|)..] == z[Offset(es, |es|)..]
    ensures CentralAt(es, j) + 46 <= CentralAt(es, j + 1) <= |d| - 22
    ensures Get32(d, CentralAt(es, j) + 42) == Offset(es, j)
    ensures CentralAt(es, j) + 46 + Get16(d, CentralAt(es, j) + 28) + Get16(d, CentralAt(es, j) + 30)
          + Get16(d, CentralAt(es, j) + 32) == CentralAt(es, j + 1)
  {
    hide LocalRecord, CentralHeader, Crc32.Crc, Get16, Get32, Archive, Fits;
    var e, crc, at := es[j], Crc32.Crc(es[j].data), CentralAt(es, j);
    RecordsAt(es, j, z);
    var h := CentralHeader(crc, |e.data|, |e.name|, Offset(es, j));
    CentralHeaderFields(crc, |e.data|, |e.name|, Offset(es, j));
    assert z[at..at + 46 + |e.name|] == h + e.name;
    TwoParts(z, at, h, e.name);
    SameTail(z, d, Offset(es, |es|), at, at + 46);
    Shifted(d, at, h);
  }

  lemma {:induction false} DamagedFrom(es: seq<Entry>, j: nat, k: nat, z: seq<Byte>, d: seq<Byte>)
    requires Fits(es) && j <= k < |es| && z == Archive(es)
    requires |d| == |z| && Offset(es, |es|) <= |z| && d[Offset(es, |es|)..] == z[Offset(es, |es|)..]
    requires ReadLocal(d, Offset(es, k)) == None
    ensures |d| >= 22 && ReadDirectory(d, CentralAt(es, j), |es| - j, |d| - 22) == None
    decreases k - j
  {
    hide Archive, Fits, CentralAt, ReadLocal, Get16, Get32;
    DamagedCentral(es, j, z, d);
    if j < k { DamagedFrom(es, j + 1, k, z, d); }
  }

  lemma SameEnd(es: seq<Entry>, z: seq<Byte>, d: seq<Byte>)
    requires Fits(es) && z == Archive(es)
    requires |d| == |z| && Offset(es, |es|) <= |z| && d[Offset(es, |es|)..] == z[Offset(es, |es|)..]
    ensures |d| >= 22 && Unzip(d) == ReadDirectory(d, Offset(es, |es|), |es|, |d| - 22)
  {
    hide LocalRecord, CentralRecord, EndRecord, ReadLocal, ReadDirectory, Get16, Get32, Unzip;
    var e, s := CentralAt(es, |es|), Offset(es, |es|);
    ArchiveLength(es);
    assert z[e..e + 22] == End(es);
    SameTail(z, d, s, e, e + 22);
    EndRecordFields(|es|, DirectoryOffset(es, |es|), s);
    ReadEnd(d, e, |es|, DirectoryOffset(es, |es|), s);
  }

  /** Damage to the stored data of any entry, confined to four consecutive bytes, makes the reader
      reject the archive. */
  lemma DamageDetected(es: seq<Entry>, k: nat, data: seq<Byte>, at: nat)
    requires Fits(es) && k < |es|
    requires |data| == |es[k].data| && data != es[k].data
    requires forall i :: 0 <= i < |data| && !(at <= i < at + 4) ==> data[i] == es[k].data[i]
    ensures DataAt(es, k) + |data| <= |Archive(es)|
    ensures Unzip(Damaged(es, k, Archive(es), data)) == None
  {
    hide Archive, Fits, Unzip, ReadDirectory, ReadLocal, Crc32.Crc, LocalRecord, CentralRecord;
    var z := Archive(es);
    RecordsAt(es, k, z);
    Crc32.FourByteWindowDetected(data, es[k].data, at);
    var d := Damaged(es, k, z, data);
    DamagedLocal(es, k, z, data, d);
    OffsetsGrow(es, k + 1, |es|);
    ArchiveLength(es);
    DamagedFrom(es, 0, k, z, d);
    SameEnd(es, z, d);
  }

  lemma {:induction false} OffsetsGrow(es: seq<Entry>, k: nat, n: nat)
    requires k <= n <= |es|
    ensures Offset(es, k) <= Offset(es, n)
    decreases n
  {
    if k < n { OffsetsGrow(es, k, n - 1); }
  }
}
