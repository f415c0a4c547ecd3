/**
 The world file reader: header, chunk directory, chunk size, and the span of each chunk. Every read of
 a voxel stays inside its own chunk's span, whatever the bytes of the file are.
 */
module EdenFile {
  import opened ByteStrings
  import opened EdenSigns
  import opened EdenZip
  import opened SnapzCodec
  import opened Voxels

  const HEADER_BYTES := 192
  const DIR_ENTRY := 16
  const COORD_LIMIT := 32768
  const MAX_DIR := 4000000
  const BAND := 8192
  const SHORT := 32768
  const TALL := 131072

  /** The header fields; floats are kept as the bytes they are. */
  datatype Header = Header(seed: int32, pos: seq<byte>, home: seq<byte>, yaw: seq<byte>, dirOffset: nat, name: seq<byte>, version: int32, sky: seq<byte>)

  function ReadHeader(b: seq<byte>): Header
    requires |b| >= HEADER_BYTES
  {
    Header(LeInt(b[0..4]), b[4..16], b[16..28], b[28..32], Un(b[32..40]), TextOf(b[40..90]), LeInt(b[92..96]), b[132..148])
  }

  // --- the directory --------------------------------------------------------------------------------

  datatype Row = Row(cx: int, cy: int, off: nat)

  predicate IsChunkCoord(c: int) { 0 <= c < COORD_LIMIT }

  predicate Gated(r: Row) { IsChunkCoord(r.cx) && IsChunkCoord(r.cy) }

  function RowAt(b: seq<byte>, i: nat): Row
    requires i + DIR_ENTRY <= |b|
  {
    Row(LeInt(b[i..i + 4]) as int, LeInt(b[i + 4..i + 8]) as int, Un(b[i + 8..i + 16]))
  }

  /** Every whole row from an offset to the end of the file, at most so many. */
  function Directory(b: seq<byte>, i: nat, most: nat): seq<Row>
    decreases most
  {
    if most == 0 || i + DIR_ENTRY > |b| then [] else [RowAt(b, i)] + Directory(b, i + DIR_ENTRY, most - 1)
  }

  lemma DirStep(b: seq<byte>, i: nat, most: nat)
    ensures most == 0 || i + DIR_ENTRY > |b| ==> Directory(b, i, most) == []
    ensures most > 0 && i + DIR_ENTRY <= |b| ==> Directory(b, i, most) == [RowAt(b, i)] + Directory(b, i + DIR_ENTRY, most - 1)
  {
  }

  method DecodeDirectory(b: seq<byte>, at: nat) returns (rows: seq<Row>, truncated: bool)
    ensures rows == Directory(b, at, MAX_DIR)
    ensures truncated <==> |rows| == MAX_DIR && at + DIR_ENTRY * |rows| + DIR_ENTRY <= |b|
  {
    hide RowAt, Directory;
    rows, truncated := [], false;
    var i := at;
    while i + DIR_ENTRY <= |b|
      invariant |rows| <= MAX_DIR && i == at + DIR_ENTRY * |rows|
      invariant rows + Directory(b, i, MAX_DIR - |rows|) == Directory(b, at, MAX_DIR)
      decreases |b| - i
    {
      DirStep(b, i, MAX_DIR - |rows|);
      if |rows| >= MAX_DIR { return rows, true; }
      rows := rows + [RowAt(b, i)];
      i := i + DIR_ENTRY;
    }
    DirStep(b, i, MAX_DIR - |rows|);
  }

  /** One past the last row that passes the gate. */
  function LastValid(rows: seq<Row>): (k: nat)
    ensures k <= |rows| && (k > 0 ==> Gated(rows[k - 1])) && forall i :: k <= i < |rows| ==> !Gated(rows[i])
  {
    if rows == [] then 0 else if Gated(rows[|rows| - 1]) then |rows| else LastValid(rows[..|rows| - 1])
  }

  function OnlyGated(rows: seq<Row>): seq<Row> {
    if rows == [] then [] else OnlyGated(rows[..|rows| - 1]) + if Gated(rows[|rows| - 1]) then [rows[|rows| - 1]] else []
  }

  // --- the chunk size -------------------------------------------------------------------------------

  /** The offsets that could address chunk data. */
  function Offsets(rows: seq<Row>, dir: nat, n: nat): set<nat> {
    set r | r in rows && HEADER_BYTES <= r.off < dir && r.off < n :: r.off
  }

  function MaxOff(rows: seq<Row>, dir: nat): (m: Option<nat>)
    ensures m.None? <==> forall r :: r in rows ==> !(HEADER_BYTES <= r.off < dir)
    ensures m.Some? ==> (exists r :: r in rows && r.off == m.value) && HEADER_BYTES <= m.value < dir
    ensures m.Some? ==> forall r :: r in rows && HEADER_BYTES <= r.off < dir ==> r.off <= m.value
  {
    if rows == [] then None
    else
      var r := rows[|rows| - 1];
      var m := MaxOff(rows[..|rows| - 1], dir);
      assert rows == rows[..|rows| - 1] + [r];
      if HEADER_BYTES <= r.off < dir && (m.None? || m.value < r.off) then Some(r.off) else m
  }

  /** What is left between the last chunk and the directory is nothing, or whole creature slots. */
  predicate GapFits(dir: nat, maxOff: nat, size: nat)
    requires maxOff <= dir
  {
    dir - maxOff >= size && (dir - maxOff - size == 0 || ((dir - maxOff - size) % 60 == 0 && (dir - maxOff - size) / 60 <= 400))
  }

  function CreatureGap(rows: seq<Row>, dir: nat): nat {
    var m := MaxOff(rows, dir);
    if m.None? then 0
    else
      var a, b := GapFits(dir, m.value, TALL), GapFits(dir, m.value, SHORT);
      if a && !b then TALL else if b && !a then SHORT else 0
  }

  /** No two offsets closer than a tall chunk. */
  predicate FarApart(offs: set<nat>) { forall a, b :: a in offs && b in offs && a < b ==> b - a >= TALL }

  /** When the gap does not say: the closest two offsets do, or the room after the only one. */
  function Fallback(offs: set<nat>, dir: nat): nat {
    if |offs| < 2 then (if exists o :: o in offs && dir - o >= TALL then TALL else SHORT)
    else if FarApart(offs) then TALL else SHORT
  }

  function DetectSize(rows: seq<Row>, dir: nat, version: int, n: nat): (s: nat)
    ensures s == SHORT || s == TALL
  {
    if version >= 5 then TALL
    else if CreatureGap(rows, dir) != 0 then CreatureGap(rows, dir)
    else Fallback(Offsets(rows, dir, n), dir)
  }

  // --- chunks ---------------------------------------------------------------------------------------

  datatype Chunk = Chunk(cx: int, cy: int, off: nat, end: nat)

  /** A row whose data provably fits, however large its offset is. */
  predicate Addressable(r: Row, dir: nat, n: nat, size: nat) { HEADER_BYTES <= r.off < dir && r.off < n && n - r.off >= size }

  function OnlyAddressable(rows: seq<Row>, dir: nat, n: nat, size: nat): seq<Row> {
    if rows == [] then []
    else
      OnlyAddressable(rows[..|rows| - 1], dir, n, size) +
      if Addressable(rows[|rows| - 1], dir, n, size) then [rows[|rows| - 1]] else []
  }

  /** The least offset after this one, or the end of the file. */
  function NextStart(rows: seq<Row>, off: nat, n: nat): (m: nat)
    ensures m == n || (m > off && exists r :: r in rows && r.off == m)
    ensures m <= n && forall r :: r in rows && r.off > off ==> m <= r.off
  {
    if rows == [] then n
    else
      var r := rows[|rows| - 1];
      var m := NextStart(rows[..|rows| - 1], off, n);
      assert rows == rows[..|rows| - 1] + [r];
      if r.off > off && r.off < m then r.off else m
  }

  function Least(a: nat, b: nat): nat { if a < b then a else b }

  function ChunkOf(kept: seq<Row>, r: Row, dir: nat, n: nat, size: nat): Chunk {
    var barrier := Least(NextStart(kept, r.off, n), dir);
    Chunk(r.cx, r.cy, r.off, r.off + if barrier > r.off then Least(size, barrier - r.off) else 0)
  }

  function Chunks(kept: seq<Row>, rows: seq<Row>, dir: nat, n: nat, size: nat): (cs: seq<Chunk>)
    ensures |cs| == |rows| && forall i :: 0 <= i < |rows| ==> cs[i] == ChunkOf(kept, rows[i], dir, n, size)
  {
    seq(|rows|, i requires 0 <= i < |rows| => ChunkOf(kept, rows[i], dir, n, size))
  }

  // --- the whole file -------------------------------------------------------------------------------

  datatype World = World(bytes: seq<byte>, hdr: Header, size: nat, chunks: seq<Chunk>, trailer: seq<byte>, signs: seq<EdenSign>, truncated: bool) {
    function Bands(): nat { size / BAND }
    function Ceiling(): int { Bands() * 16 - 1 }
  }

  datatype Loaded = Good(world: World) | BadZip(why: Unzipped) | TooShort | BadDirectory | NoChunk

  function TrailerOf(b: seq<byte>, dir: nat, valid: nat, rows: nat): seq<byte>
    requires valid <= rows && dir + DIR_ENTRY * rows <= |b|
  {
    b[dir + DIR_ENTRY * valid..dir + DIR_ENTRY * valid + Least(DIR_ENTRY * (rows - valid), MAX_TRAILER)]
  }

  lemma {:induction false} DirectoryFits(b: seq<byte>, i: nat, most: nat)
    requires i <= |b|
    ensures i + DIR_ENTRY * |Directory(b, i, most)| <= |b| && |Directory(b, i, most)| <= most
    ensures |Directory(b, i, most)| == most || i + DIR_ENTRY * |Directory(b, i, most)| + DIR_ENTRY > |b|
    decreases most
  {
    if most > 0 && i + DIR_ENTRY <= |b| { DirectoryFits(b, i + DIR_ENTRY, most - 1); }
  }

  function Parse(b: seq<byte>): Loaded {
    if |b| < HEADER_BYTES then TooShort
    else
      var h := ReadHeader(b);
      if h.dirOffset < HEADER_BYTES || h.dirOffset >= |b| then BadDirectory
      else
        var rows := Directory(b, h.dirOffset, MAX_DIR);
        var valid := LastValid(rows);
        DirectoryFits(b, h.dirOffset, MAX_DIR);
        var trailer := TrailerOf(b, h.dirOffset, valid, |rows|);
        var gated := OnlyGated(rows[..valid]);
        var size := DetectSize(gated, h.dirOffset, h.version as int, |b|);
        var kept := OnlyAddressable(gated, h.dirOffset, |b|, size);
        if kept == [] then NoChunk
        else
          Good(World(b, h, size, Chunks(kept, kept, h.dirOffset, |b|, size), trailer, ReadInline(trailer),
                     |rows| == MAX_DIR && h.dirOffset + DIR_ENTRY * |rows| + DIR_ENTRY <= |b|))
  }

  function Load(inflate: Inflate, raw: seq<byte>, most: nat): Loaded {
    if IsZip(raw) then
      match Unzip(inflate, raw, most)
      case Data(d) => Parse(d)
      case why => BadZip(why)
    else Parse(raw)
  }

  // --- voxels ---------------------------------------------------------------------------------------

  /** Where a voxel's type is, from the start of its chunk; its paint is half a band on. */
  function TypeOffset(lx: int, ly: int, z: int): int { z / 16 * BAND + lx * 256 + ly * 16 + z % 16 }

  /** The types of a band lie one after the other: up a column, then along the rows, then across them; the
      next band begins after as many paints. */
  lemma LaidOut(lx: int, ly: int, z: int)
    requires 0 <= lx < 16 && 0 <= ly < 16 && 0 <= z
    ensures TypeOffset(0, 0, 0) == 0 && TypeOffset(lx, ly, z + 16) == TypeOffset(lx, ly, z) + 2 * 4096
    ensures z % 16 < 15 ==> TypeOffset(lx, ly, z + 1) == TypeOffset(lx, ly, z) + 1
    ensures z % 16 == 15 && ly < 15 ==> TypeOffset(lx, ly + 1, z - 15) == TypeOffset(lx, ly, z) + 1
    ensures z % 16 == 15 && ly == 15 && lx < 15 ==> TypeOffset(lx + 1, 0, z - 15) == TypeOffset(lx, ly, z) + 1
  {
    assert (z + 16) / 16 == z / 16 + 1 && (z + 16) % 16 == z % 16;
  }

  predicate InColumn(lx: int, ly: int, z: int) { 0 <= lx < 16 && 0 <= ly < 16 && 0 <= z }

  function ByteIn(b: seq<byte>, c: Chunk, o: int): byte
    requires o >= 0 && c.off <= c.end <= |b|
  {
    if o < c.end - c.off then b[c.off + o] else 0
  }

  function BlockAt(b: seq<byte>, c: Chunk, lx: int, ly: int, z: int): byte
    requires c.off <= c.end <= |b|
  {
    if InColumn(lx, ly, z) then ByteIn(b, c, TypeOffset(lx, ly, z)) else 0
  }

  function PaintAt(b: seq<byte>, c: Chunk, lx: int, ly: int, z: int): byte
    requires c.off <= c.end <= |b|
  {
    if InColumn(lx, ly, z) then ByteIn(b, c, TypeOffset(lx, ly, z) + 4096) else 0
  }

  // --- spans ----------------------------------------------------------------------------------------

  lemma {:induction false} AddressableIs(rows: seq<Row>, dir: nat, n: nat, size: nat)
    ensures forall r :: r in OnlyAddressable(rows, dir, n, size) <==> r in rows && Addressable(r, dir, n, size)
  {
    if rows != [] {
      assert rows == rows[..|rows| - 1] + [rows[|rows| - 1]];
      AddressableIs(rows[..|rows| - 1], dir, n, size);
    }
  }

  lemma ChunkSpan(kept: seq<Row>, r: Row, dir: nat, n: nat, size: nat)
    requires r in kept && dir < n && size > 0
    requires forall q :: q in kept ==> Addressable(q, dir, n, size)
    ensures var c := ChunkOf(kept, r, dir, n, size);
      && HEADER_BYTES <= c.off < c.end <= dir && c.end - c.off <= size
      && forall q :: q in kept && q.off > c.off ==> c.end <= q.off
  {
  }

  /** For every byte string the reader accepts: each chunk's span is not empty, at most one chunk long,
      and between the header and the directory; chunks at different offsets do not overlap. */
  lemma SpansHold(b: seq<byte>)
    requires Parse(b).Good?
    ensures var w := Parse(b).world;
      && w.bytes == b && w.hdr.dirOffset < |b| && w.chunks != []
      && (forall c :: c in w.chunks ==> HEADER_BYTES <= c.off < c.end <= w.hdr.dirOffset && c.end - c.off <= w.size)
      && (forall c, d :: c in w.chunks && d in w.chunks && c.off < d.off ==> c.end <= d.off)
  {
    var h := ReadHeader(b);
    var rows := Directory(b, h.dirOffset, MAX_DIR);
    var gated := OnlyGated(rows[..LastValid(rows)]);
    var size := DetectSize(gated, h.dirOffset, h.version as int, |b|);
    var kept := OnlyAddressable(gated, h.dirOffset, |b|, size);
    hide ReadHeader, Directory, OnlyGated, DetectSize, OnlyAddressable, LastValid, ReadInline, TrailerOf;
    AddressableIs(gated, h.dirOffset, |b|, size);
    var w := Parse(b).world;
    assert w.chunks == Chunks(kept, kept, h.dirOffset, |b|, size);
    hide Parse, ChunkOf;
    forall c | c in w.chunks
      ensures HEADER_BYTES <= c.off < c.end <= h.dirOffset && c.end - c.off <= size
      ensures exists r :: r in kept && r.off == c.off
      ensures forall q :: q in kept && q.off > c.off ==> c.end <= q.off
    {
      var i :| 0 <= i < |kept| && c == ChunkOf(kept, kept[i], h.dirOffset, |b|, size);
      ChunkSpan(kept, kept[i], h.dirOffset, |b|, size);
      assert kept[i] in kept && kept[i].off == c.off by { SameOff(kept, kept[i], h.dirOffset, |b|, size); }
    }
  }

  lemma SameOff(kept: seq<Row>, r: Row, dir: nat, n: nat, size: nat)
    ensures ChunkOf(kept, r, dir, n, size).off == r.off
  {
  }

  lemma {:induction false} GatedIs(rows: seq<Row>)
    ensures forall r :: r in OnlyGated(rows) <==> r in rows && Gated(r)
  {
    if rows != [] {
      assert rows == rows[..|rows| - 1] + [rows[|rows| - 1]];
      GatedIs(rows[..|rows| - 1]);
    }
  }

  /** A chunk is short of the whole size only where the directory or another chunk stands in its way. */
  lemma SpanFull(kept: seq<Row>, r: Row, dir: nat, n: nat, size: nat)
    requires r in kept && dir <= n && forall q :: q in kept ==> Addressable(q, dir, n, size)
    ensures var c := ChunkOf(kept, r, dir, n, size);
      c.end == c.off + size || (c.end < c.off + size && (c.end == dir || exists q :: q in kept && q.off == c.end))
  {
  }

  /** For every file accepted: its chunks are exactly the directory rows whose coordinates are in range and
      whose data fits, whatever other rows lie between them, and each has all the room up to its size
      that neither the directory nor another chunk takes. */
  lemma ChunksAre(b: seq<byte>, cx: int, cy: int, off: nat)
    requires Parse(b).Good?
    ensures var w := Parse(b).world;
      && ((exists c :: c in w.chunks && c.cx == cx && c.cy == cy && c.off == off) <==>
            var r := Row(cx, cy, off);
            r in Directory(b, w.hdr.dirOffset, MAX_DIR) && Gated(r) && Addressable(r, w.hdr.dirOffset, |b|, w.size))
      && forall c :: c in w.chunks ==>
           c.end == c.off + w.size || c.end == w.hdr.dirOffset || exists d :: d in w.chunks && d.off == c.end
  {
    var h := ReadHeader(b);
    var rows := Directory(b, h.dirOffset, MAX_DIR);
    var valid := LastValid(rows);
    var gated := OnlyGated(rows[..valid]);
    var size := DetectSize(gated, h.dirOffset, h.version as int, |b|);
    var kept := OnlyAddressable(gated, h.dirOffset, |b|, size);
    hide ReadHeader, Directory, OnlyGated, DetectSize, OnlyAddressable, LastValid, ReadInline, TrailerOf, Gated, Addressable;
    AddressableIs(gated, h.dirOffset, |b|, size);
    GatedIs(rows[..valid]);
    LastGated(rows, Row(cx, cy, off));
    var w := Parse(b).world;
    assert w.chunks == Chunks(kept, kept, h.dirOffset, |b|, size);
    hide Parse, ChunkOf;
    ChunkRows(kept, w.chunks, h.dirOffset, |b|, size);
    assert Row(cx, cy, off) in kept <==> exists c :: c in w.chunks && Row(c.cx, c.cy, c.off) == Row(cx, cy, off);
  }

  lemma LastGated(rows: seq<Row>, r: Row)
    ensures r in rows && Gated(r) ==> r in rows[..LastValid(rows)]
  {
    hide Gated;
    if r in rows && Gated(r) {
      var i :| 0 <= i < |rows| && rows[i] == r;
      assert i < LastValid(rows) && rows[..LastValid(rows)][i] == r;
    }
  }

  lemma ChunkRows(kept: seq<Row>, chunks: seq<Chunk>, dir: nat, n: nat, size: nat)
    requires dir <= n && forall q :: q in kept ==> Addressable(q, dir, n, size)
    requires chunks == Chunks(kept, kept, dir, n, size)
    ensures forall r :: r in kept <==> exists c :: c in chunks && Row(c.cx, c.cy, c.off) == r
    ensures forall c :: c in chunks ==> c.end == c.off + size || c.end == dir || exists d :: d in chunks && d.off == c.end
  {
    hide Addressable, ChunkOf;
    forall i | 0 <= i < |kept|
      ensures var c := chunks[i]; Row(c.cx, c.cy, c.off) == kept[i]
    {
      RowOfChunk(kept, kept[i], dir, n, size);
    }
    forall r | r in kept
      ensures exists c :: c in chunks && Row(c.cx, c.cy, c.off) == r
    {
      var i :| 0 <= i < |kept| && kept[i] == r;
      assert chunks[i] in chunks;
    }
    forall c | c in chunks
      ensures Row(c.cx, c.cy, c.off) in kept
      ensures c.end == c.off + size || c.end == dir || exists d :: d in chunks && d.off == c.end
    {
      var i :| 0 <= i < |chunks| && chunks[i] == c;
      SpanFull(kept, kept[i], dir, n, size);
      if q :| q in kept && q.off == c.end {
        var d :| d in chunks && Row(d.cx, d.cy, d.off) == q;
      }
    }
  }

  lemma RowOfChunk(kept: seq<Row>, r: Row, dir: nat, n: nat, size: nat)
    ensures var c := ChunkOf(kept, r, dir, n, size); Row(c.cx, c.cy, c.off) == r
  {
  }

  /** Whole creature slots after the last chunk give the size away: never do both sizes leave such a gap. */
  lemma SizeFromGap(rows: seq<Row>, dir: nat, version: int, n: nat, last: nat, size: nat, slots: nat)
    requires version < 5 && MaxOff(rows, dir) == Some(last) && (size == SHORT || size == TALL)
    requires dir == last + size + 60 * slots && slots <= 400
    ensures DetectSize(rows, dir, version, n) == size
  {
    hide MaxOff, Fallback;
    assert (TALL - SHORT) % 60 == 24;
  }

  /** A voxel's bytes are read from its own chunk's span, and from nowhere else in the file: the bytes
      outside that span do not matter to it. */
  lemma ReadsStayInside(b: seq<byte>, a: seq<byte>, c: Chunk, lx: int, ly: int, z: int)
    requires c.off <= c.end <= |b| && c.end <= |a| && a[c.off..c.end] == b[c.off..c.end]
    ensures BlockAt(a, c, lx, ly, z) == BlockAt(b, c, lx, ly, z) && PaintAt(a, c, lx, ly, z) == PaintAt(b, c, lx, ly, z)
  {
    SameByte(b, a, c, TypeOffset(lx, ly, z));
    SameByte(b, a, c, TypeOffset(lx, ly, z) + 4096);
  }

  lemma SameByte(b: seq<byte>, a: seq<byte>, c: Chunk, o: int)
    requires c.off <= c.end <= |b| && c.end <= |a| && a[c.off..c.end] == b[c.off..c.end]
    ensures o >= 0 ==> ByteIn(a, c, o) == ByteIn(b, c, o)
  {
    if 0 <= o < c.end - c.off { assert a[c.off..c.end][o] == b[c.off..c.end][o]; }
  }

  // --- the reader, step by step -----------------------------------------------------------------------

  method GateRows(rows: seq<Row>) returns (valid: nat, gated: seq<Row>)
    ensures valid == LastValid(rows) && gated == OnlyGated(rows[..valid])
  {
    valid := |rows|;
    assert rows[..|rows|] == rows;
    while valid > 0 && !Gated(rows[valid - 1])
      invariant valid <= |rows| && LastValid(rows[..valid]) == LastValid(rows)
    {
      assert rows[..valid][..valid - 1] == rows[..valid - 1];
      valid := valid - 1;
    }
    gated := [];
    for i := 0 to valid
      invariant gated == OnlyGated(rows[..i])
    {
      assert rows[..i + 1][..i] == rows[..i];
      if Gated(rows[i]) { gated := gated + [rows[i]]; }
    }
  }

  predicate Rising(s: seq<nat>) { forall i, j :: 0 <= i < j < |s| ==> s[i] < s[j] }

  /** Sorted, each value once. */
  method SortedUnique(offs: seq<nat>) returns (r: seq<nat>)
    ensures Rising(r) && forall x :: x in r <==> x in offs
  {
    r := [];
    for i := 0 to |offs|
      invariant Rising(r) && forall x :: x in r <==> x in offs[..i]
    {
      assert offs[..i + 1] == offs[..i] + [offs[i]];
      r := Insert(r, offs[i]);
    }
    assert offs[..|offs|] == offs;
  }

  method Insert(s: seq<nat>, v: nat) returns (r: seq<nat>)
    requires Rising(s)
    ensures Rising(r) && forall x :: x in r <==> x in s || x == v
  {
    var k := 0;
    while k < |s| && s[k] < v
      invariant k <= |s| && forall i :: 0 <= i < k ==> s[i] < v
    {
      k := k + 1;
    }
    if k < |s| && s[k] == v { return s; }
    Inserted(s, k, v);
    r := s[..k] + [v] + s[k..];
  }

  lemma Inserted(s: seq<nat>, k: nat, v: nat)
    requires Rising(s) && k <= |s| && (forall i :: 0 <= i < k ==> s[i] < v) && (k < |s| ==> v < s[k])
    ensures var r := s[..k] + [v] + s[k..]; Rising(r) && forall x :: x in r <==> x in s || x == v
  {
    assert s == s[..k] + s[k..];
    var r := s[..k] + [v] + s[k..];
    forall i, j | 0 <= i < j < |r|
      ensures r[i] < r[j]
    {
      assert k < |s| && j > k ==> s[k] <= s[j - 1];
    }
  }

  method MaxOffset(rows: seq<Row>, dir: nat) returns (m: Option<nat>)
    ensures m == MaxOff(rows, dir)
  {
    m := None;
    for i := 0 to |rows|
      invariant m == MaxOff(rows[..i], dir)
    {
      assert rows[..i + 1][..i] == rows[..i];
      var r := rows[i];
      if HEADER_BYTES <= r.off < dir && (m.None? || m.value < r.off) { m := Some(r.off); }
    }
    assert rows[..|rows|] == rows;
  }

  lemma {:induction false} RisingSize(s: seq<nat>, offs: set<nat>)
    requires Rising(s) && forall x :: x in s <==> x in offs
    ensures |s| == |offs|
  {
    if s == [] {
      assert offs == {};
    } else {
      var last := s[|s| - 1];
      assert last in s;
      assert s == s[..|s| - 1] + [last];
      assert forall i :: 0 <= i < |s| - 1 ==> s[i] < last;
      RisingSize(s[..|s| - 1], offs - {last});
    }
  }

  /** In a rising list the closest two values are neighbours. */
  lemma NeighboursApart(s: seq<nat>, gap: nat, i: nat, j: nat)
    requires Rising(s) && i < j < |s| && forall k :: 1 <= k < |s| ==> s[k] - s[k - 1] >= gap
    ensures s[j] - s[i] >= gap
  {
    assert s[j] - s[j - 1] >= gap && s[i] <= s[j - 1];
  }

  lemma InOrder(s: seq<nat>, i: nat, j: nat)
    requires Rising(s) && i < |s| && j < |s| && s[i] < s[j]
    ensures i < j
  {
  }

  method MeasureGaps(rows: seq<Row>, dir: nat, n: nat) returns (size: nat)
    ensures size == Fallback(Offsets(rows, dir, n), dir)
  {
    var found: seq<nat> := [];
    for i := 0 to |rows|
      invariant forall x :: x in found <==> x in Offsets(rows[..i], dir, n)
    {
      assert rows[..i + 1] == rows[..i] + [rows[i]];
      var o := rows[i].off;
      if HEADER_BYTES <= o < n && o < dir { found := found + [o]; }
    }
    assert rows[..|rows|] == rows;
    var offs := SortedUnique(found);
    ghost var all := Offsets(rows, dir, n);
    RisingSize(offs, all);
    hide Offsets;
    if |offs| < 2 {
      if offs != [] {
        assert offs[0] in offs && forall o :: o in all ==> o == offs[0];
        return if dir - offs[0] >= TALL then TALL else SHORT;
      }
      return SHORT;
    }
    hide Rising, FarApart;
    var minGap := LeastGap(offs);
    GapDecides(offs, all, minGap);
    size := if minGap >= TALL then TALL else SHORT;
  }

  method LeastGap(offs: seq<int>) returns (minGap: int)
    requires |offs| >= 2
    ensures forall k :: 1 <= k < |offs| ==> offs[k] - offs[k - 1] >= minGap
    ensures exists k :: 1 <= k < |offs| && offs[k] - offs[k - 1] == minGap
  {
    minGap := offs[1] - offs[0];
    for i := 1 to |offs|
      invariant forall k :: 1 <= k < i ==> offs[k] - offs[k - 1] >= minGap
      invariant exists k :: 1 <= k < |offs| && offs[k] - offs[k - 1] == minGap
    {
      if offs[i] - offs[i - 1] < minGap { minGap := offs[i] - offs[i - 1]; }
    }
  }

  lemma GapDecides(offs: seq<nat>, all: set<nat>, minGap: int)
    requires Rising(offs) && forall x :: x in offs <==> x in all
    requires forall k :: 1 <= k < |offs| ==> offs[k] - offs[k - 1] >= minGap
    requires exists k :: 1 <= k < |offs| && offs[k] - offs[k - 1] == minGap
    ensures FarApart(all) <==> minGap >= TALL
  {
    var k :| 1 <= k < |offs| && offs[k] - offs[k - 1] == minGap;
    assert offs[k] in offs && offs[k - 1] in offs && offs[k - 1] < offs[k];
    if minGap >= TALL {
      hide Rising;
      forall a, b | a in all && b in all && a < b
        ensures b - a >= TALL
      {
        var i :| 0 <= i < |offs| && offs[i] == a;
        var j :| 0 <= j < |offs| && offs[j] == b;
        InOrder(offs, i, j);
        NeighboursApart(offs, minGap, i, j);
      }
    }
  }

  method DetectChunkSize(rows: seq<Row>, dir: nat, version: int, n: nat) returns (size: nat)
    ensures size == DetectSize(rows, dir, version, n)
  {
    if version >= 5 { return TALL; }
    var m := MaxOffset(rows, dir);
    if m.Some? {
      var a, b := GapFits(dir, m.value, TALL), GapFits(dir, m.value, SHORT);
      if a && !b { return TALL; }
      if b && !a { return SHORT; }
    }
    size := MeasureGaps(rows, dir, n);
  }

  method KeepRows(rows: seq<Row>, dir: nat, n: nat, size: nat) returns (kept: seq<Row>)
    ensures kept == OnlyAddressable(rows, dir, n, size)
  {
    kept := [];
    for i := 0 to |rows|
      invariant kept == OnlyAddressable(rows[..i], dir, n, size)
    {
      assert rows[..i + 1][..i] == rows[..i];
      if Addressable(rows[i], dir, n, size) { kept := kept + [rows[i]]; }
    }
    assert rows[..|rows|] == rows;
  }

  /** The first start past an offset. */
  method UpperBound(starts: seq<nat>, off: nat) returns (k: nat)
    requires Rising(starts)
    ensures k <= |starts| && (forall i :: 0 <= i < k ==> starts[i] <= off) && forall i :: k <= i < |starts| ==> starts[i] > off
  {
    var lo, hi: nat := 0, |starts|;
    while lo < hi
      invariant lo <= hi <= |starts|
      invariant (forall i :: 0 <= i < lo ==> starts[i] <= off) && forall i :: hi <= i < |starts| ==> starts[i] > off
    {
      var mid := (lo + hi) / 2;
      if starts[mid] <= off { lo := mid + 1; } else { hi := mid; }
    }
    k := lo;
  }

  lemma NextIs(rows: seq<Row>, starts: seq<nat>, off: nat, n: nat, k: nat)
    requires Rising(starts) && (forall x :: x in starts <==> exists r :: r in rows && r.off == x)
    requires k <= |starts| && (forall i :: 0 <= i < k ==> starts[i] <= off) && forall i :: k <= i < |starts| ==> starts[i] > off
    requires forall r :: r in rows ==> r.off < n
    ensures NextStart(rows, off, n) == if k == |starts| then n else starts[k]
  {
    var m := NextStart(rows, off, n);
    if k < |starts| { assert starts[k] in starts; }
    if m < n {
      var r :| r in rows && r.off == m;
      assert m in starts;
      var i :| 0 <= i < |starts| && starts[i] == m;
      assert k <= i;
    }
  }

  method MakeChunks(kept: seq<Row>, dir: nat, n: nat, size: nat) returns (cs: seq<Chunk>)
    requires forall r :: r in kept ==> r.off < n
    ensures cs == Chunks(kept, kept, dir, n, size)
  {
    hide ChunkOf, NextStart, Rising;
    var starts := Starts(kept);
    cs := [];
    for i := 0 to |kept|
      invariant |cs| == i && forall j :: 0 <= j < i ==> cs[j] == ChunkOf(kept, kept[j], dir, n, size)
    {
      var r := kept[i];
      var k := UpperBound(starts, r.off);
      NextIs(kept, starts, r.off, n, k);
      var next := if k == |starts| then n else starts[k];
      var barrier := Least(next, dir);
      var span := if barrier > r.off then Least(size, barrier - r.off) else 0;
      ChunkIs(kept, r, dir, n, size, next);
      cs := cs + [Chunk(r.cx, r.cy, r.off, r.off + span)];
    }
  }

  method Starts(kept: seq<Row>) returns (starts: seq<nat>)
    ensures Rising(starts) && forall x :: x in starts <==> exists r :: r in kept && r.off == x
  {
    var offs := seq(|kept|, i requires 0 <= i < |kept| => kept[i].off);
    OffsAre(kept, offs);
    starts := SortedUnique(offs);
  }

  lemma ChunkIs(kept: seq<Row>, r: Row, dir: nat, n: nat, size: nat, next: nat)
    requires next == NextStart(kept, r.off, n)
    ensures var barrier := Least(next, dir);
      ChunkOf(kept, r, dir, n, size) == Chunk(r.cx, r.cy, r.off, r.off + if barrier > r.off then Least(size, barrier - r.off) else 0)
  {
  }

  lemma OffsAre(kept: seq<Row>, offs: seq<nat>)
    requires |offs| == |kept| && forall i :: 0 <= i < |kept| ==> offs[i] == kept[i].off
    ensures forall x :: x in offs <==> exists r :: r in kept && r.off == x
  {
    forall x
      ensures x in offs <==> exists r :: r in kept && r.off == x
    {
      if x in offs {
        var i :| 0 <= i < |offs| && offs[i] == x;
        assert kept[i] in kept;
      }
      if exists r :: r in kept && r.off == x {
        var r :| r in kept && r.off == x;
        var i :| 0 <= i < |kept| && kept[i] == r;
        assert offs[i] == x;
      }
    }
  }

  method ParseWorld(b: seq<byte>) returns (r: Loaded)
    ensures r == Parse(b)
  {
    if |b| < HEADER_BYTES { return TooShort; }
    var h := ReadHeader(b);
    hide ReadHeader, Directory, OnlyGated, LastValid, DetectSize, ReadInline, Chunks;
    if h.dirOffset < HEADER_BYTES || h.dirOffset >= |b| { return BadDirectory; }
    var rows, truncated := DecodeDirectory(b, h.dirOffset);
    DirectoryFits(b, h.dirOffset, MAX_DIR);
    var valid, gated := GateRows(rows);
    var trailer := TrailerOf(b, h.dirOffset, valid, |rows|);
    var size := DetectChunkSize(gated, h.dirOffset, h.version as int, |b|);
    var kept := KeepRows(gated, h.dirOffset, |b|, size);
    AddressableIs(gated, h.dirOffset, |b|, size);
    hide OnlyAddressable;
    if kept == [] { return NoChunk; }
    var chunks := MakeChunks(kept, h.dirOffset, |b|, size);
    var signs := ParseInline(trailer);
    return Good(World(b, h, size, chunks, trailer, signs, truncated));
  }

  method LoadWorld(inflate: Inflate, raw: seq<byte>, most: nat) returns (r: Loaded)
    ensures r == Load(inflate, raw, most)
  {
    hide Unzip, Parse;
    if !IsZip(raw) {
      r := ParseWorld(raw);
      return;
    }
    var u := UnzipWorld(inflate, raw, most);
    match u {
      case Data(d) => r := ParseWorld(d);
      case why => r := BadZip(why);
    }
  }
}
