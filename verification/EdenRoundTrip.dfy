/**
 A world written to a file, loaded and scanned again: the reader finds the header, the chunk size and
 the chunks that were written, and the scan gives back what every cell looks like.
 */
module EdenRoundTrip {
  import opened BaseProfile
  import opened BlockRules
  import opened ByteStrings
  import opened EdenExport
  import opened EdenFile
  import EdenImport
  import opened EdenSigns
  import opened EdenZip
  import SignStore
  import opened SnapzCodec
  import opened Voxels

  // --- the header -------------------------------------------------------------------------------------

  lemma {:induction false} StartFields(opt: Options, dir: nat)
    requires opt.Valid() && dir < 0x1_0000_0000_0000_0000
    ensures var h := HeaderStart(opt, dir);
      && h[0..4] == LeBytes(opt.seed) && h[4..16] == opt.pos && h[16..28] == opt.home && h[28..32] == opt.yaw && Un(h[32..40]) == dir
  {
    Spans();
    UnLe(dir, 8);
    hide LeBytes, Le, Un;
    var h := HeaderStart(opt, dir);
    assert h[32..40] == Le(dir, 8);
  }

  lemma {:induction false} EndFields(opt: Options, ceiling: int)
    requires opt.Valid()
    ensures var h := HeaderEnd(opt, ceiling);
      h[0..50] == NameField(opt.name) && h[52..56] == LeBytes(VersionFor(opt.version, ceiling)) && h[92..108] == opt.sky
  {
    hide LeBytes, NameField, VersionFor;
  }

  /** Every header field reads back as it was written; a name is cut to leave a zero. */
  lemma {:induction false} HeaderReads(f: seq<byte>, opt: Options, ceiling: int, dir: nat)
    requires opt.Valid() && dir < 0x1_0000_0000_0000_0000 && |f| >= HEADER_BYTES && f[..HEADER_BYTES] == HeaderOf(opt, ceiling, dir)
    ensures ReadHeader(f) ==
      Header(opt.seed, opt.pos, opt.home, opt.yaw, dir, TextOf(NameField(opt.name)), VersionFor(opt.version, ceiling), opt.sky)
  {
    var a, b := HeaderStart(opt, dir), HeaderEnd(opt, ceiling);
    var h, rest := HeaderOf(opt, ceiling, dir), f[HEADER_BYTES..];
    assert f == h + rest;
    StartFields(opt, dir);
    EndFields(opt, ceiling);
    LeRoundTrip(opt.seed);
    LeRoundTrip(VersionFor(opt.version, ceiling));
    hide HeaderStart, HeaderEnd, LeBytes, LeInt, Le, Un, TextOf, NameField, VersionFor, HeaderOf;
    assert h == a + b by { HeaderParts(opt, ceiling, dir); }
    HeaderSlice(a, b, rest, 0, 4);
    HeaderSlice(a, b, rest, 4, 16);
    HeaderSlice(a, b, rest, 16, 28);
    HeaderSlice(a, b, rest, 28, 32);
    HeaderSlice(a, b, rest, 32, 40);
    HeaderSliceEnd(a, b, rest, 0, 50);
    HeaderSliceEnd(a, b, rest, 52, 56);
    HeaderSliceEnd(a, b, rest, 92, 108);
  }

  lemma {:induction false} HeaderParts(opt: Options, ceiling: int, dir: nat)
    requires opt.Valid()
    ensures HeaderOf(opt, ceiling, dir) == HeaderStart(opt, dir) + HeaderEnd(opt, ceiling)
  {
  }

  lemma {:induction false} HeaderSlice(a: seq<byte>, b: seq<byte>, rest: seq<byte>, i: nat, j: nat)
    requires i <= j <= |a|
    ensures (a + b + rest)[i..j] == a[i..j]
  {
  }

  lemma {:induction false} HeaderSliceEnd(a: seq<byte>, b: seq<byte>, rest: seq<byte>, i: nat, j: nat)
    requires i <= j <= |b|
    ensures (a + b + rest)[|a| + i..|a| + j] == b[i..j]
  {
  }

  // --- the directory ----------------------------------------------------------------------------------

  function RowsOf(keys: seq<ChunkKey>, size: nat): (r: seq<Row>)
    ensures |r| == |keys| && forall i :: 0 <= i < |keys| ==> r[i] == Row(keys[i].cx, keys[i].cy, ChunkOff(i, size))
  {
    seq(|keys|, i requires 0 <= i < |keys| => Row(keys[i].cx, keys[i].cy, ChunkOff(i, size)))
  }

  lemma {:induction false} DirBytesAt(keys: seq<ChunkKey>, size: nat, k: nat)
    requires Listed(keys) && k < |keys|
    ensures SignStore.FitsInt(keys[k].cx) && SignStore.FitsInt(keys[k].cy)
    ensures DirBytes(keys, size)[DIR_ENTRY * k..DIR_ENTRY * k + DIR_ENTRY] == RowBytes(keys[k], ChunkOff(k, size))
  {
    hide RowBytes;
    var d, init := DirBytes(keys, size), keys[..|keys| - 1];
    if k < |keys| - 1 {
      DirBytesAt(init, size, k);
      assert d[DIR_ENTRY * k..DIR_ENTRY * k + DIR_ENTRY] == DirBytes(init, size)[DIR_ENTRY * k..DIR_ENTRY * k + DIR_ENTRY];
    }
  }

  lemma {:induction false} RowReads(b: seq<byte>, i: nat, k: ChunkKey, off: nat)
    requires i + DIR_ENTRY <= |b| && SignStore.FitsInt(k.cx) && SignStore.FitsInt(k.cy) && off < 0x1_0000_0000_0000_0000
    requires b[i..i + DIR_ENTRY] == RowBytes(k, off)
    ensures RowAt(b, i) == Row(k.cx, k.cy, off)
  {
    Spans();
    UnLe(off, 8);
    LeRoundTrip(k.cx as int32);
    LeRoundTrip(k.cy as int32);
    hide LeBytes, LeInt, Le, Un;
    RowParts(LeBytes(k.cx as int32), LeBytes(k.cy as int32), Le(off, 8));
    Within(b, i, i + DIR_ENTRY, 0, 4);
    Within(b, i, i + DIR_ENTRY, 4, 8);
    Within(b, i, i + DIR_ENTRY, 8, 16);
  }

  lemma {:induction false} RowParts(a: seq<byte>, b: seq<byte>, c: seq<byte>)
    requires |a| == |b| == 4 && |c| == 8
    ensures var r := a + b + c; r[0..4] == a && r[4..8] == b && r[8..16] == c
  {
  }

  lemma {:induction false} Within(b: seq<byte>, i: nat, j: nat, p: nat, q: nat)
    requires p <= q && i + q <= j <= |b|
    ensures b[i..j][p..q] == b[i + p..i + q]
  {
    var s, t := b[i..j][p..q], b[i + p..i + q];
    assert |s| == |t| && forall k :: 0 <= k < |s| ==> s[k] == t[k];
  }

  predicate RowIs(b: seq<byte>, i: nat, k: nat, r: Row) {
    i + DIR_ENTRY * k + DIR_ENTRY <= |b| && RowAt(b, i + DIR_ENTRY * k) == r
  }

  /** A directory that starts with these rows reads as these rows and what comes after. */
  lemma {:induction false} DirectoryIs(b: seq<byte>, i: nat, most: nat, rows: seq<Row>)
    requires |rows| <= most && forall k :: 0 <= k < |rows| ==> RowIs(b, i, k, rows[k])
    ensures Directory(b, i, most) == rows + Directory(b, i + DIR_ENTRY * |rows|, most - |rows|)
    decreases |rows|
  {
    hide RowAt;
    if rows == [] {
      assert rows + Directory(b, i, most) == Directory(b, i, most);
    } else {
      assert RowIs(b, i, 0, rows[0]);
      forall k | 0 <= k < |rows| - 1
        ensures RowIs(b, i + DIR_ENTRY, k, rows[1..][k])
      {
        assert RowIs(b, i, k + 1, rows[k + 1]);
      }
      DirectoryIs(b, i + DIR_ENTRY, most - 1, rows[1..]);
      assert [rows[0]] + (rows[1..] + Directory(b, i + DIR_ENTRY * |rows|, most - |rows|))
          == rows + Directory(b, i + DIR_ENTRY * |rows|, most - |rows|);
    }
  }

  predicate TaggedAt(b: seq<byte>, j: nat) { j + 4 <= |b| && b[j..j + 4] == TAG }

  /** Rows tagged as signs are no chunk rows. */
  lemma {:induction false} TaggedRows(b: seq<byte>, i: nat, n: nat, most: nat)
    requires |b| == i + DIR_ENTRY * n && n <= most
    requires forall k :: 0 <= k < n ==> TaggedAt(b, i + DIR_ENTRY * k)
    ensures |Directory(b, i, most)| == n && forall k :: 0 <= k < n ==> !Gated(Directory(b, i, most)[k])
    decreases n
  {
    hide LeInt;
    if n > 0 {
      assert TaggedAt(b, i + DIR_ENTRY * 0);
      assert LeInt(TAG) == -1 by { TagIsMinusOne(); }
      forall k | 0 <= k < n - 1
        ensures TaggedAt(b, i + DIR_ENTRY + DIR_ENTRY * k)
      {
        assert TaggedAt(b, i + DIR_ENTRY * (k + 1));
      }
      TaggedRows(b, i + DIR_ENTRY, n - 1, most - 1);
    }
  }

  lemma {:induction false} TagIsMinusOne()
    ensures LeInt(TAG) == -1
  {
  }

  lemma {:induction false} LastValidIs(rows: seq<Row>, tail: seq<Row>)
    requires (forall i :: 0 <= i < |rows| ==> Gated(rows[i])) && forall i :: 0 <= i < |tail| ==> !Gated(tail[i])
    ensures LastValid(rows + tail) == |rows| && (rows + tail)[..|rows|] == rows && OnlyGated(rows) == rows
  {
    var all := rows + tail;
    assert forall i :: |rows| <= i < |all| ==> all[i] == tail[i - |rows|];
    assert forall i :: 0 <= i < |rows| ==> all[i] == rows[i];
    AllGated(rows);
    if rows != [] { assert Gated(all[|rows| - 1]); }
    hide LastValid, Gated;
    LastValidAt(all, |rows|);
  }

  lemma {:induction false} LastValidAt(rows: seq<Row>, n: nat)
    requires n <= |rows| && (n > 0 ==> Gated(rows[n - 1])) && forall i :: n <= i < |rows| ==> !Gated(rows[i])
    ensures LastValid(rows) == n
  {
    hide Gated;
    var k := LastValid(rows);
    assert !(k < n);
  }

  lemma {:induction false} AllGated(rows: seq<Row>)
    requires forall i :: 0 <= i < |rows| ==> Gated(rows[i])
    ensures OnlyGated(rows) == rows
  {
    if rows != [] {
      AllGated(rows[..|rows| - 1]);
      assert rows == rows[..|rows| - 1] + [rows[|rows| - 1]];
    }
  }

  // --- chunk size and spans -----------------------------------------------------------------------------

  lemma {:induction false} OffsRise(i: nat, j: nat, size: nat)
    requires i <= j
    ensures ChunkOff(i, size) <= ChunkOff(j, size) && ChunkOff(i + 1, size) == ChunkOff(i, size) + size
    ensures i < j ==> ChunkOff(i, size) + size <= ChunkOff(j, size)
  {
    if i < j { assert (i + 1) * size <= j * size; } else { assert i * size == j * size; }
    assert (i + 1) * size == i * size + size;
  }

  lemma {:induction false} MaxOffIs(keys: seq<ChunkKey>, size: nat)
    requires keys != [] && size > 0
    ensures MaxOff(RowsOf(keys, size), ChunkOff(|keys|, size)) == Some(ChunkOff(|keys| - 1, size))
  {
    var rows, dir := RowsOf(keys, size), ChunkOff(|keys|, size);
    var last := |keys| - 1;
    OffsRise(last, |keys|, size);
    forall i | 0 <= i < |keys|
      ensures HEADER_BYTES <= rows[i].off <= ChunkOff(last, size)
    {
      OffsRise(i, last, size);
    }
    hide ChunkOff;
    assert rows[last] in rows;
    var m := MaxOff(rows, dir);
    assert m.Some?;
    hide MaxOff;
    var r :| r in rows && r.off == m.value;
  }

  /** The reader always finds the chunk size that was written. */
  lemma {:induction false} SizeFound(keys: seq<ChunkKey>, ceiling: int, replay: Option<int32>, n: nat)
    requires keys != [] && (ceiling == 63 || ceiling == 255)
    ensures DetectSize(RowsOf(keys, SizeFor(ceiling)), ChunkOff(|keys|, SizeFor(ceiling)), VersionFor(replay, ceiling) as int, n)
         == SizeFor(ceiling)
  {
    VersionTells(replay, ceiling);
    if ceiling == 63 {
      MaxOffIs(keys, SHORT);
      OffsRise(|keys| - 1, |keys|, SHORT);
      hide ChunkOff, MaxOff, VersionFor, Fallback;
    } else {
      hide VersionFor;
    }
  }

  lemma {:induction false} AllAddressable(rows: seq<Row>, dir: nat, n: nat, size: nat)
    requires forall i :: 0 <= i < |rows| ==> Addressable(rows[i], dir, n, size)
    ensures OnlyAddressable(rows, dir, n, size) == rows
  {
    if rows != [] {
      AllAddressable(rows[..|rows| - 1], dir, n, size);
      assert rows == rows[..|rows| - 1] + [rows[|rows| - 1]];
    }
  }

  function ChunksOf(keys: seq<ChunkKey>, size: nat): (cs: seq<Chunk>)
    ensures |cs| == |keys|
    ensures forall i :: 0 <= i < |keys| ==> cs[i] == Chunk(keys[i].cx, keys[i].cy, ChunkOff(i, size), ChunkOff(i + 1, size))
  {
    seq(|keys|, i requires 0 <= i < |keys| => Chunk(keys[i].cx, keys[i].cy, ChunkOff(i, size), ChunkOff(i + 1, size)))
  }

  lemma {:induction false} SpanIs(keys: seq<ChunkKey>, size: nat, n: nat, i: nat)
    requires i < |keys| && size > 0 && n >= ChunkOff(|keys|, size)
    ensures var rows := RowsOf(keys, size);
      ChunkOf(rows, rows[i], ChunkOff(|keys|, size), n, size)
        == Chunk(keys[i].cx, keys[i].cy, ChunkOff(i, size), ChunkOff(i + 1, size))
  {
    hide ChunkOff, NextStart;
    var rows := RowsOf(keys, size);
    var off := ChunkOff(i, size);
    var m := NextStart(rows, off, n);
    OffsRise(i, |keys|, size);
    if i + 1 < |keys| {
      OffsRise(i + 1, |keys|, size);
      assert rows[i + 1] in rows;
    }
    if m < n {
      var r :| r in rows && r.off == m;
      var j :| 0 <= j < |keys| && rows[j] == r;
      if j <= i { OffsRise(j, i, size); } else { OffsRise(i + 1, j, size); }
    }
  }

  lemma {:induction false} ChunksFound(keys: seq<ChunkKey>, size: nat, n: nat)
    requires size > 0 && n >= ChunkOff(|keys|, size)
    ensures var rows, dir := RowsOf(keys, size), ChunkOff(|keys|, size);
      OnlyAddressable(rows, dir, n, size) == rows && Chunks(rows, rows, dir, n, size) == ChunksOf(keys, size)
  {
    var rows, dir := RowsOf(keys, size), ChunkOff(|keys|, size);
    forall i | 0 <= i < |keys|
      ensures Addressable(rows[i], dir, n, size)
      ensures ChunkOf(rows, rows[i], dir, n, size) == ChunksOf(keys, size)[i]
    {
      OffsRise(i, |keys|, size);
      SpanIs(keys, size, n, i);
    }
    hide ChunkOff, ChunkOf;
    AllAddressable(rows, dir, n, size);
  }

  // --- the whole file -------------------------------------------------------------------------------------

  /** What follows the directory: nothing, or rows tagged as signs that a reader has room for. */
  ghost predicate TrailerOk(trailer: seq<byte>, keys: nat) {
    && (exists n: nat :: RowsTaggedAll(trailer, n)) && |trailer| <= MAX_TRAILER && keys + |trailer| / DIR_ENTRY <= MAX_DIR
  }

  predicate RowsTaggedAll(t: seq<byte>, n: nat) { |t| == DIR_ENTRY * n && forall k :: 0 <= k < n ==> TaggedAt(t, DIR_ENTRY * k) }

  lemma {:induction false} TrailerTagged(recs: seq<EdenSign>)
    requires recs != []
    ensures RowsTaggedAll(Trailer(recs), RowCount(recs))
  {
    PayloadIs(recs);
    forall k | 0 <= k < RowCount(recs)
      ensures TaggedAt(Trailer(recs), DIR_ENTRY * k)
    {
      RowsTagged(Payload(recs), RowCount(recs), k);
    }
  }

  lemma {:induction false} DirRowIs(f: seq<byte>, keys: seq<ChunkKey>, size: nat, trailer: seq<byte>, k: nat)
    requires Listed(keys) && k < |keys| && ChunkOff(|keys|, size) < 0x1_0000_0000_0000_0000
    requires ChunkOff(|keys|, size) <= |f| && f[ChunkOff(|keys|, size)..] == DirBytes(keys, size) + trailer
    ensures RowIs(f, ChunkOff(|keys|, size), k, Row(keys[k].cx, keys[k].cy, ChunkOff(k, size)))
  {
    var dir := ChunkOff(|keys|, size);
    OffsRise(k, |keys|, size);
    DirBytesAt(keys, size, k);
    hide ChunkOff, DirBytes, RowAt, RowBytes, Listed;
    DirSlice(f, dir, DirBytes(keys, size), trailer, DIR_ENTRY * k);
    RowReads(f, dir + DIR_ENTRY * k, keys[k], ChunkOff(k, size));
  }

  lemma {:induction false} DirRowsAre(f: seq<byte>, keys: seq<ChunkKey>, size: nat, trailer: seq<byte>)
    requires Listed(keys) && ChunkOff(|keys|, size) < 0x1_0000_0000_0000_0000
    requires ChunkOff(|keys|, size) <= |f| && f[ChunkOff(|keys|, size)..] == DirBytes(keys, size) + trailer
    ensures forall k :: 0 <= k < |keys| ==> RowIs(f, ChunkOff(|keys|, size), k, RowsOf(keys, size)[k])
    ensures forall k :: 0 <= k < |keys| ==> Gated(RowsOf(keys, size)[k])
  {
    forall k | 0 <= k < |keys|
      ensures RowIs(f, ChunkOff(|keys|, size), k, RowsOf(keys, size)[k])
    {
      DirRowIs(f, keys, size, trailer, k);
    }
    hide RowIs, ChunkOff, DirBytes;
  }

  lemma {:induction false} TailRowsAre(f: seq<byte>, at: nat, trailer: seq<byte>, n: nat)
    requires at <= |f| && f[at..] == trailer && RowsTaggedAll(trailer, n)
    ensures |f| == at + DIR_ENTRY * n && forall k :: 0 <= k < n ==> TaggedAt(f, at + DIR_ENTRY * k)
  {
    forall k | 0 <= k < n
      ensures TaggedAt(f, at + DIR_ENTRY * k)
    {
      assert TaggedAt(trailer, DIR_ENTRY * k);
      TailSlice(f, at, trailer, DIR_ENTRY * k);
    }
  }

  /** The directory of a written file: its chunks' rows, then rows no chunk is read from. */
  lemma {:induction false} DirectoryParts(f: seq<byte>, keys: seq<ChunkKey>, size: nat, trailer: seq<byte>, n: nat) returns (tail: seq<Row>)
    requires Listed(keys) && ChunkOff(|keys|, size) < 0x1_0000_0000_0000_0000 && |keys| + n <= MAX_DIR
    requires ChunkOff(|keys|, size) <= |f| && f[ChunkOff(|keys|, size)..] == DirBytes(keys, size) + trailer && RowsTaggedAll(trailer, n)
    ensures Directory(f, ChunkOff(|keys|, size), MAX_DIR) == RowsOf(keys, size) + tail
    ensures |tail| == n && forall k :: 0 <= k < n ==> !Gated(tail[k])
    ensures forall k :: 0 <= k < |keys| ==> Gated(RowsOf(keys, size)[k])
  {
    hide ChunkOff, Directory, DirBytes, RowIs, Gated, Listed, TaggedAt, RowsTaggedAll, RowsOf;
    var dir := ChunkOff(|keys|, size);
    var t := dir + DIR_ENTRY * |keys|;
    DirRowsAre(f, keys, size, trailer);
    DirTail(f, dir, DirBytes(keys, size), trailer);
    TailRowsAre(f, t, trailer, n);
    DirectoryIs(f, dir, MAX_DIR, RowsOf(keys, size));
    TaggedRows(f, t, n, MAX_DIR - |keys|);
    tail := Directory(f, t, MAX_DIR - |keys|);
  }

  lemma {:induction false} DirectoryFound(f: seq<byte>, keys: seq<ChunkKey>, size: nat, trailer: seq<byte>)
    requires Listed(keys) && ChunkOff(|keys|, size) < 0x1_0000_0000_0000_0000
    requires ChunkOff(|keys|, size) <= |f| && f[ChunkOff(|keys|, size)..] == DirBytes(keys, size) + trailer && TrailerOk(trailer, |keys|)
    ensures var rows := Directory(f, ChunkOff(|keys|, size), MAX_DIR);
      && |rows| == |keys| + |trailer| / DIR_ENTRY && LastValid(rows) == |keys|
      && OnlyGated(rows[..|keys|]) == RowsOf(keys, size) && |trailer| % DIR_ENTRY == 0
  {
    var n: nat :| RowsTaggedAll(trailer, n);
    assert |trailer| == DIR_ENTRY * n;
    hide ChunkOff, Directory, DirBytes, Gated, LastValid, OnlyGated, Listed, RowsTaggedAll, RowsOf;
    var tail := DirectoryParts(f, keys, size, trailer, n);
    LastValidIs(RowsOf(keys, size), tail);
  }

  lemma {:induction false} DirSlice(f: seq<byte>, dir: nat, d: seq<byte>, t: seq<byte>, k: nat)
    requires dir <= |f| && f[dir..] == d + t && k + DIR_ENTRY <= |d|
    ensures dir + k + DIR_ENTRY <= |f| && f[dir + k..dir + k + DIR_ENTRY] == d[k..k + DIR_ENTRY]
  {
    assert f[dir + k..dir + k + DIR_ENTRY] == f[dir..][k..k + DIR_ENTRY];
  }

  lemma {:induction false} DirTail(f: seq<byte>, dir: nat, d: seq<byte>, t: seq<byte>)
    requires dir <= |f| && f[dir..] == d + t
    ensures dir + |d| <= |f| && f[dir + |d|..] == t
  {
    assert f[dir + |d|..] == f[dir..][|d|..];
  }

  lemma {:induction false} TailSlice(f: seq<byte>, at: nat, t: seq<byte>, k: nat)
    requires at <= |f| && f[at..] == t && k + 4 <= |t|
    ensures at + k + 4 <= |f| && f[at + k..at + k + 4] == t[k..k + 4]
  {
    assert f[at + k..at + k + 4] == f[at..][k..k + 4];
  }

  /** What a reader should make of the header. */
  function HeaderFor(opt: Options, ceiling: int, dir: nat): Header {
    Header(opt.seed, opt.pos, opt.home, opt.yaw, dir, TextOf(NameField(opt.name)), VersionFor(opt.version, ceiling), opt.sky)
  }

  /** What a reader should make of a written file. */
  function WorldFor(f: seq<byte>, keys: seq<ChunkKey>, ceiling: int, opt: Options, trailer: seq<byte>): World
    requires ceiling == 63 || ceiling == 255
  {
    var size := SizeFor(ceiling);
    World(f, HeaderFor(opt, ceiling, ChunkOff(|keys|, size)), size, ChunksOf(keys, size), trailer, ReadInline(trailer), false)
  }

  /** A written file is read back with the chunk size it was written with, exactly its chunks, each
      with its whole span, its header and its signs. */
  lemma {:induction false} FileReads(f: seq<byte>, keys: seq<ChunkKey>, ceiling: int, opt: Options, cells: Cells, trailer: seq<byte>)
    requires opt.Valid() && (ceiling == 63 || ceiling == 255) && IsWorldFile(f, keys, ceiling, opt, cells, trailer)
    requires TrailerOk(trailer, |keys|) && |f| <= opt.maxBytes
    ensures Parse(f) == Loaded.Good(WorldFor(f, keys, ceiling, opt, trailer))
  {
    hide IsWorldFile, TrailerOk, Options.Valid, ReadHeader, Directory, LastValid, OnlyGated, DetectSize, OnlyAddressable, Chunks,
         ReadInline, Parse, RowsOf, ChunksOf, HeaderFor, TrailerOf, ChunkOff;
    var size := SizeFor(ceiling);
    var dir := ChunkOff(|keys|, size);
    PartsRead(f, keys, ceiling, opt, cells, trailer);
    ChunksRead(f, keys, ceiling, opt, cells, trailer);
    ParseIs(f, HeaderFor(opt, ceiling, dir), |keys|, RowsOf(keys, size), size, trailer);
  }

  lemma {:induction false} PartsRead(f: seq<byte>, keys: seq<ChunkKey>, ceiling: int, opt: Options, cells: Cells, trailer: seq<byte>)
    requires opt.Valid() && (ceiling == 63 || ceiling == 255) && IsWorldFile(f, keys, ceiling, opt, cells, trailer)
    requires TrailerOk(trailer, |keys|) && |f| <= opt.maxBytes
    ensures var size := SizeFor(ceiling);
      var dir := ChunkOff(|keys|, size);
      && HEADER_BYTES <= dir < |f| && ReadHeader(f) == HeaderFor(opt, ceiling, dir)
      && var all := Directory(f, dir, MAX_DIR);
      && LastValid(all) == |keys| && OnlyGated(all[..|keys|]) == RowsOf(keys, size)
      && dir + DIR_ENTRY * |all| == |f| && TrailerOf(f, dir, |keys|, |all|) == trailer
  {
    FilePlaces(f, keys, ceiling, opt, cells, trailer);
    HeaderPart(f, keys, ceiling, opt, cells, trailer);
    hide IsWorldFile, TrailerOk, ReadHeader, Directory, LastValid, OnlyGated, DirBytes, RowsOf, HeaderFor, TrailerOf, ChunkOff, HeaderOf, Options.Valid;
    DirectoryPart(f, keys, SizeFor(ceiling), trailer);
  }

  lemma {:induction false} DirectoryPart(f: seq<byte>, keys: seq<ChunkKey>, size: nat, trailer: seq<byte>)
    requires Listed(keys) && ChunkOff(|keys|, size) < 0x1_0000_0000_0000_0000 && TrailerOk(trailer, |keys|)
    requires |f| == ChunkOff(|keys|, size) + DIR_ENTRY * |keys| + |trailer|
    requires f[ChunkOff(|keys|, size)..] == DirBytes(keys, size) + trailer && f[ChunkOff(|keys|, size) + DIR_ENTRY * |keys|..] == trailer
    ensures var all := Directory(f, ChunkOff(|keys|, size), MAX_DIR);
      && LastValid(all) == |keys| && OnlyGated(all[..|keys|]) == RowsOf(keys, size)
      && ChunkOff(|keys|, size) + DIR_ENTRY * |all| == |f| && TrailerOf(f, ChunkOff(|keys|, size), |keys|, |all|) == trailer
  {
    assert |trailer| <= MAX_TRAILER;
    hide TrailerOk, Directory, LastValid, OnlyGated, DirBytes, RowsOf, TrailerOf, ChunkOff;
    DirectoryFound(f, keys, size, trailer);
    WholeTrailer(f, ChunkOff(|keys|, size), |keys|, |keys| + |trailer| / DIR_ENTRY, trailer);
  }

  lemma {:induction false} HeaderPart(f: seq<byte>, keys: seq<ChunkKey>, ceiling: int, opt: Options, cells: Cells, trailer: seq<byte>)
    requires opt.Valid() && (ceiling == 63 || ceiling == 255) && IsWorldFile(f, keys, ceiling, opt, cells, trailer)
    requires |f| <= opt.maxBytes
    ensures ReadHeader(f) == HeaderFor(opt, ceiling, ChunkOff(|keys|, SizeFor(ceiling)))
  {
    FilePlaces(f, keys, ceiling, opt, cells, trailer);
    hide IsWorldFile, ReadHeader, DirBytes, HeaderFor, ChunkOff, HeaderOf;
    HeaderReads(f, opt, ceiling, ChunkOff(|keys|, SizeFor(ceiling)));
    HeaderForIs(opt, ceiling, ChunkOff(|keys|, SizeFor(ceiling)));
  }

  lemma {:induction false} ChunksRead(f: seq<byte>, keys: seq<ChunkKey>, ceiling: int, opt: Options, cells: Cells, trailer: seq<byte>)
    requires opt.Valid() && (ceiling == 63 || ceiling == 255) && IsWorldFile(f, keys, ceiling, opt, cells, trailer)
    requires |f| <= opt.maxBytes
    ensures var size := SizeFor(ceiling);
      var dir := ChunkOff(|keys|, size);
      var rows := RowsOf(keys, size);
      && HeaderFor(opt, ceiling, dir).dirOffset == dir && rows != []
      && DetectSize(rows, dir, HeaderFor(opt, ceiling, dir).version as int, |f|) == size
      && OnlyAddressable(rows, dir, |f|, size) == rows && Chunks(rows, rows, dir, |f|, size) == ChunksOf(keys, size)
  {
    FilePlaces(f, keys, ceiling, opt, cells, trailer);
    var size := SizeFor(ceiling);
    SizeFound(keys, ceiling, opt.version, |f|);
    ChunksFound(keys, size, |f|);
    hide IsWorldFile, DetectSize, OnlyAddressable, Chunks, DirBytes, VersionFor, ChunksOf, ChunkOff, HeaderOf, SizeFor, TextOf, NameField;
  }

  lemma {:induction false} HeaderForIs(opt: Options, ceiling: int, dir: nat)
    ensures HeaderFor(opt, ceiling, dir) ==
      Header(opt.seed, opt.pos, opt.home, opt.yaw, dir, TextOf(NameField(opt.name)), VersionFor(opt.version, ceiling), opt.sky)
  {
  }

  lemma {:induction false} FilePlaces(f: seq<byte>, keys: seq<ChunkKey>, ceiling: int, opt: Options, cells: Cells, trailer: seq<byte>)
    requires opt.Valid() && (ceiling == 63 || ceiling == 255) && IsWorldFile(f, keys, ceiling, opt, cells, trailer)
    requires |f| <= opt.maxBytes
    ensures var size := SizeFor(ceiling);
      var dir := ChunkOff(|keys|, size);
      && size > 0 && keys != [] && Listed(keys) && HEADER_BYTES <= dir < |f| && dir < 0x1_0000_0000_0000_0000
      && |f| == dir + DIR_ENTRY * |keys| + |trailer| && f[..HEADER_BYTES] == HeaderOf(opt, ceiling, dir)
      && f[dir..] == DirBytes(keys, size) + trailer && f[dir + DIR_ENTRY * |keys|..] == trailer
  {
    var dir := ChunkOff(|keys|, SizeFor(ceiling));
    hide HeaderOf, Painted, ChunkOff, DirBytes, Listed, Ascending;
    DirTail(f, dir, DirBytes(keys, SizeFor(ceiling)), trailer);
  }

  /** What a reader makes of a file whose parts are known. */
  lemma {:induction false} ParseIs(f: seq<byte>, h: Header, valid: nat, rows: seq<Row>, size: nat, trailer: seq<byte>)
    requires |f| >= HEADER_BYTES && ReadHeader(f) == h && HEADER_BYTES <= h.dirOffset < |f|
    requires var all := Directory(f, h.dirOffset, MAX_DIR);
      && LastValid(all) == valid && OnlyGated(all[..valid]) == rows && h.dirOffset + DIR_ENTRY * |all| == |f|
      && TrailerOf(f, h.dirOffset, valid, |all|) == trailer
    requires DetectSize(rows, h.dirOffset, h.version as int, |f|) == size
    requires OnlyAddressable(rows, h.dirOffset, |f|, size) == rows && rows != []
    ensures Parse(f) == Loaded.Good(World(f, h, size, Chunks(rows, rows, h.dirOffset, |f|, size), trailer, ReadInline(trailer), false))
  {
    hide ReadHeader, Directory, LastValid, OnlyGated, DetectSize, OnlyAddressable, Chunks, ReadInline, TrailerOf;
  }

  lemma {:induction false} WholeTrailer(f: seq<byte>, dir: nat, n: nat, rows: nat, trailer: seq<byte>)
    requires n <= rows && dir + DIR_ENTRY * rows <= |f| && rows == n + |trailer| / DIR_ENTRY && |trailer| <= MAX_TRAILER
    requires |trailer| % DIR_ENTRY == 0 && f[dir + DIR_ENTRY * n..] == trailer
    ensures TrailerOf(f, dir, n, rows) == trailer
  {
    assert |trailer| == DIR_ENTRY * (rows - n);
  }

  /** A file that was not wrapped is read as it is unless its seed spells a ZIP mark: exactly three
      seeds do. */
  lemma {:induction false} SeedDecides(f: seq<byte>, opt: Options, ceiling: int, dir: nat)
    requires opt.Valid() && |f| >= HEADER_BYTES && f[..HEADER_BYTES] == HeaderOf(opt, ceiling, dir)
    ensures IsZip(f) <==> opt.seed == 0x04034b50 || opt.seed == 0x06054b50 || opt.seed == 0x08074b50
  {
    HeaderSlice(HeaderStart(opt, dir), HeaderEnd(opt, ceiling), f[HEADER_BYTES..], 0, 4);
    assert f == HeaderOf(opt, ceiling, dir) + f[HEADER_BYTES..];
    assert HeaderStart(opt, dir)[0..4] == LeBytes(opt.seed);
    assert f[..4] == LeBytes(opt.seed);
    LeRoundTrip(opt.seed);
    ZipMarks();
    hide LeBytes, LeInt, HeaderOf, HeaderStart, HeaderEnd;
  }

  lemma ZipMarks()
    ensures LeInt(SIG_LOCAL) == 0x04034b50 && LeInt(SIG_END) == 0x06054b50 && LeInt(SIG_SPANNED) == 0x08074b50
    ensures LeBytes(0x04034b50) == SIG_LOCAL && LeBytes(0x06054b50) == SIG_END && LeBytes(0x08074b50) == SIG_SPANNED
  {
  }

  /** Wrapped in a ZIP or, but for those seeds, not: the reader gets the same file. */
  lemma {:induction false} WrapReads(crc: Checksum, deflate: Transform, inflate: Inflate, name: seq<byte>, f: seq<byte>, most: nat)
    requires Holds(crc, deflate, name, f) && Wanted(name) && |f| <= most && inflate(deflate(f)) == Some(f)
    ensures Load(inflate, ZipSingle(crc, deflate, name, f), most) == Parse(f)
    ensures !IsZip(f) ==> Load(inflate, f, most) == Parse(f)
  {
    ZipRoundTrip(crc, deflate, inflate, name, f, most);
    hide ZipSingle, Parse, Unzip, IsZip;
  }

  // --- there and back -------------------------------------------------------------------------------------

  lemma {:induction false} SlotIs(keys: seq<ChunkKey>, i: nat)
    requires Ascending(keys) && i < |keys|
    ensures keys[i] in keys && SlotOf(keys, keys[i]) == i
  {
    var j := SlotOf(keys, keys[i]);
    assert j < i ==> Before(keys[j], keys[i]);
    assert i < j ==> Before(keys[i], keys[j]);
  }

  lemma {:induction false} LocalIs(cx: int, x: int)
    ensures (cx * 16 <= x < cx * 16 + 16) <==> x / 16 == cx
    ensures x / 16 == cx ==> x - cx * 16 == x % 16
  {
  }

  /** The two bytes the reader takes for a position are those the writer put there. */
  lemma {:induction false} BytesRead(f: seq<byte>, c: Chunk, size: nat, p: Pos, o: nat, v: Block)
    requires c.cx == p.x / 16 && c.cy == p.z / 16 && 0 <= p.y && c.end == c.off + size && c.end <= |f|
    requires o == TypeOffset(p.x % 16, p.z % 16, p.y) && o + 4096 < size
    requires f[c.off + o] as int == v.kind && f[c.off + (o + 4096)] as int == v.color
    ensures EdenImport.VoxelAt(f, c, p) == v
  {
    LocalIs(c.cx, p.x);
    LocalIs(c.cy, p.z);
    hide TypeOffset;
  }

  lemma {:induction false} PaintedVoxel(f: seq<byte>, keys: seq<ChunkKey>, ceiling: int, opt: Options, cells: Cells, trailer: seq<byte>, p: Pos)
    requires opt.Valid() && (ceiling == 63 || ceiling == 255) && IsWorldFile(f, keys, ceiling, opt, cells, trailer)
    requires Covered(keys, ceiling, p)
    ensures ChunkOff(|keys|, SizeFor(ceiling)) <= |f|
    ensures VoxelIs(f[..ChunkOff(|keys|, SizeFor(ceiling))], keys, SizeFor(ceiling), p, FileVoxel(opt.profile, cells, p))
  {
    hide ChunkOff, BaseAt, CellToFile, TypeIndex, Options.Valid, SizeFor;
  }

  lemma {:induction false} VoxelInWhole(f: seq<byte>, dir: nat, keys: seq<ChunkKey>, size: nat, p: Pos, v: Block)
    requires dir <= |f| && KeyOf(p) in keys && VoxelIs(f[..dir], keys, size, p, v)
    ensures var o := TypeIndex(keys, size, p);
      0 <= o && o + 4096 < |f| && f[o] as int == v.kind && f[o + 4096] as int == v.color
  {
    hide TypeIndex;
  }

  lemma {:induction false} PaintedBytes(f: seq<byte>, keys: seq<ChunkKey>, ceiling: int, opt: Options, cells: Cells, trailer: seq<byte>, p: Pos)
    requires opt.Valid() && (ceiling == 63 || ceiling == 255) && IsWorldFile(f, keys, ceiling, opt, cells, trailer)
    requires Covered(keys, ceiling, p)
    ensures ChunkOff(|keys|, SizeFor(ceiling)) <= |f|
    ensures var o := TypeIndex(keys, SizeFor(ceiling), p);
      var v := FileVoxel(opt.profile, cells, p);
      0 <= o && o + 4096 < |f| && f[o] as int == v.kind && f[o + 4096] as int == v.color
  {
    hide IsWorldFile, Painted, ChunkOff, TypeIndex, FileVoxel, Options.Valid, VoxelIs, KeyOf;
    PaintedVoxel(f, keys, ceiling, opt, cells, trailer, p);
    var size := SizeFor(ceiling);
    VoxelInWhole(f, ChunkOff(|keys|, size), keys, size, p, FileVoxel(opt.profile, cells, p));
  }

  /** The reader's voxel at a position of a written chunk is the one the writer meant. */
  lemma {:induction false} VoxelReads(f: seq<byte>, keys: seq<ChunkKey>, ceiling: int, opt: Options, cells: Cells, trailer: seq<byte>, i: nat, p: Pos)
    requires opt.Valid() && (ceiling == 63 || ceiling == 255) && IsWorldFile(f, keys, ceiling, opt, cells, trailer) && i < |keys|
    requires KeyOf(p) == keys[i] && 0 <= p.y <= ceiling
    ensures var c := ChunksOf(keys, SizeFor(ceiling))[i];
      c.off <= c.end <= |f| && EdenImport.VoxelAt(f, c, p) == FileVoxel(opt.profile, cells, p)
  {
    assert Ascending(keys);
    hide IsWorldFile, ChunkOff, TypeOffset, FileVoxel, SlotOf, Ascending, EdenImport.VoxelAt;
    var size := SizeFor(ceiling);
    SlotIs(keys, i);
    OffsRise(i, |keys|, size);
    OffsetFits(p.x % 16, p.z % 16, p.y, ceiling);
    PaintedBytes(f, keys, ceiling, opt, cells, trailer, p);
    BytesRead(f, ChunksOf(keys, size)[i], size, p, TypeOffset(p.x % 16, p.z % 16, p.y), FileVoxel(opt.profile, cells, p));
  }

  /** What a diff scan of a written file holds: the voxels that differ from base terrain. */
  ghost predicate Differs(got: Cells, keys: seq<ChunkKey>, ceiling: int, base: Profile, cells: Cells) {
    forall p :: (p in got <==> Covered(keys, ceiling, p) && FileVoxel(base, cells, p) != BaseAt(base, p.y))
             && (p in got ==> got[p] == FileVoxel(base, cells, p))
  }

  lemma {:induction false} KeptIs(f: seq<byte>, keys: seq<ChunkKey>, ceiling: int, opt: Options, cells: Cells, trailer: seq<byte>, i: nat, p: Pos)
    requires opt.Valid() && (ceiling == 63 || ceiling == 255) && IsWorldFile(f, keys, ceiling, opt, cells, trailer) && i < |keys|
    ensures var c := ChunksOf(keys, SizeFor(ceiling))[i];
      c.off <= c.end <= |f| &&
      (EdenImport.Kept(f, c, ceiling, EdenImport.Diff, opt.profile, p) <==>
        KeyOf(p) == keys[i] && 0 <= p.y <= ceiling && FileVoxel(opt.profile, cells, p) != BaseAt(opt.profile, p.y))
  {
    OffsRise(i, |keys|, SizeFor(ceiling));
    LocalIs(keys[i].cx, p.x);
    LocalIs(keys[i].cy, p.z);
    if KeyOf(p) == keys[i] && 0 <= p.y <= ceiling { VoxelReads(f, keys, ceiling, opt, cells, trailer, i, p); }
    hide FileVoxel, EdenImport.VoxelAt, ChunkOff, Painted;
  }

  lemma {:induction false} KeptReads(f: seq<byte>, keys: seq<ChunkKey>, ceiling: int, opt: Options, cells: Cells, trailer: seq<byte>, i: nat, p: Pos)
    requires opt.Valid() && (ceiling == 63 || ceiling == 255) && IsWorldFile(f, keys, ceiling, opt, cells, trailer) && i < |keys|
    requires var c := ChunksOf(keys, SizeFor(ceiling))[i];
      c.off <= c.end <= |f| && EdenImport.Kept(f, c, ceiling, EdenImport.Diff, opt.profile, p)
    ensures Covered(keys, ceiling, p) && FileVoxel(opt.profile, cells, p) != BaseAt(opt.profile, p.y)
    ensures EdenImport.VoxelAt(f, ChunksOf(keys, SizeFor(ceiling))[i], p) == FileVoxel(opt.profile, cells, p)
  {
    hide IsWorldFile, FileVoxel, EdenImport.Kept, EdenImport.VoxelAt, ChunksOf, Options.Valid;
    KeptIs(f, keys, ceiling, opt, cells, trailer, i, p);
    VoxelReads(f, keys, ceiling, opt, cells, trailer, i, p);
    assert keys[i] in keys;
  }

  lemma {:induction false} WorldForIs(f: seq<byte>, keys: seq<ChunkKey>, ceiling: int, opt: Options, trailer: seq<byte>)
    requires ceiling == 63 || ceiling == 255
    ensures var w := WorldFor(f, keys, ceiling, opt, trailer);
      w.bytes == f && w.chunks == ChunksOf(keys, SizeFor(ceiling)) && w.Ceiling() == ceiling
  {
    hide HeaderFor, ChunksOf, ReadInline;
  }

  /** A cell a diff scan holds came from some chunk. */
  lemma {:induction false} CameFrom(got: Cells, w: World, base: Profile, p: Pos) returns (i: nat)
    requires EdenImport.Spans(w) && EdenImport.HoldsAt(got, w, |w.chunks|, EdenImport.Diff, base, p) && p in got
    ensures i < |w.chunks| && w.chunks[i] in w.chunks && w.chunks[i].off <= w.chunks[i].end <= |w.bytes|
    ensures EdenImport.Kept(w.bytes, w.chunks[i], w.Ceiling(), EdenImport.Diff, base, p)
    ensures got[p] == EdenImport.VoxelAt(w.bytes, w.chunks[i], p)
  {
    hide EdenImport.Kept, EdenImport.VoxelAt, World.Ceiling;
    i := EdenImport.LastKept(w, |w.chunks|, EdenImport.Diff, base, p).value;
  }

  lemma {:induction false} WentIn(got: Cells, w: World, base: Profile, p: Pos, i: nat)
    requires EdenImport.Spans(w) && EdenImport.HoldsAt(got, w, |w.chunks|, EdenImport.Diff, base, p) && i < |w.chunks|
    requires w.chunks[i] in w.chunks && EdenImport.Kept(w.bytes, w.chunks[i], w.Ceiling(), EdenImport.Diff, base, p)
    ensures p in got
  {
    hide EdenImport.Kept, EdenImport.VoxelAt, World.Ceiling;
  }

  lemma {:induction false} ScanMisses(f: seq<byte>, keys: seq<ChunkKey>, ceiling: int, opt: Options, cells: Cells, trailer: seq<byte>, got: Cells, p: Pos)
    requires opt.Valid() && (ceiling == 63 || ceiling == 255) && IsWorldFile(f, keys, ceiling, opt, cells, trailer)
    requires var w := WorldFor(f, keys, ceiling, opt, trailer);
      EdenImport.Spans(w) && EdenImport.HoldsAt(got, w, |w.chunks|, EdenImport.Diff, opt.profile, p)
    requires Covered(keys, ceiling, p) && FileVoxel(opt.profile, cells, p) != BaseAt(opt.profile, p.y)
    ensures p in got
  {
    hide IsWorldFile, FileVoxel, BaseAt, EdenImport.Kept, EdenImport.HoldsAt, EdenImport.Spans, EdenImport.VoxelAt, ChunksOf, Options.Valid,
         WorldFor, SizeFor, World.Ceiling;
    WorldForIs(f, keys, ceiling, opt, trailer);
    var i :| 0 <= i < |keys| && keys[i] == KeyOf(p);
    KeptIs(f, keys, ceiling, opt, cells, trailer, i, p);
    var w := WorldFor(f, keys, ceiling, opt, trailer);
    assert w.chunks[i] in w.chunks;
    WentIn(got, w, opt.profile, p, i);
  }

  lemma {:induction false} ScanAt(f: seq<byte>, keys: seq<ChunkKey>, ceiling: int, opt: Options, cells: Cells, trailer: seq<byte>, got: Cells, p: Pos)
    requires opt.Valid() && (ceiling == 63 || ceiling == 255) && IsWorldFile(f, keys, ceiling, opt, cells, trailer)
    requires var w := WorldFor(f, keys, ceiling, opt, trailer);
      EdenImport.Spans(w) && EdenImport.HoldsAt(got, w, |w.chunks|, EdenImport.Diff, opt.profile, p)
    ensures p in got <==> Covered(keys, ceiling, p) && FileVoxel(opt.profile, cells, p) != BaseAt(opt.profile, p.y)
    ensures p in got ==> got[p] == FileVoxel(opt.profile, cells, p)
  {
    hide IsWorldFile, FileVoxel, BaseAt, Covered, EdenImport.Kept, EdenImport.HoldsAt, EdenImport.Spans, EdenImport.VoxelAt, ChunksOf,
         Options.Valid, WorldFor, SizeFor, World.Ceiling;
    WorldForIs(f, keys, ceiling, opt, trailer);
    if Covered(keys, ceiling, p) && FileVoxel(opt.profile, cells, p) != BaseAt(opt.profile, p.y) {
      ScanMisses(f, keys, ceiling, opt, cells, trailer, got, p);
    }
    if p in got {
      var i := CameFrom(got, WorldFor(f, keys, ceiling, opt, trailer), opt.profile, p);
      KeptReads(f, keys, ceiling, opt, cells, trailer, i, p);
    }
  }

  /** A diff scan of a written file finds exactly the voxels that differ from base terrain. */
  lemma {:induction false} ScanFinds(f: seq<byte>, keys: seq<ChunkKey>, ceiling: int, opt: Options, cells: Cells, trailer: seq<byte>, got: Cells)
    requires opt.Valid() && (ceiling == 63 || ceiling == 255) && IsWorldFile(f, keys, ceiling, opt, cells, trailer)
    requires var w := WorldFor(f, keys, ceiling, opt, trailer);
      EdenImport.Spans(w) && EdenImport.Holds(got, w, |w.chunks|, EdenImport.Diff, opt.profile)
    ensures Differs(got, keys, ceiling, opt.profile, cells)
  {
    hide IsWorldFile, FileVoxel, EdenImport.HoldsAt, WorldFor, Options.Valid, Covered;
    var w := WorldFor(f, keys, ceiling, opt, trailer);
    forall p
      ensures p in got <==> Covered(keys, ceiling, p) && FileVoxel(opt.profile, cells, p) != BaseAt(opt.profile, p.y)
      ensures p in got ==> got[p] == FileVoxel(opt.profile, cells, p)
    {
      assert EdenImport.HoldsAt(got, w, |w.chunks|, EdenImport.Diff, opt.profile, p);
      ScanAt(f, keys, ceiling, opt, cells, trailer, got, p);
    }
  }

  /** Every cell says something the terrain does not, mined cells have no paint, and none is painted terrain
      unless the terrain there is itself stored so. */
  predicate Normal(base: Profile, cells: Cells) {
    forall p :: p in cells ==>
      && cells[p] != BaseAt(base, p.y)
      && (cells[p].kind == AIR ==> cells[p].color == 0)
      && (cells[p].kind == PAINTED_BASE ==> BaseAt(base, p.y).kind == PAINTED_BASE)
  }

  /** A store is in normal form exactly when a file says of each of its cells what the store does, and
      each says something the terrain does not. */
  lemma {:induction false} NormalIs(base: Profile, cells: Cells)
    ensures Normal(base, cells) <==> forall p :: p in cells ==> CellToFile(base, p.y, cells[p]) == cells[p] != BaseAt(base, p.y)
  {
  }

  /** Exporting, loading and scanning in diff mode keeps the block and paint of every cell in range;
      and it gives back the very same store exactly when the store was in normal form and in range. */
  lemma {:induction false} RoundTrip(f: seq<byte>, keys: seq<ChunkKey>, ceiling: int, opt: Options, cells: Cells, trailer: seq<byte>, got: Cells)
    requires opt.Valid() && (ceiling == 63 || ceiling == 255) && IsWorldFile(f, keys, ceiling, opt, cells, trailer)
    requires TrailerOk(trailer, |keys|) && |f| <= opt.maxBytes && ChunksFor(keys, cells, ceiling, opt)
    requires Parse(f).Good? ==> EdenImport.Spans(Parse(f).world) ==>
      EdenImport.Holds(got, Parse(f).world, |Parse(f).world.chunks|, EdenImport.Diff, opt.profile)
    ensures Parse(f).Good? && EdenImport.Spans(Parse(f).world)
    ensures forall p :: InFile(p, ceiling) ==> FileVoxel(opt.profile, got, p) == FileVoxel(opt.profile, cells, p)
    ensures got == cells <==> Normal(opt.profile, cells) && forall p :: p in cells ==> InFile(p, ceiling)
  {
    FileReads(f, keys, ceiling, opt, cells, trailer);
    assert EdenImport.Spans(Parse(f).world) by { SpansOk(f, keys, ceiling, opt, cells, trailer); }
    ScanFinds(f, keys, ceiling, opt, cells, trailer, got);
    hide IsWorldFile, Parse, WorldFor, EdenImport.Holds, EdenImport.Spans;
    SameLooks(keys, ceiling, opt, cells, got);
  }

  lemma {:induction false} SpansOk(f: seq<byte>, keys: seq<ChunkKey>, ceiling: int, opt: Options, cells: Cells, trailer: seq<byte>)
    requires opt.Valid() && (ceiling == 63 || ceiling == 255) && IsWorldFile(f, keys, ceiling, opt, cells, trailer)
    ensures EdenImport.Spans(WorldFor(f, keys, ceiling, opt, trailer))
  {
    var cs := ChunksOf(keys, SizeFor(ceiling));
    forall c | c in cs
      ensures c.off <= c.end <= |f|
    {
      var i :| 0 <= i < |cs| && cs[i] == c;
      OffsRise(i, |keys|, SizeFor(ceiling));
    }
  }

  lemma {:induction false} SameLooks(keys: seq<ChunkKey>, ceiling: int, opt: Options, cells: Cells, got: Cells)
    requires Listed(keys) && ChunksFor(keys, cells, ceiling, opt) && Differs(got, keys, ceiling, opt.profile, cells)
    ensures forall p :: InFile(p, ceiling) ==> FileVoxel(opt.profile, got, p) == FileVoxel(opt.profile, cells, p)
    ensures got == cells <==> Normal(opt.profile, cells) && forall p :: p in cells ==> InFile(p, ceiling)
  {
    NormalIs(opt.profile, cells);
    hide Normal;
  }

  // --- every file written -----------------------------------------------------------------------------------

  /** The sign rows after a file's directory. */
  function SignRows(opt: Options, es: seq<EdenSign>): nat { if opt.signs == Inline && es != [] then RowCount(es) else 0 }

  function TrailerFor(opt: Options, es: seq<EdenSign>): seq<byte> { if opt.signs == Inline then Trailer(es) else [] }

  /** A reader takes every row after the voxels. */
  predicate Roomy(keys: seq<ChunkKey>, opt: Options, es: seq<EdenSign>) { |keys| + SignRows(opt, es) <= MAX_DIR }

  lemma {:induction false} TrailerRows(opt: Options, es: seq<EdenSign>)
    requires |es| <= EdenSigns.MAX_SIGNS
    ensures var t := TrailerFor(opt, es); RowsTaggedAll(t, SignRows(opt, es)) && |t| <= MAX_TRAILER
  {
    if opt.signs == Inline && es != [] {
      TrailerTagged(es);
    } else {
      assert Trailer([]) == [];
    }
    hide Trailer, TaggedAt;
  }

  /** A file within the size cap the writer starts from always has few enough rows. */
  lemma {:induction false} DefaultIsRoomy(keys: seq<ChunkKey>, ceiling: int, opt: Options, es: seq<EdenSign>)
    requires (ceiling == 63 || ceiling == 255) && |es| <= EdenSigns.MAX_SIGNS
    requires ChunkOff(|keys|, SizeFor(ceiling)) + DIR_ENTRY * |keys| <= DEFAULT_MAX_BYTES
    ensures Roomy(keys, opt, es)
  {
    var n := |keys|;
    assert n * SizeFor(ceiling) >= n * SHORT;
  }

  lemma {:induction false} RoomyIs(keys: seq<ChunkKey>, opt: Options, es: seq<EdenSign>)
    requires |es| <= EdenSigns.MAX_SIGNS
    ensures TrailerOk(TrailerFor(opt, es), |keys|) <==> Roomy(keys, opt, es)
  {
    hide TaggedAt, TrailerFor, SignRows;
    TrailerRows(opt, es);
  }

  lemma {:induction false} ManyRows(b: seq<byte>, i: nat, most: nat, n: nat)
    requires i + DIR_ENTRY * n <= |b| && n >= most
    ensures |Directory(b, i, most)| == most
    decreases most
  {
    hide RowAt;
    if most > 0 { ManyRows(b, i + DIR_ENTRY, most - 1, n - 1); }
  }

  /** A file with more rows than a reader takes never reads as what was written: the reader says it
      stopped short. */
  lemma {:induction false} CrowdedStops(f: seq<byte>, keys: seq<ChunkKey>, ceiling: int, opt: Options, cells: Cells, es: seq<EdenSign>)
    requires opt.Valid() && (ceiling == 63 || ceiling == 255) && |es| <= EdenSigns.MAX_SIGNS && |f| <= opt.maxBytes
    requires IsWorldFile(f, keys, ceiling, opt, cells, TrailerFor(opt, es)) && !Roomy(keys, opt, es)
    ensures Parse(f).Good? ==> Parse(f).world.truncated
  {
    hide IsWorldFile, Directory, ReadHeader, HeaderFor, DirBytes, HeaderOf, ChunkOff, Trailer, TaggedAt;
    var dir := ChunkOff(|keys|, SizeFor(ceiling));
    TrailerRows(opt, es);
    FilePlaces(f, keys, ceiling, opt, cells, TrailerFor(opt, es));
    HeaderPart(f, keys, ceiling, opt, cells, TrailerFor(opt, es));
    ManyRows(f, dir, MAX_DIR, |keys| + SignRows(opt, es));
    HeaderForIs(opt, ceiling, dir);
    CutShort(f, dir);
  }

  lemma {:induction false} CutShort(f: seq<byte>, dir: nat)
    requires |f| >= HEADER_BYTES && ReadHeader(f).dirOffset == dir && HEADER_BYTES <= dir < |f|
    requires |Directory(f, dir, MAX_DIR)| == MAX_DIR && dir + DIR_ENTRY * MAX_DIR + DIR_ENTRY <= |f|
    ensures Parse(f).Good? ==> Parse(f).world.truncated
  {
    hide Directory, LastValid, OnlyGated, DetectSize, OnlyAddressable, Chunks, ReadInline, TrailerOf, ReadHeader;
  }

  predicate SpellsZip(seed: int32) { seed == 0x04034b50 || seed == 0x06054b50 || seed == 0x08074b50 }

  /** An export of this store that came out within its size cap. */
  ghost predicate WrittenFrom(r: Exported, cells: Cells, opt: Options) {
    && opt.Valid() && r.File? && (r.ceiling == 63 || r.ceiling == 255) && |r.signs| <= EdenSigns.MAX_SIGNS
    && IsWorldFile(r.bytes, r.keys, r.ceiling, opt, cells, TrailerFor(opt, r.signs)) && |r.bytes| <= opt.maxBytes
    && ChunksFor(r.keys, cells, r.ceiling, opt)
  }

  /** What was written, read whole. */
  function Whole(r: Exported, opt: Options): Loaded
    requires r.File?
  {
    if r.ceiling != 63 && r.ceiling != 255 then TooShort
    else Loaded.Good(WorldFor(r.bytes, r.keys, r.ceiling, opt, TrailerFor(opt, r.signs)))
  }

  /** What a reader makes of a file written from this store, read as it is. */
  lemma {:induction false} WrittenReads(r: Exported, cells: Cells, opt: Options)
    requires WrittenFrom(r, cells, opt)
    ensures r.ceiling == 63 || r.ceiling == 255
    ensures Parse(r.bytes) == Whole(r, opt) <==> Roomy(r.keys, opt, r.signs)
    ensures opt.maxBytes <= DEFAULT_MAX_BYTES ==> Roomy(r.keys, opt, r.signs)
    ensures IsZip(r.bytes) <==> SpellsZip(opt.seed)
  {
    var t := TrailerFor(opt, r.signs);
    FilePlaces(r.bytes, r.keys, r.ceiling, opt, cells, t);
    SeedDecides(r.bytes, opt, r.ceiling, ChunkOff(|r.keys|, SizeFor(r.ceiling)));
    RoomyIs(r.keys, opt, r.signs);
    hide IsWorldFile, Parse, TrailerFor, TrailerOk, Options.Valid, HeaderOf, ChunkOff, DirBytes, HeaderFor, ChunksOf, ReadInline, IsZip, SizeFor;
    if Roomy(r.keys, opt, r.signs) {
      FileReads(r.bytes, r.keys, r.ceiling, opt, cells, t);
    } else {
      CrowdedStops(r.bytes, r.keys, r.ceiling, opt, cells, r.signs);
    }
    if opt.maxBytes <= DEFAULT_MAX_BYTES { DefaultIsRoomy(r.keys, r.ceiling, opt, r.signs); }
  }

  lemma {:induction false} LoadedSpans(inflate: Inflate, raw: seq<byte>, most: nat)
    requires Load(inflate, raw, most).Good?
    ensures var w := Load(inflate, raw, most).world; EdenImport.Spans(w) && w.Ceiling() >= 0
  {
    if IsZip(raw) {
      SpansHold(Unzip(inflate, raw, most).data);
    } else {
      SpansHold(raw);
    }
  }

  lemma {:induction false} ScanTrips(r: Exported, cells: Cells, opt: Options, got: Cells)
    requires WrittenFrom(r, cells, opt)
    requires Roomy(r.keys, opt, r.signs)
    requires var w := WorldFor(r.bytes, r.keys, r.ceiling, opt, TrailerFor(opt, r.signs));
      EdenImport.Spans(w) && EdenImport.Holds(got, w, |w.chunks|, EdenImport.Diff, opt.profile)
    ensures forall p :: InFile(p, r.ceiling) ==> FileVoxel(opt.profile, got, p) == FileVoxel(opt.profile, cells, p)
    ensures got == cells <==> Normal(opt.profile, cells) && forall p :: p in cells ==> InFile(p, r.ceiling)
  {
    var t := TrailerFor(opt, r.signs);
    WorldForIs(r.bytes, r.keys, r.ceiling, opt, t);
    RoomyIs(r.keys, opt, r.signs);
    hide IsWorldFile, Parse, TrailerFor, TrailerOk, Options.Valid, WorldFor, EdenImport.Holds, EdenImport.Spans,
         InFile, FileVoxel, Normal, ChunksOf;
    FileReads(r.bytes, r.keys, r.ceiling, opt, cells, t);
    RoundTrip(r.bytes, r.keys, r.ceiling, opt, cells, t, got);
  }

  /** Load a written file and scan it. */
  method LoadAndScan(r: Exported, ghost cells: Cells, opt: Options, inflate: Inflate, most: nat) returns (l: Loaded, got: Cells)
    requires r.File? && WrittenFrom(r, cells, opt)
    ensures !SpellsZip(opt.seed) ==> (l == Whole(r, opt) <==> Roomy(r.keys, opt, r.signs))
    ensures !SpellsZip(opt.seed) && Roomy(r.keys, opt, r.signs) ==>
      && (forall p :: InFile(p, r.ceiling) ==> FileVoxel(opt.profile, got, p) == FileVoxel(opt.profile, cells, p))
      && (got == cells <==> Normal(opt.profile, cells) && forall p :: p in cells ==> InFile(p, r.ceiling))
  {
    hide WrittenFrom, Parse, Unzip, WorldFor, InFile, FileVoxel, Normal, SpellsZip, Roomy, TrailerFor, IsZip, World.Ceiling,
         EdenImport.Spans, EdenImport.Holds;
    WrittenReads(r, cells, opt);
    got := map[];
    l := LoadWorld(inflate, r.bytes, most);
    if l.Good? {
      LoadedSpans(inflate, r.bytes, most);
      got := EdenImport.ScanWorld(l.world, EdenImport.Diff, opt.profile);
    }
    if !SpellsZip(opt.seed) && Roomy(r.keys, opt, r.signs) { ScanTrips(r, cells, opt, got); }
  }

  /** Write a world, load what was written and scan it again. Unless the seed spells a ZIP mark the file
      loads as just what was written exactly when its rows fit the reader's directory cap, as they always
      do under the default size cap; and then the scan keeps the block and paint of every cell in range,
      giving back the very same store exactly when that was in normal form and in range. */
  method SaveAndLoad(cells: Cells, order: seq<Pos>, signs: seq<SignStore.Sign>, opt: Options, inflate: Inflate, most: nat)
      returns (r: Exported, l: Loaded, got: Cells)
    requires opt.Valid() && ByteCells(cells) && Walks(order, cells)
    ensures r.File? ==> r.ceiling == Ceiling(cells, signs, opt)
    ensures r.File? && opt.forceZ != 64 ==> forall p :: p in cells ==> (InFile(p, r.ceiling) <==> InPlane(p) && 0 <= p.y < 256)
    ensures r.File? ==> r.signs == if opt.signs == NoSigns then [] else FirstSigns(FileSigns(signs, r.ceiling))
    ensures r.File? && !SpellsZip(opt.seed) ==> (l == Whole(r, opt) <==> Roomy(r.keys, opt, r.signs))
    ensures r.File? && opt.maxBytes <= DEFAULT_MAX_BYTES ==> Roomy(r.keys, opt, r.signs)
    ensures r.File? && !SpellsZip(opt.seed) && Roomy(r.keys, opt, r.signs) ==>
      && (forall p :: InFile(p, r.ceiling) ==> FileVoxel(opt.profile, got, p) == FileVoxel(opt.profile, cells, p))
      && (got == cells <==> Normal(opt.profile, cells) && forall p :: p in cells ==> InFile(p, r.ceiling))
    ensures r.File? && !SpellsZip(opt.seed) && Roomy(r.keys, opt, r.signs) && opt.forceZ != 64 ==>
      (got == cells <==> Normal(opt.profile, cells) && forall p :: p in cells ==> InPlane(p) && 0 <= p.y < 256)
    ensures r.TooLarge? ==> r.total > opt.maxBytes
  {
    hide IsWorldFile, ChunksFor, Walks, ByteCells, Options.Valid, WorldFor, InFile, InPlane, FileVoxel, Normal, Trailer, Body,
         FileSigns, SpellsZip, Roomy, Whole;
    l, got := TooShort, map[];
    r := Export(cells, order, signs, opt);
    if r.TooLarge? { return; }
    if opt.forceZ != 64 {
      forall p | p in cells
        ensures InFile(p, r.ceiling) <==> InPlane(p) && 0 <= p.y < 256
      {
        NothingCut(cells, signs, opt, p);
      }
    }
    WrittenReads(r, cells, opt);
    l, got := LoadAndScan(r, cells, opt, inflate, most);
  }
}
