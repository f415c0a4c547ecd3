/**
 Reading a loaded world file back into cells: which voxels are kept, and what the store then holds.
 */
module EdenImport {
  import opened BaseProfile
  import opened BlockRules
  import opened EdenFile
  import opened SnapzCodec
  import opened Voxels

  /** How much of the file becomes cells: every voxel, every block, or only what differs from the
      terrain a client draws anyway. */
  datatype Fill = Full | Solid | Diff

  predicate KeepVoxel(fill: Fill, base: Profile, z: int, v: Block) {
    match fill
    case Full => true
    case Solid => v.kind != AIR
    case Diff => v != BaseAt(base, z)
  }

  /** The voxel of a chunk under a server position. */
  function VoxelAt(b: seq<byte>, c: Chunk, p: Pos): Block
    requires c.off <= c.end <= |b|
  {
    Block(BlockAt(b, c, p.x - c.cx * 16, p.z - c.cy * 16, p.y) as int, PaintAt(b, c, p.x - c.cx * 16, p.z - c.cy * 16, p.y) as int)
  }

  predicate InChunk(c: Chunk, ceiling: int, p: Pos) {
    c.cx * 16 <= p.x < c.cx * 16 + 16 && c.cy * 16 <= p.z < c.cy * 16 + 16 && 0 <= p.y <= ceiling
  }

  predicate Kept(b: seq<byte>, c: Chunk, ceiling: int, fill: Fill, base: Profile, p: Pos)
    requires c.off <= c.end <= |b|
  {
    InChunk(c, ceiling, p) && KeepVoxel(fill, base, p.y, VoxelAt(b, c, p))
  }

  /** Positions of a chunk's columns up to, but not including, the given one, rows first. */
  predicate Earlier(c: Chunk, lx: int, ly: int, p: Pos) {
    p.x - c.cx * 16 < lx || (p.x - c.cx * 16 == lx && p.z - c.cy * 16 < ly)
  }

  /** A position after a scan: a voxel that is taken is there, and the rest is as it was. */
  predicate ScannedAt(before: Cells, after: Cells, taken: bool, v: Block, p: Pos) {
    if taken then p in after && after[p] == v
    else (p in after <==> p in before) && (p in before ==> p in after && after[p] == before[p])
  }

  /** A chunk's kept voxels on top of what is there already. */
  ghost predicate Scanned(before: Cells, after: Cells, b: seq<byte>, c: Chunk, ceiling: int, fill: Fill, base: Profile)
    requires c.off <= c.end <= |b|
  {
    forall p :: ScannedAt(before, after, Kept(b, c, ceiling, fill, base, p), VoxelAt(b, c, p), p)
  }

  /** The same, for the part of the chunk scanned so far. */
  ghost predicate PartScanned(before: Cells, after: Cells, b: seq<byte>, c: Chunk, ceiling: int, fill: Fill, base: Profile, lx: int, ly: int, top: int)
    requires c.off <= c.end <= |b|
  {
    forall p :: ScannedAt(before, after, Kept(b, c, ceiling, fill, base, p) && Done(c, lx, ly, top, p), VoxelAt(b, c, p), p)
  }

  /** Columns before (lx, ly), and of that column the voxels under top. */
  predicate Done(c: Chunk, lx: int, ly: int, top: int, p: Pos) {
    Earlier(c, lx, ly, p) || (p.x - c.cx * 16 == lx && p.z - c.cy * 16 == ly && p.y < top)
  }

  method ScanVoxel(before: Cells, have: Cells, b: seq<byte>, c: Chunk, ceiling: int, fill: Fill, base: Profile, lx: int, ly: int, z: int)
    returns (cells: Cells)
    requires c.off <= c.end <= |b| && 0 <= lx < 16 && 0 <= ly < 16 && 0 <= z <= ceiling
    requires PartScanned(before, have, b, c, ceiling, fill, base, lx, ly, z)
    ensures PartScanned(before, cells, b, c, ceiling, fill, base, lx, ly, z + 1)
  {
    var v := Block(BlockAt(b, c, lx, ly, z) as int, PaintAt(b, c, lx, ly, z) as int);
    var q := Pos(c.cx * 16 + lx, z, c.cy * 16 + ly);
    assert VoxelAt(b, c, q) == v && InChunk(c, ceiling, q);
    hide BlockAt, PaintAt, VoxelAt, KeepVoxel;
    cells := if KeepVoxel(fill, base, z, v) then have[q := v] else have;
    var next := z + 1;
    forall p
      ensures ScannedAt(before, cells, Kept(b, c, ceiling, fill, base, p) && Done(c, lx, ly, next, p), VoxelAt(b, c, p), p)
    {
      OneDone(c, lx, ly, z, p);
      assert ScannedAt(before, have, Kept(b, c, ceiling, fill, base, p) && Done(c, lx, ly, z, p), VoxelAt(b, c, p), p);
      hide Done, InChunk;
    }
  }

  lemma OneDone(c: Chunk, lx: int, ly: int, z: int, p: Pos)
    ensures Done(c, lx, ly, z + 1, p) <==> Done(c, lx, ly, z, p) || p == Pos(c.cx * 16 + lx, z, c.cy * 16 + ly)
  {
  }

  /** One chunk, column by column and bottom to top. */
  method ScanChunk(have: Cells, b: seq<byte>, c: Chunk, ceiling: int, fill: Fill, base: Profile) returns (cells: Cells)
    requires c.off <= c.end <= |b| && ceiling >= 0
    ensures Scanned(have, cells, b, c, ceiling, fill, base)
  {
    cells := have;
    hide Kept, VoxelAt, PartScanned;
    ScanStart(have, b, c, ceiling, fill, base);
    for lx := 0 to 16
      invariant PartScanned(have, cells, b, c, ceiling, fill, base, lx, 0, 0)
    {
      for ly := 0 to 16
        invariant PartScanned(have, cells, b, c, ceiling, fill, base, lx, ly, 0)
      {
        for z := 0 to ceiling + 1
          invariant PartScanned(have, cells, b, c, ceiling, fill, base, lx, ly, z)
        {
          cells := ScanVoxel(have, cells, b, c, ceiling, fill, base, lx, ly, z);
        }
        ColumnDone(have, cells, b, c, ceiling, fill, base, lx, ly);
      }
      RowDone(have, cells, b, c, ceiling, fill, base, lx);
    }
    ScanDone(have, cells, b, c, ceiling, fill, base);
  }

  lemma ScanStart(have: Cells, b: seq<byte>, c: Chunk, ceiling: int, fill: Fill, base: Profile)
    requires c.off <= c.end <= |b|
    ensures PartScanned(have, have, b, c, ceiling, fill, base, 0, 0, 0)
  {
    hide VoxelAt, KeepVoxel;
  }

  lemma ColumnDone(have: Cells, cells: Cells, b: seq<byte>, c: Chunk, ceiling: int, fill: Fill, base: Profile, lx: int, ly: int)
    requires c.off <= c.end <= |b| && PartScanned(have, cells, b, c, ceiling, fill, base, lx, ly, ceiling + 1)
    ensures PartScanned(have, cells, b, c, ceiling, fill, base, lx, ly + 1, 0)
  {
    hide VoxelAt, KeepVoxel;
    forall p
      ensures InChunk(c, ceiling, p) ==> (Done(c, lx, ly, ceiling + 1, p) <==> Done(c, lx, ly + 1, 0, p))
    {
    }
    hide InChunk, Done;
  }

  lemma RowDone(have: Cells, cells: Cells, b: seq<byte>, c: Chunk, ceiling: int, fill: Fill, base: Profile, lx: int)
    requires c.off <= c.end <= |b| && PartScanned(have, cells, b, c, ceiling, fill, base, lx, 16, 0)
    ensures PartScanned(have, cells, b, c, ceiling, fill, base, lx + 1, 0, 0)
  {
    hide VoxelAt, KeepVoxel;
    forall p
      ensures InChunk(c, ceiling, p) ==> (Done(c, lx, 16, 0, p) <==> Done(c, lx + 1, 0, 0, p))
    {
    }
    hide InChunk, Done;
  }

  lemma ScanDone(have: Cells, cells: Cells, b: seq<byte>, c: Chunk, ceiling: int, fill: Fill, base: Profile)
    requires c.off <= c.end <= |b| && PartScanned(have, cells, b, c, ceiling, fill, base, 16, 0, 0)
    ensures Scanned(have, cells, b, c, ceiling, fill, base)
  {
    hide VoxelAt, KeepVoxel;
    forall p
      ensures InChunk(c, ceiling, p) ==> Done(c, 16, 0, 0, p)
    {
    }
    hide InChunk, Done;
  }

  // --- the whole world ----------------------------------------------------------------------------------

  predicate Spans(w: World) { forall c :: c in w.chunks ==> c.off <= c.end <= |w.bytes| }

  /** The last of the first n chunks that keeps a voxel at this position. */
  function LastKept(w: World, n: nat, fill: Fill, base: Profile, p: Pos): (r: Option<nat>)
    requires Spans(w) && n <= |w.chunks|
    ensures r.Some? ==> r.value < n && w.chunks[r.value] in w.chunks && Kept(w.bytes, w.chunks[r.value], w.Ceiling(), fill, base, p)
    ensures forall i :: (if r.Some? then r.value + 1 else 0) <= i < n ==> !Kept(w.bytes, w.chunks[i], w.Ceiling(), fill, base, p)
  {
    if n == 0 then None
    else if w.chunks[n - 1] in w.chunks && Kept(w.bytes, w.chunks[n - 1], w.Ceiling(), fill, base, p) then Some(n - 1)
    else LastKept(w, n - 1, fill, base, p)
  }

  /** What a scan of the first n chunks holds at a position: the kept voxel of the last chunk that keeps
      one there, or nothing. */
  ghost predicate HoldsAt(cells: Cells, w: World, n: nat, fill: Fill, base: Profile, p: Pos)
    requires Spans(w) && n <= |w.chunks|
  {
    match LastKept(w, n, fill, base, p)
    case None => p !in cells
    case Some(i) => p in cells && cells[p] == VoxelAt(w.bytes, w.chunks[i], p)
  }

  ghost predicate Holds(cells: Cells, w: World, n: nat, fill: Fill, base: Profile)
    requires Spans(w) && n <= |w.chunks|
  {
    forall p :: HoldsAt(cells, w, n, fill, base, p)
  }

  /** Scan every chunk into one store; where two chunks share a place the later one wins. */
  method ScanWorld(w: World, fill: Fill, base: Profile) returns (cells: Cells)
    requires Spans(w) && w.Ceiling() >= 0
    ensures Holds(cells, w, |w.chunks|, fill, base)
  {
    cells := map[];
    hide Kept, VoxelAt, Holds, Scanned, HoldsAt;
    NothingScanned(w, fill, base);
    for i := 0 to |w.chunks|
      invariant Holds(cells, w, i, fill, base)
    {
      assert w.chunks[i] in w.chunks;
      ghost var before := cells;
      cells := ScanChunk(cells, w.bytes, w.chunks[i], w.Ceiling(), fill, base);
      OneMoreChunk(before, cells, w, i, fill, base);
    }
  }

  lemma NothingScanned(w: World, fill: Fill, base: Profile)
    requires Spans(w)
    ensures Holds(map[], w, 0, fill, base)
  {
  }

  lemma OneMoreChunk(before: Cells, after: Cells, w: World, i: nat, fill: Fill, base: Profile)
    requires Spans(w) && i < |w.chunks| && Holds(before, w, i, fill, base)
    requires w.chunks[i] in w.chunks && Scanned(before, after, w.bytes, w.chunks[i], w.Ceiling(), fill, base)
    ensures Holds(after, w, i + 1, fill, base)
  {
    hide HoldsAt, Kept, VoxelAt;
    var n := i + 1;
    forall p
      ensures HoldsAt(after, w, n, fill, base, p)
    {
      OneMoreAt(before, after, w, i, fill, base, p);
    }
  }

  lemma OneMoreAt(before: Cells, after: Cells, w: World, i: nat, fill: Fill, base: Profile, p: Pos)
    requires Spans(w) && i < |w.chunks| && HoldsAt(before, w, i, fill, base, p) && w.chunks[i] in w.chunks
    requires ScannedAt(before, after, Kept(w.bytes, w.chunks[i], w.Ceiling(), fill, base, p), VoxelAt(w.bytes, w.chunks[i], p), p)
    ensures HoldsAt(after, w, i + 1, fill, base, p)
  {
    hide Kept, VoxelAt, Spans, World.Ceiling;
  }

  /** What a client that draws the terrain itself shows at a position. */
  function Drawn(base: Profile, cells: Cells, p: Pos): Block { if p in cells then cells[p] else BaseAt(base, p.y) }

  /** Where one chunk of the file has a position, a client shows just what the file says there, whether the
      whole file was taken in or only what differs from the terrain; taking in blocks alone leaves the
      terrain where the file has none. What differs is the least that does: no cell says what the terrain
      does. */
  lemma FillShows(w: World, cells: Cells, fill: Fill, base: Profile, i: nat, p: Pos)
    requires Spans(w) && Holds(cells, w, |w.chunks|, fill, base) && i < |w.chunks| && InChunk(w.chunks[i], w.Ceiling(), p)
    requires forall j :: 0 <= j < |w.chunks| && j != i ==> !InChunk(w.chunks[j], w.Ceiling(), p)
    ensures w.chunks[i] in w.chunks
    ensures var v := VoxelAt(w.bytes, w.chunks[i], p);
      && Drawn(base, cells, p) == (if fill == Solid && v.kind == AIR then BaseAt(base, p.y) else v)
      && (fill == Full ==> p in cells) && (fill == Solid && p in cells ==> cells[p].kind != AIR)
      && (fill == Diff && p in cells ==> cells[p] != BaseAt(base, p.y))
  {
    hide VoxelAt, World.Ceiling, BaseAt;
    assert w.chunks[i] in w.chunks && HoldsAt(cells, w, |w.chunks|, fill, base, p);
  }
}
