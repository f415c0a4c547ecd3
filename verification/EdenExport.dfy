/**
 The world file writer: header, one block of voxels per chunk filled with base terrain and overlaid
 with the stored cells, the chunk directory, and the signs.
 */
module EdenExport {
  import opened BaseProfile
  import opened BlockRules
  import opened ByteStrings
  import opened EdenFile
  import opened EdenSigns
  import opened SignStore
  import opened SnapzCodec
  import opened Voxels

  const PLANE_CENTRE := 65536
  const NAME_BYTES := 50
  const DEFAULT_MAX_BYTES := 512 * 1024 * 1024

  datatype SignMode = Sidecar | Inline | NoSigns

  /** Header fields the server does not store are given as they go into the file. */
  datatype Options = Options(
    profile: Profile, seed: int32, pos: seq<byte>, home: seq<byte>, yaw: seq<byte>, sky: seq<byte>, name: seq<byte>,
    version: Option<int32>, spawn: Option<(int, int)>, signs: SignMode, forceZ: int, prefer256: bool, maxBytes: nat)
  {
    /** Fixed-size fields have their sizes, and the terrain is of bytes. */
    predicate Valid() {
      |pos| == 12 && |home| == 12 && |yaw| == 4 && |sky| == 16 && ByteProfile(profile) && maxBytes < 0x1_0000_0000_0000_0000
    }
  }

  // --- cells ------------------------------------------------------------------------------------------

  predicate ByteCells(cells: Cells) { forall p :: p in cells ==> 0 <= cells[p].kind < 256 && 0 <= cells[p].color < 256 }

  /** What the file records for a stored cell: air has no paint, and painted base becomes the base's
      own block, or air where there is none. */
  function CellToFile(base: Profile, z: int, b: Block): Block {
    if b.kind == AIR then Block(0, 0)
    else if b.kind == PAINTED_BASE then
      (if BaseAt(base, z).kind == 0 then Block(0, 0) else Block(BaseAt(base, z).kind, b.color))
    else b
  }

  /** The voxel of the file at a server position: file x is x, file y is z, and height is y. */
  function FileVoxel(base: Profile, cells: Cells, p: Pos): Block {
    if p in cells then CellToFile(base, p.y, cells[p]) else BaseAt(base, p.y)
  }

  datatype ChunkKey = ChunkKey(cx: int, cy: int)

  function KeyOf(p: Pos): ChunkKey { ChunkKey(p.x / 16, p.z / 16) }

  predicate InPlane(p: Pos) { IsChunkCoord(p.x / 16) && IsChunkCoord(p.z / 16) }

  predicate InFile(p: Pos, ceiling: int) { InPlane(p) && 0 <= p.y <= ceiling }

  // --- height -----------------------------------------------------------------------------------------

  predicate TallCells(cells: Cells, signs: seq<Sign>) {
    (exists p :: p in cells && p.y > 63) || exists s :: s in signs && s.y > 63
  }

  function Ceiling(cells: Cells, signs: seq<Sign>, opt: Options): (c: int)
    ensures c == 63 || c == 255
  {
    if opt.forceZ == 64 then 63
    else if opt.forceZ == 256 || opt.prefer256 then 255
    else if TallCells(cells, signs) then 255 else 63
  }

  /** The short format is chosen when it is forced, or else when nothing asks for the tall one: it is not
      forced or preferred, and no cell and no sign stands above it. */
  lemma CeilingDecides(cells: Cells, signs: seq<Sign>, opt: Options)
    ensures Ceiling(cells, signs, opt) == 63 <==>
      || opt.forceZ == 64
      || (opt.forceZ != 256 && !opt.prefer256 && (forall p :: p in cells ==> p.y < 64) && forall s :: s in signs ==> s.y < 64)
  {
  }

  /** Unless the short format is forced no cell within the height of the world is cut off. */
  lemma NothingCut(cells: Cells, signs: seq<Sign>, opt: Options, p: Pos)
    requires opt.forceZ != 64 && p in cells
    ensures InFile(p, Ceiling(cells, signs, opt)) <==> InPlane(p) && 0 <= p.y < 256
  {
    hide InPlane;
  }

  method ChooseCeiling(cells: Cells, order: seq<Pos>, signs: seq<Sign>, opt: Options) returns (c: int)
    requires Walks(order, cells)
    ensures c == Ceiling(cells, signs, opt)
  {
    if opt.forceZ == 64 { return 63; }
    if opt.forceZ == 256 || opt.prefer256 { return 255; }
    var tall := false;
    for i := 0 to |order|
      invariant tall <==> exists k :: 0 <= k < i && order[k].y > 63
    {
      if order[i].y > 63 { tall := true; }
    }
    assert tall <==> exists p :: p in cells && p.y > 63 by {
      if tall { var k :| 0 <= k < |order| && order[k].y > 63; assert order[k] in order; }
    }
    for i := 0 to |signs|
      invariant tall <==> (exists p :: p in cells && p.y > 63) || exists k :: 0 <= k < i && signs[k].y > 63
    {
      if signs[i].y > 63 { tall := true; }
    }
    assert (exists k :: 0 <= k < |signs| && signs[k].y > 63) <==> exists s :: s in signs && s.y > 63;
    return if tall then 255 else 63;
  }

  function SizeFor(ceiling: int): int { (ceiling + 1) / 16 * BAND }

  /** The version a header says: a replayed one only where it agrees with the height written. */
  function VersionFor(replay: Option<int32>, ceiling: int): int32 {
    var tall := ceiling == 255;
    if replay.Some? && ((replay.value >= 5) == tall) then replay.value else if tall then 5 else 4
  }

  /** The version always tells a reader the height: 5 and over for the tall format only. */
  lemma {:induction false} VersionTells(replay: Option<int32>, ceiling: int)
    ensures VersionFor(replay, ceiling) >= 5 <==> ceiling == 255
    ensures replay.Some? && (VersionFor(replay, ceiling) != replay.value) ==> ((replay.value >= 5) != (ceiling == 255))
  {
  }

  // --- signs ------------------------------------------------------------------------------------------

  function TextBytes(s: string): (r: seq<byte>)
    ensures |r| == |s|
  {
    seq(|s|, i requires 0 <= i < |s| => (s[i] as int % 256) as byte)
  }

  function SignToFile(s: Sign, ceiling: int): Option<EdenSign>
    requires ceiling <= 255
  {
    if s.x < 0 || s.z < 0 || s.y < 0 || s.y > ceiling then None
    else if !IsChunkCoord(s.x / 16) || !IsChunkCoord(s.z / 16) || !FitsInt(s.a) || !FitsInt(s.b) || !FitsInt(s.c) then None
    else
      Some(EdenSign(s.x as int32, s.z as int32, s.y as int32, s.a as int32, s.b as int32, s.c as int32, TextBytes(Sanitize(s.text, TEXT_MAX))))
  }

  /** The signs the file can say, in order. */
  function FileSigns(signs: seq<Sign>, ceiling: int): (r: seq<EdenSign>)
    requires ceiling <= 255
    ensures |r| <= |signs|
  {
    if signs == [] then []
    else
      var f := SignToFile(signs[|signs| - 1], ceiling);
      FileSigns(signs[..|signs| - 1], ceiling) + if f.Some? then [f.value] else []
  }

  /** As many of them as a file may hold. */
  function FirstSigns(es: seq<EdenSign>): seq<EdenSign> { if |es| > EdenSigns.MAX_SIGNS then es[..EdenSigns.MAX_SIGNS] else es }

  method SignsToFile(signs: seq<Sign>, ceiling: int) returns (out: seq<EdenSign>, dropped: nat)
    requires ceiling <= 255
    ensures out == FirstSigns(FileSigns(signs, ceiling)) && |out| + dropped == |signs|
  {
    out, dropped := [], 0;
    for i := 0 to |signs|
      invariant |out| + dropped == i && out == FirstSigns(FileSigns(signs[..i], ceiling))
    {
      assert signs[..i + 1][..i] == signs[..i];
      if |out| >= EdenSigns.MAX_SIGNS {
        dropped := dropped + 1;
      } else {
        var f := SignToFile(signs[i], ceiling);
        if f.Some? { out := out + [f.value]; } else { dropped := dropped + 1; }
      }
    }
    assert signs[..|signs|] == signs;
  }

  // --- the chunk set ----------------------------------------------------------------------------------

  predicate Before(a: ChunkKey, b: ChunkKey) { a.cx < b.cx || (a.cx == b.cx && a.cy < b.cy) }

  predicate Ascending(keys: seq<ChunkKey>) { forall i, j :: 0 <= i < j < |keys| ==> Before(keys[i], keys[j]) }

  predicate Listed(keys: seq<ChunkKey>) { forall i :: 0 <= i < |keys| ==> IsChunkCoord(keys[i].cx) && IsChunkCoord(keys[i].cy) }

  method InsertKey(keys: seq<ChunkKey>, k: ChunkKey) returns (r: seq<ChunkKey>)
    requires Ascending(keys)
    ensures Ascending(r) && forall x :: x in r <==> x in keys || x == k
  {
    var i := 0;
    while i < |keys| && Before(keys[i], k)
      invariant i <= |keys| && forall j :: 0 <= j < i ==> Before(keys[j], k)
    {
      i := i + 1;
    }
    assert keys == keys[..i] + keys[i..];
    if i < |keys| && keys[i] == k { return keys; }
    r := keys[..i] + [k] + keys[i..];
  }

  /** Cells that land in the file, and those a gate turns away. */
  datatype Counts = Counts(kept: nat, badCoord: nat, badHeight: nat)

  /** Each position counted where it goes. */
  function Sorted(order: seq<Pos>, ceiling: int): (n: Counts)
    ensures n.kept + n.badCoord + n.badHeight == |order|
  {
    if order == [] then Counts(0, 0, 0)
    else
      var n, p := Sorted(order[..|order| - 1], ceiling), order[|order| - 1];
      if !InPlane(p) then n.(badCoord := n.badCoord + 1)
      else if !InFile(p, ceiling) then n.(badHeight := n.badHeight + 1)
      else n.(kept := n.kept + 1)
  }

  /** First pass: the chunks that hold a cell, in order, and the drops. */
  method ChunkSet(order: seq<Pos>, ceiling: int) returns (keys: seq<ChunkKey>, n: Counts)
    ensures Ascending(keys) && forall k :: k in keys <==> exists p :: p in order && InFile(p, ceiling) && KeyOf(p) == k
    ensures n == Sorted(order, ceiling)
  {
    keys, n := [], Counts(0, 0, 0);
    for i := 0 to |order|
      invariant Ascending(keys) && n == Sorted(order[..i], ceiling)
      invariant forall k :: k in keys <==> exists p :: p in order[..i] && InFile(p, ceiling) && KeyOf(p) == k
    {
      var p := order[i];
      assert order[..i + 1] == order[..i] + [p] && order[..i + 1][..i] == order[..i];
      if !InPlane(p) {
        n := n.(badCoord := n.badCoord + 1);
      } else if p.y < 0 || p.y > ceiling {
        n := n.(badHeight := n.badHeight + 1);
      } else {
        keys := InsertKey(keys, KeyOf(p));
        n := n.(kept := n.kept + 1);
      }
    }
    assert order[..|order|] == order;
  }

  /** Where an empty world is anchored. */
  function Anchor(opt: Options): ChunkKey {
    if opt.spawn.Some? && IsChunkCoord(opt.spawn.value.0 / 16) && IsChunkCoord(opt.spawn.value.1 / 16) then
      ChunkKey(opt.spawn.value.0 / 16, opt.spawn.value.1 / 16)
    else ChunkKey(PLANE_CENTRE / 16, PLANE_CENTRE / 16)
  }

  // --- the layout -------------------------------------------------------------------------------------

  function NameField(name: seq<byte>): (r: seq<byte>)
    ensures |r| == NAME_BYTES
  {
    var cut := if |name| > NAME_BYTES - 1 then name[..NAME_BYTES - 1] else name;
    cut + Zeros(NAME_BYTES - |cut|)
  }

  function HeaderStart(opt: Options, dir: nat): (r: seq<byte>)
    requires opt.Valid()
    ensures |r| == 40
  {
    LeBytes(opt.seed) + opt.pos + opt.home + opt.yaw + Le(dir, 8)
  }

  function HeaderEnd(opt: Options, ceiling: int): (r: seq<byte>)
    requires opt.Valid()
    ensures |r| == 152
  {
    NameField(opt.name) + Zeros(2) + LeBytes(VersionFor(opt.version, ceiling)) + Zeros(36) + opt.sky + Zeros(44)
  }

  function HeaderOf(opt: Options, ceiling: int, dir: nat): (r: seq<byte>)
    requires opt.Valid()
    ensures |r| == HEADER_BYTES
  {
    HeaderStart(opt, dir) + HeaderEnd(opt, ceiling)
  }

  function RowBytes(k: ChunkKey, off: nat): (r: seq<byte>)
    requires FitsInt(k.cx) && FitsInt(k.cy)
    ensures |r| == DIR_ENTRY
  {
    LeBytes(k.cx as int32) + LeBytes(k.cy as int32) + Le(off, 8)
  }

  /** Where the i-th chunk's voxels start. */
  function ChunkOff(i: nat, size: nat): (o: nat)
    ensures o >= HEADER_BYTES
  {
    HEADER_BYTES + i * size
  }

  function DirBytes(keys: seq<ChunkKey>, size: nat): (r: seq<byte>)
    requires Listed(keys)
    ensures |r| == DIR_ENTRY * |keys|
  {
    if keys == [] then []
    else DirBytes(keys[..|keys| - 1], size) + RowBytes(keys[|keys| - 1], ChunkOff(|keys| - 1, size))
  }

  function SlotOf(keys: seq<ChunkKey>, k: ChunkKey): (i: nat)
    requires k in keys
    ensures i < |keys| && keys[i] == k
  {
    if keys[0] == k then 0 else 1 + SlotOf(keys[1..], k)
  }

  /** Where a position's type byte is in the file; its paint is half a band on. */
  function TypeIndex(keys: seq<ChunkKey>, size: nat, p: Pos): int
    requires KeyOf(p) in keys
  {
    ChunkOff(SlotOf(keys, KeyOf(p)), size) + TypeOffset(p.x % 16, p.z % 16, p.y)
  }

  predicate Covered(keys: seq<ChunkKey>, ceiling: int, p: Pos) { KeyOf(p) in keys && 0 <= p.y <= ceiling }

  lemma {:induction false} OffsetFits(lx: int, ly: int, z: int, ceiling: int)
    requires 0 <= lx < 16 && 0 <= ly < 16 && 0 <= z <= ceiling && (ceiling == 63 || ceiling == 255)
    ensures 0 <= TypeOffset(lx, ly, z) && TypeOffset(lx, ly, z) + 4096 < SizeFor(ceiling)
    ensures TypeOffset(lx, ly, z) % BAND < 4096
  {
  }

  lemma {:induction false} IndexFits(keys: seq<ChunkKey>, ceiling: int, p: Pos)
    requires Covered(keys, ceiling, p) && (ceiling == 63 || ceiling == 255)
    ensures HEADER_BYTES <= TypeIndex(keys, SizeFor(ceiling), p)
    ensures TypeIndex(keys, SizeFor(ceiling), p) + 4096 < ChunkOff(|keys|, SizeFor(ceiling))
  {
    OffsetFits(p.x % 16, p.z % 16, p.y, ceiling);
    var i := SlotOf(keys, KeyOf(p));
    hide TypeOffset, SlotOf;
    assert (i + 1) * SizeFor(ceiling) <= |keys| * SizeFor(ceiling);
  }

  lemma {:induction false} SlotsApart(i: nat, j: nat, size: nat, a: nat, b: nat)
    requires a < size && b < size && i * size + a == j * size + b
    ensures i == j && a == b
  {
    if i < j { SlotBelow(i, j, size, a, b); }
    if j < i { SlotBelow(j, i, size, b, a); }
  }

  lemma {:induction false} SlotBelow(i: nat, j: nat, size: nat, a: nat, b: nat)
    requires i < j && a < size
    ensures i * size + a < j * size + b
  {
    assert (i + 1) * size <= j * size;
  }

  lemma {:induction false} BandsApart(q: int, r: int, q2: int, r2: int)
    requires 0 <= r < BAND && 0 <= r2 < BAND && q * BAND + r == q2 * BAND + r2
    ensures q == q2 && r == r2
  {
  }

  lemma {:induction false} GridApart(lx: int, ly: int, c: int, lx2: int, ly2: int, c2: int)
    requires 0 <= lx < 16 && 0 <= ly < 16 && 0 <= c < 16 && 0 <= lx2 < 16 && 0 <= ly2 < 16 && 0 <= c2 < 16
    requires lx * 256 + ly * 16 + c == lx2 * 256 + ly2 * 16 + c2
    ensures lx == lx2 && ly == ly2 && c == c2
  {
  }

  lemma {:induction false} OffsetsApart(lx: int, ly: int, z: int, lx2: int, ly2: int, z2: int)
    requires 0 <= lx < 16 && 0 <= ly < 16 && 0 <= z && 0 <= lx2 < 16 && 0 <= ly2 < 16 && 0 <= z2
    requires TypeOffset(lx, ly, z) == TypeOffset(lx2, ly2, z2)
    ensures lx == lx2 && ly == ly2 && z == z2
  {
    BandsApart(z / 16, lx * 256 + ly * 16 + z % 16, z2 / 16, lx2 * 256 + ly2 * 16 + z2 % 16);
    GridApart(lx, ly, z % 16, lx2, ly2, z2 % 16);
  }

  // --- base terrain -----------------------------------------------------------------------------------

  /** The byte of a chunk of pure base terrain at an offset: types in the first half of a band, paint
      in the second. */
  function BaseByte(base: Profile, o: nat): byte
    requires ByteProfile(base)
  {
    var v := BaseAt(base, o / BAND * 16 + o % 16);
    if o % BAND < 4096 then v.kind as byte else v.color as byte
  }

  function BaseChunk(base: Profile, size: nat): (r: seq<byte>)
    requires ByteProfile(base)
    ensures |r| == size && forall o :: 0 <= o < size ==> r[o] == BaseByte(base, o)
  {
    seq(size, o requires 0 <= o < size => BaseByte(base, o))
  }

  /** All bands before this one, and the first t voxels of it, are base terrain. */
  predicate Filled(c: seq<byte>, base: Profile, band: nat, t: nat)
    requires ByteProfile(base) && band * BAND + 4096 + t <= |c|
  {
    && (forall o :: 0 <= o < band * BAND ==> c[o] == BaseByte(base, o))
    && (forall u :: band * BAND <= u < band * BAND + t ==> c[u] == BaseByte(base, u))
    && (forall u :: band * BAND + 4096 <= u < band * BAND + 4096 + t ==> c[u] == BaseByte(base, u))
  }

  lemma {:induction false} BandByte(base: Profile, band: nat, t: nat)
    requires ByteProfile(base) && t < 4096
    ensures BaseByte(base, band * BAND + t) as int == BaseAt(base, band * 16 + t % 16).kind
    ensures BaseByte(base, band * BAND + 4096 + t) as int == BaseAt(base, band * 16 + t % 16).color
  {
    assert (band * BAND + t) / BAND == band && (band * BAND + 4096 + t) / BAND == band;
    assert (band * BAND + t) % 16 == t % 16 && (band * BAND + 4096 + t) % 16 == t % 16;
  }

  method FillVoxel(c: seq<byte>, base: Profile, band: nat, t: nat, lz: nat) returns (d: seq<byte>)
    requires ByteProfile(base) && t < 4096 && lz == t % 16 && (band + 1) * BAND <= |c| && Filled(c, base, band, t)
    ensures |d| == |c| && Filled(d, base, band, t + 1)
  {
    BandByte(base, band, t);
    hide BaseByte;
    var v := BaseAt(base, band * 16 + lz);
    var o := band * BAND + t;
    d := c[o := v.kind as byte][o + 4096 := v.color as byte];
  }

  method FillBand(c: seq<byte>, base: Profile, band: nat) returns (d: seq<byte>)
    requires ByteProfile(base) && (band + 1) * BAND <= |c| && Filled(c, base, band, 0)
    ensures |d| == |c| && Filled(d, base, band, 4096)
  {
    hide Filled;
    d := c;
    for lx := 0 to 16
      invariant |d| == |c| && Filled(d, base, band, lx * 256)
    {
      for ly := 0 to 16
        invariant |d| == |c| && Filled(d, base, band, lx * 256 + ly * 16)
      {
        for lz := 0 to 16
          invariant |d| == |c| && Filled(d, base, band, lx * 256 + ly * 16 + lz)
        {
          d := FillVoxel(d, base, band, lx * 256 + ly * 16 + lz, lz);
        }
      }
    }
  }

  lemma {:induction false} NextBand(c: seq<byte>, base: Profile, band: nat)
    requires ByteProfile(base) && (band + 1) * BAND <= |c| && Filled(c, base, band, 4096)
    ensures forall o :: 0 <= o < (band + 1) * BAND ==> c[o] == BaseByte(base, o)
  {
    hide BaseByte;
  }

  /** One chunk's worth of pure base terrain. */
  method MakeBaseChunk(base: Profile, bands: nat) returns (c: seq<byte>)
    requires ByteProfile(base)
    ensures c == BaseChunk(base, bands * BAND)
  {
    c := Zeros(bands * BAND);
    for band := 0 to bands
      invariant |c| == bands * BAND && forall o :: 0 <= o < band * BAND ==> c[o] == BaseByte(base, o)
    {
      c := FillBand(c, base, band);
      NextBand(c, base, band);
    }
  }

  lemma {:induction false} BaseVoxel(base: Profile, lx: int, ly: int, z: int)
    requires ByteProfile(base) && 0 <= lx < 16 && 0 <= ly < 16 && 0 <= z
    ensures BaseByte(base, TypeOffset(lx, ly, z)) as int == BaseAt(base, z).kind
    ensures BaseByte(base, TypeOffset(lx, ly, z) + 4096) as int == BaseAt(base, z).color
  {
    var t := lx * 256 + ly * 16 + z % 16;
    BandByte(base, z / 16, t);
    assert t % 16 == z % 16;
  }

  // --- the overlay ------------------------------------------------------------------------------------

  /** The two bytes of a position's voxel. */
  predicate VoxelIs(f: seq<byte>, keys: seq<ChunkKey>, size: nat, p: Pos, v: Block)
    requires KeyOf(p) in keys
  {
    var o := TypeIndex(keys, size, p);
    0 <= o && o + 4096 < |f| && f[o] as int == v.kind && f[o + 4096] as int == v.color
  }

  /** Every voxel of every chunk is base terrain, or the stored cell where it is done. */
  ghost predicate Painted(f: seq<byte>, keys: seq<ChunkKey>, ceiling: int, base: Profile, cells: Cells, done: set<Pos>)
    requires done <= cells.Keys && (ceiling == 63 || ceiling == 255)
  {
    forall p :: Covered(keys, ceiling, p) ==>
      VoxelIs(f, keys, SizeFor(ceiling), p, if p in done then CellToFile(base, p.y, cells[p]) else BaseAt(base, p.y))
  }

  /** Different positions have different bytes, and no type byte is a paint byte. */
  lemma {:induction false} IndexApart(keys: seq<ChunkKey>, ceiling: int, p: Pos, q: Pos)
    requires Covered(keys, ceiling, p) && Covered(keys, ceiling, q) && p != q && (ceiling == 63 || ceiling == 255)
    ensures TypeIndex(keys, SizeFor(ceiling), p) != TypeIndex(keys, SizeFor(ceiling), q)
    ensures TypeIndex(keys, SizeFor(ceiling), p) != TypeIndex(keys, SizeFor(ceiling), q) + 4096
  {
    var size := SizeFor(ceiling);
    var i, j := SlotOf(keys, KeyOf(p)), SlotOf(keys, KeyOf(q));
    var a, b := TypeOffset(p.x % 16, p.z % 16, p.y), TypeOffset(q.x % 16, q.z % 16, q.y);
    OffsetFits(p.x % 16, p.z % 16, p.y, ceiling);
    OffsetFits(q.x % 16, q.z % 16, q.y, ceiling);
    if i * size + a == j * size + b {
      SlotsApart(i, j, size, a, b);
      OffsetsApart(p.x % 16, p.z % 16, p.y, q.x % 16, q.z % 16, q.y);
      SamePlace(p, q);
      assert false;
    }
    if i * size + a == j * size + (b + 4096) {
      SlotsApart(i, j, size, a, b + 4096);
      HalfApart(a, b);
      assert false;
    }
  }

  lemma {:induction false} HalfApart(a: int, b: int)
    requires a % BAND < 4096 && b % BAND < 4096
    ensures a != b + 4096
  {
  }

  lemma {:induction false} SamePlace(p: Pos, q: Pos)
    requires KeyOf(p) == KeyOf(q) && p.x % 16 == q.x % 16 && p.z % 16 == q.z % 16 && p.y == q.y
    ensures p == q
  {
    assert p.x == p.x / 16 * 16 + p.x % 16 && p.z == p.z / 16 * 16 + p.z % 16;
    assert q.x == q.x / 16 * 16 + q.x % 16 && q.z == q.z / 16 * 16 + q.z % 16;
  }

  function WithVoxel(f: seq<byte>, o: int, v: Block): (g: seq<byte>)
    requires 0 <= o && o + 4096 < |f| && 0 <= v.kind < 256 && 0 <= v.color < 256
    ensures |g| == |f|
  {
    f[o := v.kind as byte][o + 4096 := v.color as byte]
  }

  lemma {:induction false} ByteVoxel(base: Profile, z: int, b: Block)
    requires ByteProfile(base) && 0 <= b.kind < 256 && 0 <= b.color < 256
    ensures var v := CellToFile(base, z, b); 0 <= v.kind < 256 && 0 <= v.color < 256
  {
  }

  /** Overlaying one cell changes its own voxel and no other. */
  lemma {:induction false} PaintStep(f: seq<byte>, keys: seq<ChunkKey>, ceiling: int, base: Profile, cells: Cells, done: set<Pos>, q: Pos)
    requires done <= cells.Keys && q in cells && (ceiling == 63 || ceiling == 255)
    requires Painted(f, keys, ceiling, base, cells, done) && Covered(keys, ceiling, q)
    requires |f| == ChunkOff(|keys|, SizeFor(ceiling)) && ByteProfile(base) && ByteCells(cells)
    ensures var o := TypeIndex(keys, SizeFor(ceiling), q);
      var v := CellToFile(base, q.y, cells[q]);
      && 0 <= o && o + 4096 < |f| && 0 <= v.kind < 256 && 0 <= v.color < 256
      && Painted(WithVoxel(f, o, v), keys, ceiling, base, cells, done + {q})
  {
    IndexFits(keys, ceiling, q);
    ByteVoxel(base, q.y, cells[q]);
    var size := SizeFor(ceiling);
    var o := TypeIndex(keys, size, q);
    var v := CellToFile(base, q.y, cells[q]);
    var g := WithVoxel(f, o, v);
    hide CellToFile, TypeIndex, SizeFor, ByteProfile, ByteCells;
    forall p | Covered(keys, ceiling, p)
      ensures VoxelIs(g, keys, size, p, if p in done + {q} then CellToFile(base, p.y, cells[p]) else BaseAt(base, p.y))
    {
      assert VoxelIs(f, keys, size, p, if p in done then CellToFile(base, p.y, cells[p]) else BaseAt(base, p.y));
      if p != q {
        IndexApart(keys, ceiling, p, q);
        IndexApart(keys, ceiling, q, p);
      }
    }
  }

  lemma {:induction false} PaintSkip(f: seq<byte>, keys: seq<ChunkKey>, ceiling: int, base: Profile, cells: Cells, done: set<Pos>, q: Pos)
    requires done <= cells.Keys && q in cells && (ceiling == 63 || ceiling == 255)
    requires Painted(f, keys, ceiling, base, cells, done) && !Covered(keys, ceiling, q)
    ensures Painted(f, keys, ceiling, base, cells, done + {q})
  {
    hide VoxelIs;
  }

  /** The store is walked cell by cell, each once. */
  ghost predicate Walks(order: seq<Pos>, cells: Cells) {
    (forall i, j :: 0 <= i < j < |order| ==> order[i] != order[j]) && forall p :: p in order <==> p in cells
  }

  /** Second pass: overlay the stored cells. */
  method Overlay(body: seq<byte>, keys: seq<ChunkKey>, ceiling: int, base: Profile, cells: Cells, order: seq<Pos>)
    returns (f: seq<byte>)
    requires Walks(order, cells) && (ceiling == 63 || ceiling == 255) && ByteProfile(base) && ByteCells(cells)
    requires |body| == ChunkOff(|keys|, SizeFor(ceiling)) && Painted(body, keys, ceiling, base, cells, {})
    requires forall p :: p in order && InFile(p, ceiling) ==> KeyOf(p) in keys
    requires Listed(keys)
    ensures |f| == |body| && f[..HEADER_BYTES] == body[..HEADER_BYTES]
    ensures Painted(f, keys, ceiling, base, cells, cells.Keys)
  {
    f := body;
    ghost var done: set<Pos> := {};
    hide Painted, CellToFile, TypeIndex, ByteProfile, ByteCells, SizeFor;
    for i := 0 to |order|
      invariant |f| == |body| && f[..HEADER_BYTES] == body[..HEADER_BYTES]
      invariant done <= cells.Keys && (forall p :: p in done <==> p in order[..i])
      invariant Painted(f, keys, ceiling, base, cells, done)
    {
      var p := order[i];
      assert order[..i + 1] == order[..i] + [p];
      if InPlane(p) && 0 <= p.y <= ceiling {
        PaintStep(f, keys, ceiling, base, cells, done, p);
        IndexFits(keys, ceiling, p);
        var v := CellToFile(base, p.y, cells[p]);
        var o := TypeIndex(keys, SizeFor(ceiling), p);
        HeaderKept(f, o, v);
        f := WithVoxel(f, o, v);
      } else {
        NotCovered(keys, ceiling, p);
        PaintSkip(f, keys, ceiling, base, cells, done, p);
      }
      done := done + {p};
    }
    assert order[..|order|] == order;
    assert done == cells.Keys;
  }

  lemma {:induction false} NotCovered(keys: seq<ChunkKey>, ceiling: int, p: Pos)
    requires Listed(keys) && !InFile(p, ceiling)
    ensures !Covered(keys, ceiling, p)
  {
    if KeyOf(p) in keys {
      var i :| 0 <= i < |keys| && keys[i] == KeyOf(p);
    }
  }

  lemma {:induction false} HeaderKept(f: seq<byte>, o: int, v: Block)
    requires HEADER_BYTES <= o && o + 4096 < |f| && 0 <= v.kind < 256 && 0 <= v.color < 256
    ensures WithVoxel(f, o, v)[..HEADER_BYTES] == f[..HEADER_BYTES]
  {
  }

  // --- the writer -------------------------------------------------------------------------------------

  /** n copies of a chunk. */
  function Copies(base: seq<byte>, n: nat): (r: seq<byte>)
    ensures |r| == n * |base|
  {
    if n == 0 then [] else Copies(base, n - 1) + base
  }

  lemma {:induction false} CopyAt(base: seq<byte>, n: nat, i: nat, o: nat)
    requires i < n && o < |base|
    ensures i * |base| + o < n * |base| && Copies(base, n)[i * |base| + o] == base[o]
  {
    SlotBelow(i, n, |base|, o, 0);
    if i < n - 1 { SlotBelow(i, n - 1, |base|, o, 0); }
    CopiesStep(base, n);
    hide Copies;
    var k := i * |base| + o;
    if i < n - 1 {
      CopyAt(base, n - 1, i, o);
      assert (Copies(base, n - 1) + base)[k] == Copies(base, n - 1)[k];
    } else {
      assert (Copies(base, n - 1) + base)[k] == base[k - |Copies(base, n - 1)|];
    }
  }

  lemma {:induction false} CopiesStep(base: seq<byte>, n: nat)
    requires n > 0
    ensures Copies(base, n) == Copies(base, n - 1) + base
  {
  }

  /** A header and so many chunks. */
  function Body0(header: seq<byte>, chunk: seq<byte>, n: nat): (f: seq<byte>)
    ensures |f| == |header| + n * |chunk|
  {
    header + Copies(chunk, n)
  }

  lemma {:induction false} CopyByte(header: seq<byte>, chunk: seq<byte>, n: nat, i: nat, o: nat)
    requires i < n && o < |chunk| && |header| == HEADER_BYTES
    ensures ChunkOff(i, |chunk|) + o < |Body0(header, chunk, n)| && Body0(header, chunk, n)[ChunkOff(i, |chunk|) + o] == chunk[o]
  {
    CopyAt(chunk, n, i, o);
  }

  /** Before any cell is overlaid every voxel is base terrain. */
  lemma {:induction false} CopiesPainted(header: seq<byte>, keys: seq<ChunkKey>, ceiling: int, base: Profile, cells: Cells)
    requires ByteProfile(base) && |header| == HEADER_BYTES && (ceiling == 63 || ceiling == 255)
    ensures Painted(Body0(header, BaseChunk(base, SizeFor(ceiling)), |keys|), keys, ceiling, base, cells, {})
  {
    hide VoxelIs, BaseChunk, Body0;
    forall p | Covered(keys, ceiling, p)
      ensures VoxelIs(Body0(header, BaseChunk(base, SizeFor(ceiling)), |keys|), keys, SizeFor(ceiling), p, BaseAt(base, p.y))
    {
      CopyPainted(header, keys, ceiling, base, p);
    }
  }

  lemma {:induction false} CopyPainted(header: seq<byte>, keys: seq<ChunkKey>, ceiling: int, base: Profile, p: Pos)
    requires ByteProfile(base) && |header| == HEADER_BYTES && (ceiling == 63 || ceiling == 255) && Covered(keys, ceiling, p)
    ensures VoxelIs(Body0(header, BaseChunk(base, SizeFor(ceiling)), |keys|), keys, SizeFor(ceiling), p, BaseAt(base, p.y))
  {
    var size := SizeFor(ceiling);
    var c := BaseChunk(base, size);
    var i := SlotOf(keys, KeyOf(p));
    var t := TypeOffset(p.x % 16, p.z % 16, p.y);
    OffsetFits(p.x % 16, p.z % 16, p.y, ceiling);
    BaseVoxel(base, p.x % 16, p.z % 16, p.y);
    hide Body0, BaseByte, TypeOffset, SizeFor, SlotOf, BaseAt, ChunkOff;
    CopyByte(header, c, |keys|, i, t);
    CopyByte(header, c, |keys|, i, t + 4096);
  }

  datatype Exported =
    | File(bytes: seq<byte>, sidecar: seq<byte>, keys: seq<ChunkKey>, ceiling: int, seeded: bool, counts: Counts,
           signs: seq<EdenSign>, signsDropped: nat)
    | TooLarge(total: nat)

  /** The bytes of a written world: header, voxels, directory, signs. */
  ghost predicate IsWorldFile(f: seq<byte>, keys: seq<ChunkKey>, ceiling: int, opt: Options, cells: Cells, trailer: seq<byte>)
    requires opt.Valid() && (ceiling == 63 || ceiling == 255)
  {
    var dir := ChunkOff(|keys|, SizeFor(ceiling));
    && keys != [] && Ascending(keys) && Listed(keys)
    && |f| == dir + DIR_ENTRY * |keys| + |trailer| && f[..HEADER_BYTES] == HeaderOf(opt, ceiling, dir)
    && Painted(f[..dir], keys, ceiling, opt.profile, cells, cells.Keys)
    && f[dir..] == DirBytes(keys, SizeFor(ceiling)) + trailer
  }

  /** The chunks a world file holds: those with a cell in range, or the anchor of an empty world. */
  ghost predicate ChunksFor(keys: seq<ChunkKey>, cells: Cells, ceiling: int, opt: Options) {
    if exists p :: p in cells && InFile(p, ceiling) then
      forall k :: k in keys <==> exists p :: p in cells && InFile(p, ceiling) && KeyOf(p) == k
    else keys == [Anchor(opt)]
  }

  /** The chunks to write, in order, and the cells that land in them. */
  method ChooseChunks(cells: Cells, order: seq<Pos>, ceiling: int, opt: Options) returns (keys: seq<ChunkKey>, n: Counts, seeded: bool)
    requires Walks(order, cells)
    ensures keys != [] && Ascending(keys) && Listed(keys) && ChunksFor(keys, cells, ceiling, opt)
    ensures n == Sorted(order, ceiling)
    ensures seeded == !exists p :: p in cells && InFile(p, ceiling)
    ensures forall p :: p in order && InFile(p, ceiling) ==> KeyOf(p) in keys
  {
    keys, n := ChunkSet(order, ceiling);
    KeysListed(keys, order, ceiling);
    NoKeys(keys, order, ceiling);
    AnchorListed(opt);
    hide InFile, Listed, Ascending, Anchor;
    seeded := keys == [];
    if seeded {
      assert forall p :: p in order && InFile(p, ceiling) ==> KeyOf(p) in keys;
      keys := [Anchor(opt)];
    }
  }

  method Export(cells: Cells, order: seq<Pos>, signs: seq<Sign>, opt: Options) returns (r: Exported)
    requires opt.Valid() && ByteCells(cells) && Walks(order, cells)
    ensures r.File? ==> r.ceiling == Ceiling(cells, signs, opt) && ChunksFor(r.keys, cells, r.ceiling, opt)
    ensures r.File? ==> IsWorldFile(r.bytes, r.keys, r.ceiling, opt, cells, if opt.signs == Inline then Trailer(r.signs) else [])
    ensures r.File? ==> r.signs == (if opt.signs == NoSigns then [] else FirstSigns(FileSigns(signs, r.ceiling)))
    ensures r.File? ==> r.signsDropped == if opt.signs == NoSigns then 0 else |signs| - |r.signs|
    ensures r.File? ==> r.sidecar == if opt.signs == Sidecar && r.signs != [] then Body(r.signs) else []
    ensures r.File? ==> r.counts.kept + r.counts.badCoord + r.counts.badHeight == |cells|
    ensures r.File? ==> r.counts.kept == |set p | p in cells && InFile(p, r.ceiling)|
    ensures r.File? ==> r.counts.badCoord == |set p | p in cells && !InPlane(p)|
    ensures r.File? && opt.forceZ != 64 ==> r.counts.badHeight == |set p | p in cells && InPlane(p) && !(0 <= p.y < 256)|
    ensures r.File? ==> |r.bytes| <= opt.maxBytes
    ensures r.File? ==> r.seeded == !exists p :: p in cells && InFile(p, r.ceiling)
    ensures r.TooLarge? ==> r.total > opt.maxBytes
  {
    hide InFile, InPlane, Sorted, Ceiling, Listed, Ascending, ChunksFor, IsWorldFile, Walks, ByteCells, Trailer, Body, Options.Valid;
    var ceiling := ChooseCeiling(cells, order, signs, opt);
    CountsAre(order, cells, ceiling);
    if opt.forceZ != 64 { NoneCut(cells, signs, opt); }
    var keys, counts, seeded := ChooseChunks(cells, order, ceiling, opt);
    var fileSigns, dropped := [], 0;
    if opt.signs != NoSigns { fileSigns, dropped := SignsToFile(signs, ceiling); }
    var trailer, sidecar := [], [];
    if opt.signs == Inline { trailer := BuildTrailer(fileSigns); }
    if opt.signs == Sidecar && fileSigns != [] { sidecar := BuildBody(fileSigns); }
    var total := ChunkOff(|keys|, SizeFor(ceiling)) + |keys| * DIR_ENTRY + |trailer|;
    if total > opt.maxBytes { return TooLarge(total); }
    var f := WriteAll(cells, order, keys, ceiling, opt, trailer);
    return File(f, sidecar, keys, ceiling, seeded, counts, fileSigns, dropped);
  }

  method WriteAll(cells: Cells, order: seq<Pos>, keys: seq<ChunkKey>, ceiling: int, opt: Options, trailer: seq<byte>) returns (f: seq<byte>)
    requires opt.Valid() && ByteCells(cells) && Walks(order, cells) && (ceiling == 63 || ceiling == 255)
    requires keys != [] && Ascending(keys) && Listed(keys)
    requires forall p :: p in order && InFile(p, ceiling) ==> KeyOf(p) in keys
    ensures IsWorldFile(f, keys, ceiling, opt, cells, trailer)
    ensures |f| == ChunkOff(|keys|, SizeFor(ceiling)) + |keys| * DIR_ENTRY + |trailer|
  {
    hide InFile, Ascending, Listed, Walks, ByteCells, Options.Valid, Painted, HeaderOf, ChunkOff, DirBytes;
    var body := WriteBody(cells, order, keys, ceiling, opt);
    var rows := WriteDirectory(keys, SizeFor(ceiling));
    f := body + rows + trailer;
    Joined3(body, rows, trailer);
  }

  lemma {:induction false} Joined3(a: seq<byte>, b: seq<byte>, c: seq<byte>)
    requires |a| >= HEADER_BYTES
    ensures var f := a + b + c; f[..|a|] == a && f[|a|..] == b + c && f[..HEADER_BYTES] == a[..HEADER_BYTES]
  {
  }

  /** What the counts count: cells in the file, and cells off its plane. */
  lemma {:induction false} CountsAre(order: seq<Pos>, cells: Cells, ceiling: int)
    requires Walks(order, cells)
    ensures var n := Sorted(order, ceiling);
      && n.kept + n.badCoord + n.badHeight == |cells|
      && n.kept == |set p | p in cells && InFile(p, ceiling)|
      && n.badCoord == |set p | p in cells && !InPlane(p)|
      && n.badHeight == |set p | p in cells && InPlane(p) && !InFile(p, ceiling)|
  {
    WalkSize(order, cells);
    SortedAre(order, ceiling);
    CutAre(order, ceiling);
    assert (set p | p in cells && InFile(p, ceiling)) == set p | p in order && InFile(p, ceiling);
    assert (set p | p in cells && !InPlane(p)) == set p | p in order && !InPlane(p);
    assert (set p | p in cells && InPlane(p) && !InFile(p, ceiling)) == set p | p in order && InPlane(p) && !InFile(p, ceiling);
    hide InFile, InPlane;
  }

  lemma {:induction false} SortedAre(order: seq<Pos>, ceiling: int)
    requires forall i, j :: 0 <= i < j < |order| ==> order[i] != order[j]
    ensures Sorted(order, ceiling).kept == |set p | p in order && InFile(p, ceiling)|
    ensures Sorted(order, ceiling).badCoord == |set p | p in order && !InPlane(p)|
  {
    if order == [] {
      assert (set p | p in order && InFile(p, ceiling)) == {} && (set p | p in order && !InPlane(p)) == {};
    } else {
      var front, p := order[..|order| - 1], order[|order| - 1];
      SortedAre(front, ceiling);
      assert order == front + [p] && p !in front;
      assert InFile(p, ceiling) ==> InPlane(p);
      InFileSnoc(front, p, ceiling);
      InPlaneSnoc(front, p);
      hide InFile, InPlane;
    }
  }

  lemma {:induction false} CutAre(order: seq<Pos>, ceiling: int)
    requires forall i, j :: 0 <= i < j < |order| ==> order[i] != order[j]
    ensures Sorted(order, ceiling).badHeight == |set p | p in order && InPlane(p) && !InFile(p, ceiling)|
  {
    hide InFile, InPlane;
    if order == [] {
      assert (set p | p in order && InPlane(p) && !InFile(p, ceiling)) == {};
    } else {
      var front, p := order[..|order| - 1], order[|order| - 1];
      CutAre(front, ceiling);
      assert order == front + [p] && p !in front;
      CutSnoc(front, p, ceiling);
    }
  }

  lemma {:induction false} CutSnoc(front: seq<Pos>, p: Pos, ceiling: int)
    requires p !in front
    ensures |set q | q in front + [p] && InPlane(q) && !InFile(q, ceiling)| ==
      |set q | q in front && InPlane(q) && !InFile(q, ceiling)| + if InPlane(p) && !InFile(p, ceiling) then 1 else 0
  {
    hide InFile, InPlane;
    var a := set q | q in front && InPlane(q) && !InFile(q, ceiling);
    assert (set q | q in front + [p] && InPlane(q) && !InFile(q, ceiling)) == if InPlane(p) && !InFile(p, ceiling) then a + {p} else a;
  }

  lemma NoneCut(cells: Cells, signs: seq<Sign>, opt: Options)
    requires opt.forceZ != 64
    ensures (set p | p in cells && InPlane(p) && !InFile(p, Ceiling(cells, signs, opt))) ==
      set p | p in cells && InPlane(p) && !(0 <= p.y < 256)
  {
    hide InFile, InPlane, Ceiling;
    var c := Ceiling(cells, signs, opt);
    forall p | p in cells
      ensures InPlane(p) ==> (InFile(p, c) <==> 0 <= p.y < 256)
    {
      NothingCut(cells, signs, opt, p);
    }
  }

  lemma {:induction false} InFileSnoc(front: seq<Pos>, p: Pos, ceiling: int)
    requires p !in front
    ensures |set q | q in front + [p] && InFile(q, ceiling)| == |set q | q in front && InFile(q, ceiling)| + if InFile(p, ceiling) then 1 else 0
  {
    hide InFile;
    var a := set q | q in front && InFile(q, ceiling);
    assert (set q | q in front + [p] && InFile(q, ceiling)) == if InFile(p, ceiling) then a + {p} else a;
  }

  lemma {:induction false} InPlaneSnoc(front: seq<Pos>, p: Pos)
    requires p !in front
    ensures |set q | q in front + [p] && !InPlane(q)| == |set q | q in front && !InPlane(q)| + if InPlane(p) then 0 else 1
  {
    hide InPlane;
    var b := set q | q in front && !InPlane(q);
    assert (set q | q in front + [p] && !InPlane(q)) == if InPlane(p) then b else b + {p};
  }

  lemma {:induction false} WalkSize(order: seq<Pos>, cells: Cells)
    requires Walks(order, cells)
    ensures |order| == |cells|
  {
    DistinctSize(order, cells.Keys);
  }

  lemma {:induction false} DistinctSize(s: seq<Pos>, t: set<Pos>)
    requires (forall i, j :: 0 <= i < j < |s| ==> s[i] != s[j]) && forall p :: p in s <==> p in t
    ensures |s| == |t|
  {
    if s == [] {
      assert t == {};
    } else {
      var last := s[|s| - 1];
      assert s == s[..|s| - 1] + [last] && last in s;
      DistinctSize(s[..|s| - 1], t - {last});
    }
  }

  lemma {:induction false} NoKeys(keys: seq<ChunkKey>, order: seq<Pos>, ceiling: int)
    requires forall k :: k in keys ==> exists p :: p in order && InFile(p, ceiling) && KeyOf(p) == k
    ensures (forall p :: p in order ==> !InFile(p, ceiling)) ==> keys == []
  {
    if keys != [] { assert keys[0] in keys; }
  }

  lemma {:induction false} AnchorListed(opt: Options)
    ensures Listed([Anchor(opt)]) && Ascending([Anchor(opt)])
  {
  }

  lemma {:induction false} KeysListed(keys: seq<ChunkKey>, order: seq<Pos>, ceiling: int)
    requires forall k :: k in keys ==> exists p :: p in order && InFile(p, ceiling) && KeyOf(p) == k
    ensures Listed(keys)
  {
    assert forall i :: 0 <= i < |keys| ==> keys[i] in keys;
  }

  method WriteBody(cells: Cells, order: seq<Pos>, keys: seq<ChunkKey>, ceiling: int, opt: Options) returns (f: seq<byte>)
    requires opt.Valid() && ByteCells(cells) && Walks(order, cells) && (ceiling == 63 || ceiling == 255) && Listed(keys)
    requires forall p :: p in order && InFile(p, ceiling) ==> KeyOf(p) in keys
    ensures |f| == ChunkOff(|keys|, SizeFor(ceiling))
    ensures f[..HEADER_BYTES] == HeaderOf(opt, ceiling, |f|) && Painted(f, keys, ceiling, opt.profile, cells, cells.Keys)
  {
    var size := SizeFor(ceiling);
    var chunk := MakeBaseChunk(opt.profile, (ceiling + 1) / 16);
    var header := HeaderOf(opt, ceiling, ChunkOff(|keys|, size));
    hide HeaderOf, Painted, BaseChunk;
    f := header;
    for i := 0 to |keys|
      invariant f == Body0(header, chunk, i)
    {
      f := f + chunk;
    }
    CopiesPainted(header, keys, ceiling, opt.profile, cells);
    f := Overlay(f, keys, ceiling, opt.profile, cells, order);
  }

  method WriteDirectory(keys: seq<ChunkKey>, size: nat) returns (rows: seq<byte>)
    requires Listed(keys)
    ensures rows == DirBytes(keys, size)
  {
    rows := [];
    hide RowBytes;
    for i := 0 to |keys|
      invariant rows == DirBytes(keys[..i], size)
    {
      assert keys[..i + 1][..i] == keys[..i];
      rows := rows + RowBytes(keys[i], ChunkOff(i, size));
    }
    assert keys[..|keys|] == keys;
  }
}
