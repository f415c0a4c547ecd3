/**
 The box a REGION reply covers, the records a cell becomes, and what a scan of a box gives.
 */
module RegionQuery {
  import opened BlockRules
  import opened Voxels
  import opened SnapzCodec

  const CHUNK := 16
  const FRAME_RECORDS := 3000
  const MAX_PAINT := 54

  datatype Box = Box(x0: int, x1: int, z0: int, z1: int) {
    predicate Contains(x: int, z: int) { x0 <= x <= x1 && z0 <= z <= z1 }
  }

  /** Division that truncates toward zero, and its remainder. */
  function TruncDiv(v: int, d: nat): int
    requires d > 0
  {
    if v >= 0 then v / d else -(-v / d)
  }

  function TruncMod(v: int, d: nat): int
    requires d > 0
  {
    v - d * TruncDiv(v, d)
  }

  /** The low edge of the chunk a coordinate lies in, on either side of zero. */
  function SnapChunk(v: int): (c: int)
    ensures c <= v < c + CHUNK && c % CHUNK == 0
  {
    var q := TruncDiv(v, CHUNK);
    var r := if v < 0 && TruncMod(v, CHUNK) != 0 then q - 1 else q;
    r * CHUNK
  }

  /** The box covers everything within the radius on both axes, and reaches less than a chunk further. */
  function RegionBox(x: int, z: int, radius: nat): (b: Box)
    ensures b.Contains(x, z)
    ensures forall i, k :: x - radius <= i <= x + radius && z - radius <= k <= z + radius ==> b.Contains(i, k)
    ensures forall i, k :: b.Contains(i, k) ==> x - radius - CHUNK < i < x + radius + CHUNK && z - radius - CHUNK < k < z + radius + CHUNK
    ensures b.x0 % CHUNK == 0 && (b.x1 + 1) % CHUNK == 0 && b.z0 % CHUNK == 0 && (b.z1 + 1) % CHUNK == 0
  {
    Box(SnapChunk(x - radius), SnapChunk(x + radius) + CHUNK - 1, SnapChunk(z - radius), SnapChunk(z + radius) + CHUNK - 1)
  }

  // --- cells to records ---------------------------------------------------------------------

  const FLAG_SOLID := 0 as int32
  const FLAG_AIR := 1 as int32
  const FLAG_PAINT := 3 as int32

  predicate ByteBlock(b: Block) { 0 <= b.kind < 256 && 0 <= b.color < 256 }

  predicate Paintable(color: int) { 0 < color <= MAX_PAINT }

  function RecAt(p: Pos, flag: int32, kind: int32): Rec
    requires InWorld(p)
  {
    Rec(p.x as int32, p.y as int32, p.z as int32, flag, kind)
  }

  function CellRecords(p: Pos, b: Block): seq<Rec>
    requires InWorld(p) && ByteBlock(b)
  {
    var paint := if Paintable(b.color) then [RecAt(p, FLAG_PAINT, b.color as int32)] else [];
    if b.kind == AIR then [RecAt(p, FLAG_AIR, -1)]
    else if b.kind == PAINTED_BASE then paint
    else [RecAt(p, FLAG_SOLID, b.kind as int32)] + paint
  }

  /** How many records a cell is charged as, counted without making them. */
  function RecordCost(b: Block): nat {
    if b.kind == AIR then 1
    else if b.kind == PAINTED_BASE then if Paintable(b.color) then 1 else 0
    else if Paintable(b.color) then 2 else 1
  }

  lemma CostIsRecords(p: Pos, b: Block)
    requires InWorld(p) && ByteBlock(b)
    ensures |CellRecords(p, b)| == RecordCost(b)
  {
  }

  predicate Names(r: Rec, p: Pos) { r.x as int == p.x && r.y as int == p.y && r.z as int == p.z }

  /** Every record of a cell names that cell. */
  lemma RecordsHere(p: Pos, b: Block)
    requires InWorld(p) && ByteBlock(b)
    ensures forall r :: r in CellRecords(p, b) ==> Names(r, p)
  {
  }

  /** What a client makes of a cell's records: the block and paint it is told, if any. */
  datatype Seen = Seen(kind: Option<int>, paint: Option<int>)

  const UNTOLD := Seen(None, None)

  function Ingest(s: Seen, r: Rec): Seen {
    if r.flag == FLAG_PAINT then s.(paint := Some(r.kind as int))
    else if r.flag == FLAG_AIR then s.(kind := Some(AIR))
    else s.(kind := Some(r.kind as int))
  }

  /** What a client ought to know of a stored cell: its block, unless that is the natural one painted, and
      its paint if it has one that is legal. */
  function Known(b: Block): Seen {
    Seen(if b.kind == PAINTED_BASE then None else Some(b.kind),
         if b.kind != AIR && Paintable(b.color) then Some(b.color) else None)
  }

  /** A cell's records tell a client its block and its paint, in either order of arrival, and never
      put the painted-base sentinel on the wire. */
  lemma RecordsSayCell(p: Pos, b: Block)
    requires InWorld(p) && ByteBlock(b)
    ensures forall r :: r in CellRecords(p, b) ==> Names(r, p) && r.kind != 255
    ensures var rs := CellRecords(p, b);
      && |rs| <= 2
      && (|rs| == 0 ==> Known(b) == UNTOLD)
      && (|rs| == 1 ==> Ingest(UNTOLD, rs[0]) == Known(b))
      && (|rs| == 2 ==> Ingest(Ingest(UNTOLD, rs[0]), rs[1]) == Known(b))
      && (|rs| == 2 ==> Ingest(Ingest(UNTOLD, rs[1]), rs[0]) == Known(b))
  {
  }

  /** What a client that knew s of p knows after these records. */
  function Told(s: Seen, rs: seq<Rec>, p: Pos): Seen
    decreases |rs|
  {
    if rs == [] then s else Told(if Names(rs[0], p) then Ingest(s, rs[0]) else s, rs[1..], p)
  }

  // --- a scan -------------------------------------------------------------------------------

  /** The stored cells a box covers. */
  function InBox(cells: Cells, box: Box): Cells {
    map p | p in cells && box.Contains(p.x, p.z) :: cells[p]
  }

  ghost predicate StoreOk(cells: Cells) {
    forall p :: p in cells ==> InWorld(p) && ByteBlock(cells[p])
  }

  /** The order the store walks the cells of a box in. */
  type Walk = Cells -> seq<Pos>

  ghost predicate Distinct(ps: seq<Pos>) { forall i, j :: 0 <= i < j < |ps| ==> ps[i] != ps[j] }

  /** It walks every cell once. */
  ghost predicate Walks(walk: Walk) {
    (forall cells: Cells, p :: p in walk(cells) <==> p in cells) && forall cells: Cells :: Distinct(walk(cells))
  }

  function Emit(cells: Cells, order: seq<Pos>): seq<Rec>
    requires StoreOk(cells) && forall p :: p in order ==> p in cells
  {
    if order == [] then [] else CellRecords(order[0], cells[order[0]]) + Emit(cells, order[1..])
  }

  /** The records of a fresh scan of a box. */
  ghost function Scan(walk: Walk, cells: Cells, box: Box): seq<Rec>
    requires Walks(walk) && StoreOk(cells)
  {
    var inside := InBox(cells, box);
    Emit(inside, walk(inside))
  }

  /** A write outside the box leaves its scan alone. */
  lemma ScanFrame(walk: Walk, cells: Cells, box: Box, p: Pos, b: Block)
    requires Walks(walk) && StoreOk(cells) && StoreOk(cells[p := b]) && !box.Contains(p.x, p.z)
    ensures Scan(walk, cells[p := b], box) == Scan(walk, cells, box)
  {
    assert InBox(cells[p := b], box) == InBox(cells, box);
  }

  // --- what a client learns from a scan -----------------------------------------------------------

  lemma {:induction false} ToldAppend(s: Seen, a: seq<Rec>, b: seq<Rec>, p: Pos)
    ensures Told(s, a + b, p) == Told(Told(s, a, p), b, p)
    decreases |a|
  {
    if a == [] {
      assert a + b == b;
    } else {
      assert (a + b)[1..] == a[1..] + b;
      ToldAppend(if Names(a[0], p) then Ingest(s, a[0]) else s, a[1..], b, p);
    }
  }

  lemma {:induction false} ToldElsewhere(s: Seen, rs: seq<Rec>, p: Pos)
    requires forall r :: r in rs ==> !Names(r, p)
    ensures Told(s, rs, p) == s
    decreases |rs|
  {
    if rs != [] { ToldElsewhere(s, rs[1..], p); }
  }

  lemma CellTells(p: Pos, b: Block, q: Pos)
    requires InWorld(p) && ByteBlock(b)
    ensures q != p ==> forall s :: Told(s, CellRecords(p, b), q) == s
    ensures q == p ==> Told(UNTOLD, CellRecords(p, b), q) == Known(b)
  {
    RecordsHere(p, b);
    if q != p {
      forall s
        ensures Told(s, CellRecords(p, b), q) == s
      {
        ToldElsewhere(s, CellRecords(p, b), q);
      }
    } else {
      var rs := CellRecords(p, b);
      RecordsSayCell(p, b);
      if |rs| == 1 {
        assert Told(UNTOLD, rs, q) == Told(Ingest(UNTOLD, rs[0]), [], q);
      } else if |rs| == 2 {
        assert rs[1..] == [rs[1]];
        assert Told(UNTOLD, rs, q) == Told(Ingest(UNTOLD, rs[0]), [rs[1]], q);
      }
    }
  }

  /** Walking cells one after another tells a client each of them, and nothing of any other. */
  lemma {:induction false} EmitTells(cells: Cells, order: seq<Pos>, s: Seen, q: Pos)
    requires StoreOk(cells) && Distinct(order) && forall p :: p in order ==> p in cells
    requires q in order ==> s == UNTOLD
    ensures Told(s, Emit(cells, order), q) == if q in order then Known(cells[q]) else s
    decreases |order|
  {
    hide CellRecords, Known, Told;
    if order == [] {
      assert Told(s, [], q) == s by { NothingTold(s, q); }
    } else {
      var p, rest := order[0], order[1..];
      assert order == [p] + rest && p in order;
      assert p !in rest;
      ToldAppend(s, CellRecords(p, cells[p]), Emit(cells, rest), q);
      CellTells(p, cells[p], q);
      EmitTells(cells, rest, if q == p then Known(cells[q]) else s, q);
    }
  }

  lemma NothingTold(s: Seen, q: Pos)
    ensures Told(s, [], q) == s
  {
  }

  /** A client that takes in a scan knows at every position exactly what is stored there if the box covers
      it, and nothing else. */
  lemma ScanTells(walk: Walk, cells: Cells, box: Box, p: Pos)
    requires Walks(walk) && StoreOk(cells)
    ensures Told(UNTOLD, Scan(walk, cells, box), p) ==
      if p in cells && box.Contains(p.x, p.z) then Known(cells[p]) else UNTOLD
  {
    var inside := InBox(cells, box);
    EmitTells(inside, walk(inside), UNTOLD, p);
  }
}
