/**
 What one burn does, as a function of the world, the protected cells and the visit budget.

 A burn is a sequence of per-cell operations (a blast sample, a fill cell, a ramp-ring cell, a
 lighting pass cell) folded over the simulation state by Run. The state keeps the full trace of
 the world accesses: every cell read, every cell asked about, every cell refused and every write.
 */
module Burn {
  import opened BlockRules
  import opened Voxels

  /** The fixed surroundings of a burn. `live` is the server's world, with its cell cap and its
      clipping; otherwise it is the dry run's overlay, which takes every write. */
  datatype Env = Env(live: bool, cap: nat, radius: nat, base: int -> int)

  const MAX_DEPTH := 6
  const EXTENT := 2
  const CHAIN_REACH := 64

  function ExplodeReach(radius: nat): nat { radius * (MAX_DEPTH + 1) }
  function BurnReach(radius: nat): nat { ExplodeReach(radius) + CHAIN_REACH }

  /** Cells one expansion fill may read: its six bounds, the box, the ring with its faces, the box again. */
  const VISITS_PER_FILL := 6 + 150 + 24 * (1 + 4) + 150
  const VISITS_PER_LINK := 1 + 2 * VISITS_PER_FILL

  datatype Node = Node(pos: Pos, depth: nat)
  datatype Link = Link(pos: Pos, kind: int, depth: nat)
  datatype Write = Write(pos: Pos, kind: int, color: int)

  datatype Sim = Sim(
    cells: Cells,
    gets: seq<Pos>, asks: seq<Pos>, denied: seq<Pos>, sets: seq<Write>,
    visits: nat, refused: nat, truncated: nat, explosions: nat, expansions: nat, maxDepth: nat,
    chain: seq<Node>,
    queue: seq<Link>, lit: set<int>, firing: Option<Pos>, refire: bool)

  function Start(cells: Cells): Sim {
    Sim(cells, [], [], [], [], 0, 0, 0, 0, 0, 0, [], [], {}, None, false)
  }

  // --- world access -----------------------------------------------------------------

  function Look(s: Sim, p: Pos): Option<Block> {
    if p in s.cells then Some(s.cells[p]) else None
  }

  function Read(s: Sim, p: Pos): Sim { s.(gets := s.gets + [p]) }

  function Ask(s: Sim, p: Pos, deny: bool): Sim {
    s.(asks := s.asks + [p], denied := if deny then s.denied + [p] else s.denied)
  }

  /** The store keeps 254 for mined cells, so a live write of it is coerced to air. */
  function Stored(env: Env, kind: int, color: int): Block {
    Block(if env.live && kind % 256 == 254 then AIR else kind % 256, color % 256)
  }

  predicate Accepts(env: Env, cells: Cells, p: Pos) {
    env.live && InWorld(p) ==> p in cells || |cells| < env.cap
  }

  function Write1(env: Env, cells: Cells, w: Write): Cells {
    if (env.live && !InWorld(w.pos)) || !Accepts(env, cells, w.pos) then cells
    else cells[w.pos := Stored(env, w.kind, w.color)]
  }

  function Put(env: Env, s: Sim, p: Pos, kind: int, color: int): Sim {
    var w := Write(p, kind, color);
    s.(cells := Write1(env, s.cells, w),
       sets := s.sets + [w],
       refused := if Accepts(env, s.cells, p) then s.refused else s.refused + 1)
  }

  /** The kind a client sees at a cell, or -1 outside the world's height. */
  function SeenKind(env: Env, s: Sim, p: Pos): int {
    if p.y < Y_MIN || p.y >= Y_MAX then -1
    else match Look(s, p)
      case None => env.base(p.y)
      case Some(b) => if b.kind == PAINTED_BASE then env.base(p.y) else b.kind
  }

  function Probe(s: Sim, p: Pos): Sim {
    var t := s.(visits := s.visits + 1);
    if p.y < Y_MIN || p.y >= Y_MAX then t else Read(t, p)
  }

  // --- one cell of a blast or a fill ------------------------------------------------

  datatype Op =
    | Sample(pos: Pos, color: int, depth: nat)
    | FillCell(pos: Pos, material: int, color: int, depth: nat)
    | RingCell(pos: Pos, ramp: int, color: int, depth: nat)
    | LightCell(pos: Pos, depth: nat)

  function Abs(n: int): nat { if n < 0 then -n else n }

  function Max(a: nat, b: nat): nat { if a < b then b else a }

  /** p is within n cells of q on every axis. */
  predicate Near(p: Pos, q: Pos, n: int) {
    Abs(p.x - q.x) <= n && Abs(p.y - q.y) <= n && Abs(p.z - q.z) <= n
  }

  /** How far from the root the centre of an expansion may be. */
  function LinkReach(env: Env): int { BurnReach(env.radius) - EXTENT }

  function QueueLink(env: Env, root: Pos, s: Sim, p: Pos, kind: int, depth: nat): Sim {
    if !Near(p, root, LinkReach(env)) then s.(truncated := s.truncated + 1)
    else s.(queue := s.queue + [Link(p, kind, depth)])
  }

  /** Queue an expansion block unless it is already lit; the firing cell is marked for a refire. */
  function Light(env: Env, root: Pos, s: Sim, p: Pos, kind: int, depth: nat, askZone: bool, deny: bool): Sim {
    if s.firing == Some(p) then s.(refire := true)
    else if Key(p) in s.lit then s
    else
      var t := s.(lit := s.lit + {Key(p)});
      var u := if askZone then Ask(t, p, deny) else t;
      if askZone && deny then u else QueueLink(env, root, u, p, kind, depth)
  }

  function PaintSample(env: Env, s: Sim, p: Pos, color: int): Sim {
    match Look(s, p)
    case None => Put(env, s, p, PAINTED_BASE, color)
    case Some(b) =>
      if b.kind == AIR || (b.kind == TNT && b.color == 0) then s else Put(env, s, p, b.kind, color)
  }

  function BreakSample(env: Env, root: Pos, s: Sim, p: Pos, depth: nat): Sim {
    match Look(s, p)
    case None => Put(env, s, p, AIR, 0)
    case Some(b) =>
      if b.kind == AIR then s
      else if b.kind == TNT then s.(chain := s.chain + [Node(p, depth + 1)])
      else if IsExpansion(b.kind) then Light(env, root, s, p, b.kind, depth + 1, false, false)
      else if b.kind == BEDROCK || b.kind == STEEL || b.kind == GOLDEN_CUBE then s
      else Put(env, s, p, AIR, 0)
  }

  function Face(p: Pos, d: nat): Pos
    requires d < 4
  {
    Pos(p.x + FACE_DX[d], p.y, p.z + FACE_DZ[d])
  }

  function ProbeFaces(s: Sim, p: Pos): Sim {
    Probe(Probe(Probe(Probe(s, Face(p, 0)), Face(p, 1)), Face(p, 2)), Face(p, 3))
  }

  function SolidFaces(env: Env, s: Sim, p: Pos): (solid: seq<bool>)
    ensures |solid| == 4
  {
    [FaceSolid(SeenKind(env, s, Face(p, 0)), 0), FaceSolid(SeenKind(env, s, Face(p, 1)), 1),
     FaceSolid(SeenKind(env, s, Face(p, 2)), 2), FaceSolid(SeenKind(env, s, Face(p, 3)), 3)]
  }

  /** One operation on one cell; `deny` is whether that cell is protected. */
  function Step(env: Env, root: Pos, s: Sim, op: Op, deny: bool): Sim {
    match op
    case Sample(p, color, depth) =>
      var a := Ask(s.(visits := s.visits + 1), p, deny);
      if deny then a
      else if color != 0 then PaintSample(env, Read(a, p), p, color)
      else BreakSample(env, root, Read(a, p), p, depth)
    case FillCell(p, material, color, depth) =>
      var t := SeenKind(env, s, p);
      var a := Probe(s, p);
      if t == AIR then
        if material == AIR then a
        else if deny then Ask(a, p, deny)
        else Put(env, Ask(a, p, deny), p, material, color)
      else if t > 0 && IsExpansion(t) then Light(env, root, a, p, t, depth, true, deny)
      else a
    case RingCell(p, ramp, color, depth) =>
      var t := SeenKind(env, s, p);
      var a := Probe(s, p);
      if t == AIR then
        if deny then Ask(a, p, deny)
        else Put(env, ProbeFaces(Ask(a, p, deny), p), p, RampForFaces(ramp, SolidFaces(env, a, p)), color)
      else if t > 0 && IsExpansion(t) then Light(env, root, a, p, t, depth, true, deny)
      else a
    case LightCell(p, depth) =>
      var t := SeenKind(env, s, p);
      var a := Probe(s, p);
      if t > 0 && IsExpansion(t) then Light(env, root, a, p, t, depth, true, deny) else a
  }

  type Protection = Pos -> bool

  function Run(env: Env, root: Pos, prot: Protection, s: Sim, ops: seq<Op>): Sim
    decreases |ops|
  {
    if ops == [] then s
    else Run(env, root, prot, Step(env, root, s, ops[0], prot(ops[0].pos)), ops[1..])
  }

  // --- blasts -----------------------------------------------------------------------

  predicate InSphere(radius: nat, ox: int, oy: int, oz: int) {
    ox * ox + oz * oz + oy * oy <= radius * radius
  }

  function Sampled(p: Pos, color: int, depth: nat): seq<Op> {
    if Y_MIN <= p.y < Y_MAX then [Sample(p, color, depth)] else []
  }

  /** The samples of one column of the sphere: down then up, clipped to the world's height. */
  function Column(n: Node, color: int, radius: nat, oy: nat, x: int, z: int): seq<Op> {
    if !InSphere(radius, x - n.pos.x, oy, z - n.pos.z) then []
    else Sampled(Pos(x, n.pos.y - oy, z), color, n.depth) + Sampled(Pos(x, n.pos.y + oy, z), color, n.depth)
  }

  function ColumnsFrom(n: Node, color: int, radius: nat, oy: nat, x: int, z: int): seq<Op>
    decreases n.pos.z + radius - z
  {
    if z > n.pos.z + radius then []
    else Column(n, color, radius, oy, x, z) + ColumnsFrom(n, color, radius, oy, x, z + 1)
  }

  function RowsFrom(n: Node, color: int, radius: nat, oy: nat, x: int): seq<Op>
    decreases n.pos.x + radius - x
  {
    if x > n.pos.x + radius then []
    else ColumnsFrom(n, color, radius, oy, x, n.pos.z - radius) + RowsFrom(n, color, radius, oy, x + 1)
  }

  function LayersFrom(n: Node, color: int, radius: nat, i: nat): seq<Op>
    decreases radius + 1 - i
  {
    if i > radius then []
    else RowsFrom(n, color, radius, radius - i, n.pos.x - radius) + LayersFrom(n, color, radius, i + 1)
  }

  /** Every sample of one blast, in the order the simulation takes them. */
  function BlastOps(n: Node, color: int, radius: nat): seq<Op> {
    LayersFrom(n, color, radius, 1)
  }

  function CenterColor(s: Sim, p: Pos): int {
    match Look(s, p) case None => 0 case Some(b) => b.color
  }

  function BlastMark(s: Sim, n: Node): Sim {
    s.(explosions := s.explosions + 1, maxDepth := Max(s.maxDepth, n.depth), visits := s.visits + 1, chain := [])
  }

  function BlastStart(env: Env, s: Sim, n: Node): Sim {
    Put(env, Read(BlastMark(s, n), n.pos), n.pos, AIR, 0)
  }

  function Blast(env: Env, root: Pos, prot: Protection, s: Sim, n: Node): Sim {
    Run(env, root, prot, BlastStart(env, s, n), BlastOps(n, CenterColor(s, n.pos), env.radius))
  }

  /** Queue a blast's links, dropping those past the depth guard and counting those past the budget. */
  function Enqueue(work: seq<Node>, chain: seq<Node>, explosions: nat, maxBlasts: nat, truncated: nat): (seq<Node>, nat)
    decreases |chain|
  {
    if chain == [] then (work, truncated)
    else if chain[0].depth > MAX_DEPTH then Enqueue(work, chain[1..], explosions, maxBlasts, truncated)
    else if explosions + |work| < maxBlasts then
      Enqueue(work + [chain[0]], chain[1..], explosions, maxBlasts, truncated)
    else Enqueue(work, chain[1..], explosions, maxBlasts, truncated + 1)
  }

  /** Cells one blast is charged for: its centre and both samples of every column of the sphere. */
  function CountZ(radius: nat, oy: nat, ox: int, oz: int): nat
    decreases radius - oz
  {
    if oz > radius then 0 else (if InSphere(radius, ox, oy, oz) then 2 else 0) + CountZ(radius, oy, ox, oz + 1)
  }

  function CountX(radius: nat, oy: nat, ox: int): nat
    decreases radius - ox
  {
    if ox > radius then 0 else CountZ(radius, oy, ox, 0 - radius) + CountX(radius, oy, ox + 1)
  }

  function CountY(radius: nat, oy: nat): nat
    decreases radius - oy
  {
    if oy >= radius then 0 else CountX(radius, oy, 0 - radius) + CountY(radius, oy + 1)
  }

  function VisitsPerBlast(radius: nat): nat { 1 + CountY(radius, 0) }

  // --- fills ------------------------------------------------------------------------

  /** How far a fill grows on each side. */
  datatype Span = Span(left: nat, right: nat, fwd: nat, back: nat, top: nat, bot: nat)

  datatype Pass =
    | BoxPass(material: int, ramp: int, color: int, depth: nat)
    | RingPass(ramp: int, color: int, depth: nat)
    | LightPass(depth: nat)

  predicate Corner(c: Pos, x: int, z: int) {
    Abs(x - c.x) + Abs(z - c.z) == 2 * EXTENT
  }

  /** What a pass does at a cell. A side variant's box leaves its corner columns for the ring. */
  function PassOps(pass: Pass, c: Pos, p: Pos): seq<Op> {
    match pass
    case BoxPass(m, ramp, color, d) => if ramp != 0 && Corner(c, p.x, p.z) then [] else [FillCell(p, m, color, d)]
    case RingPass(ramp, color, d) => if Corner(c, p.x, p.z) then [RingCell(p, ramp, color, d)] else []
    case LightPass(d) => [LightCell(p, d)]
  }

  /** The two cells of one column of the fill at height offset oy: down, then up. */
  function FillColumn(pass: Pass, sp: Span, c: Pos, oy: nat, x: int, z: int): seq<Op> {
    (if c.y - oy > Y_MIN && (pass.LightPass? || oy <= sp.bot) then PassOps(pass, c, Pos(x, c.y - oy, z)) else []) +
    (if c.y + oy < Y_MAX && (pass.LightPass? || oy <= sp.top) then PassOps(pass, c, Pos(x, c.y + oy, z)) else [])
  }

  function FillColumnsFrom(pass: Pass, sp: Span, c: Pos, oy: nat, x: int, z: int): seq<Op>
    decreases c.z + sp.back - z
  {
    if z > c.z + sp.back then []
    else FillColumn(pass, sp, c, oy, x, z) + FillColumnsFrom(pass, sp, c, oy, x, z + 1)
  }

  function FillRowsFrom(pass: Pass, sp: Span, c: Pos, oy: nat, x: int): seq<Op>
    decreases c.x + sp.right - x
  {
    if x > c.x + sp.right then []
    else FillColumnsFrom(pass, sp, c, oy, x, c.z - sp.fwd) + FillRowsFrom(pass, sp, c, oy, x + 1)
  }

  function FillLayersFrom(pass: Pass, sp: Span, c: Pos, i: nat): seq<Op>
    decreases EXTENT + 1 - i
  {
    if i > EXTENT then []
    else FillRowsFrom(pass, sp, c, EXTENT - i, c.x - sp.left) + FillLayersFrom(pass, sp, c, i + 1)
  }

  function PassCells(pass: Pass, sp: Span, c: Pos): seq<Op> { FillLayersFrom(pass, sp, c, 0) }

  predicate SolidAt(env: Env, s: Sim, p: Pos) { SeenKind(env, s, p) > 0 }

  function Grow(env: Env, s: Sim, p: Pos): nat { if SolidAt(env, s, p) then 0 else EXTENT }

  predicate AtTop(c: Pos) { c.y + 1 == Y_MAX }
  predicate AtBottom(c: Pos) { c.y - 1 <= Y_MIN }

  /** A side already against something solid does not grow in that direction. */
  function Bounds(env: Env, s: Sim, c: Pos): Span {
    Span(Grow(env, s, Pos(c.x - 1, c.y, c.z)), Grow(env, s, Pos(c.x + 1, c.y, c.z)),
         Grow(env, s, Pos(c.x, c.y, c.z - 1)), Grow(env, s, Pos(c.x, c.y, c.z + 1)),
         if AtTop(c) then 0 else Grow(env, s, Pos(c.x, c.y + 1, c.z)),
         if AtBottom(c) then 0 else Grow(env, s, Pos(c.x, c.y - 1, c.z)))
  }

  function ProbeBounds(s: Sim, c: Pos): Sim {
    var a := Probe(Probe(Probe(Probe(s, Pos(c.x - 1, c.y, c.z)), Pos(c.x + 1, c.y, c.z)),
                         Pos(c.x, c.y, c.z - 1)), Pos(c.x, c.y, c.z + 1));
    var b := if AtTop(c) then a else Probe(a, Pos(c.x, c.y + 1, c.z));
    if AtBottom(c) then b else Probe(b, Pos(c.x, c.y - 1, c.z))
  }

  const FULL := Span(EXTENT, EXTENT, EXTENT, EXTENT, EXTENT, EXTENT)

  /** One fill: the box, the ramp ring of a side variant, then the lighting pass. */
  function FillOps(sp: Span, c: Pos, kind: int, color: int, depth: nat): seq<Op> {
    var ramp := ExpansionRamp(kind);
    PassCells(BoxPass(ExpansionMaterial(kind), ramp, color, depth + 1), sp, c) +
    (if ramp != 0 then PassCells(RingPass(ramp, color, depth + 1), sp, c) else []) +
    PassCells(LightPass(depth + 1), FULL, c)
  }

  function Fill(env: Env, root: Pos, prot: Protection, s: Sim, c: Pos, kind: int, color: int, depth: nat): Sim {
    Run(env, root, prot, ProbeBounds(s, c), FillOps(Bounds(env, s, c), c, kind, color, depth))
  }

  function FireMark(s: Sim, n: Link): Sim {
    s.(expansions := s.expansions + 1, maxDepth := Max(s.maxDepth, n.depth), visits := s.visits + 1,
       firing := Some(n.pos), refire := false)
  }

  function FireStart(s: Sim, n: Link): Sim { Read(FireMark(s, n), n.pos) }

  /** A lit expansion goes off: its fill, the emptied centre, and a second fill if the first relit it. */
  function Fire(env: Env, root: Pos, prot: Protection, s: Sim, n: Link): Sim {
    var a := Fill(env, root, prot, FireStart(s, n), n.pos, n.kind, CenterColor(s, n.pos), n.depth);
    var b := Put(env, a, n.pos, AIR, 0);
    var c := if b.refire then Fill(env, root, prot, b, n.pos, n.kind, 0, n.depth) else b;
    c.(firing := None)
  }
}
