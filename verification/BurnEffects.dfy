/**
 What a burn does to the world, cell by cell: what one blast leaves of its sphere, which TNT it links,
 and what one fill makes of its box and corners.
 */
module BurnEffects {
  import opened BlockRules
  import opened Burn
  import opened BurnShapes
  import opened BurnSteps
  import opened Voxels

  // --- one operation at its own cell -------------------------------------------------------

  /** The kind a client sees in a cell that holds b, at height y. */
  function Shown(env: Env, b: Option<Block>, y: int): int {
    if y < Y_MIN || y >= Y_MAX then -1
    else match b
      case None => env.base(y)
      case Some(v) => if v.kind == PAINTED_BASE then env.base(y) else v.kind
  }

  /** What a blast does not destroy: it links, lights or leaves these. */
  predicate Spared(kind: int) { kind == TNT || IsExpansion(kind) || kind in {AIR, BEDROCK, STEEL, GOLDEN_CUBE} }

  /** What a blast of this colour leaves in a cell: an uncoloured one destroys, a coloured one paints
      everything but air and plain TNT. */
  function Blown(env: Env, color: int, b: Option<Block>): Option<Block> {
    match b
    case None => Some(if color == 0 then Stored(env, AIR, 0) else Stored(env, PAINTED_BASE, color))
    case Some(v) =>
      if color == 0 then if Spared(v.kind) then b else Some(Stored(env, AIR, 0))
      else if v.kind == AIR || v == Block(TNT, 0) then b else Some(Stored(env, v.kind, color))
  }

  /** What an operation leaves in its cell, by what the cell held and which of its faces are solid. */
  function After(env: Env, op: Op, b: Option<Block>, deny: bool, faces: seq<bool>): Option<Block>
    requires |faces| == 4
  {
    if deny then b
    else match op
      case Sample(_, color, _) => Blown(env, color, b)
      case FillCell(p, m, color, _) => if Shown(env, b, p.y) == AIR && m != AIR then Some(Stored(env, m, color)) else b
      case RingCell(p, ramp, color, _) =>
        if Shown(env, b, p.y) == AIR then Some(Stored(env, RampForFaces(ramp, faces), color)) else b
      case LightCell(_, _) => b
  }

  /** The store takes nothing here: off the map, or nothing is stored here and the world is full. */
  predicate Barred(env: Env, s: Sim, p: Pos) {
    env.live && (InWorld(p) ==> p !in s.cells && |s.cells| >= env.cap)
  }

  /** p is as it was, and the store takes nothing here any more. */
  predicate Stuck(env: Env, s: Sim, t: Sim, p: Pos) { Barred(env, t, p) && Look(t, p) == Look(s, p) }

  /** p took the value v, or nothing at all. */
  predicate Took(env: Env, s: Sim, t: Sim, p: Pos, v: Option<Block>) {
    (Look(t, p) == v || Stuck(env, s, t, p)) && (Barred(env, s, p) ==> Stuck(env, s, t, p))
  }

  /** Stored cells stay stored. */
  ghost predicate More(s: Sim, t: Sim) { s.cells.Keys <= t.cells.Keys && |s.cells| <= |t.cells| }

  lemma PutAt(env: Env, s: Sim, p: Pos, kind: int, color: int, q: Pos)
    ensures var t := Put(env, s, p, kind, color);
      && More(s, t) && (q != p ==> Look(t, q) == Look(s, q))
      && Took(env, s, t, p, Some(Stored(env, kind, color)))
  {
    var t := Put(env, s, p, kind, color);
    if p in s.cells { assert t.cells.Keys == s.cells.Keys; } else if t.cells != s.cells { assert t.cells.Keys == s.cells.Keys + {p}; }
    assert |s.cells| == |s.cells.Keys| && |t.cells| == |t.cells.Keys|;
  }

  lemma TookSame(env: Env, s: Sim, t: Sim, p: Pos)
    requires s.cells == t.cells
    ensures Took(env, s, t, p, Look(s, p))
  {
  }

  /** Something else happened first. */
  lemma TookLater(env: Env, s: Sim, u: Sim, t: Sim, p: Pos, v: Option<Block>)
    requires More(s, u) && Look(u, p) == Look(s, p) && Took(env, u, t, p, v)
    ensures Took(env, s, t, p, v)
  {
  }

  /** Something else happened afterwards. */
  lemma TookBefore(env: Env, s: Sim, u: Sim, t: Sim, p: Pos, v: Option<Block>)
    requires More(u, t) && Took(env, s, u, p, v) && Took(env, u, t, p, Look(u, p))
    ensures Took(env, s, t, p, v)
  {
  }

  lemma LightKeepsCells(env: Env, root: Pos, s: Sim, p: Pos, kind: int, depth: nat, ask: bool, deny: bool)
    ensures Light(env, root, s, p, kind, depth, ask, deny).cells == s.cells
  {
  }

  /** One operation changes its own cell only, and that cell as After says unless the store is full. */
  lemma StepAt(env: Env, root: Pos, s: Sim, op: Op, deny: bool, q: Pos)
    ensures var t := Step(env, root, s, op, deny);
      && More(s, t) && (q != op.pos ==> Look(t, q) == Look(s, q))
      && Took(env, s, t, op.pos, After(env, op, Look(s, op.pos), deny, SolidFaces(env, s, op.pos)))
  {
    hide Put, Light, RampForFaces, Barred, SolidFaces, PaintSample, BreakSample, Stored, Blown, ProbeFaces, IsExpansion;
    var p := op.pos;
    SeenIsShown(env, s, p);
    var a := Probe(s, p);
    TookSame(env, s, a, p);
    TookSame(env, s, Ask(a, p, deny), p);
    match op {
      case Sample(_, color, depth) =>
        var v := Ask(s.(visits := s.visits + 1), p, deny);
        TookSame(env, s, v, p);
        SampleAt(env, root, Read(v, p), p, color, depth, q);
        if !deny { TookLater(env, s, Read(v, p), Step(env, root, s, op, deny), p, Blown(env, color, Look(s, p))); }
      case FillCell(_, material, color, depth) =>
        PutAt(env, Ask(a, p, deny), p, material, color, q);
        BarredSame(env, s, Ask(a, p, deny), p);
        LightKeepsCells(env, root, a, p, SeenKind(env, s, p), depth, true, deny);
        TookSame(env, s, Light(env, root, a, p, SeenKind(env, s, p), depth, true, deny), p);
      case RingCell(_, ramp, color, depth) =>
        RingAt(env, s, p, ramp, color, deny, q);
        LightKeepsCells(env, root, a, p, SeenKind(env, s, p), depth, true, deny);
        TookSame(env, s, Light(env, root, a, p, SeenKind(env, s, p), depth, true, deny), p);
      case LightCell(_, depth) =>
        LightKeepsCells(env, root, a, p, SeenKind(env, s, p), depth, true, deny);
        TookSame(env, s, Light(env, root, a, p, SeenKind(env, s, p), depth, true, deny), p);
    }
  }

  lemma SeenIsShown(env: Env, s: Sim, p: Pos)
    ensures SeenKind(env, s, p) == Shown(env, Look(s, p), p.y)
    ensures Look(Probe(s, p), p) == Look(s, p) && Probe(s, p).cells == s.cells
  {
  }

  lemma BarredSame(env: Env, s: Sim, t: Sim, p: Pos)
    requires s.cells == t.cells
    ensures Barred(env, s, p) == Barred(env, t, p)
  {
  }

  lemma SampleAt(env: Env, root: Pos, s: Sim, p: Pos, color: int, depth: nat, q: Pos)
    ensures var t := if color != 0 then PaintSample(env, s, p, color) else BreakSample(env, root, s, p, depth);
      && More(s, t) && (q != p ==> Look(t, q) == Look(s, q))
      && Took(env, s, t, p, Blown(env, color, Look(s, p)))
  {
    hide Put, Light;
    PutAt(env, s, p, if color != 0 then PAINTED_BASE else AIR, color, q);
    match Look(s, p) {
      case None =>
      case Some(b) =>
        PutAt(env, s, p, b.kind, color, q);
        LightKeepsCells(env, root, s, p, b.kind, depth + 1, false, false);
    }
  }

  lemma RingAt(env: Env, s: Sim, p: Pos, ramp: int, color: int, deny: bool, q: Pos)
    ensures var a := Probe(s, p);
      var faces := SolidFaces(env, s, p);
      var t := Put(env, ProbeFaces(Ask(a, p, deny), p), p, RampForFaces(ramp, SolidFaces(env, a, p)), color);
      && More(s, t) && (q != p ==> Look(t, q) == Look(s, q))
      && Took(env, s, t, p, Some(Stored(env, RampForFaces(ramp, faces), color)))
  {
    var a := Probe(s, p);
    FacesSame(env, s, a, p);
    var b := ProbeFaces(Ask(a, p, deny), p);
    assert b.cells == s.cells;
    hide Put, RampForFaces, Barred, SolidFaces, Probe, ProbeFaces, Ask;
    BarredSame(env, s, b, p);
    PutAt(env, b, p, RampForFaces(ramp, SolidFaces(env, a, p)), color, q);
  }

  lemma FacesSame(env: Env, s: Sim, t: Sim, p: Pos)
    requires s.cells == t.cells
    ensures SolidFaces(env, s, p) == SolidFaces(env, t, p)
  {
  }

  // --- a run of operations at one cell --------------------------------------------------------

  /** What a burn asks for: materials and ramps that are neither air nor painted terrain. */
  predicate Plain(op: Op) {
    match op
    case FillCell(_, m, _, _) => 0 <= m < 100
    case RingCell(_, ramp, _, _) => ramp in {STONE_RAMP1, WOOD_RAMP1, ICE_RAMP1, SHINGLE_RAMP1}
    case _ => true
  }

  lemma AfterTwice(env: Env, op: Op, b: Option<Block>, deny: bool, faces: seq<bool>)
    requires |faces| == 4 && Plain(op)
    ensures After(env, op, After(env, op, b, deny, faces), deny, faces) == After(env, op, b, deny, faces)
  {
    if op.RingCell? { RampPlain(op.ramp, faces); }
    hide RampForFaces;
  }

  lemma RampPlain(ramp: int, faces: seq<bool>)
    requires |faces| == 4 && ramp in {STONE_RAMP1, WOOD_RAMP1, ICE_RAMP1, SHINGLE_RAMP1}
    ensures 0 < RampForFaces(ramp, faces) < 100
  {
  }

  /** No operation of the list writes next to o. */
  ghost predicate Clear(ops: seq<Op>, o: Op) {
    o.RingCell? ==> forall op :: op in ops ==> Aside(op.pos, o.pos)
  }

  predicate Aside(q: Pos, p: Pos) { q != Face(p, 0) && q != Face(p, 1) && q != Face(p, 2) && q != Face(p, 3) }

  /** o is the only operation the list has at its cell. */
  ghost predicate Only(ops: seq<Op>, o: Op) { forall op :: op in ops && op.pos == o.pos ==> op == o }

  /** A run leaves in a cell what its operation there makes of it, however often it comes round. */
  ghost predicate RanAt(env: Env, prot: Protection, s: Sim, t: Sim, o: Op, ran: bool) {
    Took(env, s, t, o.pos, if ran then After(env, o, Look(s, o.pos), prot(o.pos), SolidFaces(env, s, o.pos)) else Look(s, o.pos))
  }

  lemma {:induction false} RunAt(env: Env, root: Pos, prot: Protection, s: Sim, ops: seq<Op>, o: Op)
    requires Only(ops, o) && Plain(o) && Clear(ops, o)
    ensures var t := Run(env, root, prot, s, ops);
      More(s, t) && RanAt(env, prot, s, t, o, o in ops)
    decreases |ops|
  {
    if ops != [] {
      var u := Step(env, root, s, ops[0], prot(ops[0].pos));
      var t := Run(env, root, prot, u, ops[1..]);
      assert Run(env, root, prot, s, ops) == t && (o in ops <==> o == ops[0] || o in ops[1..]);
      RunTail(ops, o);
      hide Run, Step, After, SolidFaces, Plain, Only, Clear, Barred, RanAt, Aside, Look, More;
      RunAt(env, root, prot, u, ops[1..], o);
      FirstAt(env, root, prot, s, ops[0], o);
      if ops[0] == o { HereFirst(env, prot, s, u, t, o, o in ops[1..]); } else { ElseFirst(env, prot, s, u, t, o, o in ops[1..]); }
    }
  }

  lemma RunTail(ops: seq<Op>, o: Op)
    requires ops != [] && Only(ops, o) && Clear(ops, o)
    ensures Only(ops[1..], o) && Clear(ops[1..], o)
    ensures o.RingCell? ==> Aside(ops[0].pos, o.pos)
    ensures ops[0].pos == o.pos ==> ops[0] == o
  {
    hide Aside;
  }

  /** What the first operation of a run does at the cell of o. */
  lemma FirstAt(env: Env, root: Pos, prot: Protection, s: Sim, op: Op, o: Op)
    requires (o.RingCell? ==> Aside(op.pos, o.pos)) && (op.pos == o.pos ==> op == o)
    ensures var u := Step(env, root, s, op, prot(op.pos));
      && More(s, u) && (op != o ==> Look(u, o.pos) == Look(s, o.pos)) && (op == o ==> Stepped(env, prot, s, u, o))
      && (o.RingCell? ==> SolidFaces(env, u, o.pos) == SolidFaces(env, s, o.pos))
  {
    hide Step, After, SolidFaces, Aside, Barred;
    StepAt(env, root, s, op, prot(op.pos), o.pos);
    if o.RingCell? { FacesKept(env, root, s, op, prot(op.pos), o.pos); }
  }

  ghost predicate Stepped(env: Env, prot: Protection, s: Sim, u: Sim, o: Op) {
    Took(env, s, u, o.pos, After(env, o, Look(s, o.pos), prot(o.pos), SolidFaces(env, s, o.pos)))
  }

  lemma FacesIdle(env: Env, o: Op, b: Option<Block>, deny: bool, f: seq<bool>, g: seq<bool>)
    requires |f| == 4 && |g| == 4 && (o.RingCell? ==> f == g)
    ensures After(env, o, b, deny, f) == After(env, o, b, deny, g)
  {
  }

  lemma FacesKept(env: Env, root: Pos, s: Sim, op: Op, deny: bool, p: Pos)
    requires Aside(op.pos, p)
    ensures SolidFaces(env, Step(env, root, s, op, deny), p) == SolidFaces(env, s, p)
  {
    StepAt(env, root, s, op, deny, Face(p, 0));
    StepAt(env, root, s, op, deny, Face(p, 1));
    StepAt(env, root, s, op, deny, Face(p, 2));
    StepAt(env, root, s, op, deny, Face(p, 3));
    hide Step, After;
  }

  /** o ran now; whatever it does again later changes nothing. */
  lemma HereFirst(env: Env, prot: Protection, s: Sim, u: Sim, t: Sim, o: Op, again: bool)
    requires Plain(o) && More(s, u) && More(u, t) && Stepped(env, prot, s, u, o)
    requires o.RingCell? ==> SolidFaces(env, u, o.pos) == SolidFaces(env, s, o.pos)
    requires RanAt(env, prot, u, t, o, again)
    ensures More(s, t) && RanAt(env, prot, s, t, o, true)
  {
    var p := o.pos;
    var f, g := SolidFaces(env, s, p), SolidFaces(env, u, p);
    AfterTwice(env, o, Look(s, p), prot(p), f);
    FacesIdle(env, o, Look(u, p), prot(p), f, g);
    hide After, SolidFaces;
  }

  lemma ElseFirst(env: Env, prot: Protection, s: Sim, u: Sim, t: Sim, o: Op, later: bool)
    requires More(s, u) && More(u, t) && Look(u, o.pos) == Look(s, o.pos)
    requires o.RingCell? ==> SolidFaces(env, u, o.pos) == SolidFaces(env, s, o.pos)
    requires RanAt(env, prot, u, t, o, later)
    ensures More(s, t) && RanAt(env, prot, s, t, o, later)
  {
    var f, g := SolidFaces(env, s, o.pos), SolidFaces(env, u, o.pos);
    FacesIdle(env, o, Look(s, o.pos), prot(o.pos), f, g);
    hide After, SolidFaces, Took, Look;
    TookLater(env, s, u, t, o.pos, if later then After(env, o, Look(u, o.pos), prot(o.pos), g) else Look(u, o.pos));
  }

  // --- what a blast does ------------------------------------------------------------------------

  /** The cell an emptied centre leaves. */
  lemma StartAt(env: Env, s: Sim, n: Node, q: Pos)
    ensures var t := BlastStart(env, s, n);
      && More(s, t) && (q != n.pos ==> Look(t, q) == Look(s, q)) && t.chain == [] && t.lit == s.lit && t.firing == s.firing
      && Took(env, s, t, n.pos, Some(Stored(env, AIR, 0)))
  {
    var m := Read(BlastMark(s, n), n.pos);
    PutAt(env, m, n.pos, AIR, 0, q);
    hide Barred, Stored, Took;
    TookLater(env, s, m, BlastStart(env, s, n), n.pos, Some(Stored(env, AIR, 0)));
  }

  lemma BlastOnly(n: Node, color: int, radius: nat, p: Pos)
    ensures Only(BlastOps(n, color, radius), Sample(p, color, n.depth))
    ensures Sample(p, color, n.depth) in BlastOps(n, color, radius) <==> InBlast(n, radius, p)
  {
    hide BlastOps;
    BlastAll(n, color, radius);
    BlastExact(n, color, radius, p);
  }

  ghost predicate Samples(ops: seq<Op>, color: int, depth: nat) { forall op :: op in ops ==> op == Sample(op.pos, color, depth) }

  lemma BlastAll(n: Node, color: int, radius: nat)
    ensures Samples(BlastOps(n, color, radius), color, n.depth)
  {
    LayersSamples(n, color, radius, 1);
  }

  /** A blast changes every unprotected cell of its sphere as its colour says, empties its centre, and
      changes nothing else. A cell the store takes nothing for stays as it is. */
  lemma BlastEffect(env: Env, root: Pos, prot: Protection, s: Sim, n: Node, p: Pos)
    requires p != n.pos
    ensures var t := Blast(env, root, prot, s, n);
      Took(env, s, t, p, if InBlast(n, env.radius, p) && !prot(p) then Blown(env, CenterColor(s, n.pos), Look(s, p)) else Look(s, p))
  {
    hide InBlast, BlastOps, Run, BlastStart, Blown, Barred, CenterColor, SolidFaces;
    var color := CenterColor(s, n.pos);
    var o := Sample(p, color, n.depth);
    StartAt(env, s, n, p);
    BlastOnly(n, color, env.radius, p);
    assert Clear(BlastOps(n, color, env.radius), o);
    RunAt(env, root, prot, BlastStart(env, s, n), BlastOps(n, color, env.radius), o);
    hide Took;
    TookLater(env, s, BlastStart(env, s, n), Blast(env, root, prot, s, n), p,
              if InBlast(n, env.radius, p) && !prot(p) then Blown(env, color, Look(s, p)) else Look(s, p));
  }

  lemma BlastCentre(env: Env, root: Pos, prot: Protection, s: Sim, n: Node)
    ensures var t := Blast(env, root, prot, s, n);
      Took(env, s, t, n.pos, Some(Stored(env, AIR, 0)))
  {
    hide InBlast, BlastOps, Run, BlastStart, CenterColor, SolidFaces;
    var color := CenterColor(s, n.pos);
    var o := Sample(n.pos, color, n.depth);
    StartAt(env, s, n, n.pos);
    BlastOnly(n, color, env.radius, n.pos);
    assert Clear(BlastOps(n, color, env.radius), o);
    RunAt(env, root, prot, BlastStart(env, s, n), BlastOps(n, color, env.radius), o);
  }

  ghost predicate Linked(s: Sim, p: Pos) { exists m :: m in s.chain && m.pos == p }

  predicate HoldsTnt(b: Option<Block>) { b.Some? && b.value.kind == TNT }

  predicate HoldsExpansion(b: Option<Block>) { b.Some? && IsExpansion(b.value.kind) }

  /** p has been lit, or is the block that is firing. */
  predicate Lit(s: Sim, p: Pos) { Key(p) in s.lit || s.firing == Some(p) }

  lemma LinkMore(s: Sim, t: Sim, n: Node, p: Pos)
    requires t.chain == s.chain + [n]
    ensures Linked(t, p) <==> Linked(s, p) || n.pos == p
  {
    if Linked(s, p) { var m :| m in s.chain && m.pos == p; assert m in t.chain; }
    if n.pos == p { assert n in t.chain; }
  }

  /** What one sample links and lights. */
  lemma SampleLinks(env: Env, root: Pos, s: Sim, op: Op, deny: bool, p: Pos)
    requires op.Sample?
    ensures var t := Step(env, root, s, op, deny);
      && (Linked(t, p) <==> Linked(s, p) || (op.pos == p && op.color == 0 && !deny && HoldsTnt(Look(s, p))))
      && (Lit(s, p) ==> Lit(t, p)) && t.firing == s.firing
      && (op.pos == p && op.color == 0 && !deny && HoldsExpansion(Look(s, p)) ==> Lit(t, p))
  {
    hide Put, Linked, IsExpansion;
    var q := op.pos;
    var r := Read(Ask(s.(visits := s.visits + 1), q, deny), q);
    var t := Step(env, root, s, op, deny);
    SameChain(s, r, p);
    if !deny && op.color == 0 && HoldsTnt(Look(s, q)) {
      TntApart();
      LinkMore(r, t, Node(q, op.depth + 1), p);
    } else {
      SampleChain(env, root, r, q, op.color, op.depth);
      SameChain(r, t, p);
    }
    SampleLights(env, root, r, q, op.color, op.depth, p);
  }

  lemma TntApart()
    ensures !IsExpansion(TNT)
  {
  }

  lemma SameChain(s: Sim, t: Sim, p: Pos)
    ensures s.chain == t.chain ==> Linked(s, p) == Linked(t, p)
  {
  }

  lemma SampleChain(env: Env, root: Pos, s: Sim, p: Pos, color: int, depth: nat)
    ensures PaintSample(env, s, p, color).chain == s.chain
    ensures !HoldsTnt(Look(s, p)) ==> BreakSample(env, root, s, p, depth).chain == s.chain
  {
  }

  lemma SampleLights(env: Env, root: Pos, s: Sim, p: Pos, color: int, depth: nat, q: Pos)
    ensures var t := if color != 0 then PaintSample(env, s, p, color) else BreakSample(env, root, s, p, depth);
      && (Lit(s, q) ==> Lit(t, q)) && t.firing == s.firing
      && (p == q && color == 0 && HoldsExpansion(Look(s, p)) ==> Lit(t, q))
  {
  }

  /** A run of uncoloured samples links the TNT it meets and lights the expansion blocks it meets. */
  lemma {:induction false} RunLinks(env: Env, root: Pos, prot: Protection, s: Sim, ops: seq<Op>, color: int, depth: nat, p: Pos)
    requires Samples(ops, color, depth)
    ensures var t := Run(env, root, prot, s, ops);
      var hit := Sample(p, color, depth) in ops && color == 0 && !prot(p);
      && (Linked(t, p) <==> Linked(s, p) || (hit && HoldsTnt(Look(s, p))))
      && (Lit(s, p) ==> Lit(t, p)) && t.firing == s.firing
      && (hit && HoldsExpansion(Look(s, p)) ==> Lit(t, p))
    decreases |ops|
  {
    if ops != [] {
      var op := ops[0];
      assert op in ops && op == Sample(op.pos, color, depth);
      assert Samples(ops[1..], color, depth) && (Sample(p, color, depth) in ops <==> op.pos == p || Sample(p, color, depth) in ops[1..]);
      var t := Step(env, root, s, op, prot(op.pos));
      SampleLinks(env, root, s, op, prot(op.pos), p);
      StepAt(env, root, s, op, prot(op.pos), p);
      RunLinks(env, root, prot, t, ops[1..], color, depth, p);
      if color == 0 { SameKind(env, s, t, op, prot(op.pos), p); }
      hide Step, Linked, Lit, HoldsTnt, HoldsExpansion, Look, Barred, After, SolidFaces;
    }
  }

  /** Uncoloured samples neither make nor destroy TNT and expansion blocks. */
  lemma SameKind(env: Env, s: Sim, t: Sim, op: Op, deny: bool, p: Pos)
    requires op.Sample? && op.color == 0 && More(s, t) && (p != op.pos ==> Look(t, p) == Look(s, p))
    requires Took(env, s, t, op.pos, After(env, op, Look(s, op.pos), deny, SolidFaces(env, s, op.pos)))
    ensures HoldsTnt(Look(t, p)) == HoldsTnt(Look(s, p)) && HoldsExpansion(Look(t, p)) == HoldsExpansion(Look(s, p))
  {
    hide SolidFaces;
  }

  /** An uncoloured blast links exactly the unprotected TNT of its sphere and lights every unprotected
      expansion block in it; a coloured one does neither. */
  lemma BlastLinks(env: Env, root: Pos, prot: Protection, s: Sim, n: Node, p: Pos)
    requires p != n.pos
    ensures var t := Blast(env, root, prot, s, n);
      var hit := CenterColor(s, n.pos) == 0 && InBlast(n, env.radius, p) && !prot(p);
      && (Linked(t, p) <==> hit && HoldsTnt(Look(s, p)))
      && (hit && HoldsExpansion(Look(s, p)) ==> Lit(t, p))
  {
    hide InBlast, BlastOps, Run, BlastStart, Stored, CenterColor, Lit, HoldsTnt, HoldsExpansion;
    var color := CenterColor(s, n.pos);
    StartAt(env, s, n, p);
    BlastOnly(n, color, env.radius, p);
    BlastAll(n, color, env.radius);
    assert !Linked(BlastStart(env, s, n), p);
    hide Linked;
    RunLinks(env, root, prot, BlastStart(env, s, n), BlastOps(n, color, env.radius), color, n.depth, p);
  }

  // --- which cells a fill visits ------------------------------------------------------------------

  predicate InColumn(pass: Pass, sp: Span, c: Pos, oy: nat, p: Pos) {
    || (p.y == c.y - oy && p.y > Y_MIN && (pass.LightPass? || oy <= sp.bot))
    || (p.y == c.y + oy && p.y < Y_MAX && (pass.LightPass? || oy <= sp.top))
  }

  /** The cells a pass visits: the box the fill grew to, or for the lighting pass the whole box. */
  predicate InPass(pass: Pass, sp: Span, c: Pos, p: Pos) {
    && c.x - sp.left <= p.x <= c.x + sp.right && c.z - sp.fwd <= p.z <= c.z + sp.back
    && Abs(p.y - c.y) <= EXTENT && InColumn(pass, sp, c, Abs(p.y - c.y), p)
  }

  lemma ColumnOps(pass: Pass, sp: Span, c: Pos, oy: nat, x: int, z: int, op: Op)
    ensures op in FillColumn(pass, sp, c, oy, x, z) <==>
      op.pos.x == x && op.pos.z == z && InColumn(pass, sp, c, oy, op.pos) && op in PassOps(pass, c, op.pos)
  {
    PassPos(pass, c, Pos(x, c.y - oy, z), op);
    PassPos(pass, c, Pos(x, c.y + oy, z), op);
    hide PassOps;
  }

  lemma PassPos(pass: Pass, c: Pos, p: Pos, op: Op)
    ensures op in PassOps(pass, c, p) ==> op.pos == p
  {
  }

  lemma {:induction false} ColumnsOps(pass: Pass, sp: Span, c: Pos, oy: nat, x: int, z: int, op: Op)
    ensures op in FillColumnsFrom(pass, sp, c, oy, x, z) <==>
      op.pos.x == x && z <= op.pos.z <= c.z + sp.back && InColumn(pass, sp, c, oy, op.pos) && op in PassOps(pass, c, op.pos)
    decreases c.z + sp.back - z
  {
    if z <= c.z + sp.back {
      ColumnOps(pass, sp, c, oy, x, z, op);
      hide FillColumn, InColumn, PassOps;
      ColumnsOps(pass, sp, c, oy, x, z + 1, op);
    }
  }

  lemma {:induction false} RowsOps(pass: Pass, sp: Span, c: Pos, oy: nat, x: int, op: Op)
    ensures op in FillRowsFrom(pass, sp, c, oy, x) <==>
      x <= op.pos.x <= c.x + sp.right && c.z - sp.fwd <= op.pos.z <= c.z + sp.back &&
      InColumn(pass, sp, c, oy, op.pos) && op in PassOps(pass, c, op.pos)
    decreases c.x + sp.right - x
  {
    if x <= c.x + sp.right {
      ColumnsOps(pass, sp, c, oy, x, c.z - sp.fwd, op);
      hide FillColumnsFrom, InColumn, PassOps;
      RowsOps(pass, sp, c, oy, x + 1, op);
    }
  }

  lemma {:induction false} LayersOps(pass: Pass, sp: Span, c: Pos, i: nat, op: Op)
    ensures op in FillLayersFrom(pass, sp, c, i) <==>
      Abs(op.pos.y - c.y) + i <= EXTENT && InPass(pass, sp, c, op.pos) && op in PassOps(pass, c, op.pos)
    decreases EXTENT + 1 - i
  {
    hide FillLayersFrom, FillRowsFrom, PassOps, InColumn, InPass;
    OneLayer(pass, sp, c, i);
    if i <= EXTENT {
      RowsOps(pass, sp, c, EXTENT - i, c.x - sp.left, op);
      LayerAt(pass, sp, c, i, op.pos);
      LayersOps(pass, sp, c, i + 1, op);
    }
  }

  lemma {:induction false} OneLayer(pass: Pass, sp: Span, c: Pos, i: nat)
    ensures FillLayersFrom(pass, sp, c, i) ==
      if i > EXTENT then [] else FillRowsFrom(pass, sp, c, EXTENT - i, c.x - sp.left) + FillLayersFrom(pass, sp, c, i + 1)
  {
  }

  lemma LayerAt(pass: Pass, sp: Span, c: Pos, i: nat, p: Pos)
    requires i <= EXTENT
    ensures Abs(p.y - c.y) + i == EXTENT && InPass(pass, sp, c, p) <==>
      c.x - sp.left <= p.x <= c.x + sp.right && c.z - sp.fwd <= p.z <= c.z + sp.back && InColumn(pass, sp, c, EXTENT - i, p)
  {
  }

  /** A pass runs exactly its operations at exactly the cells of its box. */
  lemma PassExact(pass: Pass, sp: Span, c: Pos, op: Op)
    ensures op in PassCells(pass, sp, c) <==> InPass(pass, sp, c, op.pos) && op in PassOps(pass, c, op.pos)
  {
    LayersOps(pass, sp, c, 0, op);
    hide FillLayersFrom, PassOps;
  }

  // --- what a fill does ---------------------------------------------------------------------------

  lemma MaterialPlain(kind: int)
    ensures 0 <= ExpansionMaterial(kind) < 100
    ensures ExpansionRamp(kind) != 0 ==> ExpansionRamp(kind) in {STONE_RAMP1, WOOD_RAMP1, ICE_RAMP1, SHINGLE_RAMP1}
  {
  }

  function Box(kind: int, color: int, depth: nat): Pass { BoxPass(ExpansionMaterial(kind), ExpansionRamp(kind), color, depth + 1) }

  function Ring(kind: int, color: int, depth: nat): Pass { RingPass(ExpansionRamp(kind), color, depth + 1) }

  /** The world once the box is filled, when the ramps of the corners are chosen. */
  function Boxed(env: Env, root: Pos, prot: Protection, s: Sim, c: Pos, kind: int, color: int, depth: nat): Sim {
    Run(env, root, prot, ProbeBounds(s, c), PassCells(Box(kind, color, depth), Bounds(env, s, c), c))
  }

  function Ringed(env: Env, root: Pos, prot: Protection, s: Sim, c: Pos, kind: int, color: int, depth: nat): Sim {
    var u := Boxed(env, root, prot, s, c, kind, color, depth);
    if ExpansionRamp(kind) == 0 then u else Run(env, root, prot, u, PassCells(Ring(kind, color, depth), Bounds(env, s, c), c))
  }

  lemma FillParts(env: Env, root: Pos, prot: Protection, s: Sim, c: Pos, kind: int, color: int, depth: nat)
    ensures Fill(env, root, prot, s, c, kind, color, depth) ==
      Run(env, root, prot, Ringed(env, root, prot, s, c, kind, color, depth), PassCells(LightPass(depth + 1), FULL, c))
  {
    var sp := Bounds(env, s, c);
    var a := PassCells(Box(kind, color, depth), sp, c);
    var b := if ExpansionRamp(kind) != 0 then PassCells(Ring(kind, color, depth), sp, c) else [];
    var l := PassCells(LightPass(depth + 1), FULL, c);
    var u := ProbeBounds(s, c);
    RunAppend(env, root, prot, u, a + b, l);
    RunAppend(env, root, prot, u, a, b);
    hide PassCells, ProbeBounds, Bounds, ExpansionRamp, ExpansionMaterial;
  }

  ghost predicate SameBurn(s: Sim, t: Sim) { t.cells == s.cells && t.lit == s.lit && t.firing == s.firing && t.refire == s.refire && t.truncated == s.truncated &&
    t.queue == s.queue && t.denied == s.denied }

  lemma ProbeSame(s: Sim, t: Sim, p: Pos)
    requires SameBurn(s, t)
    ensures SameBurn(s, Probe(t, p))
  {
  }

  lemma ProbeBoundsSame(s: Sim, c: Pos)
    ensures SameBurn(s, ProbeBounds(s, c))
  {
    hide Probe, SameBurn;
    assert SameBurn(s, s) by { SelfSame(s); }
    var a := Probe(s, Pos(c.x - 1, c.y, c.z));
    ProbeSame(s, s, Pos(c.x - 1, c.y, c.z));
    ProbeSame(s, a, Pos(c.x + 1, c.y, c.z));
    var b := Probe(a, Pos(c.x + 1, c.y, c.z));
    ProbeSame(s, b, Pos(c.x, c.y, c.z - 1));
    var d := Probe(b, Pos(c.x, c.y, c.z - 1));
    ProbeSame(s, d, Pos(c.x, c.y, c.z + 1));
    var e := Probe(d, Pos(c.x, c.y, c.z + 1));
    ProbeSame(s, e, Pos(c.x, c.y + 1, c.z));
    var f := if AtTop(c) then e else Probe(e, Pos(c.x, c.y + 1, c.z));
    ProbeSame(s, f, Pos(c.x, c.y - 1, c.z));
  }

  lemma SelfSame(s: Sim)
    ensures SameBurn(s, s)
  {
  }

  /** A pass leaves at p what its operation there makes of it. */
  lemma PassAt(env: Env, root: Pos, prot: Protection, s: Sim, pass: Pass, sp: Span, c: Pos, o: Op)
    requires PassOps(pass, c, o.pos) == [o] && Plain(o) && (o.RingCell? ==> pass.RingPass?)
    ensures var t := Run(env, root, prot, s, PassCells(pass, sp, c));
      More(s, t) && RanAt(env, prot, s, t, o, InPass(pass, sp, c, o.pos))
  {
    var ops := PassCells(pass, sp, c);
    PassExact(pass, sp, c, o);
    forall op | op in ops
      ensures (op.pos == o.pos ==> op == o) && (o.RingCell? ==> Aside(op.pos, o.pos))
    {
      PassExact(pass, sp, c, op);
      if o.RingCell? { CornersApart(pass, c, op.pos, o.pos, op, o); }
    }
    hide PassCells, PassOps, InPass, Aside, Plain, RanAt, More, Run;
    RunAt(env, root, prot, s, ops, o);
  }

  lemma CornersApart(pass: Pass, c: Pos, p: Pos, q: Pos, a: Op, b: Op)
    requires pass.RingPass? && a in PassOps(pass, c, p) && b in PassOps(pass, c, q)
    ensures Aside(p, q)
  {
    assert !Corner(c, q.x + 1, q.z) && !Corner(c, q.x - 1, q.z) && !Corner(c, q.x, q.z + 1) && !Corner(c, q.x, q.z - 1);
  }

  /** A pass with nothing to do at p leaves it alone. */
  lemma PassSkips(env: Env, root: Pos, prot: Protection, s: Sim, pass: Pass, sp: Span, c: Pos, p: Pos)
    requires PassOps(pass, c, p) == []
    ensures var t := Run(env, root, prot, s, PassCells(pass, sp, c));
      More(s, t) && Took(env, s, t, p, Look(s, p))
  {
    var o := LightCell(p, 0);
    var ops := PassCells(pass, sp, c);
    forall op | op in ops
      ensures op.pos != p
    {
      PassExact(pass, sp, c, op);
    }
    hide PassCells, PassOps, Took, More, Run, Look;
    assert o !in ops;
    RunAt(env, root, prot, s, ops, o);
  }

  /** What a fill leaves in a cell: every cell of the box that shows air takes the material, or at the
      corners of a side variant the ramp its faces call for. */
  function Filled(env: Env, sp: Span, c: Pos, kind: int, color: int, p: Pos, b: Option<Block>, deny: bool, faces: seq<bool>): Option<Block>
    requires |faces| == 4
  {
    var ramp, m := ExpansionRamp(kind), ExpansionMaterial(kind);
    if deny || !InPass(RingPass(ramp, 0, 0), sp, c, p) || Shown(env, b, p.y) != AIR then b
    else if ramp != 0 && Corner(c, p.x, p.z) then Some(Stored(env, RampForFaces(ramp, faces), color))
    else if m == AIR then b
    else Some(Stored(env, m, color))
  }

  /** After the box: every cell off the corners of a side variant is as Filled says. */
  lemma BoxedAt(env: Env, root: Pos, prot: Protection, s: Sim, c: Pos, kind: int, color: int, depth: nat, p: Pos, faces: seq<bool>)
    requires |faces| == 4
    ensures var u := Boxed(env, root, prot, s, c, kind, color, depth);
      && More(s, u)
      && Took(env, s, u, p, if ExpansionRamp(kind) != 0 && Corner(c, p.x, p.z) then Look(s, p)
                            else Filled(env, Bounds(env, s, c), c, kind, color, p, Look(s, p), prot(p), faces))
  {
    var sp, s0 := Bounds(env, s, c), ProbeBounds(s, c);
    var pass := Box(kind, color, depth);
    ProbeBoundsSame(s, c);
    MaterialPlain(kind);
    if ExpansionRamp(kind) != 0 && Corner(c, p.x, p.z) {
      PassSkips(env, root, prot, s0, pass, sp, c, p);
      hide ExpansionRamp, ExpansionMaterial, Corner, PassCells, Took, Run, ProbeBounds, Bounds, Filled;
      SameTook(env, s, s0, Boxed(env, root, prot, s, c, kind, color, depth), p, Look(s, p));
    } else {
      var o := FillCell(p, ExpansionMaterial(kind), color, depth + 1);
      PassAt(env, root, prot, s0, pass, sp, c, o);
      FilledBox(env, sp, c, kind, color, depth, p, Look(s, p), prot(p), faces, SolidFaces(env, s0, p));
      hide ExpansionRamp, ExpansionMaterial, Corner, PassCells, Took, Run, ProbeBounds, Bounds, Filled, After, InPass;
      SameTook(env, s, s0, Boxed(env, root, prot, s, c, kind, color, depth), p,
               Filled(env, sp, c, kind, color, p, Look(s, p), prot(p), faces));
    }
  }

  lemma SameTook(env: Env, s: Sim, u: Sim, t: Sim, p: Pos, v: Option<Block>)
    requires u.cells == s.cells && Took(env, u, t, p, v)
    ensures Took(env, s, t, p, v)
  {
  }

  lemma FilledBox(env: Env, sp: Span, c: Pos, kind: int, color: int, depth: nat, p: Pos, b: Option<Block>, deny: bool, f: seq<bool>, g: seq<bool>)
    requires |f| == 4 && |g| == 4 && !(ExpansionRamp(kind) != 0 && Corner(c, p.x, p.z))
    ensures Filled(env, sp, c, kind, color, p, b, deny, f) ==
      if InPass(Box(kind, color, depth), sp, c, p) then After(env, FillCell(p, ExpansionMaterial(kind), color, depth + 1), b, deny, g) else b
  {
    hide ExpansionMaterial, ExpansionRamp, Corner, Stored;
  }

  /** One fill: every cell of the box that shows air takes the material, or at the corners of a side
      variant the ramp the box around it calls for, and no other cell changes. */
  lemma FillEffect(env: Env, root: Pos, prot: Protection, s: Sim, c: Pos, kind: int, color: int, depth: nat, p: Pos)
    ensures var t := Fill(env, root, prot, s, c, kind, color, depth);
      var faces := SolidFaces(env, Boxed(env, root, prot, s, c, kind, color, depth), p);
      More(s, t) && Took(env, s, t, p, Filled(env, Bounds(env, s, c), c, kind, color, p, Look(s, p), prot(p), faces))
  {
    var u := Ringed(env, root, prot, s, c, kind, color, depth);
    RingedAt(env, root, prot, s, c, kind, color, depth, p);
    FillParts(env, root, prot, s, c, kind, color, depth);
    hide Ringed, Fill, Filled, Boxed, SolidFaces, Bounds, PassCells, Took, Run, More;
    var o := LightCell(p, depth + 1);
    PassAt(env, root, prot, u, LightPass(depth + 1), FULL, c, o);
    MoreTrans(s, u, Fill(env, root, prot, s, c, kind, color, depth));
    TookBefore(env, s, u, Fill(env, root, prot, s, c, kind, color, depth), p,
               Filled(env, Bounds(env, s, c), c, kind, color, p, Look(s, p), prot(p), SolidFaces(env, Boxed(env, root, prot, s, c, kind, color, depth), p)));
  }

  lemma MoreTrans(s: Sim, u: Sim, t: Sim)
    requires More(s, u) && More(u, t)
    ensures More(s, t)
  {
  }

  lemma RingedAt(env: Env, root: Pos, prot: Protection, s: Sim, c: Pos, kind: int, color: int, depth: nat, p: Pos)
    ensures var t := Ringed(env, root, prot, s, c, kind, color, depth);
      var faces := SolidFaces(env, Boxed(env, root, prot, s, c, kind, color, depth), p);
      More(s, t) && Took(env, s, t, p, Filled(env, Bounds(env, s, c), c, kind, color, p, Look(s, p), prot(p), faces))
  {
    var sp, ramp := Bounds(env, s, c), ExpansionRamp(kind);
    var u, t := Boxed(env, root, prot, s, c, kind, color, depth), Ringed(env, root, prot, s, c, kind, color, depth);
    var faces := SolidFaces(env, u, p);
    BoxedAt(env, root, prot, s, c, kind, color, depth, p, faces);
    MaterialPlain(kind);
    if ramp != 0 {
      var pass := Ring(kind, color, depth);
      if Corner(c, p.x, p.z) {
        var o := RingCell(p, ramp, color, depth + 1);
        PassAt(env, root, prot, u, pass, sp, c, o);
        FilledRing(env, sp, c, kind, color, depth, p, Look(s, p), prot(p), faces);
        hide Boxed, Ringed, ExpansionRamp, ExpansionMaterial, Corner, PassCells, Run, Bounds, Filled, After, InPass, SolidFaces, More, Took;
        MoreTrans(s, u, t);
        CornerTook(env, s, u, t, p, Filled(env, sp, c, kind, color, p, Look(s, p), prot(p), faces));
      } else {
        PassSkips(env, root, prot, u, pass, sp, c, p);
        hide Boxed, ExpansionRamp, ExpansionMaterial, Corner, PassCells, Run, Bounds, Filled, SolidFaces, More, Took;
        MoreTrans(s, u, t);
        TookBefore(env, s, u, t, p, Filled(env, sp, c, kind, color, p, Look(s, p), prot(p), faces));
      }
    }
  }

  lemma FilledRing(env: Env, sp: Span, c: Pos, kind: int, color: int, depth: nat, p: Pos, b: Option<Block>, deny: bool, faces: seq<bool>)
    requires |faces| == 4 && ExpansionRamp(kind) != 0 && Corner(c, p.x, p.z)
    ensures Filled(env, sp, c, kind, color, p, b, deny, faces) ==
      if InPass(Ring(kind, color, depth), sp, c, p) then After(env, RingCell(p, ExpansionRamp(kind), color, depth + 1), b, deny, faces) else b
  {
    hide ExpansionMaterial, ExpansionRamp, Corner, Stored, RampForFaces;
  }

  /** The box left p alone, and then the ring took it. */
  lemma CornerTook(env: Env, s: Sim, u: Sim, t: Sim, p: Pos, v: Option<Block>)
    requires More(s, u) && Took(env, s, u, p, Look(s, p)) && Took(env, u, t, p, v)
    ensures Took(env, s, t, p, v)
  {
  }
}
