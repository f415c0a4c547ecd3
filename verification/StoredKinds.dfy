/**
 The kinds the server ever stores: a byte other than the one the store keeps for mined cells, whatever
 sequence of edits and burns made the world. So a block is stored as air exactly when air was written.
 */
module StoredKinds {
  import opened BlockRules
  import opened Burn
  import opened BurnChain
  import opened BurnEffects
  import opened BurnShapes
  import opened BurnSteps
  import opened Voxels

  /** A kind the store keeps as it is. */
  predicate Plain(kind: int) { 0 <= kind < 256 && kind != MINED }

  /** A byte is stored as air exactly when it is air, unless it is the byte kept for mined cells. */
  lemma PlainAir(kind: int, color: int)
    requires 0 <= kind < 256
    ensures Plain(kind) <==> (StoredBlock(kind, color).kind == AIR <==> kind == AIR)
    ensures Plain(StoredBlock(kind, color).kind)
  {
  }

  ghost predicate PlainCells(cells: Cells) { forall p :: p in cells ==> Plain(cells[p].kind) }

  ghost predicate PlainWrites(ws: seq<Write>) { forall w :: w in ws ==> Plain(w.kind) }

  // --- what a burn writes -------------------------------------------------------------------

  ghost predicate AllPlain(s: Sim) { PlainCells(s.cells) && PlainWrites(s.sets) }

  /** What an operation brings to its cell is plain. */
  predicate Brings(op: Op) {
    match op
    case FillCell(_, material, _, _) => Plain(material)
    case RingCell(_, ramp, _, _) => STONE_RAMP1 <= ramp < STONE_SIDE1
    case _ => true
  }

  lemma PutPlain(env: Env, s: Sim, p: Pos, kind: int, color: int)
    requires AllPlain(s) && Plain(kind)
    ensures AllPlain(Put(env, s, p, kind, color))
  {
    hide Accepts, InWorld;
  }

  lemma LightPlain(env: Env, root: Pos, s: Sim, p: Pos, kind: int, depth: nat, ask: bool, deny: bool)
    ensures var t := Light(env, root, s, p, kind, depth, ask, deny); t.cells == s.cells && t.sets == s.sets
  {
  }

  lemma SamplePlain(env: Env, root: Pos, s: Sim, p: Pos, color: int, depth: nat)
    requires AllPlain(s)
    ensures AllPlain(PaintSample(env, s, p, color)) && AllPlain(BreakSample(env, root, s, p, depth))
  {
    hide Put, Light;
    PutPlain(env, s, p, AIR, 0);
    PutPlain(env, s, p, PAINTED_BASE, color);
    if p in s.cells {
      PutPlain(env, s, p, s.cells[p].kind, color);
      LightPlain(env, root, s, p, s.cells[p].kind, depth + 1, false, false);
    }
  }

  lemma StepPlain(env: Env, root: Pos, s: Sim, op: Op, deny: bool)
    requires AllPlain(s) && Brings(op)
    ensures AllPlain(Step(env, root, s, op, deny))
  {
    hide Put, Light, PaintSample, BreakSample, SeenKind, SolidFaces, PlainCells, PlainWrites;
    var p := op.pos;
    var a := Probe(s, p);
    match op {
      case Sample(_, color, depth) =>
        SamplePlain(env, root, Read(Ask(s.(visits := s.visits + 1), p, deny), p), p, color, depth);
      case FillCell(_, material, color, depth) =>
        PutPlain(env, Ask(a, p, deny), p, material, color);
        LightPlain(env, root, a, p, SeenKind(env, s, p), depth, true, deny);
      case RingCell(_, ramp, color, depth) =>
        PutPlain(env, ProbeFaces(Ask(a, p, deny), p), p, RampForFaces(ramp, SolidFaces(env, a, p)), color);
        LightPlain(env, root, a, p, SeenKind(env, s, p), depth, true, deny);
      case LightCell(_, depth) =>
        LightPlain(env, root, a, p, SeenKind(env, s, p), depth, true, deny);
    }
  }

  ghost predicate AllBring(ops: seq<Op>) { forall op :: op in ops ==> Brings(op) }

  lemma {:induction false} RunPlain(env: Env, root: Pos, prot: Protection, s: Sim, ops: seq<Op>)
    requires AllPlain(s) && AllBring(ops)
    ensures AllPlain(Run(env, root, prot, s, ops))
    decreases |ops|
  {
    if ops != [] {
      assert ops[0] in ops;
      hide Step, AllPlain, Brings;
      StepPlain(env, root, s, ops[0], prot(ops[0].pos));
      RunPlain(env, root, prot, Step(env, root, s, ops[0], prot(ops[0].pos)), ops[1..]);
    }
  }

  lemma BlastPlain(env: Env, root: Pos, prot: Protection, s: Sim, n: Node)
    requires AllPlain(s)
    ensures AllPlain(Blast(env, root, prot, s, n))
  {
    hide AllPlain, Run, Put;
    var ops := BlastOps(n, CenterColor(s, n.pos), env.radius);
    SameCells(s, Read(BlastMark(s, n), n.pos));
    PutPlain(env, Read(BlastMark(s, n), n.pos), n.pos, AIR, 0);
    LayersSamples(n, CenterColor(s, n.pos), env.radius, 1);
    RunPlain(env, root, prot, BlastStart(env, s, n), ops);
  }

  lemma SameCells(s: Sim, t: Sim)
    requires AllPlain(s) && t.cells == s.cells && t.sets == s.sets
    ensures AllPlain(t)
  {
  }

  lemma PassBrings(pass: Pass, sp: Span, c: Pos)
    requires pass.BoxPass? ==> Plain(pass.material)
    requires pass.RingPass? ==> STONE_RAMP1 <= pass.ramp < STONE_SIDE1
    ensures AllBring(PassCells(pass, sp, c))
  {
    forall op | op in PassCells(pass, sp, c)
      ensures Brings(op)
    {
      PassExact(pass, sp, c, op);
    }
  }

  lemma FillBrings(sp: Span, c: Pos, kind: int, color: int, depth: nat)
    ensures AllBring(FillOps(sp, c, kind, color, depth))
  {
    var ramp := ExpansionRamp(kind);
    MaterialPlain(kind);
    hide PassCells, ExpansionRamp, ExpansionMaterial, Brings;
    PassBrings(BoxPass(ExpansionMaterial(kind), ramp, color, depth + 1), sp, c);
    if ramp != 0 { PassBrings(RingPass(ramp, color, depth + 1), sp, c); }
    PassBrings(LightPass(depth + 1), FULL, c);
  }

  lemma FillPlain(env: Env, root: Pos, prot: Protection, s: Sim, c: Pos, kind: int, color: int, depth: nat)
    requires AllPlain(s)
    ensures AllPlain(Fill(env, root, prot, s, c, kind, color, depth))
  {
    hide AllPlain, Run, FillOps, Bounds;
    FillBrings(Bounds(env, s, c), c, kind, color, depth);
    SameCells(s, ProbeBounds(s, c));
    RunPlain(env, root, prot, ProbeBounds(s, c), FillOps(Bounds(env, s, c), c, kind, color, depth));
  }

  lemma FirePlain(env: Env, root: Pos, prot: Protection, s: Sim, n: Link)
    requires AllPlain(s)
    ensures AllPlain(Fire(env, root, prot, s, n))
  {
    hide AllPlain, Fill, Put;
    var a := Fill(env, root, prot, FireStart(s, n), n.pos, n.kind, CenterColor(s, n.pos), n.depth);
    var b := Put(env, a, n.pos, AIR, 0);
    SameCells(s, FireStart(s, n));
    FillPlain(env, root, prot, FireStart(s, n), n.pos, n.kind, CenterColor(s, n.pos), n.depth);
    PutPlain(env, a, n.pos, AIR, 0);
    FillPlain(env, root, prot, b, n.pos, n.kind, 0, n.depth);
    var c := if b.refire then Fill(env, root, prot, b, n.pos, n.kind, 0, n.depth) else b;
    SameCells(c, c.(firing := None));
  }

  lemma {:induction false} ChainPlain(env: Env, root: Pos, prot: Protection, s: Sim, work: seq<Node>, maxBlasts: nat)
    requires s.explosions + |work| <= maxBlasts && AllPlain(s)
    ensures AllPlain(BlastChain(env, root, prot, s, work, maxBlasts))
    decreases maxBlasts - s.explosions
  {
    if work != [] {
      hide Blast, Enqueue, AllPlain, VisitsPerBlast;
      var t := Blast(env, root, prot, s, Last(work));
      var (rest, cut) := Enqueue(Front(work), t.chain, t.explosions, maxBlasts, t.truncated);
      BlastPays(env, root, prot, s, Last(work));
      BlastPlain(env, root, prot, s, Last(work));
      SameCells(t, t.(truncated := cut));
      EnqueueBounded(Front(work), t.chain, t.explosions, maxBlasts, t.truncated);
      ChainPlain(env, root, prot, t.(truncated := cut), rest, maxBlasts);
    }
  }

  lemma {:induction false} FiringPlain(env: Env, root: Pos, prot: Protection, s: Sim, qi: nat, rootQueued: bool, maxVisits: nat)
    requires qi <= |s.queue| && AllPlain(s)
    ensures AllPlain(Expansions(env, root, prot, s, qi, rootQueued, maxVisits))
    decreases if rootQueued && qi == 0 then 1 else 0, Left(maxVisits, s)
  {
    hide Fire, AllPlain;
    SameCells(s, s.(truncated := s.truncated + |s.queue| - qi));
    if qi < |s.queue| && ((rootQueued && qi == 0) || s.visits + VISITS_PER_LINK <= maxVisits) {
      FirePays(env, root, prot, s, s.queue[qi]);
      FirePlain(env, root, prot, s, s.queue[qi]);
      FiringPlain(env, root, prot, Fire(env, root, prot, s, s.queue[qi]), qi + 1, rootQueued, maxVisits);
    }
  }

  /** In a world of plain kinds a burn writes plain kinds only, and leaves a world of plain kinds. */
  lemma BurnWritesPlain(env: Env, root: Pos, prot: Protection, cells: Cells, maxVisits: nat)
    requires PlainCells(cells)
    ensures var t := SimBurn(env, root, prot, cells, maxVisits); PlainWrites(t.sets) && PlainCells(t.cells)
  {
    var b := Read(Ask(Start(cells), root, false).(visits := 1), root);
    assert AllPlain(b);
    if !prot(root) && root in cells {
      PutPlain(env, b, root, AIR, 0);
      if cells[root].kind == TNT {
        var s, n := Ask(b.(visits := 0), root, false), MaxBlasts(env.radius, maxVisits);
        hide BlastChain, Expansions, VisitsPerBlast, Put;
        ChainPlain(env, root, prot, s, [Node(root, 0)], n);
        FiringPlain(env, root, prot, BlastChain(env, root, prot, s, [Node(root, 0)], n), 0, false, maxVisits);
      } else if IsExpansion(cells[root].kind) {
        var a := b.(lit := {Key(root)}, queue := [Link(root, cells[root].kind, 0)]);
        hide BlastChain, Expansions, Put;
        FiringPlain(env, root, prot, a, 0, true, maxVisits);
      }
    }
  }

  // --- what the server writes ------------------------------------------------------------------

  /** The store, and the kinds that clipboards and undo records have read out of it. */
  datatype Store = Store(cells: Cells, known: set<int>)

  datatype Edit =
    | Place(pos: Pos, kind: int, color: int)
    | Paint(pos: Pos, color: int)
    | Burn(root: Pos, prot: Protection, maxVisits: nat)
    | Note(pos: Pos)
    | Recall(pos: Pos, kind: int, color: int)

  /** The largest block id a player, the operator or a WorldEdit command may name. */
  const MAX_BLOCK_TYPE := 127

  /** What callers check before they write: a named block is in range, a remembered one was read. */
  predicate Admitted(s: Store, e: Edit) {
    match e
    case Place(_, kind, _) => 0 <= kind <= MAX_BLOCK_TYPE
    case Recall(_, kind, _) => kind in s.known
    case _ => true
  }

  /** The writes of one edit. */
  function Writes(env: Env, s: Store, e: Edit): seq<Write> {
    match e
    case Place(p, kind, color) => [Write(p, kind, color)]
    case Paint(p, color) => [Write(p, if p in s.cells then s.cells[p].kind else PAINTED_BASE, color)]
    case Burn(root, prot, maxVisits) => SimBurn(env, root, prot, s.cells, maxVisits).sets
    case Note(_) => []
    case Recall(p, kind, color) => [Write(p, kind, color)]
  }

  function Edited(env: Env, s: Store, e: Edit): Store {
    s.(cells := Written(env, s.cells, Writes(env, s, e)),
       known := if e.Note? && e.pos in s.cells then s.known + {s.cells[e.pos].kind} else s.known)
  }

  predicate AllAdmitted(env: Env, s: Store, es: seq<Edit>)
    decreases |es|
  {
    es == [] || (Admitted(s, es[0]) && AllAdmitted(env, Edited(env, s, es[0]), es[1..]))
  }

  /** Every write of a run of edits, in order. */
  function AllWrites(env: Env, s: Store, es: seq<Edit>): seq<Write>
    decreases |es|
  {
    if es == [] then [] else Writes(env, s, es[0]) + AllWrites(env, Edited(env, s, es[0]), es[1..])
  }

  ghost predicate PlainStore(s: Store) { PlainCells(s.cells) && forall k :: k in s.known ==> Plain(k) }

  lemma {:induction false} WrittenPlain(env: Env, cells: Cells, ws: seq<Write>)
    requires PlainCells(cells) && PlainWrites(ws)
    ensures PlainCells(Written(env, cells, ws))
    decreases |ws|
  {
    if ws != [] {
      hide Accepts, InWorld;
      assert ws[|ws| - 1] in ws;
      WrittenPlain(env, cells, ws[..|ws| - 1]);
    }
  }

  lemma EditPlain(env: Env, s: Store, e: Edit)
    requires PlainStore(s) && Admitted(s, e)
    ensures PlainWrites(Writes(env, s, e)) && PlainStore(Edited(env, s, e))
  {
    hide SimBurn, Written;
    if e.Burn? { BurnWritesPlain(env, e.root, e.prot, s.cells, e.maxVisits); }
    WrittenPlain(env, s.cells, Writes(env, s, e));
  }

  lemma {:induction false} EditsPlain(env: Env, s: Store, es: seq<Edit>)
    requires PlainStore(s) && AllAdmitted(env, s, es)
    ensures PlainWrites(AllWrites(env, s, es))
    decreases |es|
  {
    hide Writes, Edited, PlainStore, Plain;
    if es != [] {
      EditPlain(env, s, es[0]);
      EditsPlain(env, Edited(env, s, es[0]), es[1..]);
    }
  }

  /** Whatever players, the operator, WorldEdit and fires do to a world of plain kinds, in any order,
      every write brings a plain kind: it is stored as air exactly when it is a write of air. */
  lemma EveryWritePlain(env: Env, s: Store, es: seq<Edit>)
    requires PlainStore(s) && AllAdmitted(env, s, es)
    ensures forall w :: w in AllWrites(env, s, es) ==>
      Plain(w.kind) && (StoredBlock(w.kind, w.color).kind == AIR <==> w.kind == AIR)
  {
    EditsPlain(env, s, es);
    hide AllWrites, AllAdmitted, PlainStore;
    forall w | w in AllWrites(env, s, es)
      ensures StoredBlock(w.kind, w.color).kind == AIR <==> w.kind == AIR
    {
      PlainAir(w.kind, w.color);
    }
  }
}
