/**
 What every run of burn operations keeps: how far the trace can grow, where it can reach, that a
 protected cell is never written or lit, and that only the protection of the visited cells matters.
 */
module BurnSteps {
  import opened BlockRules
  import opened Burn
  import opened Voxels

  // --- growth -----------------------------------------------------------------------

  /** From s to t the visits grew by at most n, every read was paid for by a visit, and
      nothing but the trace, the world, the chain and the lighting changed. */
  ghost predicate Grows(s: Sim, t: Sim, n: nat) {
    && s.visits <= t.visits <= s.visits + n
    && s.gets <= t.gets && |t.gets| - |s.gets| <= t.visits - s.visits
    && s.queue <= t.queue
    && t.explosions == s.explosions && t.expansions == s.expansions && t.maxDepth == s.maxDepth
    && t.firing == s.firing
  }

  function Cost(op: Op): nat { if op.RingCell? then 5 else 1 }

  function TotalCost(ops: seq<Op>): nat {
    if ops == [] then 0 else Cost(ops[0]) + TotalCost(ops[1..])
  }

  lemma PutGrows(env: Env, s: Sim, p: Pos, kind: int, color: int)
    ensures Grows(s, Put(env, s, p, kind, color), 0)
  {
  }

  lemma LightGrows(env: Env, root: Pos, s: Sim, p: Pos, kind: int, depth: nat, ask: bool, deny: bool)
    ensures Grows(s, Light(env, root, s, p, kind, depth, ask, deny), 0)
  {
  }

  lemma SampleGrows(env: Env, root: Pos, s: Sim, p: Pos, color: int, depth: nat)
    ensures Grows(s, PaintSample(env, s, p, color), 0)
    ensures Grows(s, BreakSample(env, root, s, p, depth), 0)
  {
    hide Put, Light;
    match Look(s, p) {
      case None =>
        PutGrows(env, s, p, PAINTED_BASE, color);
        PutGrows(env, s, p, AIR, 0);
      case Some(b) =>
        PutGrows(env, s, p, b.kind, color);
        PutGrows(env, s, p, AIR, 0);
        LightGrows(env, root, s, p, b.kind, depth + 1, false, false);
    }
  }

  lemma ProbeGrows(s: Sim, p: Pos)
    ensures Grows(s, Probe(s, p), 1) && s.visits < Probe(s, p).visits
  {
  }

  lemma FacesGrow(s: Sim, p: Pos)
    ensures Grows(s, ProbeFaces(s, p), 4)
  {
    hide Probe;
    ProbeGrows(s, Face(p, 0));
    ProbeGrows(Probe(s, Face(p, 0)), Face(p, 1));
    ProbeGrows(Probe(Probe(s, Face(p, 0)), Face(p, 1)), Face(p, 2));
    ProbeGrows(Probe(Probe(Probe(s, Face(p, 0)), Face(p, 1)), Face(p, 2)), Face(p, 3));
  }

  lemma StepGrows(env: Env, root: Pos, s: Sim, op: Op, deny: bool)
    ensures Grows(s, Step(env, root, s, op, deny), Cost(op))
    ensures s.visits < Step(env, root, s, op, deny).visits
  {
    hide Put, Light, PaintSample, BreakSample, SeenKind, Probe, ProbeFaces, SolidFaces, RampForFaces;
    var p := op.pos;
    var t := SeenKind(env, s, p);
    var a := Probe(s, p);
    ProbeGrows(s, p);
    match op {
      case Sample(_, color, depth) =>
        SampleGrows(env, root, Read(Ask(s.(visits := s.visits + 1), p, deny), p), p, color, depth);
      case FillCell(_, material, color, depth) =>
        PutGrows(env, Ask(a, p, deny), p, material, color);
        LightGrows(env, root, a, p, t, depth, true, deny);
      case RingCell(_, ramp, color, depth) =>
        FacesGrow(Ask(a, p, deny), p);
        PutGrows(env, ProbeFaces(Ask(a, p, deny), p), p, RampForFaces(ramp, SolidFaces(env, a, p)), color);
        LightGrows(env, root, a, p, t, depth, true, deny);
      case LightCell(_, depth) =>
        LightGrows(env, root, a, p, t, depth, true, deny);
    }
  }

  lemma {:induction false} RunGrows(env: Env, root: Pos, prot: Protection, s: Sim, ops: seq<Op>)
    ensures Grows(s, Run(env, root, prot, s, ops), TotalCost(ops))
    decreases |ops|
  {
    if ops != [] {
      StepGrows(env, root, s, ops[0], prot(ops[0].pos));
      RunGrows(env, root, prot, Step(env, root, s, ops[0], prot(ops[0].pos)), ops[1..]);
    }
  }

  lemma {:induction false} RunAppend(env: Env, root: Pos, prot: Protection, s: Sim, a: seq<Op>, b: seq<Op>)
    ensures Run(env, root, prot, s, a + b) == Run(env, root, prot, Run(env, root, prot, s, a), b)
    decreases |a|
  {
    if a == [] {
      assert a + b == b;
    } else {
      assert (a + b)[1..] == a[1..] + b;
      RunAppend(env, root, prot, Step(env, root, s, a[0], prot(a[0].pos)), a[1..], b);
    }
  }

  lemma {:induction false} TotalCostAppend(a: seq<Op>, b: seq<Op>)
    ensures TotalCost(a + b) == TotalCost(a) + TotalCost(b)
    decreases |a|
  {
    if a == [] {
      assert a + b == b;
    } else {
      assert (a + b)[1..] == a[1..] + b;
      TotalCostAppend(a[1..], b);
    }
  }

  // --- only the protection of the visited cells matters -------------------------------

  ghost predicate AgreeOn(p1: Protection, p2: Protection, ops: seq<Op>) {
    forall op :: op in ops ==> p1(op.pos) == p2(op.pos)
  }

  lemma {:induction false} RunCongruent(env: Env, root: Pos, p1: Protection, p2: Protection, s: Sim, ops: seq<Op>)
    requires AgreeOn(p1, p2, ops)
    ensures Run(env, root, p1, s, ops) == Run(env, root, p2, s, ops)
    decreases |ops|
  {
    if ops != [] {
      RunCongruent(env, root, p1, p2, Step(env, root, s, ops[0], p1(ops[0].pos)), ops[1..]);
    }
  }

  // --- the writes explain the world ------------------------------------------------------

  /** The world after a sequence of writes. */
  function Written(env: Env, cells: Cells, ws: seq<Write>): Cells
    decreases |ws|
  {
    if ws == [] then cells else Write1(env, Written(env, cells, ws[..|ws| - 1]), ws[|ws| - 1])
  }

  /** The world of s is what its recorded writes make of `cells`. */
  ghost predicate Explained(env: Env, cells: Cells, s: Sim) { s.cells == Written(env, cells, s.sets) }

  lemma PutExplained(env: Env, cells: Cells, s: Sim, p: Pos, kind: int, color: int)
    requires Explained(env, cells, s)
    ensures Explained(env, cells, Put(env, s, p, kind, color))
  {
    var w := Write(p, kind, color);
    assert (s.sets + [w])[..|s.sets|] == s.sets;
  }

  /** A cell no write names keeps its stored block. */
  lemma {:induction false} WrittenFrame(env: Env, cells: Cells, ws: seq<Write>, p: Pos)
    requires forall w :: w in ws ==> w.pos != p
    ensures p in Written(env, cells, ws) <==> p in cells
    ensures p in cells ==> Written(env, cells, ws)[p] == cells[p]
    decreases |ws|
  {
    if ws != [] {
      assert ws[|ws| - 1] in ws;
      WrittenFrame(env, cells, ws[..|ws| - 1], p);
    }
  }

  // --- safety -------------------------------------------------------------------------

  /** Every queued link is an unprotected cell close enough to the root, lit once. */
  ghost predicate LinksOk(env: Env, root: Pos, prot: Protection, s: Sim) {
    && (forall l :: l in s.queue ==> Near(l.pos, root, LinkReach(env)) && !prot(l.pos) && Key(l.pos) in s.lit)
    && (forall i, j :: 0 <= i < j < |s.queue| ==> Key(s.queue[i].pos) != Key(s.queue[j].pos))
  }

  /** Every access lies near the root, and no write is to a protected cell. */
  ghost predicate TraceOk(env: Env, root: Pos, prot: Protection, s: Sim) {
    && (forall w :: w in s.sets ==> Near(w.pos, root, BurnReach(env.radius)) && !prot(w.pos))
    && (forall a :: a in s.asks ==> Near(a, root, BurnReach(env.radius)))
    && (forall g :: g in s.gets ==> Near(g, root, BurnReach(env.radius) + 1))
    && (forall d :: d in s.denied ==> d in s.asks && prot(d))
  }

  ghost predicate Safe(env: Env, cells: Cells, root: Pos, prot: Protection, s: Sim) {
    LinksOk(env, root, prot, s) && TraceOk(env, root, prot, s) && Explained(env, cells, s)
  }

  lemma ReadSafe(env: Env, cells: Cells, root: Pos, prot: Protection, s: Sim, p: Pos)
    requires Safe(env, cells, root, prot, s) && Near(p, root, BurnReach(env.radius) + 1)
    ensures Safe(env, cells, root, prot, Read(s, p))
    ensures Safe(env, cells, root, prot, Probe(s, p))
  {
  }

  lemma AskSafe(env: Env, cells: Cells, root: Pos, prot: Protection, s: Sim, p: Pos)
    requires Safe(env, cells, root, prot, s) && Near(p, root, BurnReach(env.radius))
    ensures Safe(env, cells, root, prot, Ask(s, p, prot(p)))
  {
  }

  lemma PutSafe(env: Env, cells: Cells, root: Pos, prot: Protection, s: Sim, p: Pos, kind: int, color: int)
    requires Safe(env, cells, root, prot, s) && Near(p, root, BurnReach(env.radius)) && !prot(p)
    ensures Safe(env, cells, root, prot, Put(env, s, p, kind, color))
  {
    PutExplained(env, cells, s, p, kind, color);
  }

  lemma LightSafe(env: Env, cells: Cells, root: Pos, prot: Protection, s: Sim, p: Pos, kind: int, depth: nat, ask: bool)
    requires Safe(env, cells, root, prot, s) && Near(p, root, BurnReach(env.radius)) && (!prot(p) || ask)
    ensures Safe(env, cells, root, prot, Light(env, root, s, p, kind, depth, ask, prot(p)))
  {
    hide Key, Near, BurnReach, Written;
    var t := s.(lit := s.lit + {Key(p)});
    assert Safe(env, cells, root, prot, t);
    AskSafe(env, cells, root, prot, t, p);
  }

  lemma SampleSafe(env: Env, cells: Cells, root: Pos, prot: Protection, s: Sim, p: Pos, color: int, depth: nat)
    requires Safe(env, cells, root, prot, s) && Near(p, root, BurnReach(env.radius)) && !prot(p)
    ensures Safe(env, cells, root, prot, PaintSample(env, s, p, color))
    ensures Safe(env, cells, root, prot, BreakSample(env, root, s, p, depth))
  {
    hide Safe, Put, Light, Near, BurnReach;
    match Look(s, p) {
      case None =>
        PutSafe(env, cells, root, prot, s, p, PAINTED_BASE, color);
        PutSafe(env, cells, root, prot, s, p, AIR, 0);
      case Some(b) =>
        PutSafe(env, cells, root, prot, s, p, b.kind, color);
        PutSafe(env, cells, root, prot, s, p, AIR, 0);
        LightSafe(env, cells, root, prot, s, p, b.kind, depth + 1, false);
        ChainSafe(env, cells, root, prot, s, Node(p, depth + 1));
    }
  }

  /** Visits and the chain of a blast are not part of what safety is about. */
  lemma ChainSafe(env: Env, cells: Cells, root: Pos, prot: Protection, s: Sim, n: Node)
    requires Safe(env, cells, root, prot, s)
    ensures Safe(env, cells, root, prot, s.(chain := s.chain + [n]))
    ensures Safe(env, cells, root, prot, s.(visits := s.visits + 1))
  {
  }

  lemma FacesSafe(env: Env, cells: Cells, root: Pos, prot: Protection, s: Sim, p: Pos)
    requires Safe(env, cells, root, prot, s) && Near(p, root, BurnReach(env.radius))
    ensures Safe(env, cells, root, prot, ProbeFaces(s, p))
  {
    hide Safe, Probe;
    ReadSafe(env, cells, root, prot, s, Face(p, 0));
    ReadSafe(env, cells, root, prot, Probe(s, Face(p, 0)), Face(p, 1));
    ReadSafe(env, cells, root, prot, Probe(Probe(s, Face(p, 0)), Face(p, 1)), Face(p, 2));
    ReadSafe(env, cells, root, prot, Probe(Probe(Probe(s, Face(p, 0)), Face(p, 1)), Face(p, 2)), Face(p, 3));
  }

  lemma StepSafe(env: Env, cells: Cells, root: Pos, prot: Protection, s: Sim, op: Op)
    requires Safe(env, cells, root, prot, s) && Near(op.pos, root, BurnReach(env.radius))
    ensures Safe(env, cells, root, prot, Step(env, root, s, op, prot(op.pos)))
  {
    hide Safe, Put, Light, PaintSample, BreakSample, SeenKind, Probe, ProbeFaces, SolidFaces, RampForFaces, Ask;
    var p, deny := op.pos, prot(op.pos);
    var t := SeenKind(env, s, p);
    var a := Probe(s, p);
    ReadSafe(env, cells, root, prot, s, p);
    AskSafe(env, cells, root, prot, a, p);
    LightSafe(env, cells, root, prot, a, p, t, op.depth, true);
    match op {
      case Sample(_, color, depth) =>
        var b := Ask(s.(visits := s.visits + 1), p, deny);
        ChainSafe(env, cells, root, prot, s, Node(p, 0));
        AskSafe(env, cells, root, prot, s.(visits := s.visits + 1), p);
        ReadSafe(env, cells, root, prot, b, p);
        if !deny { SampleSafe(env, cells, root, prot, Read(b, p), p, color, depth); }
      case FillCell(_, material, color, depth) =>
        if !deny { PutSafe(env, cells, root, prot, Ask(a, p, deny), p, material, color); }
      case RingCell(_, ramp, color, depth) =>
        if !deny {
          FacesSafe(env, cells, root, prot, Ask(a, p, deny), p);
          PutSafe(env, cells, root, prot, ProbeFaces(Ask(a, p, deny), p), p, RampForFaces(ramp, SolidFaces(env, a, p)), color);
        }
      case LightCell(_, depth) =>
    }
  }

  lemma {:induction false} RunSafe(env: Env, cells: Cells, root: Pos, prot: Protection, s: Sim, ops: seq<Op>)
    requires Safe(env, cells, root, prot, s) && OpsNear(ops, root, BurnReach(env.radius))
    ensures Safe(env, cells, root, prot, Run(env, root, prot, s, ops))
    decreases |ops|
  {
    if ops != [] {
      hide Safe, Step, Near;
      StepSafe(env, cells, root, prot, s, ops[0]);
      RunSafe(env, cells, root, prot, Step(env, root, s, ops[0], prot(ops[0].pos)), ops[1..]);
    }
  }

  ghost predicate OpsNear(ops: seq<Op>, c: Pos, n: int) {
    forall op :: op in ops ==> Near(op.pos, c, n)
  }

  /** The links one blast found: unprotected TNT inside its sphere, one level deeper. */
  ghost predicate ChainOk(prot: Protection, n: Node, radius: nat, s: Sim) {
    forall m :: m in s.chain ==> Near(m.pos, n.pos, radius) && m.depth == n.depth + 1 && !prot(m.pos)
  }

  ghost predicate IsBlast(ops: seq<Op>, n: Node, radius: nat) {
    forall op :: op in ops ==> op.Sample? && op.depth == n.depth && Near(op.pos, n.pos, radius)
  }

  lemma StepChain(env: Env, root: Pos, s: Sim, op: Op, deny: bool)
    requires op.Sample?
    ensures var t := Step(env, root, s, op, deny);
      t.chain == s.chain || (t.chain == s.chain + [Node(op.pos, op.depth + 1)] && !deny)
  {
  }

  lemma {:induction false} RunChain(env: Env, root: Pos, prot: Protection, s: Sim, ops: seq<Op>, n: Node)
    requires ChainOk(prot, n, env.radius, s) && IsBlast(ops, n, env.radius)
    ensures ChainOk(prot, n, env.radius, Run(env, root, prot, s, ops))
    decreases |ops|
  {
    if ops != [] {
      hide Step, Near;
      assert ops[0] in ops;
      StepChain(env, root, s, ops[0], prot(ops[0].pos));
      RunChain(env, root, prot, Step(env, root, s, ops[0], prot(ops[0].pos)), ops[1..], n);
    }
  }
}
