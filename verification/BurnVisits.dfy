/**
 What a burn costs: the cells it visits against its budget, and the cells it reads against its visits,
 exactly.
 */
module BurnVisits {
  import opened BlockRules
  import opened Burn
  import opened BurnChain
  import opened BurnEffects
  import opened BurnSafety
  import opened BurnShapes
  import opened BurnSteps
  import opened Voxels

  // --- the budget -----------------------------------------------------------------------

  function Charge(explosions: nat, radius: nat): nat { explosions * VisitsPerBlast(radius) }

  lemma ChargeGrows(a: nat, b: nat, radius: nat)
    ensures a < b ==> Charge(a, radius) + VisitsPerBlast(radius) <= Charge(b, radius)
    ensures Charge(0, radius) == 0
  {
    hide VisitsPerBlast;
    var v := VisitsPerBlast(radius);
    if a < b { assert (a + 1) * v <= b * v; }
  }

  lemma {:induction false} BlastChainBudget(env: Env, root: Pos, prot: Protection, s: Sim, work: seq<Node>, maxBlasts: nat)
    requires s.explosions + |work| <= maxBlasts
    requires s.visits <= Charge(s.explosions, env.radius)
    ensures var t := BlastChain(env, root, prot, s, work, maxBlasts);
      && t.visits <= Charge(t.explosions, env.radius)
      && t.explosions <= maxBlasts && |t.gets| - |s.gets| <= t.visits - s.visits
    decreases maxBlasts - s.explosions
  {
    if work != [] {
      hide Blast, Enqueue, VisitsPerBlast, Charge;
      var t := Blast(env, root, prot, s, Last(work));
      var (rest, cut) := Enqueue(Front(work), t.chain, t.explosions, maxBlasts, t.truncated);
      BlastPays(env, root, prot, s, Last(work));
      ChargeGrows(s.explosions, t.explosions, env.radius);
      EnqueueBounded(Front(work), t.chain, t.explosions, maxBlasts, t.truncated);
      BlastChainBudget(env, root, prot, t.(truncated := cut), rest, maxBlasts);
    }
  }

  lemma {:induction false} ExpansionsBudget(env: Env, root: Pos, prot: Protection, s: Sim, qi: nat, rootQueued: bool, maxVisits: nat, limit: nat)
    requires qi <= |s.queue| && maxVisits <= limit && s.visits <= limit
    requires rootQueued && qi == 0 ==> s.visits + VISITS_PER_LINK <= limit
    ensures var t := Expansions(env, root, prot, s, qi, rootQueued, maxVisits);
      t.visits <= limit && |t.gets| - |s.gets| <= t.visits - s.visits
    decreases if rootQueued && qi == 0 then 1 else 0, Left(maxVisits, s)
  {
    hide Fire;
    if qi < |s.queue| && ((rootQueued && qi == 0) || s.visits + VISITS_PER_LINK <= maxVisits) {
      var t := Fire(env, root, prot, s, s.queue[qi]);
      FirePays(env, root, prot, s, s.queue[qi]);
      ExpansionsBudget(env, root, prot, t, qi + 1, rootQueued, maxVisits, limit);
    }
  }

  lemma QuotientFits(a: nat, b: nat)
    requires b > 0
    ensures a / b * b <= a
  {
  }

  lemma MaxBlastsFit(radius: nat, maxVisits: nat)
    ensures Charge(MaxBlasts(radius, maxVisits), radius) <= Max(maxVisits, VisitsPerBlast(radius))
  {
    assert VisitsPerBlast(radius) >= 1;
    hide VisitsPerBlast;
    QuotientFits(maxVisits, VisitsPerBlast(radius));
  }

  lemma ExplodeBudget(env: Env, root: Pos, prot: Protection, s: Sim, maxVisits: nat)
    requires s.explosions == 0 && s.visits == 0
    ensures var t := SimExplode(env, root, prot, s, maxVisits);
      t.visits <= Max(maxVisits, VisitsPerBlast(env.radius)) && |t.gets| <= |s.gets| + t.visits
  {
    if !prot(root) {
      var v, n := VisitsPerBlast(env.radius), MaxBlasts(env.radius, maxVisits);
      ChargeGrows(0, 0, env.radius);
      MaxBlastsFit(env.radius, maxVisits);
      hide VisitsPerBlast, BlastChain, Expansions, MaxBlasts, Charge;
      var a := Ask(s, root, prot(root));
      BlastChainBudget(env, root, prot, a, [Node(root, 0)], n);
      var c := BlastChain(env, root, prot, a, [Node(root, 0)], n);
      ChargeGrows(c.explosions, n, env.radius);
      ExpansionsBudget(env, root, prot, c, 0, false, maxVisits, Max(maxVisits, v));
    }
  }

  // --- what a visit reads ---------------------------------------------------------------

  predicate InHeight(p: Pos) { Y_MIN <= p.y < Y_MAX }

  /** From s to t every visit read one cell, but for the samples of a blast that a zone kept. */
  ghost predicate ReadsAll(s: Sim, t: Sim, sampling: bool) {
    |t.gets| - |s.gets| + (if sampling then |t.denied| - |s.denied| else 0) == t.visits - s.visits
  }

  /** Every link queued lies in the world's height. */
  ghost predicate LinksHigh(s: Sim) { forall l :: l in s.queue ==> InHeight(l.pos) }

  ghost predicate OpsAre(ops: seq<Op>, sampling: bool) {
    forall op :: op in ops ==> InHeight(op.pos) && (op.Sample? <==> sampling)
  }

  lemma LightReads(env: Env, root: Pos, s: Sim, p: Pos, kind: int, depth: nat, ask: bool, deny: bool)
    requires InHeight(p) && LinksHigh(s)
    ensures var t := Light(env, root, s, p, kind, depth, ask, deny);
      LinksHigh(t) && t.gets == s.gets && t.visits == s.visits && (ask || t.denied == s.denied)
  {
    hide Key, Near, LinkReach;
  }

  lemma StepReads(env: Env, root: Pos, s: Sim, op: Op, deny: bool)
    requires InHeight(op.pos) && LinksHigh(s)
    ensures var t := Step(env, root, s, op, deny); LinksHigh(t) && ReadsAll(s, t, op.Sample?)
  {
    hide Light, SeenKind, SolidFaces, RampForFaces, Write1, Accepts;
    var p := op.pos;
    var a := Probe(s, p);
    match op {
      case Sample(_, color, depth) =>
        var b := Read(Ask(s.(visits := s.visits + 1), p, deny), p);
        if p in s.cells { LightReads(env, root, b, p, s.cells[p].kind, depth + 1, false, false); }
      case FillCell(_, _, _, depth) =>
        LightReads(env, root, a, p, SeenKind(env, s, p), depth, true, deny);
      case RingCell(_, _, _, depth) =>
        LightReads(env, root, a, p, SeenKind(env, s, p), depth, true, deny);
      case LightCell(_, depth) =>
        LightReads(env, root, a, p, SeenKind(env, s, p), depth, true, deny);
    }
  }

  lemma {:induction false} RunReads(env: Env, root: Pos, prot: Protection, s: Sim, ops: seq<Op>, sampling: bool)
    requires OpsAre(ops, sampling) && LinksHigh(s)
    ensures var t := Run(env, root, prot, s, ops); LinksHigh(t) && ReadsAll(s, t, sampling)
    decreases |ops|
  {
    if ops != [] {
      hide Step, LinksHigh;
      assert ops[0] in ops;
      StepReads(env, root, s, ops[0], prot(ops[0].pos));
      RunReads(env, root, prot, Step(env, root, s, ops[0], prot(ops[0].pos)), ops[1..], sampling);
    }
  }

  lemma BlastHigh(n: Node, color: int, radius: nat)
    ensures OpsAre(BlastOps(n, color, radius), true)
  {
    LayersSamples(n, color, radius, 1);
    forall op | op in BlastOps(n, color, radius)
      ensures InHeight(op.pos) && op.Sample?
    {
      BlastExact(n, color, radius, op.pos);
    }
  }

  lemma BlastReads(env: Env, root: Pos, prot: Protection, s: Sim, n: Node)
    requires LinksHigh(s)
    ensures var t := Blast(env, root, prot, s, n); LinksHigh(t) && ReadsAll(s, t, true)
  {
    hide Write1, Accepts, Run, OpsAre, BlastOps;
    BlastHigh(n, CenterColor(s, n.pos), env.radius);
    RunReads(env, root, prot, BlastStart(env, s, n), BlastOps(n, CenterColor(s, n.pos), env.radius), true);
  }

  lemma PassHigh(pass: Pass, sp: Span, c: Pos)
    requires InHeight(c)
    ensures OpsAre(PassCells(pass, sp, c), false)
  {
    forall op | op in PassCells(pass, sp, c)
      ensures InHeight(op.pos) && !op.Sample?
    {
      PassExact(pass, sp, c, op);
    }
  }

  lemma FillHigh(sp: Span, c: Pos, kind: int, color: int, depth: nat)
    requires InHeight(c)
    ensures OpsAre(FillOps(sp, c, kind, color, depth), false)
  {
    hide PassCells, ExpansionRamp, ExpansionMaterial, InHeight;
    var ramp := ExpansionRamp(kind);
    PassHigh(BoxPass(ExpansionMaterial(kind), ramp, color, depth + 1), sp, c);
    PassHigh(RingPass(ramp, color, depth + 1), sp, c);
    PassHigh(LightPass(depth + 1), FULL, c);
  }

  /** In a fill of a cell of the world every visit is a read. */
  lemma FillReads(env: Env, root: Pos, prot: Protection, s: Sim, c: Pos, kind: int, color: int, depth: nat)
    requires InHeight(c) && LinksHigh(s)
    ensures var t := Fill(env, root, prot, s, c, kind, color, depth); LinksHigh(t) && ReadsAll(s, t, false)
  {
    hide Run, FillOps, Bounds, OpsAre;
    FillHigh(Bounds(env, s, c), c, kind, color, depth);
    RunReads(env, root, prot, ProbeBounds(s, c), FillOps(Bounds(env, s, c), c, kind, color, depth), false);
  }

  lemma FireReads(env: Env, root: Pos, prot: Protection, s: Sim, n: Link)
    requires InHeight(n.pos) && LinksHigh(s)
    ensures var t := Fire(env, root, prot, s, n); LinksHigh(t) && ReadsAll(s, t, false)
  {
    hide Fill, Write1, Accepts, InHeight;
    var a := Fill(env, root, prot, FireStart(s, n), n.pos, n.kind, CenterColor(s, n.pos), n.depth);
    FillReads(env, root, prot, FireStart(s, n), n.pos, n.kind, CenterColor(s, n.pos), n.depth);
    FillReads(env, root, prot, Put(env, a, n.pos, AIR, 0), n.pos, n.kind, 0, n.depth);
  }

  lemma {:induction false} ChainReads(env: Env, root: Pos, prot: Protection, s: Sim, work: seq<Node>, maxBlasts: nat)
    requires s.explosions + |work| <= maxBlasts && LinksHigh(s)
    ensures var t := BlastChain(env, root, prot, s, work, maxBlasts); LinksHigh(t) && ReadsAll(s, t, true)
    decreases maxBlasts - s.explosions
  {
    if work != [] {
      hide Blast, Enqueue, LinksHigh, VisitsPerBlast;
      var t := Blast(env, root, prot, s, Last(work));
      var (rest, cut) := Enqueue(Front(work), t.chain, t.explosions, maxBlasts, t.truncated);
      BlastPays(env, root, prot, s, Last(work));
      BlastReads(env, root, prot, s, Last(work));
      CutHigh(t, cut);
      EnqueueBounded(Front(work), t.chain, t.explosions, maxBlasts, t.truncated);
      ChainReads(env, root, prot, t.(truncated := cut), rest, maxBlasts);
    }
  }

  lemma CutHigh(s: Sim, cut: nat)
    ensures LinksHigh(s) <==> LinksHigh(s.(truncated := cut))
  {
  }

  lemma LinkHigh(s: Sim, qi: nat)
    requires qi < |s.queue| && LinksHigh(s)
    ensures InHeight(s.queue[qi].pos)
  {
    assert s.queue[qi] in s.queue;
  }

  lemma {:induction false} FiringReads(env: Env, root: Pos, prot: Protection, s: Sim, qi: nat, rootQueued: bool, maxVisits: nat)
    requires qi <= |s.queue| && LinksHigh(s)
    ensures ReadsAll(s, Expansions(env, root, prot, s, qi, rootQueued, maxVisits), false)
    decreases if rootQueued && qi == 0 then 1 else 0, Left(maxVisits, s)
  {
    hide Fire, LinksHigh, InHeight;
    if qi < |s.queue| && ((rootQueued && qi == 0) || s.visits + VISITS_PER_LINK <= maxVisits) {
      LinkHigh(s, qi);
      FirePays(env, root, prot, s, s.queue[qi]);
      FireReads(env, root, prot, s, s.queue[qi]);
      FiringReads(env, root, prot, Fire(env, root, prot, s, s.queue[qi]), qi + 1, rootQueued, maxVisits);
    }
  }

  // --- the whole burn -------------------------------------------------------------------

  /** The burn is a TNT chain: its root is TNT and no zone keeps it. */
  predicate SetsOff(root: Pos, prot: Protection, cells: Cells) {
    root in cells && cells[root].kind == TNT && !prot(root)
  }

  /** The samples of a burn's blasts that a zone kept: visited, but not read. */
  function KeptSamples(env: Env, root: Pos, prot: Protection, cells: Cells, maxVisits: nat): seq<Pos> {
    if !SetsOff(root, prot, cells) then []
    else
      var s := Ask(Read(Ask(Start(cells), root, false), root), root, false);
      BlastChain(env, root, prot, s, [Node(root, 0)], MaxBlasts(env.radius, maxVisits)).denied
  }

  /** What a budget lets one burn visit: the budget, or what a burn may always do: one blast, or the
      root and its link. */
  function Allowed(radius: nat, maxVisits: nat): nat {
    Max(maxVisits, Max(VisitsPerBlast(radius), 1 + VISITS_PER_LINK))
  }

  lemma RootHigh(s: Sim)
    requires s.queue != [] ==> |s.queue| == 1 && InHeight(s.queue[0].pos)
    ensures LinksHigh(s)
  {
  }

  lemma ExplodeReads(env: Env, root: Pos, prot: Protection, cells: Cells, maxVisits: nat)
    requires SetsOff(root, prot, cells)
    ensures var t := SimBurn(env, root, prot, cells, maxVisits);
      |t.gets| + |KeptSamples(env, root, prot, cells, maxVisits)| == t.visits + 1
  {
    hide BlastChain, Expansions, VisitsPerBlast, LinksHigh;
    var s := Ask(Read(Ask(Start(cells), root, false), root), root, false);
    var b := BlastChain(env, root, prot, s, [Node(root, 0)], MaxBlasts(env.radius, maxVisits));
    assert LinksHigh(s) by { RootHigh(s); }
    ChainReads(env, root, prot, s, [Node(root, 0)], MaxBlasts(env.radius, maxVisits));
    FiringReads(env, root, prot, b, 0, false, maxVisits);
  }

  /** A burn never visits more than it is allowed. From a root in the world's height it reads every cell
      it visits but for the samples a zone kept, and a TNT chain reads its root once more than it counts:
      so a burn reads more than it visits exactly when it is a TNT chain and no zone kept a sample from
      it. It never reads more than it is allowed to visit while a link is dearer than the budget and a
      blast. */
  lemma BurnBudget(env: Env, root: Pos, prot: Protection, cells: Cells, maxVisits: nat)
    ensures var t, kept := SimBurn(env, root, prot, cells, maxVisits), |KeptSamples(env, root, prot, cells, maxVisits)|;
      && t.visits <= Allowed(env.radius, maxVisits)
      && (InHeight(root) ==> |t.gets| + kept == t.visits + if SetsOff(root, prot, cells) then 1 else 0)
      && (|t.gets| <= t.visits <==> !(SetsOff(root, prot, cells) && kept == 0))
      && (|t.gets| <= Allowed(env.radius, maxVisits) <==>
          !(SetsOff(root, prot, cells) && kept == 0 && t.visits == Allowed(env.radius, maxVisits)))
      && (Max(maxVisits, VisitsPerBlast(env.radius)) <= VISITS_PER_LINK ==> |t.gets| <= Allowed(env.radius, maxVisits))
  {
    hide VisitsPerBlast, BlastChain, Expansions, Put, MaxBlasts, LinksHigh;
    var b := Read(Ask(Start(cells), root, prot(root)).(visits := 1), root);
    PutGrows(env, b, root, AIR, 0);
    if !prot(root) && root in cells {
      if cells[root].kind == TNT {
        ExplodeBudget(env, root, prot, b.(visits := 0), maxVisits);
        ExplodeReads(env, root, prot, cells, maxVisits);
      } else if IsExpansion(cells[root].kind) {
        var a := b.(lit := {Key(root)}, queue := [Link(root, cells[root].kind, 0)]);
        ExpansionsBudget(env, root, prot, a, 0, true, maxVisits, Max(maxVisits, 1 + VISITS_PER_LINK));
        if InHeight(root) {
          assert LinksHigh(a) by { RootHigh(a); }
          FiringReads(env, root, prot, a, 0, true, maxVisits);
        }
      }
    }
  }

  lemma NothingKept(env: Env, root: Pos, prot: Protection, cells: Cells, maxVisits: nat)
    requires forall p :: Near(p, root, BurnReach(env.radius)) ==> !prot(p)
    ensures KeptSamples(env, root, prot, cells, maxVisits) == []
  {
    hide VisitsPerBlast, BlastChain, Near, BurnReach, Written, Safe;
    if SetsOff(root, prot, cells) {
      var a := Ask(Start(cells), root, false);
      StartSafe(env, cells, root, prot);
      RootNear(env, root);
      NearWider(root, BurnReach(env.radius));
      AskSafe(env, cells, root, prot, Start(cells), root);
      ReadSafe(env, cells, root, prot, a, root);
      AskSafe(env, cells, root, prot, Read(a, root), root);
      RootOk(env, root, prot);
      var n := MaxBlasts(env.radius, maxVisits);
      BlastChainSafe(env, cells, root, prot, Ask(Read(a, root), root, false), [Node(root, 0)], n);
      NoneDenied(env, cells, root, prot, BlastChain(env, root, prot, Ask(Read(a, root), root, false), [Node(root, 0)], n));
    }
  }

  lemma RootOk(env: Env, root: Pos, prot: Protection)
    requires !prot(root)
    ensures WorkOk(env, root, prot, [Node(root, 0)])
  {
  }

  lemma SomeMember(ps: seq<Pos>)
    ensures ps != [] ==> exists p :: p in ps
  {
    if ps != [] { assert ps[0] in ps; }
  }

  lemma NoneDenied(env: Env, cells: Cells, root: Pos, prot: Protection, s: Sim)
    requires Safe(env, cells, root, prot, s)
    requires forall p :: Near(p, root, BurnReach(env.radius)) ==> !prot(p)
    ensures s.denied == []
  {
    hide Near, BurnReach, Written;
    SomeMember(s.denied);
  }

  /** Where no zone protects anything within burn reach a burn reads each cell it visits, and a TNT root
      once more: it reads more than it visits exactly when its root is TNT. */
  lemma UnzonedReads(env: Env, root: Pos, prot: Protection, cells: Cells, maxVisits: nat)
    requires forall p :: Near(p, root, BurnReach(env.radius)) ==> !prot(p)
    ensures var t := SimBurn(env, root, prot, cells, maxVisits);
      && (InHeight(root) ==> |t.gets| == t.visits + if root in cells && cells[root].kind == TNT then 1 else 0)
      && (|t.gets| <= t.visits <==> !(root in cells && cells[root].kind == TNT))
  {
    RootNear(env, root);
    hide VisitsPerBlast, SimBurn, KeptSamples;
    BurnBudget(env, root, prot, cells, maxVisits);
    NothingKept(env, root, prot, cells, maxVisits);
  }

  // --- a burn that reads past its budget ----------------------------------------------------

  ghost predicate AllAir(s: Sim) {
    (forall p :: p in s.cells ==> s.cells[p].kind == AIR) && s.chain == [] && s.queue == []
  }

  lemma AirStep(env: Env, root: Pos, s: Sim, op: Op, deny: bool)
    requires AllAir(s) && op.Sample? && op.color == 0
    ensures var t := Step(env, root, s, op, deny);
      AllAir(t) && t.visits == s.visits + 1 && t.explosions == s.explosions
  {
  }

  lemma {:induction false} AirRun(env: Env, root: Pos, prot: Protection, s: Sim, ops: seq<Op>)
    requires AllAir(s) && forall op :: op in ops ==> op.Sample? && op.color == 0
    ensures var t := Run(env, root, prot, s, ops);
      AllAir(t) && t.visits == s.visits + TotalCost(ops) && t.explosions == s.explosions
    decreases |ops|
  {
    if ops != [] {
      hide Step, AllAir;
      assert ops[0] in ops;
      AirStep(env, root, s, ops[0], prot(ops[0].pos));
      AirRun(env, root, prot, Step(env, root, s, ops[0], prot(ops[0].pos)), ops[1..]);
    }
  }

  /** A TNT block with nothing else stored round it goes off as one blast, at its full charge where its
      sphere does not reach past the world's height. */
  lemma LoneBlast(env: Env, root: Pos, prot: Protection, s: Sim)
    requires InWorld(root) && Inside(Node(root, 0), env.radius - 1)
    requires s.cells == map[root := Block(TNT, 0)] && s.queue == []
    ensures var t := Blast(env, root, prot, s, Node(root, 0));
      AllAir(t) && t.visits == s.visits + VisitsPerBlast(env.radius)
  {
    var n := Node(root, 0);
    var ops := BlastOps(n, 0, env.radius);
    assert CenterColor(s, root) == 0 && AllAir(BlastStart(env, s, n));
    LayersSamples(n, 0, env.radius, 1);
    BlastCost(n, 0, env.radius);
    hide VisitsPerBlast, BlastOps, Run, AllAir, InWorld, Inside, Stored, Accepts, Write1;
    AirRun(env, root, prot, BlastStart(env, s, n), ops);
  }

  lemma LoneVisits(env: Env, root: Pos, prot: Protection, maxVisits: nat)
    requires InWorld(root) && Inside(Node(root, 0), env.radius - 1) && !prot(root)
    ensures SimBurn(env, root, prot, map[root := Block(TNT, 0)], maxVisits).visits == VisitsPerBlast(env.radius)
  {
    var s := Ask(Read(Ask(Start(map[root := Block(TNT, 0)]), root, false), root), root, false);
    LoneBlast(env, root, prot, s);
    hide VisitsPerBlast, Blast, InWorld, Inside;
    var t := Blast(env, root, prot, s, Node(root, 0));
    assert BlastChain(env, root, prot, s, [Node(root, 0)], MaxBlasts(env.radius, maxVisits)) == t by {
      BlastPays(env, root, prot, s, Node(root, 0));
    }
  }

  // One blast of radius 6, counted row by row.

  /** How far a row reaches on either side when s of the square of the radius is used up; -1 if nowhere. */
  function HalfRow(s: nat): int {
    if s > 36 then -1 else if s > 35 then 0 else if s > 32 then 1 else if s > 27 then 2
    else if s > 20 then 3 else if s > 11 then 4 else if s > 0 then 5 else 6
  }

  function LayerOf6(oy: nat, ox: int): nat
    decreases 6 - ox
  {
    if ox > 6 then 0
    else
      var w := HalfRow(ox * ox + oy * oy);
      (if w < 0 then 0 else 2 * (2 * w + 1)) + LayerOf6(oy, ox + 1)
  }

  lemma RowCell(s: nat, oz: int)
    requires -7 <= oz <= 6
    ensures s + oz * oz <= 36 <==> Abs(oz) <= HalfRow(s)
    ensures HalfRow(s) <= 6
  {
  }

  lemma {:induction false} RowFrom(r: nat, oy: nat, ox: int, oz: int)
    requires r == 6 && oz >= 0 - r
    ensures var w := HalfRow(ox * ox + oy * oy);
      CountZ(r, oy, ox, oz) ==
      if w < 0 || oz > w then 0 else if oz < 0 - w then 2 * (2 * w + 1) else 2 * (w - oz + 1)
    decreases r - oz
  {
    RowCell(ox * ox + oy * oy, 0);
    if oz <= r {
      RowCell(ox * ox + oy * oy, oz);
      hide HalfRow;
      RowFrom(r, oy, ox, oz + 1);
    }
  }

  lemma {:induction false} LayerFrom(r: nat, oy: nat, ox: int)
    requires r == 6
    ensures CountX(r, oy, ox) == LayerOf6(oy, ox)
    decreases r - ox
  {
    hide CountZ;
    if ox <= r {
      RowFrom(r, oy, ox, 0 - r);
      LayerFrom(r, oy, ox + 1);
    }
  }

  lemma WideLayers(r: nat)
    requires r == 6
    ensures CountX(r, 0, 0 - r) == 226 && CountX(r, 1, 0 - r) == 218 && CountX(r, 2, 0 - r) == 202
  {
    hide CountX, CountZ;
    LayerFrom(r, 0, 0 - r);
    LayerFrom(r, 1, 0 - r);
    LayerFrom(r, 2, 0 - r);
    assert LayerOf6(0, -6) == 226 && LayerOf6(1, -6) == 218 && LayerOf6(2, -6) == 202;
  }

  lemma NarrowLayers(r: nat)
    requires r == 6
    ensures CountX(r, 3, 0 - r) == 178 && CountX(r, 4, 0 - r) == 138 && CountX(r, 5, 0 - r) == 74
  {
    hide CountX, CountZ;
    LayerFrom(r, 3, 0 - r);
    LayerFrom(r, 4, 0 - r);
    LayerFrom(r, 5, 0 - r);
    assert LayerOf6(3, -6) == 178 && LayerOf6(4, -6) == 138 && LayerOf6(5, -6) == 74;
  }

  lemma BlastOf6(r: nat)
    requires r == 6
    ensures VisitsPerBlast(r) == 1037
  {
    hide CountX, CountZ;
    WideLayers(r);
    NarrowLayers(r);
    assert CountY(r, 6) == 0;
    assert CountY(r, 4) == 212;
    assert CountY(r, 2) == 592;
  }

  /** One TNT block alone at mid height and no zone anywhere, with a blast radius of 6 and a budget of one
      blast, 1037 cells, or less: the burn visits just what it is allowed, and reads 1038 cells. */
  lemma LoneTntOverruns(env: Env, root: Pos, prot: Protection, maxVisits: nat)
    requires env.radius == 6 && maxVisits <= 1037 && InWorld(root) && 5 <= root.y <= 250
    requires forall p :: !prot(p)
    ensures var t := SimBurn(env, root, prot, map[root := Block(TNT, 0)], maxVisits);
      |t.gets| == 1038 && t.visits == 1037 == Allowed(env.radius, maxVisits)
  {
    hide VisitsPerBlast, SimBurn, Near, BurnReach;
    BlastOf6(env.radius);
    LoneVisits(env, root, prot, maxVisits);
    UnzonedReads(env, root, prot, map[root := Block(TNT, 0)], maxVisits);
  }
}
