/**
 Safety of a whole burn: every access stays near the root, no protected cell is ever written, and
 only the protection of cells near the root can influence the run.
 */
module BurnSafety {
  import opened BlockRules
  import opened Burn
  import opened Voxels
  import opened BurnSteps
  import opened BurnShapes
  import opened BurnChain

  lemma NearTrans(a: Pos, b: Pos, c: Pos, m: int, n: int)
    requires Near(a, b, m) && Near(b, c, n)
    ensures Near(a, c, m + n)
  {
  }

  lemma OpsNearTrans(ops: seq<Op>, b: Pos, c: Pos, m: int, n: int, total: int)
    requires OpsNear(ops, b, m) && Near(b, c, n) && m + n <= total
    ensures OpsNear(ops, c, total)
  {
    forall op | op in ops
      ensures Near(op.pos, c, total)
    {
      NearTrans(op.pos, b, c, m, n);
    }
  }

  /** A link the chain may still run: unprotected, and within its depth's share of the reach. */
  ghost predicate NodeOk(env: Env, root: Pos, prot: Protection, n: Node) {
    n.depth <= MAX_DEPTH && Near(n.pos, root, Span1(n.depth, env.radius)) && !prot(n.pos)
  }

  function Span1(depth: nat, radius: nat): nat { depth * radius }

  lemma SpanFits(depth: nat, radius: nat)
    ensures Span1(depth + 1, radius) == Span1(depth, radius) + radius
    ensures depth <= MAX_DEPTH ==> Span1(depth, radius) + radius <= BurnReach(radius)
  {
    assert (depth + 1) * radius == depth * radius + radius;
    if depth <= MAX_DEPTH { assert depth * radius <= MAX_DEPTH * radius; }
  }

  ghost predicate WorkOk(env: Env, root: Pos, prot: Protection, work: seq<Node>) {
    forall n :: n in work ==> NodeOk(env, root, prot, n)
  }

  /** The counters of a run are not part of what safety is about. */
  ghost predicate SameTrace(s: Sim, t: Sim) {
    && s.cells == t.cells && s.gets == t.gets && s.asks == t.asks && s.denied == t.denied && s.sets == t.sets
    && s.queue == t.queue && s.lit == t.lit
  }

  lemma SafeTransfers(env: Env, cells: Cells, root: Pos, prot: Protection, s: Sim, t: Sim)
    requires Safe(env, cells, root, prot, s) && SameTrace(s, t)
    ensures Safe(env, cells, root, prot, t)
  {
  }

  lemma BlastSafe(env: Env, cells: Cells, root: Pos, prot: Protection, s: Sim, n: Node)
    requires Safe(env, cells, root, prot, s) && NodeOk(env, root, prot, n)
    ensures var t := Blast(env, root, prot, s, n);
      Safe(env, cells, root, prot, t) && forall m :: m in t.chain && m.depth <= MAX_DEPTH ==> NodeOk(env, root, prot, m)
  {
    hide Safe, Run, BlastOps, BlastStart, NodeOk, BurnReach;
    var ops := BlastOps(n, CenterColor(s, n.pos), env.radius);
    BlastNear(env, root, prot, n, CenterColor(s, n.pos));
    BlastStartSafe(env, cells, root, prot, s, n);
    RunSafe(env, cells, root, prot, BlastStart(env, s, n), ops);
    BlastOpsShape(n, CenterColor(s, n.pos), env.radius);
    RunChain(env, root, prot, BlastStart(env, s, n), ops, n);
    ChainNodes(env, root, prot, Blast(env, root, prot, s, n), n);
  }

  lemma ChainNodes(env: Env, root: Pos, prot: Protection, t: Sim, n: Node)
    requires NodeOk(env, root, prot, n) && ChainOk(prot, n, env.radius, t)
    ensures forall m :: m in t.chain && m.depth <= MAX_DEPTH ==> NodeOk(env, root, prot, m)
  {
    SpanFits(n.depth, env.radius);
    hide Span1;
    forall m | m in t.chain && m.depth <= MAX_DEPTH
      ensures NodeOk(env, root, prot, m)
    {
      NearTrans(m.pos, n.pos, root, env.radius, Span1(n.depth, env.radius));
    }
  }

  lemma BlastNear(env: Env, root: Pos, prot: Protection, n: Node, color: int)
    requires NodeOk(env, root, prot, n)
    ensures OpsNear(BlastOps(n, color, env.radius), root, BurnReach(env.radius))
  {
    SpanFits(n.depth, env.radius);
    BlastOpsShape(n, color, env.radius);
    OpsNearTrans(BlastOps(n, color, env.radius), n.pos, root, env.radius, Span1(n.depth, env.radius), BurnReach(env.radius));
  }

  lemma BlastStartSafe(env: Env, cells: Cells, root: Pos, prot: Protection, s: Sim, n: Node)
    requires Safe(env, cells, root, prot, s) && NodeOk(env, root, prot, n)
    ensures Safe(env, cells, root, prot, BlastStart(env, s, n)) && BlastStart(env, s, n).chain == []
  {
    hide Safe, Put;
    SpanFits(n.depth, env.radius);
    hide Span1, BurnReach;
    var a := BlastMark(s, n);
    SafeTransfers(env, cells, root, prot, s, a);
    ReadSafe(env, cells, root, prot, a, n.pos);
    PutSafe(env, cells, root, prot, Read(a, n.pos), n.pos, AIR, 0);
    PutChain(env, Read(a, n.pos), n.pos);
  }

  lemma PutChain(env: Env, s: Sim, p: Pos)
    ensures Put(env, s, p, AIR, 0).chain == s.chain
  {
  }

  lemma {:induction false} EnqueueOk(env: Env, root: Pos, prot: Protection, work: seq<Node>, chain: seq<Node>, explosions: nat, maxBlasts: nat, truncated: nat)
    requires WorkOk(env, root, prot, work)
    requires forall m :: m in chain && m.depth <= MAX_DEPTH ==> NodeOk(env, root, prot, m)
    ensures WorkOk(env, root, prot, Enqueue(work, chain, explosions, maxBlasts, truncated).0)
    decreases |chain|
  {
    if chain != [] {
      hide NodeOk;
      EnqueueOk(env, root, prot, work, chain[1..], explosions, maxBlasts, truncated);
      EnqueueOk(env, root, prot, work, chain[1..], explosions, maxBlasts, truncated + 1);
      if chain[0].depth <= MAX_DEPTH {
        assert chain[0] in chain;
        EnqueueOk(env, root, prot, work + [chain[0]], chain[1..], explosions, maxBlasts, truncated);
      }
    }
  }

  lemma {:induction false} BlastChainSafe(env: Env, cells: Cells, root: Pos, prot: Protection, s: Sim, work: seq<Node>, maxBlasts: nat)
    requires s.explosions + |work| <= maxBlasts
    requires Safe(env, cells, root, prot, s) && WorkOk(env, root, prot, work)
    ensures Safe(env, cells, root, prot, BlastChain(env, root, prot, s, work, maxBlasts))
    decreases maxBlasts - s.explosions
  {
    if work != [] {
      var t := Blast(env, root, prot, s, Last(work));
      var (rest, cut) := Enqueue(Front(work), t.chain, t.explosions, maxBlasts, t.truncated);
      hide Safe, Blast, NodeOk;
      BlastSafe(env, cells, root, prot, s, Last(work));
      SafeTransfers(env, cells, root, prot, t, t.(truncated := cut));
      BlastPays(env, root, prot, s, Last(work));
      EnqueueBounded(Front(work), t.chain, t.explosions, maxBlasts, t.truncated);
      EnqueueOk(env, root, prot, Front(work), t.chain, t.explosions, maxBlasts, t.truncated);
      BlastChainSafe(env, cells, root, prot, t.(truncated := cut), rest, maxBlasts);
    }
  }

  // --- expansions -----------------------------------------------------------------------

  ghost predicate CentreOk(env: Env, root: Pos, prot: Protection, c: Pos) {
    Near(c, root, LinkReach(env)) && !prot(c)
  }

  lemma FillNear(env: Env, root: Pos, s: Sim, c: Pos, kind: int, color: int, depth: nat)
    requires Near(c, root, LinkReach(env))
    ensures OpsNear(FillOps(Bounds(env, s, c), c, kind, color, depth), root, BurnReach(env.radius))
  {
    BoundsSmall(env, s, c);
    FillOpsNear(Bounds(env, s, c), c, kind, color, depth);
    OpsNearTrans(FillOps(Bounds(env, s, c), c, kind, color, depth), c, root, EXTENT, LinkReach(env), BurnReach(env.radius));
  }

  lemma ProbeBoundsSafe(env: Env, cells: Cells, root: Pos, prot: Protection, s: Sim, c: Pos)
    requires Safe(env, cells, root, prot, s) && Near(c, root, LinkReach(env))
    ensures Safe(env, cells, root, prot, ProbeBounds(s, c))
  {
    hide Probe, Safe;
    var a := Probe(s, Pos(c.x - 1, c.y, c.z));
    var b := Probe(a, Pos(c.x + 1, c.y, c.z));
    var d := Probe(b, Pos(c.x, c.y, c.z - 1));
    var e := Probe(d, Pos(c.x, c.y, c.z + 1));
    var f := if AtTop(c) then e else Probe(e, Pos(c.x, c.y + 1, c.z));
    ReadSafe(env, cells, root, prot, s, Pos(c.x - 1, c.y, c.z));
    ReadSafe(env, cells, root, prot, a, Pos(c.x + 1, c.y, c.z));
    ReadSafe(env, cells, root, prot, b, Pos(c.x, c.y, c.z - 1));
    ReadSafe(env, cells, root, prot, d, Pos(c.x, c.y, c.z + 1));
    ReadSafe(env, cells, root, prot, e, Pos(c.x, c.y + 1, c.z));
    ReadSafe(env, cells, root, prot, f, Pos(c.x, c.y - 1, c.z));
  }

  lemma FillSafe(env: Env, cells: Cells, root: Pos, prot: Protection, s: Sim, c: Pos, kind: int, color: int, depth: nat)
    requires Safe(env, cells, root, prot, s) && Near(c, root, LinkReach(env))
    ensures Safe(env, cells, root, prot, Fill(env, root, prot, s, c, kind, color, depth))
  {
    hide Run, Safe, FillOps, ProbeBounds, Bounds;
    ProbeBoundsSafe(env, cells, root, prot, s, c);
    FillNear(env, root, s, c, kind, color, depth);
    RunSafe(env, cells, root, prot, ProbeBounds(s, c), FillOps(Bounds(env, s, c), c, kind, color, depth));
  }

  lemma FireSafe(env: Env, cells: Cells, root: Pos, prot: Protection, s: Sim, n: Link)
    requires Safe(env, cells, root, prot, s) && CentreOk(env, root, prot, n.pos)
    ensures Safe(env, cells, root, prot, Fire(env, root, prot, s, n))
  {
    hide Fill, Put;
    var f := FireStart(s, n);
    var a := Fill(env, root, prot, f, n.pos, n.kind, CenterColor(s, n.pos), n.depth);
    var b := Put(env, a, n.pos, AIR, 0);
    ReadSafe(env, cells, root, prot, s, n.pos);
    FillSafe(env, cells, root, prot, f, n.pos, n.kind, CenterColor(s, n.pos), n.depth);
    PutSafe(env, cells, root, prot, a, n.pos, AIR, 0);
    FillSafe(env, cells, root, prot, b, n.pos, n.kind, 0, n.depth);
  }

  lemma QueuedCentre(env: Env, cells: Cells, root: Pos, prot: Protection, s: Sim, qi: nat)
    requires Safe(env, cells, root, prot, s) && qi < |s.queue|
    ensures CentreOk(env, root, prot, s.queue[qi].pos)
  {
    assert s.queue[qi] in s.queue;
  }

  lemma {:induction false} ExpansionsSafe(env: Env, cells: Cells, root: Pos, prot: Protection, s: Sim, qi: nat, rootQueued: bool, maxVisits: nat)
    requires qi <= |s.queue| && Safe(env, cells, root, prot, s)
    ensures Safe(env, cells, root, prot, Expansions(env, root, prot, s, qi, rootQueued, maxVisits))
    decreases if rootQueued && qi == 0 then 1 else 0, Left(maxVisits, s)
  {
    hide Safe, Fire, CentreOk;
    var cut := s.(truncated := s.truncated + |s.queue| - qi);
    SafeTransfers(env, cells, root, prot, s, cut);
    if qi < |s.queue| && ((rootQueued && qi == 0) || s.visits + VISITS_PER_LINK <= maxVisits) {
      QueuedCentre(env, cells, root, prot, s, qi);
      FirePays(env, root, prot, s, s.queue[qi]);
      FireSafe(env, cells, root, prot, s, s.queue[qi]);
      ExpansionsSafe(env, cells, root, prot, Fire(env, root, prot, s, s.queue[qi]), qi + 1, rootQueued, maxVisits);
    }
  }

  // --- the burn -------------------------------------------------------------------------

  lemma RootNear(env: Env, root: Pos)
    ensures Near(root, root, LinkReach(env)) && Near(root, root, BurnReach(env.radius))
  {
  }

  lemma ExplodeSafe(env: Env, cells: Cells, root: Pos, prot: Protection, s: Sim, maxVisits: nat)
    requires Safe(env, cells, root, prot, s) && s.explosions == 0
    ensures Safe(env, cells, root, prot, SimExplode(env, root, prot, s, maxVisits))
  {
    RootNear(env, root);
    AskSafe(env, cells, root, prot, s, root);
    hide Safe;
    if !prot(root) {
      var a := Ask(s, root, prot(root));
      var n := MaxBlasts(env.radius, maxVisits);
      hide BlastChain, Expansions, MaxBlasts;
      BlastChainSafe(env, cells, root, prot, a, [Node(root, 0)], n);
      ExpansionsSafe(env, cells, root, prot, BlastChain(env, root, prot, a, [Node(root, 0)], n), 0, false, maxVisits);
    }
  }

  lemma StartSafe(env: Env, cells: Cells, root: Pos, prot: Protection)
    ensures Safe(env, cells, root, prot, Start(cells))
  {
  }

  lemma NearWider(p: Pos, n: nat)
    ensures Near(p, p, n + 1)
  {
  }

  lemma LitSafe(env: Env, cells: Cells, root: Pos, prot: Protection, s: Sim, kind: int)
    requires Safe(env, cells, root, prot, s) && !prot(root)
    ensures Safe(env, cells, root, prot, s.(lit := {Key(root)}, queue := [Link(root, kind, 0)]))
  {
    RootNear(env, root);
  }

  /** For every burn: each write is to an unprotected cell within burn reach of the root, so is each
      question, each read goes at most one cell further, the links are lit once, and the world is
      what those writes made of it. */
  lemma BurnSafe(env: Env, root: Pos, prot: Protection, cells: Cells, maxVisits: nat)
    ensures Safe(env, cells, root, prot, SimBurn(env, root, prot, cells, maxVisits))
  {
    hide Safe, Put, SimExplode, Expansions, BurnReach, Near;
    RootNear(env, root);
    StartSafe(env, cells, root, prot);
    var a := Ask(Start(cells), root, prot(root));
    var b := Read(a.(visits := 1), root);
    AskSafe(env, cells, root, prot, Start(cells), root);
    SafeTransfers(env, cells, root, prot, a, a.(visits := 1));
    NearWider(root, BurnReach(env.radius));
    ReadSafe(env, cells, root, prot, a.(visits := 1), root);
    if !prot(root) && root in cells {
      var lit := b.(lit := {Key(root)}, queue := [Link(root, cells[root].kind, 0)]);
      LitSafe(env, cells, root, prot, b, cells[root].kind);
      PutSafe(env, cells, root, prot, b, root, AIR, 0);
      SafeTransfers(env, cells, root, prot, b, b.(visits := 0));
      ExplodeSafe(env, cells, root, prot, b.(visits := 0), maxVisits);
      ExpansionsSafe(env, cells, root, prot, lit, 0, true, maxVisits);
    }
  }

  /** A cell that is protected, or out of burn reach, comes through every burn unchanged. */
  lemma BurnFrame(env: Env, root: Pos, prot: Protection, cells: Cells, maxVisits: nat, p: Pos)
    requires prot(p) || !Near(p, root, BurnReach(env.radius))
    ensures var after := SimBurn(env, root, prot, cells, maxVisits).cells;
      (p in after <==> p in cells) && (p in cells ==> after[p] == cells[p])
  {
    BurnSafe(env, root, prot, cells, maxVisits);
    WrittenFrame(env, cells, SimBurn(env, root, prot, cells, maxVisits).sets, p);
  }
}
