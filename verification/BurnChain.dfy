/**
 The whole burn: the TNT chain on an explicit worklist, then every lit expansion, against one
 visit budget; and what a whole run keeps.
 */
module BurnChain {
  import opened BlockRules
  import opened Burn
  import opened Voxels
  import opened BurnSteps
  import opened BurnShapes

  // --- one blast, one link --------------------------------------------------------------

  /** s to t took at most n visits and at least one, each read paid for. */
  ghost predicate Pays(s: Sim, t: Sim, n: nat) {
    && s.visits <= t.visits <= s.visits + n
    && |t.gets| - |s.gets| <= t.visits - s.visits
    && s.queue <= t.queue
  }

  lemma BlastPays(env: Env, root: Pos, prot: Protection, s: Sim, n: Node)
    ensures var t := Blast(env, root, prot, s, n);
      && Pays(s, t, VisitsPerBlast(env.radius)) && s.visits < t.visits
      && t.explosions == s.explosions + 1 && t.expansions == s.expansions && t.firing == s.firing
  {
    hide Run, Put, BlastOps, VisitsPerBlast;
    PutGrows(env, Read(BlastMark(s, n), n.pos), n.pos, AIR, 0);
    RunGrows(env, root, prot, BlastStart(env, s, n), BlastOps(n, CenterColor(s, n.pos), env.radius));
    BlastCost(n, CenterColor(s, n.pos), env.radius);
  }

  lemma ProbeBoundsGrow(s: Sim, c: Pos)
    ensures Grows(s, ProbeBounds(s, c), 6)
  {
    hide Probe;
    var a := Probe(s, Pos(c.x - 1, c.y, c.z));
    var b := Probe(a, Pos(c.x + 1, c.y, c.z));
    var d := Probe(b, Pos(c.x, c.y, c.z - 1));
    var e := Probe(d, Pos(c.x, c.y, c.z + 1));
    var f := if AtTop(c) then e else Probe(e, Pos(c.x, c.y + 1, c.z));
    ProbeGrows(s, Pos(c.x - 1, c.y, c.z));
    ProbeGrows(a, Pos(c.x + 1, c.y, c.z));
    ProbeGrows(b, Pos(c.x, c.y, c.z - 1));
    ProbeGrows(d, Pos(c.x, c.y, c.z + 1));
    ProbeGrows(e, Pos(c.x, c.y + 1, c.z));
    ProbeGrows(f, Pos(c.x, c.y - 1, c.z));
  }

  lemma FillGrows(env: Env, root: Pos, prot: Protection, s: Sim, c: Pos, kind: int, color: int, depth: nat)
    ensures Grows(s, Fill(env, root, prot, s, c, kind, color, depth), VISITS_PER_FILL)
  {
    hide Run, FillOps, ProbeBounds, Grow;
    ProbeBoundsGrow(s, c);
    BoundsSmall(env, s, c);
    FillCost(Bounds(env, s, c), c, kind, color, depth);
    RunGrows(env, root, prot, ProbeBounds(s, c), FillOps(Bounds(env, s, c), c, kind, color, depth));
  }

  lemma BoundsSmall(env: Env, s: Sim, c: Pos)
    ensures SmallSpan(Bounds(env, s, c))
  {
  }

  lemma FirePays(env: Env, root: Pos, prot: Protection, s: Sim, n: Link)
    ensures var t := Fire(env, root, prot, s, n);
      && Pays(s, t, VISITS_PER_LINK) && s.visits < t.visits
      && t.explosions == s.explosions && t.expansions == s.expansions + 1
  {
    hide Fill, Put;
    var a := Fill(env, root, prot, FireStart(s, n), n.pos, n.kind, CenterColor(s, n.pos), n.depth);
    var b := Put(env, a, n.pos, AIR, 0);
    FillGrows(env, root, prot, FireStart(s, n), n.pos, n.kind, CenterColor(s, n.pos), n.depth);
    PutGrows(env, a, n.pos, AIR, 0);
    FillGrows(env, root, prot, b, n.pos, n.kind, 0, n.depth);
  }

  // --- the two phases -------------------------------------------------------------------

  lemma {:induction false} EnqueueBounded(work: seq<Node>, chain: seq<Node>, explosions: nat, maxBlasts: nat, truncated: nat)
    requires explosions + |work| <= maxBlasts
    ensures explosions + |Enqueue(work, chain, explosions, maxBlasts, truncated).0| <= maxBlasts
    decreases |chain|
  {
    if chain != [] {
      EnqueueBounded(work, chain[1..], explosions, maxBlasts, truncated);
      EnqueueBounded(work, chain[1..], explosions, maxBlasts, truncated + 1);
      if explosions + |work| < maxBlasts {
        EnqueueBounded(work + [chain[0]], chain[1..], explosions, maxBlasts, truncated);
      }
    }
  }

  function MaxBlasts(radius: nat, maxVisits: nat): nat { Max(1, maxVisits / VisitsPerBlast(radius)) }

  function Last<T>(s: seq<T>): T
    requires s != []
  {
    s[|s| - 1]
  }

  function Front<T>(s: seq<T>): seq<T>
    requires s != []
  {
    s[..|s| - 1]
  }

  /** The TNT chain, last link first. Explosions run plus links waiting never exceed maxBlasts. */
  function BlastChain(env: Env, root: Pos, prot: Protection, s: Sim, work: seq<Node>, maxBlasts: nat): Sim
    requires s.explosions + |work| <= maxBlasts
    decreases maxBlasts - s.explosions
  {
    if work == [] then s
    else
      var t := Blast(env, root, prot, s, Last(work));
      var (rest, cut) := Enqueue(Front(work), t.chain, t.explosions, maxBlasts, t.truncated);
      BlastPays(env, root, prot, s, Last(work));
      EnqueueBounded(Front(work), t.chain, t.explosions, maxBlasts, t.truncated);
      BlastChain(env, root, prot, t.(truncated := cut), rest, maxBlasts)
  }

  function Left(maxVisits: nat, s: Sim): nat { if s.visits < maxVisits then maxVisits - s.visits else 0 }

  /** Fire the queue in order; the root of a burn always fires, every other link needs a full link's budget. */
  function Expansions(env: Env, root: Pos, prot: Protection, s: Sim, qi: nat, rootQueued: bool, maxVisits: nat): Sim
    requires qi <= |s.queue|
    decreases if rootQueued && qi == 0 then 1 else 0, Left(maxVisits, s)
  {
    if qi == |s.queue| then s
    else if !(rootQueued && qi == 0) && s.visits + VISITS_PER_LINK > maxVisits then
      s.(truncated := s.truncated + |s.queue| - qi)
    else
      var t := Fire(env, root, prot, s, s.queue[qi]);
      FirePays(env, root, prot, s, s.queue[qi]);
      Expansions(env, root, prot, t, qi + 1, rootQueued, maxVisits)
  }

  /** A TNT burn: the chain from the root, then what it lit. A protected root never goes off. */
  function SimExplode(env: Env, root: Pos, prot: Protection, s: Sim, maxVisits: nat): Sim
    requires s.explosions == 0
  {
    var a := Ask(s, root, prot(root));
    if prot(root) then a
    else
      var b := BlastChain(env, root, prot, a, [Node(root, 0)], MaxBlasts(env.radius, maxVisits));
      Expansions(env, root, prot, b, 0, false, maxVisits)
  }

  /** What lighting one block does, by what is stored there. */
  function SimBurn(env: Env, root: Pos, prot: Protection, cells: Cells, maxVisits: nat): Sim {
    var a := Ask(Start(cells), root, prot(root));
    if prot(root) then a
    else
      var b := Read(a.(visits := 1), root);
      match Look(b, root)
      case None => b
      case Some(block) =>
        if block.kind == AIR then b
        else if block.kind == TNT then SimExplode(env, root, prot, b.(visits := 0), maxVisits)
        else if IsExpansion(block.kind) then
          Expansions(env, root, prot, b.(lit := {Key(root)}, queue := [Link(root, block.kind, 0)]), 0, true, maxVisits)
        else Put(env, b, root, AIR, 0)
  }
}
