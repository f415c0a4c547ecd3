/**
 What a burn comes to, by what is stored at its root: nothing, a block burnt away, a chain of blasts, or
 expansions going off; and which blasts and expansions a run sets off, in order.
 */
module BurnOutcome {
  import opened BlockRules
  import opened Burn
  import opened BurnChain
  import opened BurnEffects
  import opened BurnLighting
  import opened BurnSafety
  import opened BurnSteps
  import opened BurnVisits
  import opened Voxels

  // --- the blasts of a chain ----------------------------------------------------------------

  /** One blast: the block that goes off, and the state it goes off in. */
  datatype Shot = Shot(before: Sim, node: Node)

  function ShotResult(env: Env, root: Pos, prot: Protection, shot: Shot): Sim { Blast(env, root, prot, shot.before, shot.node) }

  /** The blasts a chain runs, in order. */
  function Shots(env: Env, root: Pos, prot: Protection, s: Sim, work: seq<Node>, maxBlasts: nat): seq<Shot>
    requires s.explosions + |work| <= maxBlasts
    decreases maxBlasts - s.explosions
  {
    if work == [] then []
    else
      var t := Blast(env, root, prot, s, Last(work));
      var (rest, cut) := Enqueue(Front(work), t.chain, t.explosions, maxBlasts, t.truncated);
      BlastPays(env, root, prot, s, Last(work));
      EnqueueBounded(Front(work), t.chain, t.explosions, maxBlasts, t.truncated);
      [Shot(s, Last(work))] + Shots(env, root, prot, t.(truncated := cut), rest, maxBlasts)
  }

  ghost predicate GoesOff(shots: seq<Shot>, n: Node) { exists i :: 0 <= i < |shots| && shots[i].node == n }

  /** Every TNT one of these blasts links goes off too, unless it is past the depth guard. */
  ghost predicate LinksGoOff(env: Env, root: Pos, prot: Protection, shots: seq<Shot>) {
    forall i, m :: 0 <= i < |shots| && m in ShotResult(env, root, prot, shots[i]).chain && m.depth <= MAX_DEPTH ==> GoesOff(shots, m)
  }

  /** The last link of a blast that may run is the next to go off. */
  ghost predicate LastLinkNext(env: Env, root: Pos, prot: Protection, shots: seq<Shot>) {
    forall i :: 0 <= i < |shots| ==> LinkNext(env, root, prot, shots, i)
  }

  predicate LinkNext(env: Env, root: Pos, prot: Protection, shots: seq<Shot>, i: nat)
    requires i < |shots|
  {
    var links := Shallow(ShotResult(env, root, prot, shots[i]).chain);
    links != [] ==> i + 1 < |shots| && shots[i + 1].node == Last(links)
  }

  function Deepest(shots: seq<Shot>, d: nat): nat
    decreases |shots|
  {
    if shots == [] then d else Deepest(shots[1..], Max(d, shots[0].node.depth))
  }

  lemma {:induction false} ShallowIs(chain: seq<Node>, m: Node)
    ensures m in Shallow(chain) <==> m in chain && m.depth <= MAX_DEPTH
    decreases |chain|
  {
    if chain != [] {
      ShallowIs(chain[1..], m);
      assert chain == [chain[0]] + chain[1..];
    }
  }

  lemma BlastDepth(env: Env, root: Pos, prot: Protection, s: Sim, n: Node)
    ensures Blast(env, root, prot, s, n).maxDepth == Max(s.maxDepth, n.depth)
  {
    hide Run, BlastOps, Write1, Accepts;
    RunGrows(env, root, prot, BlastStart(env, s, n), BlastOps(n, CenterColor(s, n.pos), env.radius));
  }

  lemma GoesOffLater(shots: seq<Shot>, n: Node)
    requires shots != [] && (shots[0].node == n || GoesOff(shots[1..], n))
    ensures GoesOff(shots, n)
  {
    if shots[0].node != n {
      var i :| 0 <= i < |shots| - 1 && shots[1..][i].node == n;
      assert shots[i + 1].node == n;
    }
  }

  lemma {:induction false} ChainTruncates(env: Env, root: Pos, prot: Protection, s: Sim, work: seq<Node>, maxBlasts: nat)
    requires s.explosions + |work| <= maxBlasts
    ensures BlastChain(env, root, prot, s, work, maxBlasts).truncated >= s.truncated
    decreases maxBlasts - s.explosions
  {
    hide Blast, Enqueue;
    if work != [] {
      var t := Blast(env, root, prot, s, Last(work));
      var (rest, cut) := Enqueue(Front(work), t.chain, t.explosions, maxBlasts, t.truncated);
      BlastPays(env, root, prot, s, Last(work));
      BlastTruncates(env, root, prot, s, Last(work));
      EnqueueBounded(Front(work), t.chain, t.explosions, maxBlasts, t.truncated);
      EnqueueExact(Front(work), t.chain, t.explosions, maxBlasts, t.truncated);
      ChainTruncates(env, root, prot, t.(truncated := cut), rest, maxBlasts);
    }
  }

  lemma BlastTruncates(env: Env, root: Pos, prot: Protection, s: Sim, n: Node)
    ensures Blast(env, root, prot, s, n).truncated >= s.truncated
  {
    hide Run, BlastOps, Write1, Accepts;
    RunTruncates(env, root, prot, BlastStart(env, s, n), BlastOps(n, CenterColor(s, n.pos), env.radius));
  }

  /** A chain runs every block of its worklist, each counted once. Unless it is cut short every TNT that
      any of its blasts links goes off, the last one found first. */
  lemma {:induction false} ChainRuns(env: Env, root: Pos, prot: Protection, s: Sim, work: seq<Node>, maxBlasts: nat)
    requires s.explosions + |work| <= maxBlasts
    ensures var t, shots := BlastChain(env, root, prot, s, work, maxBlasts), Shots(env, root, prot, s, work, maxBlasts);
      && t.explosions == s.explosions + |shots| && t.maxDepth == Deepest(shots, s.maxDepth)
      && (work != [] ==> shots != [] && shots[0] == Shot(s, Last(work)))
      && (forall n :: n in work ==> GoesOff(shots, n))
      && (t.truncated == s.truncated ==> LinksGoOff(env, root, prot, shots) && LastLinkNext(env, root, prot, shots))
    decreases maxBlasts - s.explosions
  {
    hide Blast, Enqueue, Shallow;
    if work != [] {
      var n := Last(work);
      var t := Blast(env, root, prot, s, n);
      var (rest, cut) := Enqueue(Front(work), t.chain, t.explosions, maxBlasts, t.truncated);
      var u := t.(truncated := cut);
      BlastPays(env, root, prot, s, n);
      BlastDepth(env, root, prot, s, n);
      BlastTruncates(env, root, prot, s, n);
      EnqueueBounded(Front(work), t.chain, t.explosions, maxBlasts, t.truncated);
      EnqueueExact(Front(work), t.chain, t.explosions, maxBlasts, t.truncated);
      ChainRuns(env, root, prot, u, rest, maxBlasts);
      ChainTruncates(env, root, prot, u, rest, maxBlasts);
      var later := Shots(env, root, prot, u, rest, maxBlasts);
      var shots := [Shot(s, n)] + later;
      assert shots[1..] == later;
      forall m | m in work
        ensures GoesOff(shots, m)
      {
        if m != n { assert m in Front(work) && m in rest; }
        GoesOffLater(shots, m);
      }
      if BlastChain(env, root, prot, u, rest, maxBlasts).truncated == s.truncated {
        assert rest == Front(work) + Shallow(t.chain);
        LinksLater(env, root, prot, s, n, rest, Shallow(t.chain), later);
      }
    }
  }

  lemma LinksLater(env: Env, root: Pos, prot: Protection, s: Sim, n: Node, rest: seq<Node>, links: seq<Node>, later: seq<Shot>)
    requires links == Shallow(Blast(env, root, prot, s, n).chain) && (forall m :: m in links ==> m in rest)
    requires forall m :: m in rest ==> GoesOff(later, m)
    requires links != [] ==> rest != [] && Last(rest) == Last(links) && later != [] && later[0].node == Last(rest)
    requires LinksGoOff(env, root, prot, later) && LastLinkNext(env, root, prot, later)
    ensures LinksGoOff(env, root, prot, [Shot(s, n)] + later) && LastLinkNext(env, root, prot, [Shot(s, n)] + later)
  {
    hide Blast, Shallow;
    var shots := [Shot(s, n)] + later;
    assert shots[1..] == later;
    forall i, m | 0 <= i < |shots| && m in ShotResult(env, root, prot, shots[i]).chain && m.depth <= MAX_DEPTH
      ensures GoesOff(shots, m)
    {
      if i == 0 { ShallowIs(Blast(env, root, prot, s, n).chain, m); } else { assert shots[i] == later[i - 1]; }
      GoesOffLater(shots, m);
    }
    forall i | 0 <= i < |shots|
      ensures LinkNext(env, root, prot, shots, i)
    {
      if i > 0 { assert shots[i] == later[i - 1] && LinkNext(env, root, prot, later, i - 1); }
      if i + 1 < |shots| { assert shots[i + 1] == later[i]; }
    }
  }

  // --- the expansions that fire -------------------------------------------------------------

  /** The states the queue's expansions fire in, in order. */
  function Firings(env: Env, root: Pos, prot: Protection, s: Sim, qi: nat, rootQueued: bool, maxVisits: nat): seq<Sim>
    requires qi <= |s.queue|
    decreases if rootQueued && qi == 0 then 1 else 0, Left(maxVisits, s)
  {
    if qi == |s.queue| || (!(rootQueued && qi == 0) && s.visits + VISITS_PER_LINK > maxVisits) then []
    else
      FirePays(env, root, prot, s, s.queue[qi]);
      [s] + Firings(env, root, prot, Fire(env, root, prot, s, s.queue[qi]), qi + 1, rootQueued, maxVisits)
  }

  function DeepestLink(links: seq<Link>, d: nat): nat
    decreases |links|
  {
    if links == [] then d else DeepestLink(links[1..], Max(d, links[0].depth))
  }

  lemma FireDepth(env: Env, root: Pos, prot: Protection, s: Sim, n: Link)
    ensures Fire(env, root, prot, s, n).maxDepth == Max(s.maxDepth, n.depth)
  {
    hide Fill, Write1, Accepts;
    var a := Fill(env, root, prot, FireStart(s, n), n.pos, n.kind, CenterColor(s, n.pos), n.depth);
    FillGrows(env, root, prot, FireStart(s, n), n.pos, n.kind, CenterColor(s, n.pos), n.depth);
    FillGrows(env, root, prot, Put(env, a, n.pos, AIR, 0), n.pos, n.kind, 0, n.depth);
  }

  lemma NoLinks(links: seq<Link>, i: nat, d: nat)
    requires i <= |links|
    ensures DeepestLink(links[i..i], d) == d
  {
  }

  lemma DeeperFrom(links: seq<Link>, i: nat, j: nat, d: nat)
    requires i < j <= |links|
    ensures DeepestLink(links[i..j], d) == DeepestLink(links[i + 1..j], Max(d, links[i].depth))
  {
    assert links[i..j][1..] == links[i + 1..j];
  }

  /** The queue fires from its front, each link once and in the order it was lit. */
  lemma {:induction false} QueueFires(env: Env, root: Pos, prot: Protection, s: Sim, qi: nat, rootQueued: bool, maxVisits: nat)
    requires qi <= |s.queue|
    ensures var t, fired := Expansions(env, root, prot, s, qi, rootQueued, maxVisits), Firings(env, root, prot, s, qi, rootQueued, maxVisits);
      && t.expansions == s.expansions + |fired| && qi + |fired| <= |t.queue|
      && (forall i :: 0 <= i < |fired| ==> qi + i < |fired[i].queue| && fired[i].queue[qi + i] == t.queue[qi + i])
      && (|fired| > 0 ==> fired[0] == s)
      && t.maxDepth == DeepestLink(t.queue[qi..qi + |fired|], s.maxDepth)
    decreases if rootQueued && qi == 0 then 1 else 0, Left(maxVisits, s)
  {
    hide Fire, DeepestLink;
    if qi < |s.queue| && ((rootQueued && qi == 0) || s.visits + VISITS_PER_LINK <= maxVisits) {
      var u := Fire(env, root, prot, s, s.queue[qi]);
      FirePays(env, root, prot, s, s.queue[qi]);
      FireDepth(env, root, prot, s, s.queue[qi]);
      QueueFires(env, root, prot, u, qi + 1, rootQueued, maxVisits);
      QueueDrains(env, root, prot, u, qi + 1, rootQueued, maxVisits);
      var t, fired := Expansions(env, root, prot, u, qi + 1, rootQueued, maxVisits), Firings(env, root, prot, u, qi + 1, rootQueued, maxVisits);
      DeeperFrom(t.queue, qi, qi + 1 + |fired|, s.maxDepth);
    } else {
      NoLinks(Expansions(env, root, prot, s, qi, rootQueued, maxVisits).queue, qi, s.maxDepth);
    }
  }

  // --- what becomes of the root -----------------------------------------------------------------

  /** Nothing changes: no cell is written, and nothing goes off. */
  predicate NothingDone(t: Sim, cells: Cells) {
    t.cells == cells && t.sets == [] && t.refused == 0 && t.truncated == 0 && t.explosions == 0 && t.expansions == 0 && t.maxDepth == 0
  }

  /** A burn of a protected cell, of one where nothing is stored, or of stored air does nothing. */
  lemma NothingBurns(env: Env, root: Pos, prot: Protection, cells: Cells, maxVisits: nat)
    requires prot(root) || root !in cells || cells[root].kind == AIR
    ensures var t := SimBurn(env, root, prot, cells, maxVisits);
      NothingDone(t, cells) && t.denied == if prot(root) then [root] else []
  {
  }

  /** A block that is neither TNT nor an expansion, a firework included, burns away: its cell becomes air,
      and that is all. */
  lemma BlockBurnsAway(env: Env, root: Pos, prot: Protection, cells: Cells, maxVisits: nat)
    requires !prot(root) && root in cells && (env.live ==> InWorld(root))
    requires cells[root].kind != AIR && cells[root].kind != TNT && !IsExpansion(cells[root].kind)
    ensures var t := SimBurn(env, root, prot, cells, maxVisits);
      && t.cells == cells[root := Block(AIR, 0)] && t.sets == [Write(root, AIR, 0)]
      && t.refused == 0 && t.truncated == 0 && t.explosions == 0 && t.expansions == 0 && t.maxDepth == 0 && t.visits == 1
  {
  }

  /** The state a TNT root goes off in. */
  function Ready(root: Pos, cells: Cells): Sim { Ask(Read(Ask(Start(cells), root, false), root), root, false) }

  lemma {:induction false} ChainWrites(env: Env, root: Pos, prot: Protection, s: Sim, work: seq<Node>, maxBlasts: nat)
    requires s.explosions + |work| <= maxBlasts
    ensures s.sets <= BlastChain(env, root, prot, s, work, maxBlasts).sets
    ensures work != [] ==> Blast(env, root, prot, s, Last(work)).sets <= BlastChain(env, root, prot, s, work, maxBlasts).sets
    decreases maxBlasts - s.explosions
  {
    hide Blast, Enqueue;
    if work != [] {
      var t := Blast(env, root, prot, s, Last(work));
      var (rest, cut) := Enqueue(Front(work), t.chain, t.explosions, maxBlasts, t.truncated);
      BlastPays(env, root, prot, s, Last(work));
      BlastWrites(env, root, prot, s, Last(work));
      EnqueueBounded(Front(work), t.chain, t.explosions, maxBlasts, t.truncated);
      ChainWrites(env, root, prot, t.(truncated := cut), rest, maxBlasts);
    }
  }

  lemma PutWrites(env: Env, s: Sim, p: Pos, kind: int, color: int)
    ensures Put(env, s, p, kind, color).sets == s.sets + [Write(p, kind, color)]
  {
  }

  lemma LightWrites(env: Env, root: Pos, s: Sim, p: Pos, kind: int, depth: nat, ask: bool, deny: bool)
    ensures Light(env, root, s, p, kind, depth, ask, deny).sets == s.sets
  {
  }

  lemma StepWrites(env: Env, root: Pos, s: Sim, op: Op, deny: bool)
    ensures s.sets <= Step(env, root, s, op, deny).sets
  {
    hide Put, Light, RampForFaces, SolidFaces, SeenKind;
    var p := op.pos;
    var a := Probe(s, p);
    match op {
      case Sample(_, color, depth) =>
        var b := Read(Ask(s.(visits := s.visits + 1), p, deny), p);
        PutWrites(env, b, p, AIR, 0);
        PutWrites(env, b, p, PAINTED_BASE, color);
        if p in s.cells {
          PutWrites(env, b, p, s.cells[p].kind, color);
          LightWrites(env, root, b, p, s.cells[p].kind, depth + 1, false, false);
        }
      case FillCell(_, material, color, depth) =>
        PutWrites(env, Ask(a, p, deny), p, material, color);
        LightWrites(env, root, a, p, SeenKind(env, s, p), depth, true, deny);
      case RingCell(_, ramp, color, depth) =>
        PutWrites(env, ProbeFaces(Ask(a, p, deny), p), p, RampForFaces(ramp, SolidFaces(env, a, p)), color);
        LightWrites(env, root, a, p, SeenKind(env, s, p), depth, true, deny);
      case LightCell(_, depth) =>
        LightWrites(env, root, a, p, SeenKind(env, s, p), depth, true, deny);
    }
  }

  lemma {:induction false} RunWrites(env: Env, root: Pos, prot: Protection, s: Sim, ops: seq<Op>)
    ensures s.sets <= Run(env, root, prot, s, ops).sets
    decreases |ops|
  {
    hide Step;
    if ops != [] {
      StepWrites(env, root, s, ops[0], prot(ops[0].pos));
      RunWrites(env, root, prot, Step(env, root, s, ops[0], prot(ops[0].pos)), ops[1..]);
    }
  }

  lemma BlastWrites(env: Env, root: Pos, prot: Protection, s: Sim, n: Node)
    ensures s.sets + [Write(n.pos, AIR, 0)] <= Blast(env, root, prot, s, n).sets
  {
    hide Run, BlastOps, Write1, Accepts;
    RunWrites(env, root, prot, BlastStart(env, s, n), BlastOps(n, CenterColor(s, n.pos), env.radius));
  }

  lemma FireWrites(env: Env, root: Pos, prot: Protection, s: Sim, n: Link)
    ensures s.sets <= Fire(env, root, prot, s, n).sets
  {
    hide Fill, Write1, Accepts;
    var a := Fill(env, root, prot, FireStart(s, n), n.pos, n.kind, CenterColor(s, n.pos), n.depth);
    FillWrites(env, root, prot, FireStart(s, n), n.pos, n.kind, CenterColor(s, n.pos), n.depth);
    FillWrites(env, root, prot, Put(env, a, n.pos, AIR, 0), n.pos, n.kind, 0, n.depth);
  }

  lemma FillWrites(env: Env, root: Pos, prot: Protection, s: Sim, c: Pos, kind: int, color: int, depth: nat)
    ensures s.sets <= Fill(env, root, prot, s, c, kind, color, depth).sets
  {
    hide Run, FillOps, Bounds;
    RunWrites(env, root, prot, ProbeBounds(s, c), FillOps(Bounds(env, s, c), c, kind, color, depth));
  }

  lemma {:induction false} QueueWrites(env: Env, root: Pos, prot: Protection, s: Sim, qi: nat, rootQueued: bool, maxVisits: nat)
    requires qi <= |s.queue|
    ensures s.sets <= Expansions(env, root, prot, s, qi, rootQueued, maxVisits).sets
    decreases if rootQueued && qi == 0 then 1 else 0, Left(maxVisits, s)
  {
    hide Fire;
    if qi < |s.queue| && ((rootQueued && qi == 0) || s.visits + VISITS_PER_LINK <= maxVisits) {
      FirePays(env, root, prot, s, s.queue[qi]);
      FireWrites(env, root, prot, s, s.queue[qi]);
      QueueWrites(env, root, prot, Fire(env, root, prot, s, s.queue[qi]), qi + 1, rootQueued, maxVisits);
    }
  }

  lemma {:induction false} FiringKeeps(env: Env, root: Pos, prot: Protection, s: Sim, qi: nat, rootQueued: bool, maxVisits: nat)
    requires qi <= |s.queue|
    ensures Expansions(env, root, prot, s, qi, rootQueued, maxVisits).explosions == s.explosions
    decreases if rootQueued && qi == 0 then 1 else 0, Left(maxVisits, s)
  {
    hide Fire;
    if qi < |s.queue| && ((rootQueued && qi == 0) || s.visits + VISITS_PER_LINK <= maxVisits) {
      FirePays(env, root, prot, s, s.queue[qi]);
      FiringKeeps(env, root, prot, Fire(env, root, prot, s, s.queue[qi]), qi + 1, rootQueued, maxVisits);
    }
  }

  /** TNT at the root goes off, first of all: its cell is emptied, and its whole blast is in the world
      before anything else happens. Unless the burn is cut short every TNT that one of its blasts links
      goes off, the last found first, and then every expansion that was lit, the first lit first. */
  lemma TntGoesOff(env: Env, root: Pos, prot: Protection, cells: Cells, maxVisits: nat)
    requires SetsOff(root, prot, cells)
    ensures var t, s := SimBurn(env, root, prot, cells, maxVisits), Ready(root, cells);
      var shots := Shots(env, root, prot, s, [Node(root, 0)], MaxBlasts(env.radius, maxVisits));
      && shots != [] && shots[0] == Shot(s, Node(root, 0)) && t.explosions == |shots|
      && [Write(root, AIR, 0)] <= Blast(env, root, prot, s, Node(root, 0)).sets <= t.sets
      && (t.truncated == 0 ==> LinksGoOff(env, root, prot, shots) && LastLinkNext(env, root, prot, shots) && t.expansions == |t.queue|)
  {
    hide Blast, BlastChain, Shots, Expansions, VisitsPerBlast, LinksGoOff, LastLinkNext;
    var s, n := Ready(root, cells), MaxBlasts(env.radius, maxVisits);
    var work := [Node(root, 0)];
    var b := BlastChain(env, root, prot, s, work, n);
    ChainRuns(env, root, prot, s, work, n);
    ChainTruncates(env, root, prot, s, work, n);
    ChainFires(env, root, prot, s, work, n);
    ChainWrites(env, root, prot, s, work, n);
    BlastWrites(env, root, prot, s, Node(root, 0));
    FiringKeeps(env, root, prot, b, 0, false, maxVisits);
    QueueWrites(env, root, prot, b, 0, false, maxVisits);
    QueueDrains(env, root, prot, b, 0, false, maxVisits);
  }

  lemma {:induction false} ChainFires(env: Env, root: Pos, prot: Protection, s: Sim, work: seq<Node>, maxBlasts: nat)
    requires s.explosions + |work| <= maxBlasts
    ensures BlastChain(env, root, prot, s, work, maxBlasts).expansions == s.expansions
    decreases maxBlasts - s.explosions
  {
    hide Blast, Enqueue;
    if work != [] {
      var t := Blast(env, root, prot, s, Last(work));
      var (rest, cut) := Enqueue(Front(work), t.chain, t.explosions, maxBlasts, t.truncated);
      BlastPays(env, root, prot, s, Last(work));
      EnqueueBounded(Front(work), t.chain, t.explosions, maxBlasts, t.truncated);
      ChainFires(env, root, prot, t.(truncated := cut), rest, maxBlasts);
    }
  }

  /** A block that fills keep: there is one, and no client sees air there. */
  predicate Solid(b: Option<Block>) { b.Some? && b.value.kind != AIR && b.value.kind != PAINTED_BASE }

  lemma FillKeeps(env: Env, root: Pos, prot: Protection, s: Sim, c: Pos, kind: int, color: int, depth: nat, p: Pos)
    requires Solid(Look(s, p))
    ensures Look(Fill(env, root, prot, s, c, kind, color, depth), p) == Look(s, p)
  {
    FillEffect(env, root, prot, s, c, kind, color, depth, p);
    hide Fill, Boxed, SolidFaces, Bounds, More, Barred, RampForFaces, InPass, ExpansionMaterial, ExpansionRamp;
  }

  /** An expansion leaves every block off its own cell that shows anything but air. */
  lemma FireKeeps(env: Env, root: Pos, prot: Protection, s: Sim, n: Link, p: Pos)
    requires Solid(Look(s, p)) && p != n.pos
    ensures Look(Fire(env, root, prot, s, n), p) == Look(s, p)
  {
    hide Fill, Solid, Accepts;
    var f := FireStart(s, n);
    assert f.cells == s.cells;
    var a := Fill(env, root, prot, f, n.pos, n.kind, CenterColor(s, n.pos), n.depth);
    var b := Put(env, a, n.pos, AIR, 0);
    FillKeeps(env, root, prot, f, n.pos, n.kind, CenterColor(s, n.pos), n.depth, p);
    FillKeeps(env, root, prot, b, n.pos, n.kind, 0, n.depth, p);
  }

  /** An open cell of a fill: it shows air in the box, no zone keeps it, the store takes writes there, and
      it is not at a corner that gets a ramp. */
  predicate Open(env: Env, s: Sim, c: Pos, kind: int, p: Pos) {
    && InPass(RingPass(ExpansionRamp(kind), 0, 0), Bounds(env, s, c), c, p) && Shown(env, Look(s, p), p.y) == AIR
    && (ExpansionRamp(kind) != 0 ==> !Corner(c, p.x, p.z)) && (env.live ==> InWorld(p) && p in s.cells)
  }

  lemma FillPaints(env: Env, root: Pos, prot: Protection, s: Sim, c: Pos, kind: int, color: int, depth: nat, p: Pos)
    requires Open(env, s, c, kind, p) && !prot(p) && ExpansionMaterial(kind) != AIR
    ensures Look(Fill(env, root, prot, s, c, kind, color, depth), p) == Some(Stored(env, ExpansionMaterial(kind), color))
  {
    FillEffect(env, root, prot, s, c, kind, color, depth, p);
    hide Fill, Boxed, SolidFaces, Bounds, RampForFaces, ExpansionMaterial, ExpansionRamp, Corner, InPass, Stored, Shown;
  }

  /** A fired expansion fills with the colour its block had: an open cell ends up as the material in that
      colour. */
  lemma FirePaints(env: Env, root: Pos, prot: Protection, s: Sim, n: Link, p: Pos)
    requires p != n.pos && Open(env, s, n.pos, n.kind, p) && !prot(p) && ExpansionMaterial(n.kind) != AIR
    ensures Look(Fire(env, root, prot, s, n), p) == Some(Stored(env, ExpansionMaterial(n.kind), CenterColor(s, n.pos)))
  {
    var f, color := FireStart(s, n), CenterColor(s, n.pos);
    assert Open(env, f, n.pos, n.kind, p) by { hide Shown, InPass, ExpansionRamp, Corner; }
    MaterialKept(env, n.kind, color);
    hide Fill, Open, Solid, ExpansionMaterial, Stored, Accepts;
    var a := Fill(env, root, prot, f, n.pos, n.kind, color, n.depth);
    FillPaints(env, root, prot, f, n.pos, n.kind, color, n.depth, p);
    FillKeeps(env, root, prot, Put(env, a, n.pos, AIR, 0), n.pos, n.kind, 0, n.depth, p);
  }

  lemma MaterialKept(env: Env, kind: int, color: int)
    ensures ExpansionMaterial(kind) != AIR ==> Solid(Some(Stored(env, ExpansionMaterial(kind), color)))
  {
    MaterialPlain(kind);
    hide ExpansionMaterial;
  }

  lemma {:induction false} QueueKeeps(env: Env, cells: Cells, root: Pos, prot: Protection, s: Sim, qi: nat, rootQueued: bool, maxVisits: nat, p: Pos, k: nat)
    requires k < qi <= |s.queue| && s.queue[k].pos == p && Safe(env, cells, root, prot, s) && Solid(Look(s, p))
    ensures Look(Expansions(env, root, prot, s, qi, rootQueued, maxVisits), p) == Look(s, p)
    decreases if rootQueued && qi == 0 then 1 else 0, Left(maxVisits, s)
  {
    hide Fire, Solid, CentreOk, TraceOk, Explained, Near;
    if qi < |s.queue| && ((rootQueued && qi == 0) || s.visits + VISITS_PER_LINK <= maxVisits) {
      assert Key(s.queue[k].pos) != Key(s.queue[qi].pos);
      hide Safe, Key;
      var u := Fire(env, root, prot, s, s.queue[qi]);
      FirePays(env, root, prot, s, s.queue[qi]);
      QueuedCentre(env, cells, root, prot, s, qi);
      FireSafe(env, cells, root, prot, s, s.queue[qi]);
      FireKeeps(env, root, prot, s, s.queue[qi], p);
      assert u.queue[k].pos == p;
      QueueKeeps(env, cells, root, prot, u, qi + 1, rootQueued, maxVisits, p, k);
    }
  }

  lemma MaterialSolid(env: Env, kind: int)
    ensures ExpansionMaterial(kind) != AIR ==> Solid(Some(Stored(env, ExpansionMaterial(kind), 0)))
    ensures 0 <= ExpansionMaterial(kind) < 100 && Stored(env, ExpansionMaterial(kind), 0) == Block(ExpansionMaterial(kind), 0)
  {
    MaterialPlain(kind);
    hide ExpansionMaterial;
  }

  /** An expansion block at the root fires, first of all and whatever the budget. Its cell ends up as its
      material without colour, whatever else the burn lights; the plain expansion block, whose material is
      air, empties it when it fires. Unless the burn is cut short every expansion that was lit fires. */
  lemma ExpansionFires(env: Env, root: Pos, prot: Protection, cells: Cells, maxVisits: nat)
    requires !prot(root) && InWorld(root) && root in cells && IsExpansion(cells[root].kind)
    ensures var t := SimBurn(env, root, prot, cells, maxVisits);
      var m := ExpansionMaterial(cells[root].kind);
      && t.explosions == 0 && t.expansions >= 1 && (t.truncated == 0 ==> t.expansions == |t.queue|)
      && |t.queue| > 0 && t.queue[0] == Link(root, cells[root].kind, 0)
      && (m != AIR ==> Look(t, root) == Some(Block(m, 0)))
      && Look(Fire(env, root, prot, LitRoot(root, cells), t.queue[0]), root) == Some(Block(m, 0))
  {
    hide SimBurn, LitRoot, Fire, Expansions, Safe, Solid, Near, Stored, ExpansionMaterial, Left;
    RootExpands(env, root, prot, cells, maxVisits);
    var s := LitRoot(root, cells);
    var n := Link(root, cells[root].kind, 0);
    var u := Fire(env, root, prot, s, n);
    RootMaterial(env, root, prot, cells);
    RootSafe(env, cells, root, prot);
    ExpansionsStep(env, root, prot, s, 0, true, maxVisits);
    if ExpansionMaterial(n.kind) != AIR { QueueKeeps(env, cells, root, prot, u, 1, true, maxVisits, root, 0); }
    FirePays(env, root, prot, s, n);
    FiringKeeps(env, root, prot, u, 1, true, maxVisits);
    QueueDrains(env, root, prot, u, 1, true, maxVisits);
  }

  lemma RootExpands(env: Env, root: Pos, prot: Protection, cells: Cells, maxVisits: nat)
    requires !prot(root) && root in cells && IsExpansion(cells[root].kind)
    ensures var s := LitRoot(root, cells);
      && SimBurn(env, root, prot, cells, maxVisits) == Expansions(env, root, prot, s, 0, true, maxVisits)
      && s.queue == [Link(root, cells[root].kind, 0)] && s.expansions == 0 && s.explosions == 0 && s.truncated == 0
  {
    hide Expansions;
  }

  /** The root after it fired: its material, and still safe. */
  lemma RootMaterial(env: Env, root: Pos, prot: Protection, cells: Cells)
    requires !prot(root) && InWorld(root) && root in cells && IsExpansion(cells[root].kind)
    ensures var n := Link(root, cells[root].kind, 0);
      var u := Fire(env, root, prot, LitRoot(root, cells), n);
      && Look(u, root) == Some(Block(ExpansionMaterial(n.kind), 0)) && Safe(env, cells, root, prot, u)
      && (ExpansionMaterial(n.kind) != AIR ==> Solid(Look(u, root)))
  {
    var s := LitRoot(root, cells);
    var n := Link(root, cells[root].kind, 0);
    FireCentre(env, root, prot, s, n);
    MaterialSolid(env, n.kind);
    RootSafe(env, cells, root, prot);
    RootNear(env, root);
    hide Fire, Safe, Solid, Near, Stored, ExpansionMaterial;
    FireSafe(env, cells, root, prot, s, n);
  }

  /** The state an expansion block at the root fires in. */
  function LitRoot(root: Pos, cells: Cells): Sim
    requires root in cells
  {
    Read(Ask(Start(cells), root, false).(visits := 1), root).(lit := {Key(root)}, queue := [Link(root, cells[root].kind, 0)])
  }

  lemma RootSafe(env: Env, cells: Cells, root: Pos, prot: Protection)
    requires root in cells && !prot(root)
    ensures Safe(env, cells, root, prot, LitRoot(root, cells))
  {
    var a := Ask(Start(cells), root, false);
    var b := Read(a.(visits := 1), root);
    RootNear(env, root);
    NearWider(root, BurnReach(env.radius));
    StartSafe(env, cells, root, prot);
    hide Safe, Near;
    AskSafe(env, cells, root, prot, Start(cells), root);
    SafeTransfers(env, cells, root, prot, a, a.(visits := 1));
    ReadSafe(env, cells, root, prot, a.(visits := 1), root);
    LitSafe(env, cells, root, prot, b, cells[root].kind);
  }

  // --- all of it ------------------------------------------------------------------------------

  /** What a burn at this root may have done, by what was stored there: nothing at a cell that is
      protected, not stored, or air; a chain that starts by emptying a TNT root; an expansion of which its
      material is left; and any other block burnt away, and nothing else. */
  predicate Outcome(cells: Cells, root: Pos, deny: bool, after: Cells, sets: seq<Write>, refused: nat, explosions: nat, expansions: nat) {
    if deny || root !in cells || cells[root].kind == AIR then
      after == cells && sets == [] && refused == 0 && explosions == 0 && expansions == 0
    else if cells[root].kind == TNT then
      explosions >= 1 && [Write(root, AIR, 0)] <= sets
    else if IsExpansion(cells[root].kind) then
      var m := ExpansionMaterial(cells[root].kind);
      explosions == 0 && expansions >= 1 && (m != AIR ==> root in after && after[root] == Block(m, 0))
    else
      after == cells[root := Block(AIR, 0)] && sets == [Write(root, AIR, 0)] && refused == 0 && explosions == 0 && expansions == 0
  }

  /** Every burn of a world comes to that. */
  lemma BurnComesTo(env: Env, root: Pos, prot: Protection, cells: Cells, maxVisits: nat)
    requires root in cells ==> InWorld(root)
    ensures var t := SimBurn(env, root, prot, cells, maxVisits);
      Outcome(cells, root, prot(root), t.cells, t.sets, t.refused, t.explosions, t.expansions)
  {
    if prot(root) || root !in cells || cells[root].kind == AIR {
      NothingBurns(env, root, prot, cells, maxVisits);
    } else if cells[root].kind == TNT {
      TntGoesOff(env, root, prot, cells, maxVisits);
    } else if IsExpansion(cells[root].kind) {
      ExpansionFires(env, root, prot, cells, maxVisits);
    } else {
      BlockBurnsAway(env, root, prot, cells, maxVisits);
    }
    hide SimBurn, Shots, Blast, LinksGoOff, LastLinkNext, Fire, ExpansionMaterial;
  }

  /** A burn in which nothing goes off has no depth. */
  lemma QuietDepth(env: Env, root: Pos, prot: Protection, cells: Cells, maxVisits: nat)
    ensures var t := SimBurn(env, root, prot, cells, maxVisits);
      t.explosions == 0 && t.expansions == 0 ==> t.maxDepth == 0
  {
    if prot(root) || root !in cells || cells[root].kind == AIR {
      NothingBurns(env, root, prot, cells, maxVisits);
    } else if cells[root].kind == TNT {
      TntGoesOff(env, root, prot, cells, maxVisits);
    } else if IsExpansion(cells[root].kind) {
      RootExpands(env, root, prot, cells, maxVisits);
      RootCounts(env, root, prot, cells, maxVisits);
    }
    hide Shots, Blast, LinksGoOff, LastLinkNext, Fire, Expansions, SimExplode;
  }

  lemma RootCounts(env: Env, root: Pos, prot: Protection, cells: Cells, maxVisits: nat)
    requires root in cells
    ensures Expansions(env, root, prot, LitRoot(root, cells), 0, true, maxVisits).expansions >= 1
  {
    hide Expansions, Fire;
    var s := LitRoot(root, cells);
    ExpansionsStep(env, root, prot, s, 0, true, maxVisits);
    QueueDrains(env, root, prot, Fire(env, root, prot, s, s.queue[0]), 1, true, maxVisits);
  }
}
