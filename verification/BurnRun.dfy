/**
 The burn as the server runs it: one object that updates its counters, its queue, its lit set and
 the world in place, proved to compute the burn of BurnChain.
 */
module BurnRun {
  import opened BlockRules
  import opened Burn
  import opened Voxels
  import opened BurnSteps
  import opened BurnShapes
  import opened BurnChain

  /** The cells to restore, in first-seen order: deduplicated by key and capped. */
  datatype CellSet = CellSet(cap: nat, seen: set<int>, cells: seq<Pos>, overflow: nat) {
    predicate Valid() {
      |cells| <= cap && seen == set p | p in cells :: Key(p)
    }

    /** Add a cell; one already here is skipped, and one refused for the cap is counted. */
    function Add(p: Pos): (r: CellSet)
      requires Valid()
      ensures r.Valid() && r.cap == cap && cells <= r.cells && overflow <= r.overflow
      ensures r.overflow == overflow ==> Key(p) in r.seen
    {
      if Key(p) in seen then this
      else if |cells| >= cap then this.(overflow := overflow + 1)
      else this.(seen := seen + {Key(p)}, cells := cells + [p])
    }
  }

  /** Some write put TNT down. */
  ghost predicate WritesTnt(ws: seq<Write>) { exists w :: w in ws && w.kind == TNT }

  lemma LogTnt(ws: seq<Write>, w: Write)
    ensures WritesTnt(ws + [w]) <==> WritesTnt(ws) || w.kind == TNT
  {
    assert w in ws + [w];
  }

  /** The world a burn works on: the live store, or a dry run's overlay over it. */
  class World {
    const env: Env
    var stored: Cells
    var over: Cells
    var writes: CellSet
    var wroteTnt: bool
    /** What a read sees: the overlay where it has the cell, else the store. */
    ghost var view: Cells
    /** Every write so far. */
    ghost var log: seq<Write>

    ghost predicate Valid()
      reads this
    {
      && view == stored + over && (env.live ==> over == map[])
      && (forall p :: p in stored ==> InWorld(p))
      && writes.Valid()
      && (writes.overflow == 0 ==> forall p :: p in over ==> Key(p) in writes.seen)
      && (wroteTnt <==> !env.live && WritesTnt(log))
    }

    /** A dry run leaves the store alone, and cells to restore are only ever added. */
    twostate predicate Kept()
      reads this
    {
      && (!env.live ==> stored == old(stored))
      && writes.cap == old(writes.cap) && old(writes.cells) <= writes.cells && old(writes.overflow) <= writes.overflow
    }

    constructor (env: Env, stored: Cells, cap: nat)
      requires forall p :: p in stored ==> InWorld(p)
      ensures Valid() && this.env == env && view == stored && this.stored == stored
      ensures writes == CellSet(cap, {}, [], 0) && !wroteTnt && log == []
    {
      this.env := env;
      this.stored := stored;
      this.over := map[];
      this.view := stored;
      this.writes := CellSet(cap, {}, [], 0);
      this.wroteTnt := false;
      this.log := [];
    }

    method Get(p: Pos) returns (b: Option<Block>)
      requires Valid()
      ensures b == if p in view then Some(view[p]) else None
    {
      if p in over { return Some(over[p]); }
      if !InWorld(p) { return None; }
      if p in stored { return Some(stored[p]); }
      return None;
    }

    /** False when the cell cap refused a new cell. */
    method Set(p: Pos, kind: int, color: int) returns (ok: bool)
      requires Valid()
      modifies this
      ensures Valid() && Kept()
      ensures ok == Accepts(env, old(view), p)
      ensures view == Write1(env, old(view), Write(p, kind, color)) && log == old(log) + [Write(p, kind, color)]
    {
      if env.live { ok := SetStored(p, kind, color); } else { ok := SetOver(p, kind, color); }
    }

    method SetStored(p: Pos, kind: int, color: int) returns (ok: bool)
      requires Valid() && env.live
      modifies this
      ensures Valid() && Kept()
      ensures ok == Accepts(env, old(view), p)
      ensures view == Write1(env, old(view), Write(p, kind, color)) && log == old(log) + [Write(p, kind, color)]
    {
      hide WritesTnt;
      log := log + [Write(p, kind, color)];
      assert view == stored;
      if !InWorld(p) { return true; }
      if p !in stored && |stored| >= env.cap { return false; }
      stored := stored[p := Block(if kind % 256 == 254 then AIR else kind % 256, color % 256)];
      view := stored;
      assert view == stored + over;
      return true;
    }

    method SetOver(p: Pos, kind: int, color: int) returns (ok: bool)
      requires Valid() && !env.live
      modifies this
      ensures Valid() && Kept()
      ensures ok && view == Write1(env, old(view), Write(p, kind, color)) && log == old(log) + [Write(p, kind, color)]
    {
      LogTnt(log, Write(p, kind, color));
      hide WritesTnt, InWorld, Key;
      log := log + [Write(p, kind, color)];
      over := over[p := Block(kind % 256, color % 256)];
      view := view[p := Block(kind % 256, color % 256)];
      writes := writes.Add(p);
      if kind == TNT { wroteTnt := true; }
      return true;
    }

    /** A cell to restore although nothing has been written to it. */
    method Restore(p: Pos)
      requires Valid()
      modifies this`writes
      ensures Valid() && Kept() && writes == old(writes).Add(p)
    {
      writes := writes.Add(p);
    }
  }

  /** Looking at one face does not change what the next one shows. */
  lemma FacesSeen(env: Env, a: Sim, p: Pos)
    ensures var b := Ask(a, p, false);
      var s1 := Probe(b, Face(p, 0));
      var s2 := Probe(s1, Face(p, 1));
      var s3 := Probe(s2, Face(p, 2));
      && SeenKind(env, b, Face(p, 0)) == SeenKind(env, a, Face(p, 0))
      && SeenKind(env, s1, Face(p, 1)) == SeenKind(env, a, Face(p, 1))
      && SeenKind(env, s2, Face(p, 2)) == SeenKind(env, a, Face(p, 2))
      && SeenKind(env, s3, Face(p, 3)) == SeenKind(env, a, Face(p, 3))
  {
    hide Face;
  }

  lemma GrowAfterProbe(env: Env, s: Sim, p: Pos, q: Pos)
    ensures Grow(env, Probe(s, p), q) == Grow(env, s, q)
  {
  }

  lemma PassStart(pass: Pass, sp: Span, c: Pos) returns (first: nat)
    ensures first == 0 && PassCells(pass, sp, c) == FillLayersFrom(pass, sp, c, first)
  {
    first := 0;
  }

  /** Unasked, the protection of a lit cell does not matter. */
  lemma LightUnasked(env: Env, root: Pos, s: Sim, p: Pos, kind: int, depth: nat, deny: bool)
    ensures Light(env, root, s, p, kind, depth, false, deny) == Light(env, root, s, p, kind, depth, false, false)
  {
  }

  datatype Result = Result(
    refused: nat, truncated: nat, explosions: nat, expansions: nat, visits: nat, protectedHits: nat, maxDepth: nat)

  /** The world accesses of a run, in order. */
  datatype Trace = Trace(gets: seq<Pos>, asks: seq<Pos>, denied: seq<Pos>, sets: seq<Write>)

  class BurnRun {
    const w: World
    const root: Pos
    const prot: Protection
    const maxVisits: nat

    var res: Result
    var chain: seq<Node>
    var queue: seq<Link>
    var lit: set<int>
    var rootQueued: bool
    var firing: bool
    var refire: bool
    var fireAt: Pos

    ghost var trace: Trace
    /** What was written before this run began. */
    ghost const before: seq<Write>

    ghost predicate Valid()
      reads this, w
    {
      w.Valid() && res.protectedHits == |trace.denied| && w.log == before + trace.sets
    }

    ghost function State(): Sim
      reads this, w
    {
      Sim(w.view, trace.gets, trace.asks, trace.denied, trace.sets,
          res.visits, res.refused, res.truncated, res.explosions, res.expansions, res.maxDepth,
          chain, queue, lit, if firing then Some(fireAt) else None, refire)
    }

    constructor (w: World, root: Pos, prot: Protection, maxVisits: nat)
      requires w.Valid()
      ensures Valid() && State() == Start(w.view) && !rootQueued
      ensures this.w == w && this.root == root && this.prot == prot && this.maxVisits == maxVisits && before == w.log
    {
      before := w.log;
      this.w, this.root, this.prot, this.maxVisits := w, root, prot, maxVisits;
      res := Result(0, 0, 0, 0, 0, 0, 0);
      chain, queue, lit, rootQueued := [], [], {}, false;
      firing, refire, fireAt := false, false, root;
      trace := Trace([], [], [], []);
    }

    // --- world access, traced ---------------------------------------------------------

    method Get(p: Pos) returns (b: Option<Block>)
      requires Valid()
      modifies this`trace
      ensures Valid() && b == Look(old(State()), p) && State() == Read(old(State()), p)
    {
      b := w.Get(p);
      trace := trace.(gets := trace.gets + [p]);
    }

    method Set(p: Pos, kind: int, color: int)
      requires Valid()
      modifies this`trace, this`res, w
      ensures Valid() && State() == Put(w.env, old(State()), p, kind, color)
      ensures w.Kept()
    {
      var ok := w.Set(p, kind, color);
      trace := trace.(sets := trace.sets + [Write(p, kind, color)]);
      if !ok { res := res.(refused := res.refused + 1); }
    }

    method ProtectedAt(p: Pos) returns (deny: bool)
      requires Valid()
      modifies this`trace, this`res
      ensures Valid() && deny == prot(p) && State() == Ask(old(State()), p, deny)
    {
      deny := prot(p);
      trace := trace.(asks := trace.asks + [p]);
      if deny {
        trace := trace.(denied := trace.denied + [p]);
        res := res.(protectedHits := res.protectedHits + 1);
      }
    }

    method TypeAt(p: Pos) returns (kind: int)
      requires Valid()
      modifies this`res, this`trace
      ensures Valid() && kind == SeenKind(w.env, old(State()), p) && State() == Probe(old(State()), p)
    {
      res := res.(visits := res.visits + 1);
      if p.y < Y_MIN || p.y >= Y_MAX { return -1; }
      var b := Get(p);
      match b
      case None => kind := w.env.base(p.y);
      case Some(c) => kind := if c.kind == PAINTED_BASE then w.env.base(p.y) else c.kind;
    }

    // --- one cell ---------------------------------------------------------------------

    method LightBlock(p: Pos, kind: int, depth: nat, askZone: bool)
      requires Valid()
      modifies this
      ensures Valid() && rootQueued == old(rootQueued)
      ensures State() == Light(w.env, root, old(State()), p, kind, depth, askZone, prot(p))
    {
      hide Key, BurnReach, Ask, QueueLink;
      ghost var s := State();
      if firing && p == fireAt { refire := true; return; }
      if Key(p) in lit { return; }
      lit := lit + {Key(p)};
      assert State() == s.(lit := s.lit + {Key(p)});
      if askZone {
        var deny := ProtectedAt(p);
        if deny { return; }
      }
      QueueNear(p, kind, depth);
    }

    /** Queue a lit block, or drop it past the reach of an expansion's centre. */
    method QueueNear(p: Pos, kind: int, depth: nat)
      requires Valid()
      modifies this`res, this`queue
      ensures Valid() && State() == QueueLink(w.env, root, old(State()), p, kind, depth)
    {
      var reach := BurnReach(w.env.radius) - EXTENT;
      if Abs(p.x - root.x) > reach || Abs(p.z - root.z) > reach || Abs(p.y - root.y) > reach {
        res := res.(truncated := res.truncated + 1);
        return;
      }
      queue := queue + [Link(p, kind, depth)];
    }

    method SampleCell(p: Pos, color: int, depth: nat)
      requires Valid()
      modifies this, w
      ensures Valid() && rootQueued == old(rootQueued) && w.Kept()
      ensures State() == Step(w.env, root, old(State()), Sample(p, color, depth), prot(p))
    {
      hide PaintSample, BreakSample;
      res := res.(visits := res.visits + 1);
      assert State() == old(State()).(visits := old(State()).visits + 1);
      var deny := ProtectedAt(p);
      if deny { return; }
      if color != 0 { PaintOne(p, color); } else { BreakOne(p, depth); }
    }

    /** A sample of a painting blast. */
    method PaintOne(p: Pos, color: int)
      requires Valid()
      modifies this`trace, this`res, w
      ensures Valid() && w.Kept()
      ensures State() == PaintSample(w.env, Read(old(State()), p), p, color)
    {
      hide Put;
      var have := Get(p);
      match have
      case Some(c) =>
        if c.kind == AIR || (c.kind == TNT && c.color == 0) { return; }
        Set(p, c.kind, color);
      case None =>
        Set(p, PAINTED_BASE, color);
    }

    /** A sample of a destroying blast. */
    method BreakOne(p: Pos, depth: nat)
      requires Valid()
      modifies this, w
      ensures Valid() && rootQueued == old(rootQueued) && w.Kept()
      ensures State() == BreakSample(w.env, root, Read(old(State()), p), p, depth)
    {
      hide Put, Light, Read;
      var have := Get(p);
      match have
      case Some(c) =>
        if c.kind == AIR { return; }
        if c.kind == TNT {
          chain := chain + [Node(p, depth + 1)];
        } else if IsExpansion(c.kind) {
          LightUnasked(w.env, root, State(), p, c.kind, depth + 1, prot(p));
          LightBlock(p, c.kind, depth + 1, false);
        } else if c.kind != BEDROCK && c.kind != STEEL && c.kind != GOLDEN_CUBE {
          Set(p, AIR, 0);
        }
      case None =>
        Set(p, AIR, 0);
    }

    method FillOne(p: Pos, material: int, color: int, depth: nat)
      requires Valid()
      modifies this, w
      ensures Valid() && rootQueued == old(rootQueued) && w.Kept()
      ensures State() == Step(w.env, root, old(State()), FillCell(p, material, color, depth), prot(p))
    {
      var t := TypeAt(p);
      if t == AIR {
        if material == AIR { return; }
        var deny := ProtectedAt(p);
        if deny { return; }
        Set(p, material, color);
      } else if t > 0 && IsExpansion(t) {
        LightBlock(p, t, depth, true);
      }
    }

    method RingOne(p: Pos, ramp: int, color: int, depth: nat)
      requires Valid()
      modifies this, w
      ensures Valid() && rootQueued == old(rootQueued) && w.Kept()
      ensures State() == Step(w.env, root, old(State()), RingCell(p, ramp, color, depth), prot(p))
    {
      hide Put, Light, Probe, Ask, SeenKind, RampForFaces, FaceSolid, Face;
      var t := TypeAt(p);
      ghost var a := State();
      if t == AIR {
        var deny := ProtectedAt(p);
        if deny { return; }
        ghost var b := State();
        FacesSeen(w.env, a, p);
        var t0 := TypeAt(Face(p, 0));
        var t1 := TypeAt(Face(p, 1));
        var t2 := TypeAt(Face(p, 2));
        var t3 := TypeAt(Face(p, 3));
        var faces := [FaceSolid(t0, 0), FaceSolid(t1, 1), FaceSolid(t2, 2), FaceSolid(t3, 3)];
        Set(p, RampForFaces(ramp, faces), color);
      } else if t > 0 && IsExpansion(t) {
        LightBlock(p, t, depth, true);
      }
    }

    method LightOne(p: Pos, depth: nat)
      requires Valid()
      modifies this, w
      ensures Valid() && rootQueued == old(rootQueued) && w.Kept()
      ensures State() == Step(w.env, root, old(State()), LightCell(p, depth), prot(p))
    {
      var t := TypeAt(p);
      if t > 0 && IsExpansion(t) { LightBlock(p, t, depth, true); }
    }

    // --- one blast --------------------------------------------------------------------

    method SampleClipped(p: Pos, color: int, depth: nat)
      requires Valid()
      modifies this, w
      ensures Valid() && rootQueued == old(rootQueued) && w.Kept()
      ensures State() == Run(w.env, root, prot, old(State()), Sampled(p, color, depth))
    {
      hide Step;
      if p.y < Y_MIN || p.y >= Y_MAX { return; }
      SampleCell(p, color, depth);
    }

    method BlastRow(cur: Node, color: int, oy: nat, x: int)
      requires Valid()
      modifies this, w
      ensures Valid() && rootQueued == old(rootQueued) && w.Kept()
      ensures State() == Run(w.env, root, prot, old(State()),
                             ColumnsFrom(cur, color, w.env.radius, oy, x, cur.pos.z - w.env.radius))
    {
      hide Step, Sampled, World.Valid;
      var r := w.env.radius;
      var z := cur.pos.z - r;
      while z <= cur.pos.z + r
        invariant Valid() && rootQueued == old(rootQueued) && w.Kept()
        invariant Run(w.env, root, prot, State(), ColumnsFrom(cur, color, r, oy, x, z)) ==
                  Run(w.env, root, prot, old(State()), ColumnsFrom(cur, color, r, oy, x, cur.pos.z - r))
      {
        ghost var s, rest := State(), ColumnsFrom(cur, color, r, oy, x, z + 1);
        RunAppend(w.env, root, prot, s, Column(cur, color, r, oy, x, z), rest);
        var ox, oz := x - cur.pos.x, z - cur.pos.z;
        if ox * ox + oz * oz + oy * oy <= r * r {
          RunAppend(w.env, root, prot, s, Sampled(Pos(x, cur.pos.y - oy, z), color, cur.depth),
                    Sampled(Pos(x, cur.pos.y + oy, z), color, cur.depth));
          SampleClipped(Pos(x, cur.pos.y - oy, z), color, cur.depth);
          SampleClipped(Pos(x, cur.pos.y + oy, z), color, cur.depth);
        }
        z := z + 1;
      }
    }

    method BlastLayer(cur: Node, color: int, oy: nat)
      requires Valid()
      modifies this, w
      ensures Valid() && rootQueued == old(rootQueued) && w.Kept()
      ensures State() == Run(w.env, root, prot, old(State()), RowsFrom(cur, color, w.env.radius, oy, cur.pos.x - w.env.radius))
    {
      hide Step, ColumnsFrom;
      var r := w.env.radius;
      var x := cur.pos.x - r;
      while x <= cur.pos.x + r
        invariant Valid() && rootQueued == old(rootQueued) && w.Kept()
        invariant Run(w.env, root, prot, State(), RowsFrom(cur, color, r, oy, x)) ==
                  Run(w.env, root, prot, old(State()), RowsFrom(cur, color, r, oy, cur.pos.x - r))
      {
        RunAppend(w.env, root, prot, State(), ColumnsFrom(cur, color, r, oy, x, cur.pos.z - r),
                  RowsFrom(cur, color, r, oy, x + 1));
        BlastRow(cur, color, oy, x);
        x := x + 1;
      }
    }

    method BlastSphere(cur: Node, color: int)
      requires Valid()
      modifies this, w
      ensures Valid() && rootQueued == old(rootQueued) && w.Kept()
      ensures State() == Run(w.env, root, prot, old(State()), BlastOps(cur, color, w.env.radius))
    {
      hide Step, RowsFrom;
      var r := w.env.radius;
      for i := 1 to r + 1
        invariant Valid() && rootQueued == old(rootQueued) && w.Kept()
        invariant Run(w.env, root, prot, State(), LayersFrom(cur, color, r, i)) ==
                  Run(w.env, root, prot, old(State()), LayersFrom(cur, color, r, 1))
      {
        RunAppend(w.env, root, prot, State(), RowsFrom(cur, color, r, r - i, cur.pos.x - r),
                  LayersFrom(cur, color, r, i + 1));
        BlastLayer(cur, color, r - i);
      }
    }

    /** One blast: its centre emptied, then every sample of its sphere, chaining and lighting. */
    method RunBlast(cur: Node)
      requires Valid()
      modifies this, w
      ensures Valid() && rootQueued == old(rootQueued) && w.Kept()
      ensures State() == Blast(w.env, root, prot, old(State()), cur)
    {
      hide Run, BlastOps, BlastStart, CenterColor;
      var color := EmptyCenter(cur);
      BlastSphere(cur, color);
    }

    method CountBlast(cur: Node)
      requires Valid()
      modifies this
      ensures Valid() && rootQueued == old(rootQueued) && State() == BlastMark(old(State()), cur)
    {
      res := res.(explosions := res.explosions + 1, maxDepth := Max(res.maxDepth, cur.depth), visits := res.visits + 1);
      chain := [];
    }

    method EmptyCenter(cur: Node) returns (color: int)
      requires Valid()
      modifies this, w
      ensures Valid() && rootQueued == old(rootQueued) && w.Kept()
      ensures color == CenterColor(old(State()), cur.pos) && State() == BlastStart(w.env, old(State()), cur)
    {
      hide Put;
      CountBlast(cur);
      var center := Get(cur.pos);
      color := match center case None => 0 case Some(c) => c.color;
      Set(cur.pos, AIR, 0);
    }

    /** The TNT chain from the root, on an explicit worklist with a cap on blasts. */
    method RunChain()
      requires Valid() && res.explosions == 0
      modifies this, w
      ensures Valid() && rootQueued == old(rootQueued) && w.Kept()
      ensures State() == BlastChain(w.env, root, prot, old(State()), [Node(root, 0)], MaxBlasts(w.env.radius, maxVisits))
    {
      hide Blast;
      var perBlast := BlastVisits(w.env.radius);
      var maxBlasts := Max(1, maxVisits / perBlast);
      var work := [Node(root, 0)];
      while work != []
        invariant Valid() && rootQueued == old(rootQueued) && w.Kept()
        invariant res.explosions + |work| <= maxBlasts
        invariant BlastChain(w.env, root, prot, State(), work, maxBlasts) ==
                  BlastChain(w.env, root, prot, old(State()), [Node(root, 0)], maxBlasts)
        decreases maxBlasts - res.explosions
      {
        ghost var s := State();
        var cur := Last(work);
        work := Front(work);
        RunBlast(cur);
        BlastPays(w.env, root, prot, s, cur);
        ghost var t, waiting := State(), work;
        var links := chain;
        for k := 0 to |links|
          invariant Valid() && rootQueued == old(rootQueued) && w.Kept()
          invariant State() == t.(truncated := res.truncated)
          invariant Enqueue(work, links[k..], res.explosions, maxBlasts, res.truncated) ==
                    Enqueue(waiting, links, res.explosions, maxBlasts, t.truncated)
        {
          if links[k].depth > MAX_DEPTH {
          } else if res.explosions + |work| < maxBlasts {
            work := work + [links[k]];
          } else {
            res := res.(truncated := res.truncated + 1);
          }
        }
        EnqueueBounded(waiting, links, res.explosions, maxBlasts, t.truncated);
      }
    }

    // --- one expansion ----------------------------------------------------------------

    /** One cell of a pass of a fill. */
    method PassCell(pass: Pass, c: Pos, p: Pos)
      requires Valid()
      modifies this, w
      ensures Valid() && rootQueued == old(rootQueued) && w.Kept()
      ensures State() == Run(w.env, root, prot, old(State()), PassOps(pass, c, p))
    {
      hide Step;
      match pass
      case BoxPass(m, ramp, color, d) =>
        if ramp != 0 && Abs(p.x - c.x) + Abs(p.z - c.z) == 2 * EXTENT { return; }
        FillOne(p, m, color, d);
      case RingPass(ramp, color, d) =>
        if Abs(p.x - c.x) + Abs(p.z - c.z) != 2 * EXTENT { return; }
        RingOne(p, ramp, color, d);
      case LightPass(d) =>
        LightOne(p, d);
    }

    method FillRow(pass: Pass, sp: Span, c: Pos, oy: nat, x: int)
      requires Valid()
      modifies this, w
      ensures Valid() && rootQueued == old(rootQueued) && w.Kept()
      ensures State() == Run(w.env, root, prot, old(State()), FillColumnsFrom(pass, sp, c, oy, x, c.z - sp.fwd))
    {
      hide Step, PassOps, FillColumn;
      var z := c.z - sp.fwd;
      while z <= c.z + sp.back
        invariant Valid() && rootQueued == old(rootQueued) && w.Kept()
        invariant Run(w.env, root, prot, State(), FillColumnsFrom(pass, sp, c, oy, x, z)) ==
                  Run(w.env, root, prot, old(State()), FillColumnsFrom(pass, sp, c, oy, x, c.z - sp.fwd))
      {
        RunAppend(w.env, root, prot, State(), FillColumn(pass, sp, c, oy, x, z), FillColumnsFrom(pass, sp, c, oy, x, z + 1));
        FillPair(pass, sp, c, oy, x, z);
        z := z + 1;
      }
    }

    method FillPair(pass: Pass, sp: Span, c: Pos, oy: nat, x: int, z: int)
      requires Valid()
      modifies this, w
      ensures Valid() && rootQueued == old(rootQueued) && w.Kept()
      ensures State() == Run(w.env, root, prot, old(State()), FillColumn(pass, sp, c, oy, x, z))
    {
      hide Step, PassOps;
      ghost var down := if c.y - oy > Y_MIN && (pass.LightPass? || oy <= sp.bot) then PassOps(pass, c, Pos(x, c.y - oy, z)) else [];
      ghost var up := if c.y + oy < Y_MAX && (pass.LightPass? || oy <= sp.top) then PassOps(pass, c, Pos(x, c.y + oy, z)) else [];
      RunAppend(w.env, root, prot, State(), down, up);
      if pass.LightPass? {
        if c.y - oy > Y_MIN { PassCell(pass, c, Pos(x, c.y - oy, z)); }
        if c.y + oy < Y_MAX { PassCell(pass, c, Pos(x, c.y + oy, z)); }
      } else {
        if c.y - oy > Y_MIN && oy <= sp.bot { PassCell(pass, c, Pos(x, c.y - oy, z)); }
        if c.y + oy < Y_MAX && oy <= sp.top { PassCell(pass, c, Pos(x, c.y + oy, z)); }
      }
    }

    method FillLayer(pass: Pass, sp: Span, c: Pos, oy: nat)
      requires Valid()
      modifies this, w
      ensures Valid() && rootQueued == old(rootQueued) && w.Kept()
      ensures State() == Run(w.env, root, prot, old(State()), FillRowsFrom(pass, sp, c, oy, c.x - sp.left))
    {
      hide Step, FillColumnsFrom;
      var x := c.x - sp.left;
      while x <= c.x + sp.right
        invariant Valid() && rootQueued == old(rootQueued) && w.Kept()
        invariant Run(w.env, root, prot, State(), FillRowsFrom(pass, sp, c, oy, x)) ==
                  Run(w.env, root, prot, old(State()), FillRowsFrom(pass, sp, c, oy, c.x - sp.left))
      {
        RunAppend(w.env, root, prot, State(), FillColumnsFrom(pass, sp, c, oy, x, c.z - sp.fwd), FillRowsFrom(pass, sp, c, oy, x + 1));
        FillRow(pass, sp, c, oy, x);
        x := x + 1;
      }
    }

    method EachCell(pass: Pass, sp: Span, c: Pos)
      requires Valid()
      modifies this, w
      ensures Valid() && rootQueued == old(rootQueued) && w.Kept()
      ensures State() == Run(w.env, root, prot, old(State()), PassCells(pass, sp, c))
    {
      hide Step, FillRowsFrom, PassCells;
      ghost var first := PassStart(pass, sp, c);
      for i := 0 to EXTENT + 1
        invariant Valid() && rootQueued == old(rootQueued) && w.Kept()
        invariant Run(w.env, root, prot, State(), FillLayersFrom(pass, sp, c, i)) ==
                  Run(w.env, root, prot, old(State()), FillLayersFrom(pass, sp, c, first))
      {
        RunAppend(w.env, root, prot, State(), FillRowsFrom(pass, sp, c, EXTENT - i, c.x - sp.left), FillLayersFrom(pass, sp, c, i + 1));
        FillLayer(pass, sp, c, EXTENT - i);
      }
    }

    method GrowTo(p: Pos) returns (n: nat)
      requires Valid()
      modifies this`res, this`trace
      ensures Valid() && n == Grow(w.env, old(State()), p) && State() == Probe(old(State()), p)
    {
      hide Probe, SeenKind;
      var t := TypeAt(p);
      n := if t > 0 then 0 else EXTENT;
    }

    method MeasureBounds(c: Pos) returns (sp: Span)
      requires Valid()
      modifies this`res, this`trace
      ensures Valid() && sp == Bounds(w.env, old(State()), c) && State() == ProbeBounds(old(State()), c)
    {
      hide Probe, Grow;
      ghost var s := State();
      forall t: Sim, p: Pos, q: Pos
        ensures Grow(w.env, Probe(t, p), q) == Grow(w.env, t, q)
      {
        GrowAfterProbe(w.env, t, p, q);
      }
      var left := GrowTo(Pos(c.x - 1, c.y, c.z));
      var right := GrowTo(Pos(c.x + 1, c.y, c.z));
      var fwd := GrowTo(Pos(c.x, c.y, c.z - 1));
      var back := GrowTo(Pos(c.x, c.y, c.z + 1));
      var top := 0;
      if c.y + 1 != Y_MAX { top := GrowTo(Pos(c.x, c.y + 1, c.z)); }
      var bot := 0;
      if c.y - 1 > Y_MIN { bot := GrowTo(Pos(c.x, c.y - 1, c.z)); }
      sp := Span(left, right, fwd, back, top, bot);
    }

    /** The box, the ramp ring of a side variant, then the lighting pass. */
    method RunFill(c: Pos, kind: int, color: int, depth: nat)
      requires Valid()
      modifies this, w
      ensures Valid() && rootQueued == old(rootQueued) && w.Kept()
      ensures State() == Fill(w.env, root, prot, old(State()), c, kind, color, depth)
    {
      hide Step, PassCells, Bounds, ProbeBounds;
      var material, ramp := ExpansionMaterial(kind), ExpansionRamp(kind);
      var sp := MeasureBounds(c);
      ghost var s := State();
      ghost var box := PassCells(BoxPass(material, ramp, color, depth + 1), sp, c);
      ghost var ring := if ramp != 0 then PassCells(RingPass(ramp, color, depth + 1), sp, c) else [];
      ghost var lights := PassCells(LightPass(depth + 1), FULL, c);
      RunAppend(w.env, root, prot, s, box + ring, lights);
      RunAppend(w.env, root, prot, s, box, ring);
      EachCell(BoxPass(material, ramp, color, depth + 1), sp, c);
      if ramp != 0 { EachCell(RingPass(ramp, color, depth + 1), sp, c); }
      EachCell(LightPass(depth + 1), FULL, c);
    }

    method CountFire(n: Link)
      requires Valid()
      modifies this
      ensures Valid() && rootQueued == old(rootQueued) && State() == FireMark(old(State()), n)
    {
      hide World.Valid, Max;
      res := res.(expansions := res.expansions + 1, maxDepth := Max(res.maxDepth, n.depth), visits := res.visits + 1);
      firing, fireAt, refire := true, n.pos, false;
    }

    method StartFire(n: Link) returns (color: int)
      requires Valid()
      modifies this
      ensures Valid() && rootQueued == old(rootQueued)
      ensures color == CenterColor(old(State()), n.pos) && State() == FireStart(old(State()), n)
    {
      CountFire(n);
      var have := Get(n.pos);
      color := match have case None => 0 case Some(c) => c.color;
    }

    /** A lit expansion's fuse runs out. */
    method RunFire(n: Link)
      requires Valid()
      modifies this, w
      ensures Valid() && rootQueued == old(rootQueued) && w.Kept()
      ensures State() == Fire(w.env, root, prot, old(State()), n)
    {
      hide Fill, Put, FireStart, CenterColor;
      var color := StartFire(n);
      RunFill(n.pos, n.kind, color, n.depth);
      Set(n.pos, AIR, 0);
      if refire { RunFill(n.pos, n.kind, 0, n.depth); }
      firing := false;
    }

    /** Queue the root of a burn that is itself an expansion block. */
    method LightRoot(kind: int)
      requires Valid()
      modifies this`lit, this`queue, this`rootQueued
      ensures Valid() && rootQueued
      ensures State() == old(State()).(lit := old(lit) + {Key(root)}, queue := old(queue) + [Link(root, kind, 0)])
    {
      lit := lit + {Key(root)};
      queue := queue + [Link(root, kind, 0)];
      rootQueued := true;
    }

    /** Fire every lit expansion in the order lit, while the budget lasts. */
    method RunExpansions()
      requires Valid()
      modifies this, w
      ensures Valid() && w.Kept()
      ensures State() == Expansions(w.env, root, prot, old(State()), 0, old(rootQueued), maxVisits)
    {
      hide Fire;
      var qi := 0;
      while qi < |queue|
        invariant Valid() && qi <= |queue| && rootQueued == old(rootQueued) && w.Kept()
        invariant Expansions(w.env, root, prot, State(), qi, rootQueued, maxVisits) ==
                  Expansions(w.env, root, prot, old(State()), 0, old(rootQueued), maxVisits)
        decreases if rootQueued && qi == 0 then 1 else 0, Left(maxVisits, State())
      {
        var n := queue[qi];
        var isRoot := rootQueued && qi == 0;
        if !isRoot && res.visits + VISITS_PER_LINK > maxVisits {
          res := res.(truncated := res.truncated + |queue| - qi);
          return;
        }
        FirePays(w.env, root, prot, State(), n);
        RunFire(n);
        qi := qi + 1;
      }
    }

    method RunExplode()
      requires Valid() && res.explosions == 0 && !rootQueued
      modifies this, w
      ensures Valid() && w.Kept()
      ensures State() == SimExplode(w.env, root, prot, old(State()), maxVisits)
    {
      hide BlastChain, Expansions, MaxBlasts;
      var deny := ProtectedAt(root);
      if deny { return; }
      RunChain();
      RunExpansions();
    }

    /** What lighting the root does to the world. */
    method RunBurn()
      requires Valid() && State() == Start(w.view) && !rootQueued
      modifies this, w
      ensures Valid() && w.Kept()
      ensures State() == SimBurn(w.env, root, prot, old(w.view), maxVisits)
    {
      hide SimExplode, Expansions, Put;
      var deny := ProtectedAt(root);
      if deny { return; }
      res := res.(visits := 1);
      var c := Get(root);
      if c.None? || c.value.kind == AIR { return; }
      if c.value.kind == TNT {
        res := res.(visits := 0);
        RunExplode();
      } else if IsExpansion(c.value.kind) {
        LightRoot(c.value.kind);
        assert lit == {Key(root)} && queue == [Link(root, c.value.kind, 0)];
        RunExpansions();
      } else {
        Set(root, AIR, 0);
      }
    }
  }

  /** Cells one blast is charged for, counted the way the budget does. */
  method BlastVisits(radius: nat) returns (n: nat)
    ensures n == VisitsPerBlast(radius)
  {
    n := 1;
    for oy := 0 to radius
      invariant n + CountY(radius, oy) == VisitsPerBlast(radius)
    {
      var ox := 0 - radius;
      while ox <= radius
        invariant n + CountX(radius, oy, ox) + CountY(radius, oy + 1) == VisitsPerBlast(radius)
        decreases radius - ox
      {
        var oz := 0 - radius;
        while oz <= radius
          invariant n + CountZ(radius, oy, ox, oz) + CountX(radius, oy, ox + 1) + CountY(radius, oy + 1) == VisitsPerBlast(radius)
          decreases radius - oz
        {
          if ox * ox + oz * oz + oy * oy <= radius * radius { n := n + 2; }
          oz := oz + 1;
        }
        ox := ox + 1;
      }
    }
  }
}
