/**
 What a burn lights and what becomes of it: every expansion block round a fill is lit, a fired one ends
 up as its own material, every link runs or is counted, and no lit block is lost.
 */
module BurnLighting {
  import opened BlockRules
  import opened Burn
  import opened BurnChain
  import opened BurnEffects
  import opened BurnSteps
  import opened Voxels

  // --- what a fill lights ---------------------------------------------------------------------------

  ghost predicate LightsOnly(ops: seq<Op>) { forall op :: op in ops ==> op.LightCell? }

  /** Lighting changes no cell and never goes back. */
  ghost predicate Brighter(s: Sim, t: Sim) {
    t.cells == s.cells && t.firing == s.firing && s.lit <= t.lit && (s.refire ==> t.refire)
  }

  predicate ShowsExpansion(env: Env, s: Sim, p: Pos) { IsExpansion(Shown(env, Look(s, p), p.y)) }

  /** p is lit, and if it is the block that is firing it will go off again. */
  predicate LitNow(s: Sim, p: Pos) { Lit(s, p) && (s.firing == Some(p) ==> s.refire) }

  lemma LightStep(env: Env, root: Pos, s: Sim, op: Op, deny: bool)
    requires op.LightCell?
    ensures var t := Step(env, root, s, op, deny);
      Brighter(s, t) && (ShowsExpansion(env, s, op.pos) ==> LitNow(t, op.pos))
  {
    SeenIsShown(env, s, op.pos);
  }

  lemma StaysLit(s: Sim, t: Sim, p: Pos)
    requires Brighter(s, t) && LitNow(s, p)
    ensures LitNow(t, p)
  {
  }

  lemma {:induction false} RunLights(env: Env, root: Pos, prot: Protection, s: Sim, ops: seq<Op>, p: Pos)
    requires LightsOnly(ops)
    ensures var t := Run(env, root, prot, s, ops);
      Brighter(s, t) && (ShowsExpansion(env, s, p) && (exists op :: op in ops && op.pos == p) ==> LitNow(t, p))
    decreases |ops|
  {
    if ops != [] {
      var u := Step(env, root, s, ops[0], prot(ops[0].pos));
      LightStep(env, root, s, ops[0], prot(ops[0].pos));
      assert LightsOnly(ops[1..]);
      hide Step, LitNow, Shown;
      RunLights(env, root, prot, u, ops[1..], p);
      if ops[0].pos == p && ShowsExpansion(env, s, p) { StaysLit(u, Run(env, root, prot, u, ops[1..]), p); }
    }
  }

  /** Every expansion block in the box round a fill, whatever bounded the fill, is lit when it is done;
      and the block that is firing goes off again if it is still there. */
  lemma FillLights(env: Env, root: Pos, prot: Protection, s: Sim, c: Pos, kind: int, color: int, depth: nat, p: Pos)
    requires InPass(LightPass(depth + 1), FULL, c, p) && ShowsExpansion(env, s, p)
    ensures var t := Fill(env, root, prot, s, c, kind, color, depth);
      LitNow(t, p) && t.firing == s.firing && Look(t, p) == Look(s, p)
  {
    var u := Ringed(env, root, prot, s, c, kind, color, depth);
    var ops := PassCells(LightPass(depth + 1), FULL, c);
    FillFiring(env, root, prot, s, c, kind, color, depth);
    ExpansionStays(env, root, prot, s, c, kind, color, depth, p);
    FillParts(env, root, prot, s, c, kind, color, depth);
    PassExact(LightPass(depth + 1), FULL, c, LightCell(p, depth + 1));
    LightOps(c, depth);
    hide Ringed, Fill, PassCells, Run, LitNow, LightsOnly, Look, Shown, InPass, IsExpansion, Brighter;
    assert LightCell(p, depth + 1) in ops;
    RunLights(env, root, prot, u, ops, p);
  }

  lemma FillFiring(env: Env, root: Pos, prot: Protection, s: Sim, c: Pos, kind: int, color: int, depth: nat)
    ensures Fill(env, root, prot, s, c, kind, color, depth).firing == s.firing
  {
    FillGrows(env, root, prot, s, c, kind, color, depth);
    hide Fill;
  }

  /** No pass of a fill changes an expansion block. */
  lemma ExpansionStays(env: Env, root: Pos, prot: Protection, s: Sim, c: Pos, kind: int, color: int, depth: nat, p: Pos)
    requires ShowsExpansion(env, s, p)
    ensures Look(Ringed(env, root, prot, s, c, kind, color, depth), p) == Look(s, p)
    ensures Look(Fill(env, root, prot, s, c, kind, color, depth), p) == Look(s, p)
  {
    FillEffect(env, root, prot, s, c, kind, color, depth, p);
    RingedAt(env, root, prot, s, c, kind, color, depth, p);
    hide Ringed, Fill, Boxed, SolidFaces, Bounds, More, Barred, Look, RampForFaces, Stored, InPass, Shown;
  }

  lemma LightOps(c: Pos, depth: nat)
    ensures LightsOnly(PassCells(LightPass(depth + 1), FULL, c))
  {
    forall op | op in PassCells(LightPass(depth + 1), FULL, c)
      ensures op.LightCell?
    {
      PassExact(LightPass(depth + 1), FULL, c, op);
    }
  }

  // --- what becomes of a fired expansion ----------------------------------------------------------------

  /** A lit expansion block that is not protected ends up as its own material, with no colour: the first
      fill relights it, the burn empties it, and the second fill takes its cell too. One that fills with
      air leaves air. */
  lemma FireCentre(env: Env, root: Pos, prot: Protection, s: Sim, n: Link)
    requires ShowsExpansion(env, s, n.pos) && n.pos in s.cells && !prot(n.pos) && (env.live ==> InWorld(n.pos))
    ensures Look(Fire(env, root, prot, s, n), n.pos) == Some(Stored(env, ExpansionMaterial(n.kind), 0))
  {
    var c := n.pos;
    var f := FireStart(s, n);
    var a := Fill(env, root, prot, f, c, n.kind, CenterColor(s, c), n.depth);
    var b := Put(env, a, c, AIR, 0);
    assert f.cells == s.cells && f.firing == Some(c) && InPass(LightPass(n.depth + 1), FULL, c, c);
    FillLights(env, root, prot, f, c, n.kind, CenterColor(s, c), n.depth, c);
    assert a.refire && Look(a, c) == Look(s, c);
    PutAt(env, a, c, AIR, 0, c);
    FillEffect(env, root, prot, b, c, n.kind, 0, n.depth, c);
    CentreFilled(env, Bounds(env, b, c), c, n.kind, Look(b, c), SolidFaces(env, Boxed(env, root, prot, b, c, n.kind, 0, n.depth), c));
    hide Fill, Filled, Bounds, SolidFaces, Boxed, FireStart, Stored, ShowsExpansion;
    assert b.refire == a.refire;
  }

  lemma CentreFilled(env: Env, sp: Span, c: Pos, kind: int, b: Option<Block>, faces: seq<bool>)
    requires |faces| == 4 && b == Some(Stored(env, AIR, 0)) && Y_MIN <= c.y < Y_MAX
    ensures Filled(env, sp, c, kind, 0, c, b, false, faces) == Some(Stored(env, ExpansionMaterial(kind), 0))
  {
    hide RampForFaces, ExpansionMaterial, ExpansionRamp;
  }

  // --- the queue -----------------------------------------------------------------------------------------

  lemma StepTruncates(env: Env, root: Pos, s: Sim, op: Op, deny: bool)
    ensures Step(env, root, s, op, deny).truncated >= s.truncated
  {
    hide RampForFaces, SolidFaces, Stored, Accepts, Write1;
  }

  lemma {:induction false} RunTruncates(env: Env, root: Pos, prot: Protection, s: Sim, ops: seq<Op>)
    ensures Run(env, root, prot, s, ops).truncated >= s.truncated
    decreases |ops|
  {
    if ops != [] {
      StepTruncates(env, root, s, ops[0], prot(ops[0].pos));
      hide Step;
      RunTruncates(env, root, prot, Step(env, root, s, ops[0], prot(ops[0].pos)), ops[1..]);
    }
  }

  lemma FireTruncates(env: Env, root: Pos, prot: Protection, s: Sim, n: Link)
    ensures Fire(env, root, prot, s, n).truncated >= s.truncated
  {
    var a := Fill(env, root, prot, FireStart(s, n), n.pos, n.kind, CenterColor(s, n.pos), n.depth);
    FillTruncates(env, root, prot, FireStart(s, n), n.pos, n.kind, CenterColor(s, n.pos), n.depth);
    FillTruncates(env, root, prot, Put(env, a, n.pos, AIR, 0), n.pos, n.kind, 0, n.depth);
    hide Fill, CenterColor;
  }

  lemma FillTruncates(env: Env, root: Pos, prot: Protection, s: Sim, c: Pos, kind: int, color: int, depth: nat)
    ensures Fill(env, root, prot, s, c, kind, color, depth).truncated >= s.truncated
  {
    ProbeBoundsSame(s, c);
    hide Run, FillOps, Bounds, ProbeBounds;
    RunTruncates(env, root, prot, ProbeBounds(s, c), FillOps(Bounds(env, s, c), c, kind, color, depth));
  }

  lemma ExpansionsStep(env: Env, root: Pos, prot: Protection, s: Sim, qi: nat, rootQueued: bool, maxVisits: nat)
    requires qi < |s.queue|
    ensures var t := Expansions(env, root, prot, s, qi, rootQueued, maxVisits);
      if !(rootQueued && qi == 0) && s.visits + VISITS_PER_LINK > maxVisits then t == s.(truncated := s.truncated + |s.queue| - qi)
      else
        var u := Fire(env, root, prot, s, s.queue[qi]);
        && s.queue <= u.queue && u.expansions == s.expansions + 1 && u.truncated >= s.truncated
        && t == Expansions(env, root, prot, u, qi + 1, rootQueued, maxVisits)
        && Left(maxVisits, u) <= Left(maxVisits, s) && (s.visits + VISITS_PER_LINK <= maxVisits ==> Left(maxVisits, u) < Left(maxVisits, s))
  {
    FirePays(env, root, prot, s, s.queue[qi]);
    FireTruncates(env, root, prot, s, s.queue[qi]);
    hide Fire;
  }

  lemma ExpansionsEnd(env: Env, root: Pos, prot: Protection, s: Sim, rootQueued: bool, maxVisits: nat)
    ensures Expansions(env, root, prot, s, |s.queue|, rootQueued, maxVisits) == s
  {
  }

  /** Every link in the queue goes off, unless the budget cannot take another one; those left over are
      counted. */
  lemma {:induction false} QueueDrains(env: Env, root: Pos, prot: Protection, s: Sim, qi: nat, rootQueued: bool, maxVisits: nat)
    requires qi <= |s.queue|
    ensures var t := Expansions(env, root, prot, s, qi, rootQueued, maxVisits);
      && s.queue <= t.queue && s.expansions <= t.expansions && t.truncated >= s.truncated
      && var left := |t.queue| - qi - (t.expansions - s.expansions);
      && 0 <= left && (left > 0 ==> t.visits + VISITS_PER_LINK > maxVisits && t.truncated >= s.truncated + left)
    decreases if rootQueued && qi == 0 then 1 else 0, Left(maxVisits, s)
  {
    hide Expansions, Fire, Left;
    if qi == |s.queue| {
      ExpansionsEnd(env, root, prot, s, rootQueued, maxVisits);
    } else {
      ExpansionsStep(env, root, prot, s, qi, rootQueued, maxVisits);
      if (rootQueued && qi == 0) || s.visits + VISITS_PER_LINK <= maxVisits {
        QueueDrains(env, root, prot, Fire(env, root, prot, s, s.queue[qi]), qi + 1, rootQueued, maxVisits);
      }
    }
  }

  /** The links that may run: no deeper than the guard. */
  function Shallow(chain: seq<Node>): (r: seq<Node>)
    ensures |r| <= |chain|
  {
    if chain == [] then [] else (if chain[0].depth > MAX_DEPTH then [] else [chain[0]]) + Shallow(chain[1..])
  }

  /** A blast's links are queued in order until the blasts run and waiting reach the budget, and every
      one past it is counted; links past the depth guard are neither. */
  lemma {:induction false} EnqueueExact(work: seq<Node>, chain: seq<Node>, explosions: nat, maxBlasts: nat, truncated: nat)
    requires explosions + |work| <= maxBlasts
    ensures var (rest, cut) := Enqueue(work, chain, explosions, maxBlasts, truncated);
      var fit, links := maxBlasts - explosions - |work|, Shallow(chain);
      if |links| <= fit then rest == work + links && cut == truncated
      else rest == work + links[..fit] && cut == truncated + |links| - fit
    decreases |chain|
  {
    var fit, links := maxBlasts - explosions - |work|, Shallow(chain);
    if chain == [] {
      assert work + [] == work;
    } else if chain[0].depth > MAX_DEPTH {
      EnqueueExact(work, chain[1..], explosions, maxBlasts, truncated);
      assert [] + Shallow(chain[1..]) == Shallow(chain[1..]);
    } else if explosions + |work| < maxBlasts {
      EnqueueExact(work + [chain[0]], chain[1..], explosions, maxBlasts, truncated);
      assert links[1..] == Shallow(chain[1..]);
      FrontLink(work, chain[0], links, fit);
    } else {
      EnqueueExact(work, chain[1..], explosions, maxBlasts, truncated + 1);
      assert links[..0] == [] == Shallow(chain[1..])[..0];
    }
  }

  lemma FrontLink(work: seq<Node>, n: Node, links: seq<Node>, fit: nat)
    requires links != [] && links[0] == n && fit > 0
    ensures work + [n] + links[1..] == work + links
    ensures fit < |links| ==> work + [n] + links[1..][..fit - 1] == work + links[..fit]
  {
  }

  // --- no lit block is lost --------------------------------------------------------------------------------

  ghost predicate Queued(s: Sim, p: Pos) { exists l :: l in s.queue && l.pos == p }

  /** The lit block with this key was queued, or is protected, or is too far from the root. */
  ghost predicate AnsweredKey(env: Env, root: Pos, s: Sim, k: int) {
    exists p :: Key(p) == k && (Queued(s, p) || p in s.denied || !Near(p, root, LinkReach(env)))
  }

  ghost predicate Answered(env: Env, root: Pos, s: Sim) { forall k :: k in s.lit ==> AnsweredKey(env, root, s, k) }

  /** Nothing is taken back: the queue and the refusals only grow. */
  ghost predicate Keeps(s: Sim, t: Sim) { s.queue <= t.queue && s.denied <= t.denied }

  lemma KeyKept(env: Env, root: Pos, s: Sim, t: Sim, k: int)
    requires Keeps(s, t) && AnsweredKey(env, root, s, k)
    ensures AnsweredKey(env, root, t, k)
  {
    var p :| Key(p) == k && (Queued(s, p) || p in s.denied || !Near(p, root, LinkReach(env)));
    if Queued(s, p) { var l :| l in s.queue && l.pos == p; assert l in t.queue && Queued(t, p); }
    hide Near, Key, Queued;
  }

  lemma AnsweredKept(env: Env, root: Pos, s: Sim, t: Sim)
    requires Answered(env, root, s) && Keeps(s, t) && t.lit == s.lit
    ensures Answered(env, root, t)
  {
    hide AnsweredKey, Keeps;
    forall k | k in t.lit
      ensures AnsweredKey(env, root, t, k)
    {
      KeyKept(env, root, s, t, k);
    }
  }

  /** A newly lit block is answered there and then. */
  lemma LightAnswers(env: Env, root: Pos, s: Sim, p: Pos, kind: int, depth: nat, ask: bool, deny: bool)
    requires Answered(env, root, s)
    ensures var t := Light(env, root, s, p, kind, depth, ask, deny);
      Keeps(s, t) && Answered(env, root, t)
  {
    var t := Light(env, root, s, p, kind, depth, ask, deny);
    assert t.lit == s.lit || t.lit == s.lit + {Key(p)};
    assert t.lit == s.lit || (ask && deny && t.denied == s.denied + [p]) || t.queue == s.queue + [Link(p, kind, depth)] || !Near(p, root, LinkReach(env));
    assert Keeps(s, t);
    hide Near, Light, Key;
    if t.queue == s.queue + [Link(p, kind, depth)] { assert Link(p, kind, depth) in t.queue && Queued(t, p); }
    forall k | k in t.lit
      ensures AnsweredKey(env, root, t, k)
    {
      if k in s.lit { hide Keeps, AnsweredKey; KeyKept(env, root, s, t, k); }
    }
  }

  /** What an operation does to the lighting is one Light at most. */
  lemma StepAnswers(env: Env, root: Pos, s: Sim, op: Op, deny: bool)
    requires Answered(env, root, s)
    ensures Answered(env, root, Step(env, root, s, op, deny))
  {
    hide Answered, Step;
    match op {
      case Sample(p, color, depth) => SampleStep(env, root, s, p, color, depth, deny);
      case FillCell(p, m, color, depth) => FillStep(env, root, s, p, m, color, depth, deny);
      case RingCell(p, ramp, color, depth) => RingStep(env, root, s, p, ramp, color, depth, deny);
      case LightCell(p, depth) => FillStep(env, root, s, p, AIR, 0, depth, deny);
    }
  }

  lemma SampleStep(env: Env, root: Pos, s: Sim, p: Pos, color: int, depth: nat, deny: bool)
    requires Answered(env, root, s)
    ensures Answered(env, root, Step(env, root, s, Sample(p, color, depth), deny))
  {
    var v := Ask(s.(visits := s.visits + 1), p, deny);
    SameAnswers(env, root, s, v);
    SameAnswers(env, root, s, Read(v, p));
    hide Answered, Keeps, PaintSample, BreakSample;
    SampleAnswers(env, root, Read(v, p), p, color, depth);
  }

  /** A lighting step is a fill step that has nothing to fill with. */
  lemma FillStep(env: Env, root: Pos, s: Sim, p: Pos, m: int, color: int, depth: nat, deny: bool)
    requires Answered(env, root, s)
    ensures Answered(env, root, Step(env, root, s, FillCell(p, m, color, depth), deny))
    ensures Answered(env, root, Step(env, root, s, LightCell(p, depth), deny))
  {
    var a := Probe(s, p);
    SameAnswers(env, root, s, a);
    SameAnswers(env, root, s, Ask(a, p, deny));
    hide Answered, Keeps, Light, Put, SeenKind, IsExpansion, Probe;
    LightAnswers(env, root, a, p, SeenKind(env, s, p), depth, true, deny);
    PutAnswers(env, root, Ask(a, p, deny), p, m, color);
  }

  lemma RingStep(env: Env, root: Pos, s: Sim, p: Pos, ramp: int, color: int, depth: nat, deny: bool)
    requires Answered(env, root, s)
    ensures Answered(env, root, Step(env, root, s, RingCell(p, ramp, color, depth), deny))
  {
    var a := Probe(s, p);
    SameAnswers(env, root, s, a);
    SameAnswers(env, root, s, Ask(a, p, deny));
    hide Answered, Keeps, Light, Put, SeenKind, IsExpansion, Probe, ProbeFaces, SolidFaces, RampForFaces;
    LightAnswers(env, root, a, p, SeenKind(env, s, p), depth, true, deny);
    FacesAnswer(env, root, Ask(a, p, deny), p);
    PutAnswers(env, root, ProbeFaces(Ask(a, p, deny), p), p, RampForFaces(ramp, SolidFaces(env, a, p)), color);
  }

  lemma SameAnswers(env: Env, root: Pos, s: Sim, t: Sim)
    requires Answered(env, root, s) && t.queue == s.queue && s.denied <= t.denied && t.lit == s.lit
    ensures Keeps(s, t) && Answered(env, root, t)
  {
    hide Answered;
    AnsweredKept(env, root, s, t);
  }

  lemma PutAnswers(env: Env, root: Pos, s: Sim, p: Pos, kind: int, color: int)
    requires Answered(env, root, s)
    ensures var t := Put(env, s, p, kind, color);
      Keeps(s, t) && Answered(env, root, t)
  {
    hide Answered, Stored, Accepts, Write1;
    SameAnswers(env, root, s, Put(env, s, p, kind, color));
  }

  lemma FacesAnswer(env: Env, root: Pos, s: Sim, p: Pos)
    requires Answered(env, root, s)
    ensures var t := ProbeFaces(s, p);
      Keeps(s, t) && Answered(env, root, t)
  {
    hide Answered, Read;
    var t := ProbeFaces(s, p);
    assert t.queue == s.queue && t.denied == s.denied && t.lit == s.lit by { FacesPlain(s, p); }
    SameAnswers(env, root, s, t);
  }

  lemma FacesPlain(s: Sim, p: Pos)
    ensures var t := ProbeFaces(s, p);
      t.queue == s.queue && t.denied == s.denied && t.lit == s.lit
  {
  }

  lemma SampleAnswers(env: Env, root: Pos, s: Sim, p: Pos, color: int, depth: nat)
    requires Answered(env, root, s)
    ensures var t := if color != 0 then PaintSample(env, s, p, color) else BreakSample(env, root, s, p, depth);
      Keeps(s, t) && Answered(env, root, t)
  {
    hide Answered, Light, Put, IsExpansion;
    PutAnswers(env, root, s, p, if color != 0 then PAINTED_BASE else AIR, color);
    match Look(s, p) {
      case None =>
      case Some(b) =>
        PutAnswers(env, root, s, p, b.kind, color);
        LightAnswers(env, root, s, p, b.kind, depth + 1, false, false);
        SameAnswers(env, root, s, s.(chain := s.chain + [Node(p, depth + 1)]));
        SameAnswers(env, root, s, s);
    }
  }

  lemma {:induction false} RunAnswers(env: Env, root: Pos, prot: Protection, s: Sim, ops: seq<Op>)
    requires Answered(env, root, s)
    ensures Answered(env, root, Run(env, root, prot, s, ops))
    decreases |ops|
  {
    hide Answered, Step, Keeps;
    if ops != [] {
      StepAnswers(env, root, s, ops[0], prot(ops[0].pos));
      RunAnswers(env, root, prot, Step(env, root, s, ops[0], prot(ops[0].pos)), ops[1..]);
    }
  }

  lemma BlastAnswers(env: Env, root: Pos, prot: Protection, s: Sim, n: Node)
    requires Answered(env, root, s)
    ensures Answered(env, root, Blast(env, root, prot, s, n))
  {
    hide Answered, BlastOps, Run, Put, Keeps;
    var m := Read(BlastMark(s, n), n.pos);
    SameAnswers(env, root, s, m);
    PutAnswers(env, root, m, n.pos, AIR, 0);
    RunAnswers(env, root, prot, BlastStart(env, s, n), BlastOps(n, CenterColor(s, n.pos), env.radius));
  }

  lemma FillAnswers(env: Env, root: Pos, prot: Protection, s: Sim, c: Pos, kind: int, color: int, depth: nat)
    requires Answered(env, root, s)
    ensures Answered(env, root, Fill(env, root, prot, s, c, kind, color, depth))
  {
    ProbeBoundsSame(s, c);
    hide Answered, FillOps, Run, Bounds, ProbeBounds;
    SameAnswers(env, root, s, ProbeBounds(s, c));
    RunAnswers(env, root, prot, ProbeBounds(s, c), FillOps(Bounds(env, s, c), c, kind, color, depth));
  }

  lemma FireAnswers(env: Env, root: Pos, prot: Protection, s: Sim, n: Link)
    requires Answered(env, root, s)
    ensures Answered(env, root, Fire(env, root, prot, s, n))
  {
    hide Answered, Fill, Put, CenterColor, Keeps;
    var f := FireStart(s, n);
    SameAnswers(env, root, s, f);
    FillAnswers(env, root, prot, f, n.pos, n.kind, CenterColor(s, n.pos), n.depth);
    var a := Fill(env, root, prot, f, n.pos, n.kind, CenterColor(s, n.pos), n.depth);
    PutAnswers(env, root, a, n.pos, AIR, 0);
    var b := Put(env, a, n.pos, AIR, 0);
    FillAnswers(env, root, prot, b, n.pos, n.kind, 0, n.depth);
    SameAnswers(env, root, b, b.(firing := None));
    var d := Fill(env, root, prot, b, n.pos, n.kind, 0, n.depth);
    SameAnswers(env, root, d, d.(firing := None));
  }

  lemma {:induction false} ChainAnswers(env: Env, root: Pos, prot: Protection, s: Sim, work: seq<Node>, maxBlasts: nat)
    requires s.explosions + |work| <= maxBlasts && Answered(env, root, s)
    ensures Answered(env, root, BlastChain(env, root, prot, s, work, maxBlasts))
    decreases maxBlasts - s.explosions
  {
    hide Answered, Blast, Enqueue;
    if work != [] {
      var t := Blast(env, root, prot, s, Last(work));
      var (rest, cut) := Enqueue(Front(work), t.chain, t.explosions, maxBlasts, t.truncated);
      BlastPays(env, root, prot, s, Last(work));
      EnqueueBounded(Front(work), t.chain, t.explosions, maxBlasts, t.truncated);
      BlastAnswers(env, root, prot, s, Last(work));
      SameAnswers(env, root, t, t.(truncated := cut));
      ChainAnswers(env, root, prot, t.(truncated := cut), rest, maxBlasts);
    }
  }

  lemma {:induction false} ExpansionsAnswer(env: Env, root: Pos, prot: Protection, s: Sim, qi: nat, rootQueued: bool, maxVisits: nat)
    requires qi <= |s.queue| && Answered(env, root, s)
    ensures Answered(env, root, Expansions(env, root, prot, s, qi, rootQueued, maxVisits))
    decreases if rootQueued && qi == 0 then 1 else 0, Left(maxVisits, s)
  {
    hide Answered, Expansions, Fire, Left;
    if qi == |s.queue| {
      ExpansionsEnd(env, root, prot, s, rootQueued, maxVisits);
    } else {
      ExpansionsStep(env, root, prot, s, qi, rootQueued, maxVisits);
      SameAnswers(env, root, s, s.(truncated := s.truncated + |s.queue| - qi));
      if (rootQueued && qi == 0) || s.visits + VISITS_PER_LINK <= maxVisits {
        FireAnswers(env, root, prot, s, s.queue[qi]);
        ExpansionsAnswer(env, root, prot, Fire(env, root, prot, s, s.queue[qi]), qi + 1, rootQueued, maxVisits);
      }
    }
  }

  /** In every burn, each expansion block that was lit was queued to go off, or a zone protects it, or
      it is out of the chain's reach. */
  lemma BurnAnswers(env: Env, root: Pos, prot: Protection, cells: Cells, maxVisits: nat)
    ensures Answered(env, root, SimBurn(env, root, prot, cells, maxVisits))
  {
    var a := Ask(Start(cells), root, prot(root));
    var b := Read(a.(visits := 1), root);
    assert a.lit == {} && b.lit == {} && Answered(env, root, a) && Answered(env, root, b);
    if !prot(root) && b.cells == cells && root in cells {
      var kind := cells[root].kind;
      ExplodeAnswers(env, root, prot, b.(visits := 0), maxVisits);
      RootAnswers(env, root, prot, b, kind, maxVisits);
      PutAnswers(env, root, b, root, AIR, 0);
    }
    hide Answered, SimExplode, Expansions, Put, IsExpansion;
  }

  lemma ExplodeAnswers(env: Env, root: Pos, prot: Protection, s: Sim, maxVisits: nat)
    requires s.explosions == 0 && s.lit == {}
    ensures Answered(env, root, SimExplode(env, root, prot, s, maxVisits))
  {
    var a := Ask(s, root, prot(root));
    assert Answered(env, root, a);
    hide Answered, BlastChain, Expansions;
    if !prot(root) {
      var most := MaxBlasts(env.radius, maxVisits);
      ChainAnswers(env, root, prot, a, [Node(root, 0)], most);
      ExpansionsAnswer(env, root, prot, BlastChain(env, root, prot, a, [Node(root, 0)], most), 0, false, maxVisits);
    }
  }

  lemma RootAnswers(env: Env, root: Pos, prot: Protection, s: Sim, kind: int, maxVisits: nat)
    requires s.lit == {}
    ensures var r := s.(lit := {Key(root)}, queue := [Link(root, kind, 0)]);
      Answered(env, root, Expansions(env, root, prot, r, 0, true, maxVisits))
  {
    var r := s.(lit := {Key(root)}, queue := [Link(root, kind, 0)]);
    assert Link(root, kind, 0) in r.queue && Queued(r, root) && AnsweredKey(env, root, r, Key(root));
    assert Answered(env, root, r);
    hide Answered, Expansions;
    ExpansionsAnswer(env, root, prot, r, 0, true, maxVisits);
  }
}
