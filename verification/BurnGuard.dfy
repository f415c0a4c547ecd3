/**
 A burn on the server: the live one, told only of the zones in reach, and the dry run that works out
 what a refused burn did to the sender's screen.
 */
module BurnGuard {
  import opened BlockRules
  import opened Burn
  import opened Voxels
  import opened BurnSteps
  import opened BurnChain
  import opened BurnOutcome
  import opened BurnVisits
  import opened BurnSafety
  import opened BurnZones
  import opened BurnRun
  import opened FireSpread

  /** A burn on the live world by someone at bypass level who, after zoneCheckNear. It does what the
      burn told of every zone would do, and leaves every protected cell as it was. */
  method BurnAction(w: World, zones: ZoneSet?, who: int, root: Pos, maxVisits: nat)
      returns (res: Result, ghost trace: Trace)
    requires w.Valid() && w.env.live && (zones != null ==> zones.Valid())
    modifies w
    ensures w.Valid()
    ensures var all := ZonesOf(zones);
      var s := SimBurn(w.env, root, p => Denies(all, who, p), old(w.view), maxVisits);
      && w.view == s.cells
      && trace == Trace(s.gets, s.asks, s.denied, s.sets)
      && res == Result(s.refused, s.truncated, s.explosions, s.expansions, s.visits, |s.denied|, s.maxDepth)
    ensures Outcome(old(w.view), root, Denies(ZonesOf(zones), who, root), w.view, trace.sets, res.refused, res.explosions, res.expansions)
    ensures forall p :: Denies(ZonesOf(zones), who, p) ==>
      (p in w.view <==> p in old(w.view)) && (p in w.view ==> w.view[p] == old(w.view)[p])
  {
    var reach := BurnReach(w.env.radius);
    var near := ZoneCheckNear(zones, who, Corner0(root, reach), Corner1(root, reach));
    var few := if near == null then [] else near.zones;
    ghost var all, cells := ZonesOf(zones), w.view;
    var run := new BurnRun(w, root, p => Denies(few, who, p), maxVisits);
    run.RunBurn();
    res := run.res;
    trace := run.trace;
    ZonePrefilter(w.env, root, all, who, cells, maxVisits);
    BurnComesTo(w.env, root, q => Denies(all, who, q), cells, maxVisits);
    hide SimBurn, Outcome;
    forall p | Denies(all, who, p)
      ensures (p in w.view <==> p in cells) && (p in w.view ==> w.view[p] == cells[p])
    {
      BurnFrame(w.env, root, q => Denies(all, who, q), cells, maxVisits, p);
    }
  }

  /** A refused burn changes nothing on the server, so no zone has anything to protect from it. */
  function DryBurn(env: Env, root: Pos, cells: Cells, maxVisits: nat): Sim {
    SimBurn(env, root, p => false, cells, maxVisits)
  }

  datatype Preview = Preview(
    rootKind: int, flammable: bool, explosive: bool, touchesTnt: bool, fireDepth: nat, chainDepth: nat,
    explosions: nat, visits: nat, truncated: bool)

  /** The world, the preview and the writes after some of the burning blocks have gone. */
  datatype Aftermath = Aftermath(cells: Cells, preview: Preview, sets: seq<Write>)

  function ResultOf(s: Sim): Result {
    Result(s.refused, s.truncated, s.explosions, s.expansions, s.visits, |s.denied|, s.maxDepth)
  }

  /** One more burning block goes: an explosive one through a burn of its own while the budget lasts,
      any other by burning away. */
  ghost function BurnOff(env: Env, a: Aftermath, p: Pos, maxVisits: nat): Aftermath {
    var t := KindAt(Land(a.cells, env.base), p);
    if t == TNT || IsExpansion(t) then
      if a.preview.visits >= maxVisits then a.(preview := a.preview.(truncated := true))
      else
        var s := DryBurn(env, p, a.cells, maxVisits - a.preview.visits);
        Aftermath(s.cells, Tally(a.preview, ResultOf(s)), a.sets + s.sets)
    else if t > 0 then a.(cells := Write1(env, a.cells, Write(p, AIR, 0)), sets := a.sets + [Write(p, AIR, 0)])
    else a
  }

  ghost function BurnDown(env: Env, a: Aftermath, fire: seq<Burning>, maxVisits: nat): Aftermath
    decreases |fire|
  {
    if fire == [] then a else BurnDown(env, BurnOff(env, a, fire[0].pos, maxVisits), fire[1..], maxVisits)
  }

  /** What is known of a burn before any block goes. */
  ghost function Lit(land: Land, root: Pos, fire: seq<Burning>, depth: nat, cut: bool): Preview {
    var kind := KindAt(land, root);
    Preview(kind, true, kind == TNT || kind == FIREWORK || IsExpansion(kind),
            exists b :: b in fire && TouchesTnt(KindAt(land, b.pos)), depth, 0, 0, 0, cut)
  }

  function MostVisits(radius: nat): nat { Max(VisitsPerBlast(radius), 1 + VISITS_PER_LINK) }

  /** The kind a client sees at a cell of the overlay. */
  method TypeAt(w: World, p: Pos) returns (kind: int)
    requires w.Valid()
    ensures kind == KindAt(Land(w.view, w.env.base), p)
  {
    if p.y < Y_MIN || p.y >= Y_MAX { return -1; }
    var c := w.Get(p);
    match c
    case None => return w.env.base(p.y);
    case Some(b) => return if b.kind == PAINTED_BASE then w.env.base(p.y) else b.kind;
  }

  /** The cells to restore begin with the fire, the lit block first. */
  ghost predicate FirstCells(cells: seq<Pos>, fire: seq<Burning>) {
    |fire| <= |cells| && forall i :: 0 <= i < |fire| ==> cells[i] == fire[i].pos
  }

  method RestoreFire(dry: World, fire: seq<Burning>)
    requires dry.Valid() && dry.writes.cells == [] && dry.writes.overflow == 0
    requires |fire| <= dry.writes.cap || |fire| == 1
    requires forall i, j :: 0 <= i < j < |fire| ==> Key(fire[i].pos) != Key(fire[j].pos)
    modifies dry`writes
    ensures dry.Valid() && dry.Kept()
    ensures |fire| <= dry.writes.cap ==> dry.writes.overflow == 0 && FirstCells(dry.writes.cells, fire)
  {
    for k := 0 to |fire|
      invariant dry.Valid() && dry.Kept()
      invariant |dry.writes.cells| <= k
      invariant |fire| <= dry.writes.cap ==> dry.writes.overflow == 0 && FirstCells(dry.writes.cells, fire[..k])
    {
      dry.Restore(fire[k].pos);
    }
  }

  /** The dry run of a burn. Nothing reaches the base world. The fire is the set of blocks it can reach,
      what it does is each of them going in turn, it touches TNT when the fire, a blast or a write does,
      and unless the cell set overflowed that names every cell the overlay differs on. */
  method PreviewBurn(base: World, root: Pos, maxVisits: nat, cap: nat)
      returns (p: Preview, dry: World, fire: seq<Burning>, ghost cut: bool)
    requires base.Valid() && base.env.live && Fireproof(base.env.base)
    ensures fresh(dry) && dry.Valid() && !dry.env.live && dry.env.radius == base.env.radius && dry.stored == base.stored
    ensures p.rootKind == KindAt(Land(base.view, base.env.base), root) && (p.flammable <==> Burns(Land(base.view, base.env.base), root))
    ensures !p.flammable ==> fire == [] && dry.view == base.view && dry.writes.cells == []
    ensures !p.flammable ==> p == Preview(p.rootKind, false, false, false, 0, 0, 0, 0, false)
    ensures p.flammable ==> 0 < |fire| <= Max(cap, 1) && fire[0] == Burning(root, 0) && (cut ==> |fire| >= cap)
    ensures p.flammable && !cut ==> forall q :: Listed(fire, q) <==> Reachable(Land(base.view, base.env.base), root, q)
    ensures p.flammable && !cut ==> forall b :: b in fire ==> Distance(Land(base.view, base.env.base), root, b.pos, b.depth)
    ensures p.flammable ==> (forall b :: b in fire ==> b.depth <= p.fireDepth) && exists b :: b in fire && b.depth == p.fireDepth
    ensures p.flammable ==>
      var a := BurnDown(dry.env, Aftermath(base.view, Lit(Land(base.view, base.env.base), root, fire, p.fireDepth, cut), []), fire, maxVisits);
      && dry.view == a.cells
      && p == a.preview.(touchesTnt := a.preview.touchesTnt || WritesTnt(a.sets), truncated := a.preview.truncated || dry.writes.overflow > 0)
    ensures p.visits < Max(maxVisits, 1) + MostVisits(base.env.radius)
    ensures p.flammable && cap > 0 ==> FirstCells(dry.writes.cells, fire)
    ensures cut || dry.writes.overflow > 0 ==> p.truncated
    ensures dry.writes.overflow == 0 ==>
      forall q :: q in dry.view && !(q in base.view && base.view[q] == dry.view[q]) ==> Key(q) in dry.writes.seen
  {
    dry := new World(base.env.(live := false), base.stored, cap);
    assert base.view == base.stored;
    var kind := TypeAt(dry, root);
    p := Preview(kind, false, false, false, 0, 0, 0, 0, false);
    fire, cut := [], false;
    if kind <= 0 || !IsFlammable(kind) { return; }
    p := p.(flammable := true, explosive := kind == TNT || kind == FIREWORK || IsExpansion(kind));
    var depth, truncated, tnt := 0, false, false;
    fire, depth, truncated, tnt := SpreadFire(Land(base.stored, base.env.base), root, cap);
    p := p.(fireDepth := depth, truncated := truncated, touchesTnt := tnt);
    cut := truncated;
    assert p == Lit(Land(base.view, base.env.base), root, fire, depth, cut);
    hide Listed, Reachable, Distance, WritesTnt, MostVisits, Lit, BurnDown, KindAt, Burns, IsFlammable, TouchesTnt, IsExpansion, FirstCells;
    p := BurnOut(dry, fire, maxVisits, p);
  }

  /** Every block of the fire goes, the cells to restore noted first. */
  method BurnOut(dry: World, fire: seq<Burning>, maxVisits: nat, p0: Preview) returns (p: Preview)
    requires dry.Valid() && !dry.env.live
    requires dry.writes.cells == [] && dry.writes.overflow == 0 && dry.log == [] && p0.visits == 0
    requires |fire| <= dry.writes.cap || |fire| == 1
    requires forall i, j :: 0 <= i < j < |fire| ==> Key(fire[i].pos) != Key(fire[j].pos)
    modifies dry
    ensures dry.Valid() && dry.Kept() && SameFire(p0, p)
    ensures var a := BurnDown(dry.env, Aftermath(old(dry.view), p0, []), fire, maxVisits);
      && dry.view == a.cells
      && p == a.preview.(touchesTnt := a.preview.touchesTnt || WritesTnt(a.sets), truncated := a.preview.truncated || dry.writes.overflow > 0)
    ensures p.visits < Max(maxVisits, 1) + MostVisits(dry.env.radius)
    ensures |fire| <= dry.writes.cap ==> FirstCells(dry.writes.cells, fire)
  {
    hide BurnDown, KindAt, WritesTnt, MostVisits, Key, InWorld;
    RestoreFire(dry, fire);
    ghost var first := dry.writes.cells;
    p := BurnFire(dry, fire, maxVisits, p0);
    if dry.wroteTnt { p := p.(touchesTnt := true); }
    if dry.writes.overflow > 0 { p := p.(truncated := true); }
  }

  /** What was known of the burn before any block went is kept. */
  predicate SameFire(p: Preview, q: Preview) {
    && (p.truncated ==> q.truncated) && (p.touchesTnt ==> q.touchesTnt)
    && p.rootKind == q.rootKind && p.flammable == q.flammable && p.explosive == q.explosive && p.fireDepth == q.fireDepth
  }

  /** The preview after one more burn of the fire. */
  function Tally(p: Preview, r: Result): (q: Preview)
    ensures SameFire(p, q) && q.visits == p.visits + r.visits
  {
    p.(visits := p.visits + r.visits, explosions := p.explosions + r.explosions,
       touchesTnt := p.touchesTnt || r.explosions > 0, truncated := p.truncated || r.truncated > 0,
       chainDepth := Max(p.chainDepth, r.maxDepth + if r.explosions + r.expansions > 0 then 1 else 0))
  }

  /** A burn of one explosive block of the fire, in the overlay. */
  method SetOff(dry: World, b: Pos, maxVisits: nat, p0: Preview) returns (p: Preview)
    requires dry.Valid() && p0.visits < maxVisits
    modifies dry
    ensures dry.Valid() && dry.Kept() && SameFire(p0, p)
    ensures var s := DryBurn(dry.env, b, old(dry.view), maxVisits - p0.visits);
      dry.view == s.cells && p == Tally(p0, ResultOf(s)) && dry.log == old(dry.log) + s.sets
    ensures p.visits < maxVisits + MostVisits(dry.env.radius)
  {
    ghost var cells := dry.view;
    var run := new BurnRun(dry, b, q => false, maxVisits - p0.visits);
    run.RunBurn();
    BurnBudget(dry.env, b, q => false, cells, maxVisits - p0.visits);
    p := Tally(p0, run.res);
  }

  method BurnBlock(dry: World, b: Pos, maxVisits: nat, p0: Preview, ghost sets: seq<Write>) returns (p: Preview)
    requires dry.Valid() && !dry.env.live
    requires p0.visits < Max(maxVisits, 1) + MostVisits(dry.env.radius) && dry.log == sets
    modifies dry
    ensures dry.Valid() && dry.Kept() && SameFire(p0, p)
    ensures Aftermath(dry.view, p, dry.log) == BurnOff(dry.env, Aftermath(old(dry.view), p0, sets), b, maxVisits)
    ensures p.visits < Max(maxVisits, 1) + MostVisits(dry.env.radius)
  {
    hide MostVisits, DryBurn, KindAt, Write1, IsExpansion, Tally, ResultOf;
    p := p0;
    var t := TypeAt(dry, b);
    if t == TNT || IsExpansion(t) {
      if p.visits >= maxVisits { return p.(truncated := true); }
      p := SetOff(dry, b, maxVisits, p);
    } else if t > 0 {
      var _ := dry.Set(b, AIR, 0);
    }
  }

  /** What each burning block does when it goes. */
  method BurnFire(dry: World, fire: seq<Burning>, maxVisits: nat, p0: Preview) returns (p: Preview)
    requires dry.Valid() && !dry.env.live
    requires p0.visits == 0 && dry.log == []
    modifies dry
    ensures dry.Valid() && dry.Kept() && SameFire(p0, p)
    ensures Aftermath(dry.view, p, dry.log) == BurnDown(dry.env, Aftermath(old(dry.view), p0, []), fire, maxVisits)
    ensures p.visits < Max(maxVisits, 1) + MostVisits(dry.env.radius)
  {
    assert MostVisits(dry.env.radius) > 0;
    hide MostVisits, BurnOff;
    p := p0;
    ghost var start := Aftermath(dry.view, p0, []);
    for k := 0 to |fire|
      invariant dry.Valid() && dry.Kept() && SameFire(p0, p)
      invariant BurnDown(dry.env, Aftermath(dry.view, p, dry.log), fire[k..], maxVisits) == BurnDown(dry.env, start, fire, maxVisits)
      invariant p.visits < Max(maxVisits, 1) + MostVisits(dry.env.radius)
    {
      assert fire[k..][1..] == fire[k + 1..];
      p := BurnBlock(dry, fire[k].pos, maxVisits, p, dry.log);
    }
  }

  // --- what a preview adds up to ------------------------------------------------------------------

  /** A block goes off in a burn of its own. */
  predicate Explosive(kind: int) { kind == TNT || IsExpansion(kind) }

  /** The dry burns a fire sets off, in the order the fire gets there, while the budget lasts. */
  ghost function SetOffs(env: Env, a: Aftermath, fire: seq<Burning>, maxVisits: nat): seq<Sim>
    decreases |fire|
  {
    if fire == [] then []
    else
      var p, rest := fire[0].pos, SetOffs(env, BurnOff(env, a, fire[0].pos, maxVisits), fire[1..], maxVisits);
      if Explosive(KindAt(Land(a.cells, env.base), p)) && a.preview.visits < maxVisits then
        [DryBurn(env, p, a.cells, maxVisits - a.preview.visits)] + rest
      else rest
  }

  /** The fire gets to an explosive block with the budget spent. */
  ghost predicate Skips(env: Env, a: Aftermath, fire: seq<Burning>, maxVisits: nat)
    decreases |fire|
  {
    fire != [] &&
    ((Explosive(KindAt(Land(a.cells, env.base), fire[0].pos)) && a.preview.visits >= maxVisits) ||
     Skips(env, BurnOff(env, a, fire[0].pos, maxVisits), fire[1..], maxVisits))
  }

  function SumVisits(ss: seq<Sim>): nat { if ss == [] then 0 else ss[0].visits + SumVisits(ss[1..]) }
  function SumExplosions(ss: seq<Sim>): nat { if ss == [] then 0 else ss[0].explosions + SumExplosions(ss[1..]) }

  /** How deep the chain of one burn is: links from its root, the root's own blast or fill included. */
  function ChainOf(s: Sim): nat { if s.explosions > 0 || s.expansions > 0 then s.maxDepth + 1 else 0 }

  function DeepestChain(ss: seq<Sim>, d: nat): nat
    decreases |ss|
  {
    if ss == [] then d else DeepestChain(ss[1..], Max(d, ChainOf(ss[0])))
  }

  lemma ChainIs(env: Env, root: Pos, cells: Cells, maxVisits: nat)
    ensures var d := DryBurn(env, root, cells, maxVisits);
      ChainOf(d) == d.maxDepth + if d.explosions + d.expansions > 0 then 1 else 0
  {
    QuietDepth(env, root, p => false, cells, maxVisits);
    hide SimBurn;
  }

  /** The preview adds up the burns the fire sets off: the cells visited, the blasts, the deepest chain,
      whether a blast ran, and whether one of them was cut short or left out. */
  lemma {:induction false} PreviewAddsUp(env: Env, a: Aftermath, fire: seq<Burning>, maxVisits: nat)
    ensures var p, ss := BurnDown(env, a, fire, maxVisits).preview, SetOffs(env, a, fire, maxVisits);
      && p.visits == a.preview.visits + SumVisits(ss) && p.explosions == a.preview.explosions + SumExplosions(ss)
      && p.chainDepth == DeepestChain(ss, a.preview.chainDepth)
      && (p.touchesTnt <==> a.preview.touchesTnt || exists s :: s in ss && s.explosions > 0)
      && (p.truncated <==> a.preview.truncated || Skips(env, a, fire, maxVisits) || exists s :: s in ss && s.truncated > 0)
    decreases |fire|
  {
    hide DryBurn, KindAt, Write1, IsExpansion;
    if fire != [] {
      var u := BurnOff(env, a, fire[0].pos, maxVisits);
      PreviewAddsUp(env, u, fire[1..], maxVisits);
      var rest := SetOffs(env, u, fire[1..], maxVisits);
      if Explosive(KindAt(Land(a.cells, env.base), fire[0].pos)) && a.preview.visits < maxVisits {
        var d := DryBurn(env, fire[0].pos, a.cells, maxVisits - a.preview.visits);
        ChainIs(env, fire[0].pos, a.cells, maxVisits - a.preview.visits);
        assert ([d] + rest)[1..] == rest && forall s :: s in [d] + rest <==> s == d || s in rest;
      }
    }
  }

  /** A fire that reaches nothing explosive burns exactly its blocks away: each becomes air, no other cell
      changes, and no chain runs. */
  lemma {:induction false} QuietFire(env: Env, a: Aftermath, fire: seq<Burning>, maxVisits: nat, q: Pos)
    requires !env.live && forall i, j :: 0 <= i < j < |fire| ==> fire[i].pos != fire[j].pos
    requires forall b :: b in fire ==> var t := KindAt(Land(a.cells, env.base), b.pos); t > 0 && !Explosive(t)
    ensures var z := BurnDown(env, a, fire, maxVisits);
      && z.preview == a.preview
      && (if Listed(fire, q) then q in z.cells && z.cells[q] == Block(AIR, 0)
          else (q in z.cells <==> q in a.cells) && (q in a.cells ==> z.cells[q] == a.cells[q]))
    decreases |fire|
  {
    hide DryBurn, IsExpansion, Tally;
    if fire != [] {
      var p, rest := fire[0].pos, fire[1..];
      assert fire[0] in fire;
      var u := BurnOff(env, a, p, maxVisits);
      assert u.cells == a.cells[p := Block(AIR, 0)] && u.preview == a.preview;
      forall b | b in rest
        ensures KindAt(Land(u.cells, env.base), b.pos) == KindAt(Land(a.cells, env.base), b.pos) && b in fire
      {
        var k :| 0 <= k < |rest| && rest[k] == b;
        assert fire[k + 1] == b;
      }
      QuietFire(env, u, rest, maxVisits, q);
      ListedFirst(fire, q);
    }
  }

  lemma ListedFirst(fire: seq<Burning>, q: Pos)
    requires fire != []
    ensures Listed(fire, q) <==> fire[0].pos == q || Listed(fire[1..], q)
  {
    assert fire == [fire[0]] + fire[1..];
    if Listed(fire[1..], q) {
      var b :| b in fire[1..] && b.pos == q;
      assert b in fire;
    }
  }
}
