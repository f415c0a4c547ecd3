/**
 Protected zones and the burn: a burn told only of the zones that meet its reach box does exactly
 what it would do told of every zone.
 */
module BurnZones {
  import opened BlockRules
  import opened Burn
  import opened Voxels
  import opened BurnSteps
  import opened BurnShapes
  import opened BurnChain
  import opened BurnSafety

  // --- only nearby protection matters -----------------------------------------------------

  ghost predicate AgreeNear(p1: Protection, p2: Protection, root: Pos, n: nat) {
    forall p: Pos :: Near(p, root, n) ==> p1(p) == p2(p)
  }

  lemma RunNear(env: Env, root: Pos, p1: Protection, p2: Protection, s: Sim, ops: seq<Op>)
    requires AgreeNear(p1, p2, root, BurnReach(env.radius)) && OpsNear(ops, root, BurnReach(env.radius))
    ensures Run(env, root, p1, s, ops) == Run(env, root, p2, s, ops)
  {
    hide Near;
    assert AgreeOn(p1, p2, ops);
    RunCongruent(env, root, p1, p2, s, ops);
  }

  lemma {:induction false} BlastChainNear(env: Env, cells: Cells, root: Pos, p1: Protection, p2: Protection, s: Sim, work: seq<Node>, maxBlasts: nat)
    requires s.explosions + |work| <= maxBlasts
    requires AgreeNear(p1, p2, root, BurnReach(env.radius))
    requires Safe(env, cells, root, p1, s) && WorkOk(env, root, p1, work)
    ensures BlastChain(env, root, p1, s, work, maxBlasts) == BlastChain(env, root, p2, s, work, maxBlasts)
    decreases maxBlasts - s.explosions
  {
    hide Safe, AgreeNear, NodeOk, Run, BlastOps, BlastStart, BurnReach;
    if work != [] {
      var n := Last(work);
      var t := Blast(env, root, p1, s, n);
      BlastNear(env, root, p1, n, CenterColor(s, n.pos));
      RunNear(env, root, p1, p2, BlastStart(env, s, n), BlastOps(n, CenterColor(s, n.pos), env.radius));
      BlastSafe(env, cells, root, p1, s, n);
      BlastPays(env, root, p1, s, n);
      hide Blast;
      var (rest, cut) := Enqueue(Front(work), t.chain, t.explosions, maxBlasts, t.truncated);
      SafeTransfers(env, cells, root, p1, t, t.(truncated := cut));
      EnqueueBounded(Front(work), t.chain, t.explosions, maxBlasts, t.truncated);
      EnqueueOk(env, root, p1, Front(work), t.chain, t.explosions, maxBlasts, t.truncated);
      BlastChainNear(env, cells, root, p1, p2, t.(truncated := cut), rest, maxBlasts);
    }
  }

  lemma FillCongruent(env: Env, root: Pos, p1: Protection, p2: Protection, s: Sim, c: Pos, kind: int, color: int, depth: nat)
    requires AgreeNear(p1, p2, root, BurnReach(env.radius)) && Near(c, root, LinkReach(env))
    ensures Fill(env, root, p1, s, c, kind, color, depth) == Fill(env, root, p2, s, c, kind, color, depth)
  {
    hide Run, FillOps, ProbeBounds, Bounds, AgreeNear;
    FillNear(env, root, s, c, kind, color, depth);
    RunNear(env, root, p1, p2, ProbeBounds(s, c), FillOps(Bounds(env, s, c), c, kind, color, depth));
  }

  lemma FireCongruent(env: Env, root: Pos, p1: Protection, p2: Protection, s: Sim, n: Link)
    requires AgreeNear(p1, p2, root, BurnReach(env.radius)) && Near(n.pos, root, LinkReach(env))
    ensures Fire(env, root, p1, s, n) == Fire(env, root, p2, s, n)
  {
    hide Fill, Put, AgreeNear, Near, FireStart;
    var a := Fill(env, root, p1, FireStart(s, n), n.pos, n.kind, CenterColor(s, n.pos), n.depth);
    FillCongruent(env, root, p1, p2, FireStart(s, n), n.pos, n.kind, CenterColor(s, n.pos), n.depth);
    FillCongruent(env, root, p1, p2, Put(env, a, n.pos, AIR, 0), n.pos, n.kind, 0, n.depth);
  }

  lemma {:induction false} ExpansionsNear(env: Env, cells: Cells, root: Pos, p1: Protection, p2: Protection, s: Sim, qi: nat, rootQueued: bool, maxVisits: nat)
    requires qi <= |s.queue| && Safe(env, cells, root, p1, s)
    requires AgreeNear(p1, p2, root, BurnReach(env.radius))
    ensures Expansions(env, root, p1, s, qi, rootQueued, maxVisits) == Expansions(env, root, p2, s, qi, rootQueued, maxVisits)
    decreases if rootQueued && qi == 0 then 1 else 0, Left(maxVisits, s)
  {
    hide Safe, Fire, AgreeNear, Near;
    if qi < |s.queue| && ((rootQueued && qi == 0) || s.visits + VISITS_PER_LINK <= maxVisits) {
      QueuedCentre(env, cells, root, p1, s, qi);
      FireCongruent(env, root, p1, p2, s, s.queue[qi]);
      FirePays(env, root, p1, s, s.queue[qi]);
      FireSafe(env, cells, root, p1, s, s.queue[qi]);
      ExpansionsNear(env, cells, root, p1, p2, Fire(env, root, p1, s, s.queue[qi]), qi + 1, rootQueued, maxVisits);
    }
  }

  lemma ExplodeNear(env: Env, cells: Cells, root: Pos, p1: Protection, p2: Protection, s: Sim, maxVisits: nat)
    requires Safe(env, cells, root, p1, s) && s.explosions == 0
    requires AgreeNear(p1, p2, root, BurnReach(env.radius))
    ensures SimExplode(env, root, p1, s, maxVisits) == SimExplode(env, root, p2, s, maxVisits)
  {
    RootNear(env, root);
    AskSafe(env, cells, root, p1, s, root);
    assert p1(root) == p2(root);
    hide Safe, AgreeNear, BlastChain, Expansions, MaxBlasts, BurnReach;
    if !p1(root) {
      var a := Ask(s, root, p1(root));
      var n := MaxBlasts(env.radius, maxVisits);
      BlastChainNear(env, cells, root, p1, p2, a, [Node(root, 0)], n);
      BlastChainSafe(env, cells, root, p1, a, [Node(root, 0)], n);
      ExpansionsNear(env, cells, root, p1, p2, BlastChain(env, root, p1, a, [Node(root, 0)], n), 0, false, maxVisits);
    }
  }

  /** Two protections that agree within burn reach of the root give the same burn: the same world,
      result, trace and refused cells. */
  lemma BurnNear(env: Env, root: Pos, p1: Protection, p2: Protection, cells: Cells, maxVisits: nat)
    requires AgreeNear(p1, p2, root, BurnReach(env.radius))
    ensures SimBurn(env, root, p1, cells, maxVisits) == SimBurn(env, root, p2, cells, maxVisits)
  {
    hide Safe, Put, SimExplode, Expansions, BurnReach;
    RootNear(env, root);
    assert p1(root) == p2(root);
    hide AgreeNear, Near;
    StartSafe(env, cells, root, p1);
    var a := Ask(Start(cells), root, p1(root));
    var b := Read(a.(visits := 1), root);
    AskSafe(env, cells, root, p1, Start(cells), root);
    SafeTransfers(env, cells, root, p1, a, a.(visits := 1));
    NearWider(root, BurnReach(env.radius));
    ReadSafe(env, cells, root, p1, a.(visits := 1), root);
    if !p1(root) && root in cells {
      var lit := b.(lit := {Key(root)}, queue := [Link(root, cells[root].kind, 0)]);
      LitSafe(env, cells, root, p1, b, cells[root].kind);
      SafeTransfers(env, cells, root, p1, b, b.(visits := 0));
      ExplodeNear(env, cells, root, p1, p2, b.(visits := 0), maxVisits);
      ExpansionsNear(env, cells, root, p1, p2, lit, 0, true, maxVisits);
    }
  }

  // --- zones ------------------------------------------------------------------------------

  const ZONE_MAX := 256

  datatype Zone = Zone(name: string, lo: Pos, hi: Pos, enforced: bool, level: Option<nat>) {
    predicate Contains(p: Pos) {
      lo.x <= p.x <= hi.x && lo.y <= p.y <= hi.y && lo.z <= p.z <= hi.z
    }

    predicate BypassedBy(who: int) {
      level.Some? && who >= 0 && who >= level.value
    }

    predicate Overlaps(a: Pos, b: Pos) {
      lo.x <= b.x && a.x <= hi.x && lo.y <= b.y && a.y <= hi.y && lo.z <= b.z && a.z <= hi.z
    }

    predicate Blocks(p: Pos, who: int) {
      enforced && Contains(p) && !BypassedBy(who)
    }

    /** Kept for a burn whose reach box is a..b by someone at bypass level who. */
    predicate Reaches(a: Pos, b: Pos, who: int) {
      enforced && !BypassedBy(who) && Overlaps(a, b)
    }
  }

  predicate Denies(zones: seq<Zone>, who: int, p: Pos) {
    exists z :: z in zones && z.Blocks(p, who)
  }

  function Nearby(zones: seq<Zone>, who: int, a: Pos, b: Pos): seq<Zone> {
    if zones == [] then []
    else (if zones[0].Reaches(a, b, who) then [zones[0]] else []) + Nearby(zones[1..], who, a, b)
  }

  lemma {:induction false} NearbyExact(zones: seq<Zone>, who: int, a: Pos, b: Pos, z: Zone)
    ensures z in Nearby(zones, who, a, b) <==> z in zones && z.Reaches(a, b, who)
  {
    if zones != [] { NearbyExact(zones[1..], who, a, b, z); }
  }

  function Corner0(root: Pos, n: nat): Pos { Pos(root.x - n, root.y - n, root.z - n) }
  function Corner1(root: Pos, n: nat): Pos { Pos(root.x + n, root.y + n, root.z + n) }

  lemma NearbyDenies(zones: seq<Zone>, who: int, root: Pos, n: nat, p: Pos)
    requires Near(p, root, n)
    ensures Denies(Nearby(zones, who, Corner0(root, n), Corner1(root, n)), who, p) == Denies(zones, who, p)
  {
    var near := Nearby(zones, who, Corner0(root, n), Corner1(root, n));
    forall z: Zone
      ensures z in near <==> z in zones && z.Reaches(Corner0(root, n), Corner1(root, n), who)
    {
      NearbyExact(zones, who, Corner0(root, n), Corner1(root, n), z);
    }
    if Denies(zones, who, p) {
      var z :| z in zones && z.Blocks(p, who);
      assert z in near;
    }
  }

  /** The burn of a player at bypass level who, told of all zones or only of those its reach box meets. */
  lemma ZonePrefilter(env: Env, root: Pos, zones: seq<Zone>, who: int, cells: Cells, maxVisits: nat)
    ensures var n := BurnReach(env.radius);
      var near := Nearby(zones, who, Corner0(root, n), Corner1(root, n));
      SimBurn(env, root, p => Denies(near, who, p), cells, maxVisits) ==
      SimBurn(env, root, p => Denies(zones, who, p), cells, maxVisits)
  {
    var n := BurnReach(env.radius);
    var near := Nearby(zones, who, Corner0(root, n), Corner1(root, n));
    var p1: Protection := p => Denies(near, who, p);
    var p2: Protection := p => Denies(zones, who, p);
    forall p: Pos | Near(p, root, n)
      ensures p1(p) == p2(p)
    {
      NearbyDenies(zones, who, root, n, p);
    }
    BurnNear(env, root, p1, p2, cells, maxVisits);
  }

  /** Zone names stay unique and under the cap. */
  class ZoneSet {
    var zones: seq<Zone>

    ghost predicate Valid()
      reads this
    {
      |zones| <= ZONE_MAX && forall i, j :: 0 <= i < j < |zones| ==> zones[i].name != zones[j].name
    }

    constructor ()
      ensures Valid() && zones == []
    {
      zones := [];
    }

    method Add(z: Zone) returns (ok: bool)
      requires Valid()
      modifies this
      ensures Valid()
      ensures ok == (|old(zones)| < ZONE_MAX && forall y :: y in old(zones) ==> y.name != z.name)
      ensures zones == if ok then old(zones) + [z] else old(zones)
    {
      for i := 0 to |zones|
        invariant forall j :: 0 <= j < i ==> zones[j].name != z.name
        invariant zones == old(zones)
      {
        if zones[i].name == z.name { return false; }
      }
      if |zones| >= ZONE_MAX { return false; }
      zones := zones + [z];
      return true;
    }

    /** The first zone that denies the cell, if any does. */
    method Blocking(p: Pos, who: int) returns (r: Option<Zone>)
      ensures r.None? <==> !Denies(zones, who, p)
      ensures r.Some? ==> exists i :: (0 <= i < |zones| && zones[i] == r.value && r.value.Blocks(p, who) &&
                                       forall j :: 0 <= j < i ==> !zones[j].Blocks(p, who))
    {
      for i := 0 to |zones|
        invariant forall j :: 0 <= j < i ==> !zones[j].Blocks(p, who)
      {
        if zones[i].enforced && zones[i].Contains(p) && !zones[i].BypassedBy(who) {
          assert zones[i] in zones;
          return Some(zones[i]);
        }
      }
      return None;
    }

    method Intersects(a: Pos, b: Pos) returns (r: bool)
      ensures r <==> exists z :: z in zones && z.enforced && z.Overlaps(a, b)
    {
      for i := 0 to |zones|
        invariant forall j :: 0 <= j < i ==> !(zones[j].enforced && zones[j].Overlaps(a, b))
      {
        if zones[i].enforced && zones[i].Overlaps(a, b) { return true; }
      }
      return false;
    }
  }

  /** The zones a null set stands for. */
  ghost function ZonesOf(z: ZoneSet?): seq<Zone>
    reads z
  {
    if z == null then [] else z.zones
  }

  lemma {:induction false} NearbyAppend(a: seq<Zone>, z: Zone, who: int, lo: Pos, hi: Pos)
    ensures Nearby(a + [z], who, lo, hi) == Nearby(a, who, lo, hi) + Nearby([z], who, lo, hi)
  {
    if a == [] {
      assert a + [z] == [z];
    } else {
      assert (a + [z])[1..] == a[1..] + [z];
      NearbyAppend(a[1..], z, who, lo, hi);
    }
  }

  lemma NearbyEmpty(zones: seq<Zone>, who: int, lo: Pos, hi: Pos)
    requires forall z :: z in zones ==> !z.Reaches(lo, hi, who)
    ensures Nearby(zones, who, lo, hi) == []
  {
    if Nearby(zones, who, lo, hi) != [] {
      NearbyExact(zones, who, lo, hi, Nearby(zones, who, lo, hi)[0]);
    }
  }

  /** The zones that meet a box as a smaller set of their own; null when there are none. */
  method ZoneCheckNear(all: ZoneSet?, who: int, lo: Pos, hi: Pos) returns (near: ZoneSet?)
    requires all != null ==> all.Valid()
    ensures near != null ==> near.Valid() && near.zones != []
    ensures ZonesOf(near) == Nearby(ZonesOf(all), who, lo, hi)
  {
    if all == null { return null; }
    var meets := all.Intersects(lo, hi);
    if !meets {
      NearbyEmpty(all.zones, who, lo, hi);
      return null;
    }
    var sub := new ZoneSet();
    for i := 0 to |all.zones|
      invariant sub.Valid() && fresh(sub) && all.zones == old(all.zones)
      invariant sub.zones == Nearby(all.zones[..i], who, lo, hi)
    {
      var z := all.zones[i];
      assert all.zones[..i + 1] == all.zones[..i] + [z];
      NearbyAppend(all.zones[..i], z, who, lo, hi);
      if z.enforced && !z.BypassedBy(who) && z.Overlaps(lo, hi) {
        forall y | y in sub.zones
          ensures y.name != z.name
        {
          NearbyExact(all.zones[..i], who, lo, hi, y);
        }
        NearbyShort(all.zones[..i], who, lo, hi);
        var _ := sub.Add(z);
      }
    }
    assert all.zones[..|all.zones|] == all.zones;
    if |sub.zones| == 0 { return null; }
    return sub;
  }

  lemma {:induction false} NearbyShort(zones: seq<Zone>, who: int, lo: Pos, hi: Pos)
    ensures |Nearby(zones, who, lo, hi)| <= |zones|
  {
    if zones != [] { NearbyShort(zones[1..], who, lo, hi); }
  }
}
