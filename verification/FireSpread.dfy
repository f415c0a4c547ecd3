/**
 The fire a burn starts: how far each block is from the lit one by steps through flammable blocks,
 and the breadth-first search that finds it.
 */
module FireSpread {
  import opened BlockRules
  import opened Burn
  import opened Voxels

  /** Stored cells over the terrain a client draws where nothing is stored. */
  datatype Land = Land(cells: Cells, base: int -> int)

  /** Terrain that does not burn, as the server's does not. */
  ghost predicate Fireproof(base: int -> int) { forall y :: !IsFlammable(base(y)) }

  /** The kind a client sees at a cell. */
  function KindAt(land: Land, p: Pos): int {
    if p.y < Y_MIN || p.y >= Y_MAX then -1
    else if p !in land.cells || land.cells[p].kind == PAINTED_BASE then land.base(p.y)
    else land.cells[p].kind
  }

  predicate Burns(land: Land, p: Pos) { IsFlammable(KindAt(land, p)) }

  /** An expansion block catches fire but does not pass it on. */
  predicate Spreads(land: Land, p: Pos) { Burns(land, p) && !IsExpansion(KindAt(land, p)) }

  const DIRS: seq<Pos> := [Pos(1, 0, 0), Pos(-1, 0, 0), Pos(0, 0, 1), Pos(0, 0, -1), Pos(0, 1, 0), Pos(0, -1, 0)]

  function Plus(p: Pos, d: Pos): Pos { Pos(p.x + d.x, p.y + d.y, p.z + d.z) }

  ghost predicate Adjacent(p: Pos, q: Pos) {
    Abs(p.x - q.x) + Abs(p.y - q.y) + Abs(p.z - q.z) == 1
  }

  /** Fire lit at root gets to p in n spreads. */
  ghost predicate Reaches(land: Land, root: Pos, p: Pos, n: nat)
    decreases n
  {
    if n == 0 then p == root
    else Burns(land, p) && exists q :: Reaches(land, root, q, n - 1) && Spreads(land, q) && Adjacent(q, p)
  }

  ghost predicate Distance(land: Land, root: Pos, p: Pos, n: nat) {
    Reaches(land, root, p, n) && forall m: nat :: m < n ==> !Reaches(land, root, p, m)
  }

  ghost predicate Reachable(land: Land, root: Pos, p: Pos) { exists n: nat :: Reaches(land, root, p, n) }

  datatype Burning = Burning(pos: Pos, depth: nat)

  lemma DirsAdjacent(p: Pos, q: Pos)
    ensures Adjacent(p, q) <==> exists k :: 0 <= k < 6 && q == Plus(p, DIRS[k])
  {
    if Adjacent(p, q) {
      if q.x == p.x + 1 { assert q == Plus(p, DIRS[0]); }
      else if q.x == p.x - 1 { assert q == Plus(p, DIRS[1]); }
      else if q.z == p.z + 1 { assert q == Plus(p, DIRS[2]); }
      else if q.z == p.z - 1 { assert q == Plus(p, DIRS[3]); }
      else if q.y == p.y + 1 { assert q == Plus(p, DIRS[4]); }
      else { assert q == Plus(p, DIRS[5]); }
    }
  }

  /** Flammable cells are stored ones, so their keys tell them apart. */
  lemma KeysDiffer(land: Land, p: Pos, q: Pos)
    requires Fireproof(land.base) && forall c :: c in land.cells ==> InWorld(c)
    requires Burns(land, p) && Burns(land, q) && Key(p) == Key(q)
    ensures p == q
  {
    KeyInjective(p, q);
  }

  // --- breadth-first search ---------------------------------------------------------------

  ghost predicate Listed(fire: seq<Burning>, p: Pos) { exists b :: b in fire && b.pos == p }

  ghost predicate Keys(fire: seq<Burning>, seen: set<int>) {
    forall k :: k in seen <==> exists b :: b in fire && Key(b.pos) == k
  }

  /** Every listed block burns, at its exact distance, nearest first, one spread past the current depth at most. */
  ghost predicate Layered(land: Land, root: Pos, fire: seq<Burning>, depth: nat) {
    && fire != [] && fire[0] == Burning(root, 0)
    && (forall b :: b in fire ==> Burns(land, b.pos) && Distance(land, root, b.pos, b.depth) && b.depth <= depth + 1)
    && (forall i, j :: 0 <= i < j < |fire| ==> fire[i].depth <= fire[j].depth && fire[i].pos != fire[j].pos)
  }

  ghost predicate Closed(land: Land, fire: seq<Burning>, n: nat) {
    forall i, q :: 0 <= i < n && i < |fire| && Spreads(land, fire[i].pos) && Adjacent(fire[i].pos, q) && Burns(land, q)
      ==> Listed(fire, q)
  }

  /** Once every listed block nearer than n has passed the fire on, every block within n spreads is listed. */
  lemma {:induction false} Complete(land: Land, root: Pos, fire: seq<Burning>, depth: nat, i: nat, p: Pos, n: nat)
    requires Layered(land, root, fire, depth) && Closed(land, fire, i) && i <= |fire|
    requires i < |fire| ==> n <= fire[i].depth
    requires Reaches(land, root, p, n)
    ensures Listed(fire, p)
    decreases n
  {
    hide Burns, Spreads, Adjacent;
    if n == 0 {
      assert fire[0] in fire;
    } else {
      var q :| Reaches(land, root, q, n - 1) && Spreads(land, q) && Adjacent(q, p);
      Complete(land, root, fire, depth, i, q, n - 1);
      var b :| b in fire && b.pos == q;
      var k :| 0 <= k < |fire| && fire[k] == b;
      assert b.depth <= n - 1;
      assert k < i;
    }
  }

  /** Adding a block next to the one being processed keeps the list layered. */
  lemma Extend(land: Land, root: Pos, fire: seq<Burning>, i: nat, q: Pos)
    requires i < |fire| && Layered(land, root, fire, fire[i].depth) && Closed(land, fire, i)
    requires Spreads(land, fire[i].pos) && Adjacent(fire[i].pos, q) && Burns(land, q) && !Listed(fire, q)
    ensures Layered(land, root, fire + [Burning(q, fire[i].depth + 1)], fire[i].depth)
  {
    hide Burns, Adjacent, Spreads;
    var d := fire[i].depth;
    assert fire[i] in fire;
    assert Reaches(land, root, q, d + 1);
    forall m: nat | m < d + 1
      ensures !Reaches(land, root, q, m)
    {
      if Reaches(land, root, q, m) { Complete(land, root, fire, d, i, q, m); }
    }
    var more := fire + [Burning(q, d + 1)];
    forall j | 0 <= j < |fire|
      ensures more[j].depth <= d + 1 && more[j].pos != q
    {
      assert fire[j] in fire;
    }
  }

  lemma ExtendKeys(fire: seq<Burning>, seen: set<int>, b: Burning)
    requires Keys(fire, seen)
    ensures Keys(fire + [b], seen + {Key(b.pos)})
  {
    var more := fire + [b];
    assert b in more;
    forall k | k in seen
      ensures exists c :: c in more && Key(c.pos) == k
    {
      var c :| c in fire && Key(c.pos) == k;
      assert c in more;
    }
  }

  lemma ExtendClosed(land: Land, fire: seq<Burning>, n: nat, b: Burning)
    requires Closed(land, fire, n) && n <= |fire|
    ensures Closed(land, fire + [b], n)
  {
    forall i, q | 0 <= i < n && Spreads(land, fire[i].pos) && Adjacent(fire[i].pos, q) && Burns(land, q)
      ensures Listed(fire + [b], q)
    {
      var c :| c in fire && c.pos == q;
      assert c in fire + [b];
    }
  }

  /** What holds even once the cap has cut the fire short. */
  ghost predicate Basic(land: Land, root: Pos, fire: seq<Burning>, seen: set<int>, cap: nat) {
    && 0 < |fire| <= Max(cap, 1) && fire[0] == Burning(root, 0)
    && (forall b :: b in fire ==> Key(b.pos) in seen && Burns(land, b.pos))
    && (forall j, k :: 0 <= j < k < |fire| ==> Key(fire[j].pos) != Key(fire[k].pos))
  }

  /** Pass the fire on from the i-th burning block to its six neighbours. */
  method SpreadFrom(land: Land, root: Pos, cap: nat, fire0: seq<Burning>, seen0: set<int>, truncated0: bool, i: nat)
      returns (fire: seq<Burning>, seen: set<int>, truncated: bool)
    requires Fireproof(land.base) && forall c :: c in land.cells ==> InWorld(c)
    requires i < |fire0| && Spreads(land, fire0[i].pos) && Basic(land, root, fire0, seen0, cap)
    requires truncated0 ==> |fire0| >= cap
    requires !truncated0 ==> Keys(fire0, seen0) && Closed(land, fire0, i) && Layered(land, root, fire0, fire0[i].depth)
    ensures fire0 <= fire && Basic(land, root, fire, seen, cap) && (truncated ==> |fire| >= cap)
    ensures !truncated ==> Keys(fire, seen) && Closed(land, fire, i + 1) && Layered(land, root, fire, fire0[i].depth)
  {
    hide Burns, Spreads, Key, Adjacent, Reaches, Distance, KindAt, Layered, Keys;
    fire, seen, truncated := fire0, seen0, truncated0;
    var b := fire0[i];
    for k := 0 to 6
      invariant fire0 <= fire && Basic(land, root, fire, seen, cap) && (truncated ==> |fire| >= cap)
      invariant !truncated ==> Keys(fire, seen) && Closed(land, fire, i) && Layered(land, root, fire, b.depth)
      invariant !truncated ==> forall j :: 0 <= j < k && Burns(land, Plus(b.pos, DIRS[j])) ==> Listed(fire, Plus(b.pos, DIRS[j]))
    {
      var q := Plus(b.pos, DIRS[k]);
      DirsAdjacent(b.pos, q);
      if Burns(land, q) {
        if Key(q) in seen {
          if !truncated { Seen(land, fire, seen, q); }
        } else if |fire| >= cap {
          seen := seen + {Key(q)};
          truncated := true;
        } else {
          ghost var was := fire;
          if !truncated {
            Unseen(fire, seen, q);
            Extend(land, root, fire, i, q);
            ExtendKeys(fire, seen, Burning(q, b.depth + 1));
            ExtendClosed(land, fire, i, Burning(q, b.depth + 1));
          }
          fire := fire + [Burning(q, b.depth + 1)];
          seen := seen + {Key(q)};
          assert Listed(fire, q) by { assert Burning(q, b.depth + 1) in fire; }
          ListedMore(was, Burning(q, b.depth + 1));
        }
      }
    }
    if !truncated {
      forall q | Adjacent(b.pos, q) && Burns(land, q)
        ensures Listed(fire, q)
      {
        DirsAdjacent(b.pos, q);
      }
    }
  }

  lemma Seen(land: Land, fire: seq<Burning>, seen: set<int>, q: Pos)
    requires Fireproof(land.base) && forall c :: c in land.cells ==> InWorld(c)
    requires forall b :: b in fire ==> Burns(land, b.pos)
    requires Keys(fire, seen) && Key(q) in seen && Burns(land, q)
    ensures Listed(fire, q)
  {
    hide Key, Burns;
    var b :| b in fire && Key(b.pos) == Key(q);
    KeysDiffer(land, b.pos, q);
  }

  lemma Unseen(fire: seq<Burning>, seen: set<int>, q: Pos)
    requires Keys(fire, seen) && Key(q) !in seen
    ensures !Listed(fire, q)
  {
  }

  lemma ListedMore(fire: seq<Burning>, b: Burning)
    ensures forall q :: Listed(fire, q) ==> Listed(fire + [b], q)
  {
    forall q | Listed(fire, q)
      ensures Listed(fire + [b], q)
    {
      var c :| c in fire && c.pos == q;
      assert c in fire + [b];
    }
  }

  /** TNT, or the expansion block that fills with it. */
  predicate TouchesTnt(kind: int) { kind == TNT || kind == BT_TNT }

  /** The fire: what burns, in the order the fire gets there. Unless the cap cut it short, it is exactly
      the set of blocks the fire can reach, each listed with its distance. */
  method SpreadFire(land: Land, root: Pos, cap: nat) returns (fire: seq<Burning>, fireDepth: nat, truncated: bool, tnt: bool)
    requires Fireproof(land.base) && forall c :: c in land.cells ==> InWorld(c)
    requires Burns(land, root)
    ensures 0 < |fire| <= Max(cap, 1) && fire[0] == Burning(root, 0)
    ensures forall i, j :: 0 <= i < j < |fire| ==> Key(fire[i].pos) != Key(fire[j].pos)
    ensures truncated ==> |fire| >= cap
    ensures !truncated ==> forall p :: Listed(fire, p) <==> Reachable(land, root, p)
    ensures !truncated ==> forall b :: b in fire ==> Distance(land, root, b.pos, b.depth)
    ensures forall b :: b in fire ==> b.depth <= fireDepth
    ensures exists b :: b in fire && b.depth == fireDepth
    ensures tnt <==> exists b :: b in fire && TouchesTnt(KindAt(land, b.pos))
  {
    hide Burns, Spreads, Key, Adjacent, KindAt, Reaches, Distance, Reachable, Layered, Closed, Keys, TouchesTnt, IsExpansion;
    fire := [Burning(root, 0)];
    var seen := {Key(root)};
    fireDepth, truncated, tnt := 0, false, false;
    StartLayered(land, root);
    ghost var deepest: nat, hot: nat := 0, 0;
    var i := 0;
    while i < |fire|
      invariant 0 <= i <= |fire| && Basic(land, root, fire, seen, cap) && (truncated ==> |fire| >= cap)
      invariant !truncated ==> Keys(fire, seen) && Closed(land, fire, i)
      invariant !truncated ==> Layered(land, root, fire, if i < |fire| then fire[i].depth else fireDepth)
      invariant forall j :: 0 <= j < i ==> fire[j].depth <= fireDepth
      invariant deepest < |fire| && fire[deepest].depth == fireDepth
      invariant if tnt then hot < i && TouchesTnt(KindAt(land, fire[hot].pos))
                else forall j :: 0 <= j < i ==> !TouchesTnt(KindAt(land, fire[j].pos))
      decreases Max(cap, 1) - i
    {
      var b := fire[i];
      var t := KindAt(land, b.pos);
      if fireDepth < b.depth { fireDepth := b.depth; deepest := i; }
      if TouchesTnt(t) { tnt := true; hot := i; }
      if IsExpansion(t) {
        NoSpread(land, fire, i);
      } else {
        assert b in fire;
        SpreadsHere(land, b.pos);
        fire, seen, truncated := SpreadFrom(land, root, cap, fire, seen, truncated, i);
      }
      if !truncated { NextLayer(land, root, fire, i, fireDepth); }
      i := i + 1;
    }
    if !truncated { FireExact(land, root, fire, fireDepth); }
    assert fire[deepest] in fire;
    if tnt { assert fire[hot] in fire; }
  }

  lemma StartLayered(land: Land, root: Pos)
    requires Burns(land, root)
    ensures var fire := [Burning(root, 0)];
      Layered(land, root, fire, 0) && Keys(fire, {Key(root)}) && Closed(land, fire, 0) && Basic(land, root, fire, {Key(root)}, 0)
  {
    assert Burning(root, 0) in [Burning(root, 0)];
  }

  lemma SpreadsHere(land: Land, p: Pos)
    requires Burns(land, p) && !IsExpansion(KindAt(land, p))
    ensures Spreads(land, p)
  {
  }

  lemma NoSpread(land: Land, fire: seq<Burning>, i: nat)
    requires i < |fire| && IsExpansion(KindAt(land, fire[i].pos))
    ensures Closed(land, fire, i) ==> Closed(land, fire, i + 1)
  {
  }

  /** The list stays layered when the search moves on. */
  lemma NextLayer(land: Land, root: Pos, fire: seq<Burning>, i: nat, fireDepth: nat)
    requires i < |fire| && Layered(land, root, fire, fire[i].depth) && fire[i].depth <= fireDepth
    ensures Layered(land, root, fire, if i + 1 < |fire| then fire[i + 1].depth else fireDepth)
  {
  }

  lemma FireExactAt(land: Land, root: Pos, fire: seq<Burning>, depth: nat, p: Pos)
    requires Layered(land, root, fire, depth) && Closed(land, fire, |fire|)
    ensures Listed(fire, p) <==> Reachable(land, root, p)
  {
    hide Reaches, Burns;
    if Listed(fire, p) {
      var b :| b in fire && b.pos == p;
      assert Reaches(land, root, p, b.depth);
    }
    if Reachable(land, root, p) {
      var n: nat :| Reaches(land, root, p, n);
      Complete(land, root, fire, depth, |fire|, p, n);
    }
  }

  lemma FireExact(land: Land, root: Pos, fire: seq<Burning>, depth: nat)
    requires Layered(land, root, fire, depth) && Closed(land, fire, |fire|)
    ensures forall p :: Listed(fire, p) <==> Reachable(land, root, p)
    ensures forall b :: b in fire ==> Distance(land, root, b.pos, b.depth)
  {
    forall p
      ensures Listed(fire, p) <==> Reachable(land, root, p)
    {
      FireExactAt(land, root, fire, depth, p);
    }
  }
}
