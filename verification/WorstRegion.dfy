/**
 The largest reply any one REGION request could draw from an imported world: a maximum over all
 chunk-aligned square windows, found by sweeping only the windows whose low edges are populated.
 */
module WorstRegion {
  import opened BlockRules
  import opened Voxels
  import opened SnapzCodec
  import opened RegionQuery

  /** How many records the kept cells of a chunk column cost. */
  datatype Tile = Tile(cx: int, cz: int, records: nat)

  /** A square of side columns, low corner (x, z). */
  datatype Window = Window(x: int, z: int, side: nat) {
    predicate Has(t: Tile) { x <= t.cx < x + side && z <= t.cz < z + side }
  }

  function Weigh(ts: seq<Tile>, w: Window): nat {
    if ts == [] then 0 else (if w.Has(ts[0]) then ts[0].records else 0) + Weigh(ts[1..], w)
  }

  function Total(ts: seq<Tile>): nat {
    if ts == [] then 0 else ts[0].records + Total(ts[1..])
  }

  lemma {:induction false} WeighAppend(a: seq<Tile>, b: seq<Tile>, w: Window)
    ensures Weigh(a + b, w) == Weigh(a, w) + Weigh(b, w)
  {
    if a == [] {
      assert a + b == b;
    } else {
      assert (a + b)[1..] == a[1..] + b;
      WeighAppend(a[1..], b, w);
    }
  }

  lemma {:induction false} TotalAppend(a: seq<Tile>, t: Tile)
    ensures Total(a + [t]) == Total(a) + t.records
  {
    if a == [] {
      assert [t][1..] == [] && a + [t] == [t];
    } else {
      assert (a + [t])[1..] == a[1..] + [t];
      TotalAppend(a[1..], t);
    }
  }

  lemma {:induction false} WeighNone(ts: seq<Tile>, w: Window)
    requires forall i :: 0 <= i < |ts| ==> !w.Has(ts[i])
    ensures Weigh(ts, w) == 0
  {
    if ts != [] { WeighNone(ts[1..], w); }
  }

  lemma {:induction false} WeighAll(ts: seq<Tile>, w: Window)
    requires forall i :: 0 <= i < |ts| ==> w.Has(ts[i])
    ensures Weigh(ts, w) == Total(ts)
  {
    if ts != [] { WeighAll(ts[1..], w); }
  }

  /** A window that has every tile another one has weighs no less. */
  lemma {:induction false} WeighMore(ts: seq<Tile>, a: Window, b: Window)
    requires forall i :: 0 <= i < |ts| && a.Has(ts[i]) ==> b.Has(ts[i])
    ensures Weigh(ts, a) <= Weigh(ts, b)
  {
    if ts != [] {
      assert a.Has(ts[0]) ==> b.Has(ts[0]);
      WeighMore(ts[1..], a, b);
    }
  }

  function Without(ts: seq<Tile>, i: nat): (r: seq<Tile>)
    requires i < |ts|
    ensures |r| == |ts| - 1
  {
    ts[..i] + ts[i + 1..]
  }

  lemma WithoutTile(ts: seq<Tile>, i: nat, w: Window)
    requires i < |ts|
    ensures multiset(Without(ts, i)) == multiset(ts) - multiset{ts[i]}
    ensures Weigh(ts, w) == Weigh(Without(ts, i), w) + if w.Has(ts[i]) then ts[i].records else 0
  {
    assert ts == ts[..i] + ([ts[i]] + ts[i + 1..]);
    WeighAppend(ts[..i], [ts[i]] + ts[i + 1..], w);
    WeighAppend(ts[..i], ts[i + 1..], w);
    assert ([ts[i]] + ts[i + 1..])[1..] == ts[i + 1..];
  }

  /** Order does not matter to a weight. */
  lemma {:induction false} WeighPermuted(a: seq<Tile>, b: seq<Tile>, w: Window)
    requires multiset(a) == multiset(b)
    ensures Weigh(a, w) == Weigh(b, w)
    decreases |a|
  {
    if a == [] {
      assert |multiset(b)| == |b|;
    } else {
      assert a[0] in multiset(b);
      var i :| 0 <= i < |b| && b[i] == a[0];
      WithoutTile(a, 0, w);
      WithoutTile(b, i, w);
      hide Weigh, Without;
      WeighPermuted(Without(a, 0), Without(b, i), w);
    }
  }

  // --- sorting and searching ------------------------------------------------------------------

  predicate Before(a: Tile, b: Tile) {
    a.cx < b.cx || (a.cx == b.cx && (a.cz < b.cz || (a.cz == b.cz && a.records <= b.records)))
  }

  predicate Above(a: Tile, b: Tile) { a.cz < b.cz || (a.cz == b.cz && a.records <= b.records) }

  ghost predicate Order(le: (Tile, Tile) -> bool) {
    && (forall a, b :: le(a, b) || le(b, a))
    && (forall a, b, c :: le(a, b) && le(b, c) ==> le(a, c))
  }

  ghost predicate SortedBy(ts: seq<Tile>, le: (Tile, Tile) -> bool) {
    forall i, j :: 0 <= i < j < |ts| ==> le(ts[i], ts[j])
  }

  method Sort(ts: seq<Tile>, le: (Tile, Tile) -> bool) returns (r: seq<Tile>)
    requires Order(le)
    ensures SortedBy(r, le) && multiset(r) == multiset(ts)
  {
    r := [];
    for i := 0 to |ts|
      invariant SortedBy(r, le) && multiset(r) == multiset(ts[..i])
    {
      assert ts[..i + 1] == ts[..i] + [ts[i]];
      r := Place(r, ts[i], le);
    }
    assert ts[..|ts|] == ts;
  }

  method Place(ts: seq<Tile>, t: Tile, le: (Tile, Tile) -> bool) returns (r: seq<Tile>)
    requires Order(le) && SortedBy(ts, le)
    ensures SortedBy(r, le) && multiset(r) == multiset(ts) + multiset{t}
  {
    var k := 0;
    while k < |ts| && le(ts[k], t)
      invariant 0 <= k <= |ts| && forall i :: 0 <= i < k ==> le(ts[i], t)
    {
      k := k + 1;
    }
    assert k < |ts| ==> le(t, ts[k]);
    assert ts == ts[..k] + ts[k..];
    r := ts[..k] + [t] + ts[k..];
  }

  /** The first tile at or past a column, from where the search starts. */
  method LowerBound(ts: seq<Tile>, from: nat, cx: int) returns (k: nat)
    requires SortedBy(ts, Before) && from <= |ts|
    ensures from <= k <= |ts|
    ensures (forall i :: from <= i < k ==> ts[i].cx < cx) && (forall i :: k <= i < |ts| ==> ts[i].cx >= cx)
  {
    var lo, hi: nat := from, |ts|;
    while lo < hi
      invariant from <= lo <= hi <= |ts|
      invariant (forall i :: from <= i < lo ==> ts[i].cx < cx) && (forall i :: hi <= i < |ts| ==> ts[i].cx >= cx)
    {
      var mid := (lo + hi) / 2;
      if ts[mid].cx < cx { lo := mid + 1; } else { hi := mid; }
    }
    k := lo;
  }

  method DistinctX(ts: seq<Tile>) returns (xs: seq<int>)
    requires SortedBy(ts, Before)
    ensures forall x :: x in xs <==> exists i :: 0 <= i < |ts| && ts[i].cx == x
    ensures forall i, j :: 0 <= i < j < |xs| ==> xs[i] < xs[j]
  {
    xs := [];
    for n := 0 to |ts|
      invariant forall x :: x in xs <==> exists i :: 0 <= i < n && ts[i].cx == x
      invariant forall i, j :: 0 <= i < j < |xs| ==> xs[i] < xs[j]
      invariant n > 0 ==> xs != [] && xs[|xs| - 1] == ts[n - 1].cx
      invariant n == 0 ==> xs == []
    {
      assert n > 0 ==> Before(ts[n - 1], ts[n]);
      if n == 0 || ts[n].cx != ts[n - 1].cx { xs := xs + [ts[n].cx]; }
    }
  }

  // --- the sweep ------------------------------------------------------------------------------

  /** The heaviest window so far: its records and, once there are any, its box in blocks. */
  datatype Hotspot = Hotspot(records: nat, box: Box)

  function WindowBox(w: Window): Box {
    Box(w.x * CHUNK, (w.x + w.side) * CHUNK - 1, w.z * CHUNK, (w.z + w.side) * CHUNK - 1)
  }

  const NOWHERE := Hotspot(0, Box(0, 0, 0, 0))

  /** The hotspot names a window of this world and weighs it right. */
  ghost predicate Weighed(ts: seq<Tile>, side: nat, h: Hotspot) {
    h == NOWHERE ||
    exists x, z :: h == Hotspot(Weigh(ts, Window(x, z, side)), WindowBox(Window(x, z, side))) && h.records > 0
  }

  lemma SliceHas(col: seq<Tile>, w: Window, i: nat, j: nat)
    requires i <= j <= |col|
    ensures (forall k :: i <= k < j ==> w.Has(col[k])) ==> Weigh(col[i..j], w) == Total(col[i..j])
    ensures (forall k :: i <= k < j ==> !w.Has(col[k])) ==> Weigh(col[i..j], w) == 0
  {
    if forall k :: i <= k < j ==> w.Has(col[k]) { WeighAll(col[i..j], w); }
    if forall k :: i <= k < j ==> !w.Has(col[k]) { WeighNone(col[i..j], w); }
  }

  lemma SliceWeighs(col: seq<Tile>, w: Window, lo: nat, hi: nat)
    requires lo <= hi <= |col|
    ensures Weigh(col, w) == Weigh(col[..lo], w) + Weigh(col[lo..hi], w) + Weigh(col[hi..], w)
  {
    assert col == col[..lo] + (col[lo..hi] + col[hi..]);
    hide Weigh;
    WeighAppend(col[..lo], col[lo..hi] + col[hi..], w);
    WeighAppend(col[lo..hi], col[hi..], w);
  }

  lemma Rises(col: seq<Tile>, i: nat, j: nat)
    requires SortedBy(col, Above) && i <= j < |col|
    ensures col[i].cz <= col[j].cz
  {
    if i < j { assert Above(col[i], col[j]); }
  }

  /** Of the window that starts at the lo-th tile of a column list, the tiles between lo and hi are
      all of it, unless an earlier tile shares its edge. */
  lemma SweepSum(col: seq<Tile>, w: Window, lo: nat, hi: nat)
    requires SortedBy(col, Above) && lo < hi <= |col| && w.z == col[lo].cz
    requires forall i :: 0 <= i < |col| ==> w.x <= col[i].cx < w.x + w.side
    requires forall i :: 0 <= i < hi ==> col[i].cz < w.z + w.side
    requires hi < |col| ==> col[hi].cz >= w.z + w.side
    ensures Total(col[lo..hi]) <= Weigh(col, w)
    ensures lo == 0 || col[lo - 1].cz < col[lo].cz ==> Weigh(col, w) == Total(col[lo..hi])
  {
    SliceWeighs(col, w, lo, hi);
    forall i | lo <= i < hi
      ensures w.Has(col[i])
    {
      Rises(col, lo, i);
    }
    forall i | hi <= i < |col|
      ensures !w.Has(col[i])
    {
      Rises(col, hi, i);
    }
    hide Weigh, Total, SortedBy;
    SliceHas(col, w, lo, hi);
    SliceHas(col, w, hi, |col|);
    assert col[hi..|col|] == col[hi..];
    if lo == 0 || col[lo - 1].cz < col[lo].cz {
      forall i | 0 <= i < lo
        ensures !w.Has(col[i])
      {
        Rises(col, i, lo - 1);
      }
      SliceHas(col, w, 0, lo);
      assert col[0..lo] == col[..lo];
    }
  }

  lemma TotalNone()
    ensures Total([]) == 0
  {
  }

  lemma TotalSlides(col: seq<Tile>, lo: nat, hi: nat)
    requires lo <= hi <= |col|
    ensures hi < |col| ==> Total(col[lo..hi + 1]) == Total(col[lo..hi]) + col[hi].records
    ensures lo < hi ==> Total(col[lo..hi]) == col[lo].records + Total(col[lo + 1..hi])
  {
    if hi < |col| {
      assert col[lo..hi + 1] == col[lo..hi] + [col[hi]];
      TotalAppend(col[lo..hi], col[hi]);
    }
    if lo < hi { assert col[lo..hi][1..] == col[lo + 1..hi]; }
  }

  /** The heaviest window with this low x edge, by two pointers over the tiles in it. */
  method Sweep(col: seq<Tile>, x: int, side: nat, from: Hotspot) returns (best: Hotspot)
    requires side > 0 && SortedBy(col, Above)
    requires forall i :: 0 <= i < |col| ==> x <= col[i].cx < x + side
    ensures best.records >= from.records
    ensures forall i :: 0 <= i < |col| ==> Weigh(col, Window(x, col[i].cz, side)) <= best.records
    ensures best == from ||
      exists z :: best == Hotspot(Weigh(col, Window(x, z, side)), WindowBox(Window(x, z, side))) && best.records > 0
  {
    hide Weigh, Total, Above, SortedBy, WindowBox;
    best := from;
    assert col[0..0] == [] && Total([]) == 0 by { TotalNone(); }
    var sum := 0;
    var lo, hi := 0, 0;
    while lo < |col|
      invariant 0 <= lo <= hi <= |col| && sum == Total(col[lo..hi])
      invariant lo < |col| ==> forall i :: 0 <= i < hi ==> col[i].cz < col[lo].cz + side
      invariant best.records >= from.records
      invariant forall i :: 0 <= i < lo ==> Weigh(col, Window(x, col[i].cz, side)) <= best.records
      invariant best == from ||
        exists z :: best == Hotspot(Weigh(col, Window(x, z, side)), WindowBox(Window(x, z, side))) && best.records > 0
      decreases |col| - lo
    {
      if hi < lo { hi, sum := lo, 0; }
      var w := Window(x, col[lo].cz, side);
      var edge := w.z + side - 1;
      while hi < |col| && col[hi].cz <= edge
        invariant lo <= hi <= |col| && sum == Total(col[lo..hi])
        invariant forall i :: 0 <= i < hi ==> col[i].cz <= edge
      {
        TotalSlides(col, lo, hi);
        sum := sum + col[hi].records;
        hi := hi + 1;
      }
      SweepSum(col, w, lo, hi);
      if lo > 0 { Rises(col, lo - 1, lo); }
      if sum > best.records { best := Hotspot(sum, WindowBox(w)); }
      TotalSlides(col, lo, hi);
      if lo + 1 < |col| { Rises(col, lo, lo + 1); }
      sum := sum - col[lo].records;
      lo := lo + 1;
    }
  }

  /** The tiles of a sorted list in a range of columns weigh what the whole list does in any window
      on those columns. */
  lemma RangeWeighs(sorted: seq<Tile>, first: nat, last: nat, w: Window)
    requires first <= last <= |sorted|
    requires forall i :: 0 <= i < first ==> sorted[i].cx < w.x
    requires forall i :: last <= i < |sorted| ==> sorted[i].cx >= w.x + w.side
    ensures Weigh(sorted[first..last], w) == Weigh(sorted, w)
  {
    hide Weigh;
    assert sorted == sorted[..first] + (sorted[first..last] + sorted[last..]);
    WeighAppend(sorted[..first], sorted[first..last] + sorted[last..], w);
    WeighAppend(sorted[first..last], sorted[last..], w);
    WeighNone(sorted[..first], w);
    WeighNone(sorted[last..], w);
  }

  /** Some tile of the list, with its least column (or row), among those a window has. */
  lemma {:induction false} LeastX(ts: seq<Tile>, w: Window) returns (k: nat)
    requires exists i :: 0 <= i < |ts| && w.Has(ts[i])
    ensures k < |ts| && w.Has(ts[k]) && forall i :: 0 <= i < |ts| && w.Has(ts[i]) ==> ts[k].cx <= ts[i].cx
  {
    var i :| 0 <= i < |ts| && w.Has(ts[i]);
    k := i;
    for n := 0 to |ts|
      invariant k < |ts| && w.Has(ts[k])
      invariant forall i :: 0 <= i < n && w.Has(ts[i]) ==> ts[k].cx <= ts[i].cx
    {
      if w.Has(ts[n]) && ts[n].cx < ts[k].cx { k := n; }
    }
  }

  lemma {:induction false} LeastZ(ts: seq<Tile>, w: Window) returns (k: nat)
    requires exists i :: 0 <= i < |ts| && w.Has(ts[i])
    ensures k < |ts| && w.Has(ts[k]) && forall i :: 0 <= i < |ts| && w.Has(ts[i]) ==> ts[k].cz <= ts[i].cz
  {
    var i :| 0 <= i < |ts| && w.Has(ts[i]);
    k := i;
    for n := 0 to |ts|
      invariant k < |ts| && w.Has(ts[k])
      invariant forall i :: 0 <= i < n && w.Has(ts[i]) ==> ts[k].cz <= ts[i].cz
    {
      if w.Has(ts[n]) && ts[n].cz < ts[k].cz { k := n; }
    }
  }

  /** Every window with anything in it weighs no more than one whose low edges both touch tiles it has. */
  lemma Pruning(ts: seq<Tile>, w: Window) returns (i: nat, j: nat)
    requires exists i :: 0 <= i < |ts| && w.Has(ts[i])
    ensures i < |ts| && j < |ts| && ts[i].cx <= ts[j].cx < ts[i].cx + w.side
    ensures Weigh(ts, w) <= Weigh(ts, Window(ts[i].cx, ts[j].cz, w.side))
  {
    i := LeastX(ts, w);
    j := LeastZ(ts, w);
    WeighMore(ts, w, Window(ts[i].cx, ts[j].cz, w.side));
  }

  // --- the whole search -----------------------------------------------------------------------

  /** Columns across a reply's box, taken from the box at the origin. */
  function Side(radius: nat): (n: nat)
    ensures n > 0
  {
    var probe := RegionBox(0, 0, radius);
    (probe.x1 - probe.x0 + 1) / CHUNK
  }

  /** The hotspot is the true maximum over every chunk-aligned window, populated edges or not. */
  method FindWorst(tiles: seq<Tile>, radius: nat) returns (best: Hotspot)
    ensures forall x, z :: Weigh(tiles, Window(x, z, Side(radius))) <= best.records
    ensures Weighed(tiles, Side(radius), best)
  {
    best := NOWHERE;
    var side := Side(radius);
    hide Weigh, Side;
    if tiles == [] {
      forall x, z
        ensures Weigh(tiles, Window(x, z, side)) == 0
      {
        WeighNone(tiles, Window(x, z, side));
      }
      return;
    }
    var sorted := Sort(tiles, Before);
    var xs := DistinctX(sorted);
    for n := 0 to |xs|
      invariant Weighed(tiles, side, best)
      invariant forall m, j :: 0 <= m < n && 0 <= j < |sorted| && xs[m] <= sorted[j].cx < xs[m] + side ==>
                  Weigh(tiles, Window(xs[m], sorted[j].cz, side)) <= best.records
    {
      best := SweepColumn(tiles, sorted, xs[n], side, best);
    }
    forall x, z
      ensures Weigh(tiles, Window(x, z, side)) <= best.records
    {
      Covered(tiles, sorted, xs, Window(x, z, side), best.records);
    }
  }

  /** Every window weighs no more than the best of those tried. */
  lemma Covered(tiles: seq<Tile>, sorted: seq<Tile>, xs: seq<int>, w: Window, most: nat)
    requires multiset(sorted) == multiset(tiles)
    requires forall i :: 0 <= i < |sorted| ==> sorted[i].cx in xs
    requires forall m, j :: 0 <= m < |xs| && 0 <= j < |sorted| && xs[m] <= sorted[j].cx < xs[m] + w.side ==>
               Weigh(tiles, Window(xs[m], sorted[j].cz, w.side)) <= most
    ensures Weigh(tiles, w) <= most
  {
    hide Weigh;
    WeighPermuted(sorted, tiles, w);
    if exists i :: 0 <= i < |sorted| && w.Has(sorted[i]) {
      var i, j := Pruning(sorted, w);
      WeighPermuted(sorted, tiles, Window(sorted[i].cx, sorted[j].cz, w.side));
      assert sorted[i].cx in xs;
    } else {
      WeighNone(sorted, w);
    }
  }

  /** Every window that starts on this column, over the tiles its columns span. */
  method SweepColumn(ghost tiles: seq<Tile>, sorted: seq<Tile>, x: int, side: nat, from: Hotspot) returns (best: Hotspot)
    requires side > 0 && SortedBy(sorted, Before) && multiset(sorted) == multiset(tiles)
    requires Weighed(tiles, side, from)
    ensures best.records >= from.records && Weighed(tiles, side, best)
    ensures forall j :: 0 <= j < |sorted| && x <= sorted[j].cx < x + side ==>
              Weigh(tiles, Window(x, sorted[j].cz, side)) <= best.records
  {
    hide Weigh;
    var first := LowerBound(sorted, 0, x);
    var last := LowerBound(sorted, first, x + side);
    var col := Sort(sorted[first..last], Above);
    forall z
      ensures Weigh(col, Window(x, z, side)) == Weigh(tiles, Window(x, z, side))
    {
      var w := Window(x, z, side);
      WeighPermuted(col, sorted[first..last], w);
      RangeWeighs(sorted, first, last, w);
      WeighPermuted(sorted, tiles, w);
    }
    forall i | 0 <= i < |col|
      ensures x <= col[i].cx < x + side
    {
      assert col[i] in multiset(col);
      assert col[i] in sorted[first..last];
    }
    best := Sweep(col, x, side, from);
    forall j | 0 <= j < |sorted| && x <= sorted[j].cx < x + side
      ensures Weigh(tiles, Window(x, sorted[j].cz, side)) <= best.records
    {
      assert sorted[first..last][j - first] in multiset(col);
      assert sorted[j] in col;
    }
  }

  // --- every reply fits -----------------------------------------------------------------------

  /** Chunk columns a reply's box spans on one axis, for a request at v. */
  function Across(v: int, radius: nat): int { (SnapChunk(v + radius) + CHUNK - SnapChunk(v - radius)) / CHUNK }

  lemma SnapIsFloor(v: int)
    ensures SnapChunk(v) == v / CHUNK * CHUNK
  {
  }

  lemma FloorSum(v: int, q: nat, m: nat)
    requires m < CHUNK
    ensures (v + q * CHUNK + m) / CHUNK == v / CHUNK + q + (v % CHUNK + m) / CHUNK
    ensures (v - (q * CHUNK + m)) / CHUNK == v / CHUNK - q - if v % CHUNK < m then 1 else 0
  {
  }

  /** The whole columns of a radius, and one more or two when it does not divide into columns. */
  lemma AcrossIs(v: int, radius: nat)
    ensures var m := radius % CHUNK;
      Across(v, radius) == 2 * (radius / CHUNK) + 1 + (if v % CHUNK + m >= CHUNK then 1 else 0) + (if v % CHUNK < m then 1 else 0)
  {
    SnapIsFloor(v + radius);
    SnapIsFloor(v - radius);
    hide SnapChunk;
    FloorSum(v, radius / CHUNK, radius % CHUNK);
  }

  lemma SideIs(radius: nat)
    ensures Side(radius) == Across(0, radius)
  {
  }

  /** The swept windows are as wide as every reply exactly when the radius is at most half a column
      past whole columns. */
  lemma SideFits(radius: nat)
    ensures (forall v :: 0 <= v <= WORLD_MAX ==> Across(v, radius) <= Side(radius)) <==> radius % CHUNK <= CHUNK / 2
  {
    SideIs(radius);
    AcrossIs(0, radius);
    AcrossIs(CHUNK / 2, radius);
    hide Across, Side;
    forall v | radius % CHUNK <= CHUNK / 2
      ensures Across(v, radius) <= Side(radius)
    {
      AcrossIs(v, radius);
    }
  }

  /** The window a reply's box fits in. */
  function BoxWindow(x: int, z: int, radius: nat): Window {
    Window(SnapChunk(x - radius) / CHUNK, SnapChunk(z - radius) / CHUNK, Side(radius))
  }

  lemma BoxInWindow(x: int, z: int, radius: nat, p: Pos)
    requires radius % CHUNK <= CHUNK / 2 && RegionBox(x, z, radius).Contains(p.x, p.z)
    requires 0 <= x <= WORLD_MAX && 0 <= z <= WORLD_MAX
    ensures BoxWindow(x, z, radius).Has(Tile(p.x / CHUNK, p.z / CHUNK, 0))
  {
    SideFits(radius);
    assert Across(x, radius) <= Side(radius) && Across(z, radius) <= Side(radius);
    hide Side, SnapChunk, Across;
    AxisFits(x, radius, Side(radius), p.x);
    AxisFits(z, radius, Side(radius), p.z);
  }

  lemma AxisFits(v: int, radius: nat, side: nat, at: int)
    requires Across(v, radius) <= side && SnapChunk(v - radius) <= at < SnapChunk(v + radius) + CHUNK
    ensures SnapChunk(v - radius) / CHUNK <= at / CHUNK < SnapChunk(v - radius) / CHUNK + side
  {
    SnapIsFloor(v + radius);
    SnapIsFloor(v - radius);
    hide SnapChunk;
    var a, b := (v - radius) / CHUNK, (v + radius) / CHUNK;
    assert (b * CHUNK + CHUNK - a * CHUNK) / CHUNK == b + 1 - a;
  }

  /** The cells one chunk column of the file keeps. */
  datatype Column = Column(cx: int, cz: int, kept: seq<Pos>)

  /** The columns list every stored cell, each under its own column. */
  ghost predicate Lists(columns: seq<Column>, cells: Cells) {
    && (forall c, p :: c in columns && p in c.kept ==> p in cells && p.x / CHUNK == c.cx && p.z / CHUNK == c.cz)
    && (forall p :: p in cells ==> p in All(columns))
  }

  function All(columns: seq<Column>): seq<Pos> {
    if columns == [] then [] else columns[0].kept + All(columns[1..])
  }

  function Cost(cells: Cells, ps: seq<Pos>): nat
    requires forall p :: p in ps ==> p in cells
  {
    if ps == [] then 0 else RecordCost(cells[ps[0]]) + Cost(cells, ps[1..])
  }

  /** The records of the listed cells a box covers. */
  function CostIn(cells: Cells, ps: seq<Pos>, box: Box): nat {
    if ps == [] then 0
    else (if ps[0] in cells && box.Contains(ps[0].x, ps[0].z) then RecordCost(cells[ps[0]]) else 0) + CostIn(cells, ps[1..], box)
  }

  lemma {:induction false} CostInAppend(cells: Cells, a: seq<Pos>, b: seq<Pos>, box: Box)
    ensures CostIn(cells, a + b, box) == CostIn(cells, a, box) + CostIn(cells, b, box)
  {
    if a == [] {
      assert a + b == b;
    } else {
      assert (a + b)[1..] == a[1..] + b;
      CostInAppend(cells, a[1..], b, box);
    }
  }

  lemma {:induction false} EmitCosts(cells: Cells, order: seq<Pos>)
    requires StoreOk(cells) && forall p :: p in order ==> p in cells
    ensures |Emit(cells, order)| == Cost(cells, order)
  {
    if order != [] {
      CostIsRecords(order[0], cells[order[0]]);
      EmitCosts(cells, order[1..]);
    }
  }

  /** A walk that visits no cell twice costs no more than the whole list does inside the box. */
  lemma {:induction false} WalkCosts(cells: Cells, inside: Cells, order: seq<Pos>, all: seq<Pos>, box: Box)
    requires Distinct(order) && forall p :: p in order ==> p in inside && p in all
    requires forall p :: p in inside ==> p in cells && inside[p] == cells[p] && box.Contains(p.x, p.z)
    ensures Cost(inside, order) <= CostIn(cells, all, box)
    decreases |order|
  {
    if order != [] {
      var p := order[0];
      assert p in order && p in all;
      var i :| 0 <= i < |all| && all[i] == p;
      var rest := all[..i] + all[i + 1..];
      assert all == all[..i] + ([p] + all[i + 1..]);
      CostInAppend(cells, all[..i], [p] + all[i + 1..], box);
      CostInAppend(cells, all[..i], all[i + 1..], box);
      assert ([p] + all[i + 1..])[1..] == all[i + 1..];
      forall q | q in order[1..]
        ensures q in inside && q in rest
      {
        assert q in order && q in all && q != p;
      }
      hide CostIn;
      WalkCosts(cells, inside, order[1..], rest, box);
    }
  }

  /** A column that is not in the window has no cell in the box; one that is has no more than all it keeps. */
  lemma {:induction false} ColumnCosts(cells: Cells, kept: seq<Pos>, box: Box)
    requires forall p :: p in kept ==> p in cells
    ensures CostIn(cells, kept, box) <= Cost(cells, kept)
    ensures (forall p :: p in kept ==> !box.Contains(p.x, p.z)) ==> CostIn(cells, kept, box) == 0
  {
    if kept != [] { ColumnCosts(cells, kept[1..], box); }
  }

  /** The tiles of the projection: columns that cost nothing are left out. */
  function Tiles(cells: Cells, columns: seq<Column>): seq<Tile>
    requires forall c, p :: c in columns && p in c.kept ==> p in cells
  {
    if columns == [] then []
    else
      Tiles(cells, columns[..|columns| - 1]) + TileOf(cells, columns[|columns| - 1])
  }

  lemma {:induction false} AllSnoc(columns: seq<Column>, c: Column)
    ensures All(columns + [c]) == All(columns) + c.kept
  {
    if columns == [] {
      assert columns + [c] == [c] && [c][1..] == [];
    } else {
      assert (columns + [c])[1..] == columns[1..] + [c];
      AllSnoc(columns[1..], c);
    }
  }

  function TileOf(cells: Cells, c: Column): seq<Tile>
    requires forall p :: p in c.kept ==> p in cells
  {
    var n := Cost(cells, c.kept);
    if n > 0 then [Tile(c.cx, c.cz, n)] else []
  }

  lemma ColumnCost(cells: Cells, c: Column, box: Box, w: Window)
    requires forall p :: p in c.kept ==> p in cells && p.x / CHUNK == c.cx && p.z / CHUNK == c.cz
    requires forall p: Pos :: box.Contains(p.x, p.z) ==> w.Has(Tile(p.x / CHUNK, p.z / CHUNK, 0))
    ensures CostIn(cells, c.kept, box) <= Weigh(TileOf(cells, c), w)
  {
    hide Cost, CostIn, Weigh;
    ColumnCosts(cells, c.kept, box);
    TileWeighs(Tile(c.cx, c.cz, Cost(cells, c.kept)), w);
    if !w.Has(Tile(c.cx, c.cz, 0)) {
      forall p | p in c.kept
        ensures !box.Contains(p.x, p.z)
      {
      }
    }
  }

  lemma {:induction false} ColumnsCost(cells: Cells, columns: seq<Column>, box: Box, w: Window)
    requires forall c, p :: c in columns && p in c.kept ==> p in cells && p.x / CHUNK == c.cx && p.z / CHUNK == c.cz
    requires forall p: Pos :: box.Contains(p.x, p.z) ==> w.Has(Tile(p.x / CHUNK, p.z / CHUNK, 0))
    ensures CostIn(cells, All(columns), box) <= Weigh(Tiles(cells, columns), w)
  {
    if columns != [] {
      var c := columns[|columns| - 1];
      var init := columns[..|columns| - 1];
      assert columns == init + [c];
      ColumnsCost(cells, init, box, w);
      hide All, CostIn, Weigh, Window.Has, Box.Contains, TileOf;
      AllSnoc(init, c);
      CostInAppend(cells, All(init), c.kept, box);
      ColumnCost(cells, c, box, w);
      WeighAppend(Tiles(cells, init), TileOf(cells, c), w);
    }
  }

  lemma TileWeighs(t: Tile, w: Window)
    ensures Weigh([t], w) == (if w.Has(t) then t.records else 0) && Weigh([], w) == 0
  {
    assert [t][1..] == [];
  }

  /** A reply's records are no more than those of the tiles in its window. */
  lemma ReplyBounded(walk: Walk, cells: Cells, columns: seq<Column>, radius: nat, x: int, z: int)
    requires Walks(walk) && StoreOk(cells) && Lists(columns, cells) && radius % CHUNK <= CHUNK / 2
    requires 0 <= x <= WORLD_MAX && 0 <= z <= WORLD_MAX
    ensures |Scan(walk, cells, RegionBox(x, z, radius))| <= Weigh(Tiles(cells, columns), BoxWindow(x, z, radius))
  {
    var box := RegionBox(x, z, radius);
    var inside := InBox(cells, box);
    var order := walk(inside);
    hide Weigh, RegionBox, BoxWindow, Tiles, All, CostIn;
    EmitCosts(inside, order);
    WalkCosts(cells, inside, order, All(columns), box);
    forall p: Pos | box.Contains(p.x, p.z)
      ensures BoxWindow(x, z, radius).Has(Tile(p.x / CHUNK, p.z / CHUNK, 0))
    {
      BoxInWindow(x, z, radius, p);
    }
    ColumnsCost(cells, columns, box, BoxWindow(x, z, radius));
  }

  /** Count a world before it is written: its cells, its records, and the worst reply any player
      could be sent. */
  method Project(columns: seq<Column>, cells: Cells, radius: nat, ghost walk: Walk)
    returns (kept: nat, records: nat, worst: Hotspot)
    requires Walks(walk) && StoreOk(cells) && Lists(columns, cells)
    ensures (forall p :: p in All(columns) ==> p in cells) && kept == |All(columns)| && records == Cost(cells, All(columns))
    ensures radius % CHUNK <= CHUNK / 2 ==>
      forall x, z :: 0 <= x <= WORLD_MAX && 0 <= z <= WORLD_MAX ==>
        |Scan(walk, cells, RegionBox(x, z, radius))| <= worst.records
    ensures Weighed(Tiles(cells, columns), Side(radius), worst)
  {
    var tiles;
    kept, records, tiles := CountColumns(columns, cells);
    hide Weigh, Scan, Side, BoxWindow, StoreOk, Walks;
    worst := FindWorst(tiles, radius);
    if radius % CHUNK <= CHUNK / 2 {
      forall x, z | 0 <= x <= WORLD_MAX && 0 <= z <= WORLD_MAX
        ensures |Scan(walk, cells, RegionBox(x, z, radius))| <= worst.records
      {
        ReplyBounded(walk, cells, columns, radius, x, z);
        assert BoxWindow(x, z, radius).side == Side(radius) by { WindowSide(x, z, radius); }
      }
    }
  }

  lemma WindowSide(x: int, z: int, radius: nat)
    ensures BoxWindow(x, z, radius) == Window(BoxWindow(x, z, radius).x, BoxWindow(x, z, radius).z, Side(radius))
  {
  }

  lemma NoColumns(cells: Cells, columns: seq<Column>)
    ensures columns[..0] == [] && All([]) == [] && Cost(cells, []) == 0 && Tiles(cells, []) == []
  {
  }

  lemma OneMoreColumn(cells: Cells, columns: seq<Column>, i: nat)
    requires i < |columns| && forall c, p :: c in columns && p in c.kept ==> p in cells
    requires forall p :: p in All(columns[..i]) ==> p in cells
    ensures All(columns[..i + 1]) == All(columns[..i]) + columns[i].kept
    ensures forall p :: p in All(columns[..i + 1]) ==> p in cells
    ensures Cost(cells, All(columns[..i + 1])) == Cost(cells, All(columns[..i])) + Cost(cells, columns[i].kept)
    ensures Tiles(cells, columns[..i + 1]) == Tiles(cells, columns[..i]) + TileOf(cells, columns[i])
  {
    assert columns[..i + 1] == columns[..i] + [columns[i]] && columns[..i + 1][..i] == columns[..i];
    AllSnoc(columns[..i], columns[i]);
    CostAppend(cells, All(columns[..i]), columns[i].kept);
  }

  method CountColumns(columns: seq<Column>, cells: Cells) returns (kept: nat, records: nat, tiles: seq<Tile>)
    requires forall c, p :: c in columns && p in c.kept ==> p in cells
    ensures (forall p :: p in All(columns) ==> p in cells) && kept == |All(columns)| && records == Cost(cells, All(columns))
    ensures tiles == Tiles(cells, columns)
  {
    hide All, Cost, Tiles;
    kept, records, tiles := 0, 0, [];
    NoColumns(cells, columns);
    for i := 0 to |columns|
      invariant kept == |All(columns[..i])|
      invariant (forall p :: p in All(columns[..i]) ==> p in cells) && records == Cost(cells, All(columns[..i]))
      invariant tiles == Tiles(cells, columns[..i])
    {
      OneMoreColumn(cells, columns, i);
      var n := ChunkRecords(cells, columns[i].kept);
      kept := kept + |columns[i].kept|;
      records := records + n;
      if n > 0 { tiles := tiles + [Tile(columns[i].cx, columns[i].cz, n)]; }
    }
    assert columns[..|columns|] == columns;
  }

  lemma {:induction false} CostAppend(cells: Cells, a: seq<Pos>, b: seq<Pos>)
    requires forall p :: p in a || p in b ==> p in cells
    ensures forall p :: p in a + b ==> p in cells
    ensures Cost(cells, a + b) == Cost(cells, a) + Cost(cells, b)
  {
    if a == [] {
      assert a + b == b;
    } else {
      assert (a + b)[1..] == a[1..] + b;
      CostAppend(cells, a[1..], b);
    }
  }

  method ChunkRecords(cells: Cells, ps: seq<Pos>) returns (n: nat)
    requires forall p :: p in ps ==> p in cells
    ensures n == Cost(cells, ps)
  {
    n := 0;
    for i := 0 to |ps|
      invariant (forall p :: p in ps[..i] ==> p in cells) && n == Cost(cells, ps[..i])
    {
      assert ps[..i + 1] == ps[..i] + [ps[i]];
      assert [ps[i]][1..] == [];
      CostAppend(cells, ps[..i], [ps[i]]);
      n := n + RecordCost(cells[ps[i]]);
    }
    assert ps[..|ps|] == ps;
  }
}
