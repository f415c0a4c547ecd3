/**
 The shapes a burn works on: which cells one blast samples and one fill visits, and how many.
 */
module BurnShapes {
  import opened BlockRules
  import opened Burn
  import opened Voxels
  import opened BurnSteps

  // --- the blast sphere ---------------------------------------------------------------

  /** The cells one blast samples: its sphere without the two poles, clipped to the world's height. */
  ghost predicate InBlast(n: Node, radius: nat, p: Pos) {
    && InSphere(radius, p.x - n.pos.x, p.y - n.pos.y, p.z - n.pos.z)
    && Abs(p.y - n.pos.y) < radius
    && Y_MIN <= p.y < Y_MAX
  }

  lemma SquareGrows(a: nat, r: nat)
    ensures a > r ==> a * a > r * r
  {
    if a > r { assert a * a >= (r + 1) * a >= (r + 1) * (r + 1); }
  }

  lemma SquareBound(a: int, r: nat)
    requires a * a <= r * r
    ensures Abs(a) <= r
  {
    SquareGrows(Abs(a), r);
    assert Abs(a) * Abs(a) == a * a;
  }

  lemma SphereFolds(radius: nat, ox: int, oy: int, oz: int)
    ensures InSphere(radius, ox, Abs(oy), oz) == InSphere(radius, ox, oy, oz)
  {
    assert Abs(oy) * Abs(oy) == oy * oy;
  }

  lemma SphereBox(radius: nat, ox: int, oy: int, oz: int)
    requires InSphere(radius, ox, oy, oz)
    ensures Abs(ox) <= radius && Abs(oy) <= radius && Abs(oz) <= radius
  {
    assert ox * ox >= 0 && oy * oy >= 0 && oz * oz >= 0;
    SquareBound(ox, radius);
    SquareBound(oy, radius);
    SquareBound(oz, radius);
  }

  lemma {:induction false} ColumnsExact(n: Node, color: int, radius: nat, oy: nat, x: int, z: int, p: Pos)
    requires z >= n.pos.z - radius
    ensures Sample(p, color, n.depth) in ColumnsFrom(n, color, radius, oy, x, z) <==>
      p.x == x && p.z >= z && Abs(p.y - n.pos.y) == oy && Y_MIN <= p.y < Y_MAX &&
      InSphere(radius, x - n.pos.x, oy, p.z - n.pos.z)
    decreases n.pos.z + radius - z
  {
    if z <= n.pos.z + radius {
      ColumnsExact(n, color, radius, oy, x, z + 1, p);
    } else if InSphere(radius, x - n.pos.x, oy, p.z - n.pos.z) {
      SphereBox(radius, x - n.pos.x, oy, p.z - n.pos.z);
    }
  }

  lemma {:induction false} RowsExact(n: Node, color: int, radius: nat, oy: nat, x: int, p: Pos)
    requires x >= n.pos.x - radius
    ensures Sample(p, color, n.depth) in RowsFrom(n, color, radius, oy, x) <==>
      p.x >= x && Abs(p.y - n.pos.y) == oy && Y_MIN <= p.y < Y_MAX &&
      InSphere(radius, p.x - n.pos.x, oy, p.z - n.pos.z)
    decreases n.pos.x + radius - x
  {
    if InSphere(radius, p.x - n.pos.x, oy, p.z - n.pos.z) {
      SphereBox(radius, p.x - n.pos.x, oy, p.z - n.pos.z);
    }
    if x <= n.pos.x + radius {
      ColumnsExact(n, color, radius, oy, x, n.pos.z - radius, p);
      RowsExact(n, color, radius, oy, x + 1, p);
    }
  }

  lemma {:induction false} LayersExact(n: Node, color: int, radius: nat, i: nat, p: Pos)
    requires i >= 1
    ensures Sample(p, color, n.depth) in LayersFrom(n, color, radius, i) <==>
      InBlast(n, radius, p) && Abs(p.y - n.pos.y) + i <= radius
    decreases radius + 1 - i
  {
    hide InSphere, Column, ColumnsFrom, RowsFrom;
    if i <= radius {
      var oy := p.y - n.pos.y;
      var row, rest := RowsFrom(n, color, radius, radius - i, n.pos.x - radius), LayersFrom(n, color, radius, i + 1);
      assert LayersFrom(n, color, radius, i) == row + rest;
      hide LayersFrom;
      RowsExact(n, color, radius, radius - i, n.pos.x - radius, p);
      LayersExact(n, color, radius, i + 1, p);
      SphereFolds(radius, p.x - n.pos.x, oy, p.z - n.pos.z);
      if InSphere(radius, p.x - n.pos.x, oy, p.z - n.pos.z) {
        SphereBox(radius, p.x - n.pos.x, oy, p.z - n.pos.z);
      }
    }
  }

  /** A blast samples exactly the cells of its sphere. */
  lemma BlastExact(n: Node, color: int, radius: nat, p: Pos)
    ensures Sample(p, color, n.depth) in BlastOps(n, color, radius) <==> InBlast(n, radius, p)
  {
    LayersExact(n, color, radius, 1, p);
  }

  lemma {:induction false} ColumnsSamples(n: Node, color: int, radius: nat, oy: nat, x: int, z: int)
    ensures forall op :: op in ColumnsFrom(n, color, radius, oy, x, z) ==> op == Sample(op.pos, color, n.depth)
    decreases n.pos.z + radius - z
  {
    if z <= n.pos.z + radius { ColumnsSamples(n, color, radius, oy, x, z + 1); }
  }

  lemma {:induction false} RowsSamples(n: Node, color: int, radius: nat, oy: nat, x: int)
    ensures forall op :: op in RowsFrom(n, color, radius, oy, x) ==> op == Sample(op.pos, color, n.depth)
    decreases n.pos.x + radius - x
  {
    if x <= n.pos.x + radius {
      ColumnsSamples(n, color, radius, oy, x, n.pos.z - radius);
      RowsSamples(n, color, radius, oy, x + 1);
    }
  }

  lemma {:induction false} LayersSamples(n: Node, color: int, radius: nat, i: nat)
    ensures forall op :: op in LayersFrom(n, color, radius, i) ==> op == Sample(op.pos, color, n.depth)
    decreases radius + 1 - i
  {
    if i <= radius {
      RowsSamples(n, color, radius, radius - i, n.pos.x - radius);
      LayersSamples(n, color, radius, i + 1);
    }
  }

  lemma BlastOpsShape(n: Node, color: int, radius: nat)
    ensures IsBlast(BlastOps(n, color, radius), n, radius)
  {
    LayersSamples(n, color, radius, 1);
    forall op | op in BlastOps(n, color, radius)
      ensures op.Sample? && op.depth == n.depth && Near(op.pos, n.pos, radius)
    {
      BlastExact(n, color, radius, op.pos);
      SphereBox(radius, op.pos.x - n.pos.x, op.pos.y - n.pos.y, op.pos.z - n.pos.z);
    }
  }

  // --- how many cells a blast samples ---------------------------------------------------

  /** Both cells at height offset oy lie in the world's height. */
  predicate Inside(n: Node, oy: int) { Y_MIN <= n.pos.y - oy && n.pos.y + oy < Y_MAX }

  lemma {:induction false} ColumnsCost(n: Node, color: int, radius: nat, oy: nat, x: int, z: int)
    ensures TotalCost(ColumnsFrom(n, color, radius, oy, x, z)) <= CountZ(radius, oy, x - n.pos.x, z - n.pos.z)
    ensures Inside(n, oy) ==>
      TotalCost(ColumnsFrom(n, color, radius, oy, x, z)) == CountZ(radius, oy, x - n.pos.x, z - n.pos.z)
    decreases n.pos.z + radius - z
  {
    if z <= n.pos.z + radius {
      ColumnsCost(n, color, radius, oy, x, z + 1);
      TotalCostAppend(Column(n, color, radius, oy, x, z), ColumnsFrom(n, color, radius, oy, x, z + 1));
      TotalCostAppend(Sampled(Pos(x, n.pos.y - oy, z), color, n.depth), Sampled(Pos(x, n.pos.y + oy, z), color, n.depth));
    }
  }

  lemma {:induction false} RowsCost(n: Node, color: int, radius: nat, oy: nat, x: int)
    ensures TotalCost(RowsFrom(n, color, radius, oy, x)) <= CountX(radius, oy, x - n.pos.x)
    ensures Inside(n, oy) ==> TotalCost(RowsFrom(n, color, radius, oy, x)) == CountX(radius, oy, x - n.pos.x)
    decreases n.pos.x + radius - x
  {
    hide ColumnsFrom, CountZ, TotalCost, Inside;
    if x <= n.pos.x + radius {
      ColumnsCost(n, color, radius, oy, x, n.pos.z - radius);
      RowsCost(n, color, radius, oy, x + 1);
      TotalCostAppend(ColumnsFrom(n, color, radius, oy, x, n.pos.z - radius), RowsFrom(n, color, radius, oy, x + 1));
    } else {
      EmptyCost();
    }
  }

  /** The layers below height oy: the blast walks them downwards, the charge counts them upwards. */
  function CountBelow(radius: nat, oy: nat): nat {
    if oy == 0 then 0 else CountX(radius, oy - 1, 0 - radius) + CountBelow(radius, oy - 1)
  }

  lemma {:induction false} CountBelowSplits(radius: nat, oy: nat)
    requires oy <= radius
    ensures CountBelow(radius, oy) + CountY(radius, oy) == CountBelow(radius, radius)
    decreases radius - oy
  {
    if oy < radius { CountBelowSplits(radius, oy + 1); }
  }

  lemma {:induction false} LayersCost(n: Node, color: int, radius: nat, i: nat)
    requires i <= radius + 1
    ensures TotalCost(LayersFrom(n, color, radius, i)) <= CountBelow(radius, radius + 1 - i)
    ensures i >= 1 && Inside(n, radius - 1) ==>
      TotalCost(LayersFrom(n, color, radius, i)) == CountBelow(radius, radius + 1 - i)
    decreases radius + 1 - i
  {
    hide InSphere, Column, ColumnsFrom, RowsFrom, CountX, CountZ;
    if i <= radius {
      RowsCost(n, color, radius, radius - i, n.pos.x - radius);
      LayersCost(n, color, radius, i + 1);
      TotalCostAppend(RowsFrom(n, color, radius, radius - i, n.pos.x - radius), LayersFrom(n, color, radius, i + 1));
    }
  }

  /** One blast never samples more than it is charged for, its centre apart; and samples just that where
      its sphere does not reach past the world's height. */
  lemma BlastCost(n: Node, color: int, radius: nat)
    ensures 1 + TotalCost(BlastOps(n, color, radius)) <= VisitsPerBlast(radius)
    ensures Inside(n, radius - 1) ==> 1 + TotalCost(BlastOps(n, color, radius)) == VisitsPerBlast(radius)
  {
    LayersCost(n, color, radius, 1);
    CountBelowSplits(radius, 0);
  }

  // --- the fill box ---------------------------------------------------------------------

  ghost predicate SmallSpan(sp: Span) {
    sp.left <= EXTENT && sp.right <= EXTENT && sp.fwd <= EXTENT && sp.back <= EXTENT
  }

  lemma OpsNearAppend(a: seq<Op>, b: seq<Op>, c: Pos, n: int)
    requires OpsNear(a, c, n) && OpsNear(b, c, n)
    ensures OpsNear(a + b, c, n)
  {
    hide Near;
  }

  lemma FillColumnNear(pass: Pass, sp: Span, c: Pos, oy: nat, x: int, z: int)
    requires oy <= EXTENT && Abs(x - c.x) <= EXTENT && Abs(z - c.z) <= EXTENT
    ensures OpsNear(FillColumn(pass, sp, c, oy, x, z), c, EXTENT)
  {
  }

  lemma {:induction false} FillColumnsNear(pass: Pass, sp: Span, c: Pos, oy: nat, x: int, z: int)
    requires SmallSpan(sp) && oy <= EXTENT && Abs(x - c.x) <= EXTENT && z >= c.z - EXTENT
    ensures OpsNear(FillColumnsFrom(pass, sp, c, oy, x, z), c, EXTENT)
    decreases c.z + sp.back - z
  {
    hide FillColumn, Near;
    if z <= c.z + sp.back {
      FillColumnNear(pass, sp, c, oy, x, z);
      FillColumnsNear(pass, sp, c, oy, x, z + 1);
      OpsNearAppend(FillColumn(pass, sp, c, oy, x, z), FillColumnsFrom(pass, sp, c, oy, x, z + 1), c, EXTENT);
    }
  }

  lemma {:induction false} FillRowsNear(pass: Pass, sp: Span, c: Pos, oy: nat, x: int)
    requires SmallSpan(sp) && oy <= EXTENT && x >= c.x - EXTENT
    ensures OpsNear(FillRowsFrom(pass, sp, c, oy, x), c, EXTENT)
    decreases c.x + sp.right - x
  {
    hide FillColumnsFrom, Near;
    if x <= c.x + sp.right {
      FillColumnsNear(pass, sp, c, oy, x, c.z - sp.fwd);
      FillRowsNear(pass, sp, c, oy, x + 1);
      OpsNearAppend(FillColumnsFrom(pass, sp, c, oy, x, c.z - sp.fwd), FillRowsFrom(pass, sp, c, oy, x + 1), c, EXTENT);
    }
  }

  lemma {:induction false} FillLayersNear(pass: Pass, sp: Span, c: Pos, i: nat)
    requires SmallSpan(sp)
    ensures OpsNear(FillLayersFrom(pass, sp, c, i), c, EXTENT)
    decreases EXTENT + 1 - i
  {
    hide FillColumn, FillColumnsFrom, FillRowsFrom, Near;
    if i <= EXTENT {
      FillRowsNear(pass, sp, c, EXTENT - i, c.x - sp.left);
      FillLayersNear(pass, sp, c, i + 1);
      OpsNearAppend(FillRowsFrom(pass, sp, c, EXTENT - i, c.x - sp.left), FillLayersFrom(pass, sp, c, i + 1), c, EXTENT);
    }
  }

  lemma FillOpsNear(sp: Span, c: Pos, kind: int, color: int, depth: nat)
    requires SmallSpan(sp)
    ensures OpsNear(FillOps(sp, c, kind, color, depth), c, EXTENT)
  {
    var ramp := ExpansionRamp(kind);
    FillLayersNear(BoxPass(ExpansionMaterial(kind), ramp, color, depth + 1), sp, c, 0);
    FillLayersNear(RingPass(ramp, color, depth + 1), sp, c, 0);
    FillLayersNear(LightPass(depth + 1), FULL, c, 0);
  }

  // --- how many cells a fill visits -------------------------------------------------------

  lemma FillColumnCost(pass: Pass, sp: Span, c: Pos, oy: nat, x: int, z: int)
    ensures !pass.RingPass? ==> TotalCost(FillColumn(pass, sp, c, oy, x, z)) <= 2
    ensures pass.RingPass? ==> TotalCost(FillColumn(pass, sp, c, oy, x, z)) <= if Corner(c, x, z) then 10 else 0
  {
    TotalCostAppend(
      if c.y - oy > Y_MIN && (pass.LightPass? || oy <= sp.bot) then PassOps(pass, c, Pos(x, c.y - oy, z)) else [],
      if c.y + oy < Y_MAX && (pass.LightPass? || oy <= sp.top) then PassOps(pass, c, Pos(x, c.y + oy, z)) else []);
  }

  /** 1 while a walk at v still has to reach w. */
  function Ahead(v: int, w: int): nat { if v <= w then 1 else 0 }

  function ColumnsBound(pass: Pass, sp: Span, c: Pos, x: int, z: int): nat {
    if pass.RingPass? then
      if Abs(x - c.x) == EXTENT then 10 * (Ahead(z, c.z - EXTENT) + Ahead(z, c.z + EXTENT)) else 0
    else if z > c.z + sp.back then 0 else 2 * (c.z + sp.back - z + 1)
  }

  lemma {:induction false} FillColumnsCost(pass: Pass, sp: Span, c: Pos, oy: nat, x: int, z: int)
    requires SmallSpan(sp) && Abs(x - c.x) <= EXTENT && z >= c.z - EXTENT
    ensures TotalCost(FillColumnsFrom(pass, sp, c, oy, x, z)) <= ColumnsBound(pass, sp, c, x, z)
    decreases c.z + sp.back - z
  {
    hide FillColumn, TotalCost;
    if z <= c.z + sp.back {
      FillColumnCost(pass, sp, c, oy, x, z);
      FillColumnsCost(pass, sp, c, oy, x, z + 1);
      TotalCostAppend(FillColumn(pass, sp, c, oy, x, z), FillColumnsFrom(pass, sp, c, oy, x, z + 1));
    } else {
      EmptyCost();
    }
  }

  lemma EmptyCost()
    ensures TotalCost([]) == 0
  {
  }

  function RowsBound(pass: Pass, sp: Span, c: Pos, x: int): nat {
    if pass.RingPass? then 20 * (Ahead(x, c.x - EXTENT) + Ahead(x, c.x + EXTENT))
    else if x > c.x + sp.right then 0 else 10 * (c.x + sp.right - x + 1)
  }

  lemma {:induction false} FillRowsCost(pass: Pass, sp: Span, c: Pos, oy: nat, x: int)
    requires SmallSpan(sp) && x >= c.x - EXTENT
    ensures TotalCost(FillRowsFrom(pass, sp, c, oy, x)) <= RowsBound(pass, sp, c, x)
    decreases c.x + sp.right - x
  {
    hide FillColumnsFrom, TotalCost;
    if x <= c.x + sp.right {
      FillColumnsCost(pass, sp, c, oy, x, c.z - sp.fwd);
      FillRowsCost(pass, sp, c, oy, x + 1);
      TotalCostAppend(FillColumnsFrom(pass, sp, c, oy, x, c.z - sp.fwd), FillRowsFrom(pass, sp, c, oy, x + 1));
    } else {
      EmptyCost();
    }
  }

  lemma {:induction false} FillLayersCost(pass: Pass, sp: Span, c: Pos, i: nat)
    requires SmallSpan(sp) && i <= EXTENT + 1
    ensures TotalCost(FillLayersFrom(pass, sp, c, i)) <= (if pass.RingPass? then 40 else 50) * (EXTENT + 1 - i)
    decreases EXTENT + 1 - i
  {
    hide FillRowsFrom, TotalCost;
    if i <= EXTENT {
      FillRowsCost(pass, sp, c, EXTENT - i, c.x - sp.left);
      FillLayersCost(pass, sp, c, i + 1);
      TotalCostAppend(FillRowsFrom(pass, sp, c, EXTENT - i, c.x - sp.left), FillLayersFrom(pass, sp, c, i + 1));
    } else {
      EmptyCost();
    }
  }

  /** The operations of one fill, its six bounding probes apart, cost what a fill is charged for. */
  lemma FillCost(sp: Span, c: Pos, kind: int, color: int, depth: nat)
    requires SmallSpan(sp)
    ensures 6 + TotalCost(FillOps(sp, c, kind, color, depth)) <= VISITS_PER_FILL
  {
    hide PassCells, TotalCost;
    var ramp := ExpansionRamp(kind);
    var box := PassCells(BoxPass(ExpansionMaterial(kind), ramp, color, depth + 1), sp, c);
    var ring := if ramp != 0 then PassCells(RingPass(ramp, color, depth + 1), sp, c) else [];
    var lit := PassCells(LightPass(depth + 1), FULL, c);
    EmptyCost();
    PassCost(BoxPass(ExpansionMaterial(kind), ramp, color, depth + 1), sp, c);
    PassCost(RingPass(ramp, color, depth + 1), sp, c);
    PassCost(LightPass(depth + 1), FULL, c);
    TotalCostAppend(box, ring);
    TotalCostAppend(box + ring, lit);
  }

  lemma PassCost(pass: Pass, sp: Span, c: Pos)
    requires SmallSpan(sp)
    ensures TotalCost(PassCells(pass, sp, c)) <= if pass.RingPass? then 24 * 5 else 150
  {
    FillLayersCost(pass, sp, c, 0);
  }
}
