/**
 The height map: stored cells are fed column by column in any order, and each column answers with
 the surface a player sees.
 */
module Topmap {
  import opened BlockRules
  import opened Voxels
  import opened Decimal
  import opened BaseProfile
  import opened TextLines

  const MAX_SIDE := 256
  const MAX_STEP := 0xFFFFFF
  const HEIGHT := 256
  const XZ_MAX := 0xFFFFFF

  // --- a column -------------------------------------------------------------------------------------

  /** What a column is once every stored cell of it is known. */
  type Column = map<int, Block>

  /** The block a player sees at a height: the stored one, else the base; painted base shows as base. */
  function Effective(base: Profile, m: Column, y: int): Block {
    if y !in m then BaseAt(base, y)
    else if m[y].kind == PAINTED_BASE then Block(BaseAt(base, y).kind, m[y].color)
    else m[y]
  }

  predicate Solid(base: Profile, m: Column, y: int) { Effective(base, m, y).kind != AIR }

  /** The highest solid height of the world, or below it. */
  function TopBelow(base: Profile, m: Column, n: nat): (y: int)
    ensures -1 <= y < n && (y >= 0 ==> Solid(base, m, y))
    ensures forall h :: y < h < n ==> !Solid(base, m, h)
  {
    if n == 0 then -1 else if Solid(base, m, n - 1) then n - 1 else TopBelow(base, m, n - 1)
  }

  function Surface(base: Profile, m: Column): int { TopBelow(base, m, HEIGHT) }

  function TokenText(y: int, b: Block): string
    requires y >= 0 && b.kind >= 0 && b.color >= 0
  {
    Show(y) + "," + Show(b.kind) + "," + Show(b.color)
  }

  predicate ByteColumn(m: Column) { forall y :: y in m ==> 0 <= y < HEIGHT && 0 <= m[y].kind < 256 && 0 <= m[y].color < 256 }

  /** The token of a column, from all its stored cells at once. */
  function Token(base: Profile, m: Column): string
    requires ByteProfile(base) && ByteColumn(m)
  {
    if m == map[] then "-"
    else
      var y := Surface(base, m);
      if y < 0 then "." else TokenText(y, Effective(base, m, y))
  }

  /** A height and a block, as a reader finds them in a token. */
  function ReadToken(t: string): Option<(int, Block)> {
    var i := Find(t, ',');
    if i == |t| then None
    else
      var rest := t[i + 1..];
      var j := Find(rest, ',');
      if j == |rest| then None
      else
        var y, kind, color := ReadInt(t[..i]), ReadInt(rest[..j]), ReadInt(rest[j + 1..]);
        if y.None? || kind.None? || color.None? then None else Some((y.value, Block(kind.value, color.value)))
  }

  lemma FieldEnds(n: nat, rest: string)
    ensures var t := Show(n) + "," + rest; var k := Find(t, ',');
      k == |Show(n)| && t[..k] == Show(n) && t[k + 1..] == rest && ReadInt(t[..k]) == Some(n)
  {
    hide Show, Find, ReadInt;
    var t, k := Show(n) + "," + rest, |Show(n)|;
    ReadShowInt(n);
    assert ShowInt(n) == Show(n);
    forall i | 0 <= i < k
      ensures t[i] != ','
    {
      assert t[i] in Show(n) && IsDigit(t[i]);
    }
    FindIs(t, ',', k);
  }

  /** A reader finds in a token the height and the block it was written for. */
  lemma TokenReads(y: int, b: Block)
    requires y >= 0 && b.kind >= 0 && b.color >= 0
    ensures ReadToken(TokenText(y, b)) == Some((y, b))
  {
    hide Show, Find, ReadInt;
    var rest := Show(b.kind) + "," + Show(b.color);
    assert TokenText(y, b) == Show(y) + "," + rest;
    FieldEnds(y, rest);
    FieldEnds(b.kind, Show(b.color));
    ReadShowInt(b.color);
    assert ShowInt(b.color) == Show(b.color);
  }

  /** What a reader learns from the token of a column: whether anything is stored there, whether anything
      stands there, and if so the surface a player sees and its block. */
  lemma TokenTells(base: Profile, m: Column)
    requires ByteProfile(base) && ByteColumn(m)
    ensures var y, t := Surface(base, m), Token(base, m);
      && (t == "-" <==> m == map[])
      && (t == "." <==> m != map[] && forall h :: 0 <= h < HEIGHT ==> !Solid(base, m, h))
      && (ReadToken(t).Some? <==> m != map[] && exists h :: 0 <= h < HEIGHT && Solid(base, m, h))
      && (ReadToken(t).Some? ==>
            && ReadToken(t) == Some((y, Effective(base, m, y)))
            && 0 <= y < HEIGHT && Solid(base, m, y) && forall h :: y < h < HEIGHT ==> !Solid(base, m, h))
  {
    hide Solid, TopBelow, TokenText, ReadToken;
    var y := Surface(base, m);
    NoToken();
    if y >= 0 {
      var b := Effective(base, m, y);
      TokenReads(y, b);
    }
  }

  lemma NoToken()
    ensures ReadToken("-") == None && ReadToken(".") == None
  {
    assert Find("-", ',') == 1 && Find(".", ',') == 1;
  }

  // --- the incremental column -----------------------------------------------------------------------

  datatype Col = Col(stored: set<int>, topY: int, kind: int, color: int, touched: bool)

  const UNTOUCHED := Col({}, -1, 0, 0, false)

  function Fed(base: Profile, c: Col, y: int, b: Block): Col {
    var d := c.(touched := true, stored := c.stored + {y});
    var kind := if b.kind == PAINTED_BASE then BaseAt(base, y).kind else b.kind;
    if b.kind == AIR || kind == AIR || y <= c.topY then d else d.(topY := y, kind := kind, color := b.color)
  }

  /** The column's summary says exactly which heights are stored, and its top is the highest stored
      height that shows as solid. */
  ghost predicate Sums(base: Profile, c: Col, m: Column) {
    && c.stored == m.Keys && (c.touched <==> m != map[])
    && -1 <= c.topY && (c.topY >= 0 ==> c.topY in m && Solid(base, m, c.topY) && Effective(base, m, c.topY) == Block(c.kind, c.color))
    && forall y :: y in m && y > c.topY ==> !Solid(base, m, y)
  }

  /** One more cell of a height not fed before, whatever the order. */
  lemma FedSums(base: Profile, c: Col, m: Column, y: int, b: Block)
    requires Sums(base, c, m) && y !in m && 0 <= y
    ensures Sums(base, Fed(base, c, y, b), m[y := b])
  {
    var n := m[y := b];
    assert forall h :: h in m ==> Effective(base, n, h) == Effective(base, m, h);
  }

  /** The highest base block that shows through. */
  function BaseTop(base: Profile, stored: set<int>, n: nat): (y: int)
    ensures -1 <= y < n && (y >= 0 ==> BaseAt(base, y).kind != AIR && y !in stored)
    ensures forall h :: y < h < n && h !in stored ==> BaseAt(base, h).kind == AIR
  {
    if n == 0 then -1
    else if BaseAt(base, n - 1).kind != AIR && n - 1 !in stored then n - 1
    else BaseTop(base, stored, n - 1)
  }

  /** The higher of the two tops is the surface. */
  lemma TopsAreSurface(base: Profile, c: Col, m: Column)
    requires Sums(base, c, m) && ByteColumn(m)
    ensures var b := BaseTop(base, c.stored, HEIGHT);
      Surface(base, m) == if b > c.topY then b else c.topY
  {
    var b := BaseTop(base, c.stored, HEIGHT);
    var y := if b > c.topY then b else c.topY;
    forall h | y < h < HEIGHT
      ensures !Solid(base, m, h)
    {
    }
    hide BaseTop, TopBelow;
    TopUnique(base, m, HEIGHT, y);
  }

  lemma TopUnique(base: Profile, m: Column, n: nat, y: int)
    requires -1 <= y < n && (y >= 0 ==> Solid(base, m, y)) && forall h :: y < h < n ==> !Solid(base, m, h)
    ensures TopBelow(base, m, n) == y
  {
    hide Solid;
    var t := TopBelow(base, m, n);
    assert !(t < y) && !(y < t);
  }

  // --- the grid -------------------------------------------------------------------------------------

  datatype Request = Request(x0: int, z0: int, step: int, w: int, h: int)

  predicate Fits(r: Request) { 1 <= r.w <= MAX_SIDE && 1 <= r.h <= MAX_SIDE && 1 <= r.step <= MAX_STEP && r.x0 >= 0 && r.z0 >= 0 }

  /** A stored cell on its way in. */
  datatype Cell = Cell(i: int, j: int, y: int, block: Block)

  predicate InGrid(r: Request, c: Cell) { 0 <= c.i < r.w && 0 <= c.j < r.h && 0 <= c.y < HEIGHT }

  /** The cells of one column among those fed. */
  function ColumnOf(cells: seq<Cell>, r: Request, i: int, j: int): Column {
    if cells == [] then map[]
    else
      var c := cells[|cells| - 1];
      var m := ColumnOf(cells[..|cells| - 1], r, i, j);
      if InGrid(r, c) && c.i == i && c.j == j then m[c.y := c.block] else m
  }

  /** No cell is fed twice. */
  ghost predicate Distinct(cells: seq<Cell>, r: Request) {
    forall a, b :: 0 <= a < b < |cells| && InGrid(r, cells[a]) ==> (cells[a].i, cells[a].j, cells[a].y) != (cells[b].i, cells[b].j, cells[b].y)
  }

  predicate ByteCells(cells: seq<Cell>) {
    forall k :: 0 <= k < |cells| ==> 0 <= cells[k].block.kind < 256 && 0 <= cells[k].block.color < 256
  }

  lemma {:induction false} ColumnKeys(cells: seq<Cell>, r: Request, i: int, j: int)
    ensures forall y :: y in ColumnOf(cells, r, i, j) <==> exists k :: 0 <= k < |cells| && InGrid(r, cells[k]) && cells[k].i == i && cells[k].j == j && cells[k].y == y
    ensures ByteCells(cells) ==> ByteColumn(ColumnOf(cells, r, i, j))
  {
    if cells != [] {
      var init := cells[..|cells| - 1];
      ColumnKeys(init, r, i, j);
      assert forall k :: 0 <= k < |init| ==> init[k] == cells[k];
    }
  }

  function Index(r: Request, i: int, j: int): (k: int)
    requires 0 <= i < r.w && 0 <= j < r.h
    ensures 0 <= k < r.w * r.h
  {
    Flat(r.w, r.h, i, j);
    j * r.w + i
  }

  ghost predicate Summed(r: Request, base: Profile, cols: seq<Col>, cells: seq<Cell>, i: int, j: int)
    requires |cols| == r.w * r.h && 0 <= i < r.w && 0 <= j < r.h
  {
    Sums(base, cols[Index(r, i, j)], ColumnOf(cells, r, i, j))
  }

  /** Every column sums up its cells, as long as none was fed twice. */
  ghost predicate AllSummed(r: Request, base: Profile, cols: seq<Col>, cells: seq<Cell>) {
    && |cols| == r.w * r.h
    && (Distinct(cells, r) ==> forall i, j :: 0 <= i < r.w && 0 <= j < r.h ==> Summed(r, base, cols, cells, i, j))
  }

  lemma NewSummed(r: Request, base: Profile)
    requires Fits(r)
    ensures r.w * r.h >= 0 && AllSummed(r, base, seq(r.w * r.h, k => UNTOUCHED), [])
  {
    assert r.w * r.h >= 0;
  }

  lemma DistinctInit(was: seq<Cell>, c: Cell, r: Request)
    requires Distinct(was + [c], r)
    ensures Distinct(was, r)
    ensures InGrid(r, c) ==> c.y !in ColumnOf(was, r, c.i, c.j)
  {
    var all := was + [c];
    assert forall k :: 0 <= k < |was| ==> all[k] == was[k];
    ColumnKeys(was, r, c.i, c.j);
    if InGrid(r, c) {
      forall k | 0 <= k < |was| && InGrid(r, was[k])
        ensures (was[k].i, was[k].j, was[k].y) != (c.i, c.j, c.y)
      {
        assert all[k] == was[k] && all[|was|] == c;
      }
    }
  }

  lemma ColumnSnoc(was: seq<Cell>, c: Cell, r: Request, i: int, j: int)
    ensures ColumnOf(was + [c], r, i, j) ==
      if InGrid(r, c) && c.i == i && c.j == j then ColumnOf(was, r, i, j)[c.y := c.block] else ColumnOf(was, r, i, j)
  {
    assert (was + [c])[..|was|] == was;
  }

  /** One more cell, in its own column. */
  lemma FeedKeeps(r: Request, base: Profile, cols: seq<Col>, was: seq<Cell>, c: Cell)
    requires AllSummed(r, base, cols, was) && InGrid(r, c)
    ensures AllSummed(r, base, cols[Index(r, c.i, c.j) := Fed(base, cols[Index(r, c.i, c.j)], c.y, c.block)], was + [c])
  {
    var after := cols[Index(r, c.i, c.j) := Fed(base, cols[Index(r, c.i, c.j)], c.y, c.block)];
    if Distinct(was + [c], r) {
      DistinctInit(was, c, r);
      hide Distinct, ColumnOf, Sums, Fed;
      forall i, j | 0 <= i < r.w && 0 <= j < r.h
        ensures Summed(r, base, after, was + [c], i, j)
      {
        assert Summed(r, base, cols, was, i, j);
        ColumnSnoc(was, c, r, i, j);
        if i == c.i && j == c.j {
          FedSums(base, cols[Index(r, i, j)], ColumnOf(was, r, i, j), c.y, c.block);
        } else if Index(r, i, j) == Index(r, c.i, c.j) {
          FlatDiffers(r.w, i, j, c.i, c.j);
        }
      }
    }
  }

  lemma SkipKeeps(r: Request, base: Profile, cols: seq<Col>, was: seq<Cell>, c: Cell)
    requires AllSummed(r, base, cols, was) && !InGrid(r, c)
    ensures AllSummed(r, base, cols, was + [c])
  {
    if Distinct(was + [c], r) {
      DistinctInit(was, c, r);
      hide Distinct, ColumnOf, Sums;
      forall i, j | 0 <= i < r.w && 0 <= j < r.h
        ensures Summed(r, base, cols, was + [c], i, j)
      {
        assert Summed(r, base, cols, was, i, j);
        ColumnSnoc(was, c, r, i, j);
      }
    }
  }

  class Grid {
    const req: Request
    const base: Profile
    var cols: seq<Col>

    /** Every cell fed so far. */
    ghost var cells: seq<Cell>

    ghost predicate Valid()
      reads this
    {
      Fits(req) && ByteProfile(base) && ByteCells(cells) && AllSummed(req, base, cols, cells)
    }

    constructor (req: Request, base: Profile)
      requires Fits(req) && ByteProfile(base)
      ensures Valid() && cells == [] && this.req == req && this.base == base
    {
      NewSummed(req, base);
      this.req, this.base := req, base;
      cols := seq(req.w * req.h, k => UNTOUCHED);
      cells := [];
    }

    /** One stored cell, in any order; one outside the grid is ignored. */
    method Feed(i: int, j: int, y: int, block: Block)
      requires Valid() && 0 <= block.kind < 256 && 0 <= block.color < 256
      modifies this
      ensures Valid() && cells == old(cells) + [Cell(i, j, y, block)]
    {
      hide AllSummed, Fed;
      ghost var c := Cell(i, j, y, block);
      assert |cols| == req.w * req.h by { Sized(req, base, cols, cells); }
      if i < 0 || j < 0 || i >= req.w || j >= req.h || y < 0 || y >= HEIGHT {
        SkipKeeps(req, base, cols, cells, c);
      } else {
        FeedKeeps(req, base, cols, cells, c);
        var d := FeedColumn(base, cols[Index(req, i, j)], y, block);
        cols := cols[Index(req, i, j) := d];
      }
      cells := cells + [c];
    }

    /** The token of a sampled column is that of its stored cells, however they came. */
    method ColumnToken(i: int, j: int) returns (t: string)
      requires Valid() && 0 <= i < req.w && 0 <= j < req.h && Distinct(cells, req)
      ensures ByteColumn(ColumnOf(cells, req, i, j)) && t == Token(base, ColumnOf(cells, req, i, j))
    {
      ghost var m := ColumnOf(cells, req, i, j);
      ColumnKeys(cells, req, i, j);
      assert Summed(req, base, cols, cells, i, j);
      hide ColumnOf, Distinct, AllSummed, TokenText, TopBelow, BaseTop, ByteCells;
      var c := cols[Index(req, i, j)];
      if !c.touched { return "-"; }
      var baseY := FindBase(base, c.stored);
      TopsAreSurface(base, c, m);
      var y, b := -1, Block(0, 0);
      if c.topY >= 0 { y, b := c.topY, Block(c.kind, c.color); }
      if baseY > y { y, b := baseY, BaseAt(base, baseY); }
      if y < 0 { return "."; }
      return TokenText(y, b);
    }
  }

  lemma Sized(r: Request, base: Profile, cols: seq<Col>, cells: seq<Cell>)
    requires AllSummed(r, base, cols, cells)
    ensures |cols| == r.w * r.h
  {
  }

  method FeedColumn(base: Profile, c: Col, y: int, b: Block) returns (d: Col)
    ensures d == Fed(base, c, y, b)
  {
    d := c.(touched := true, stored := c.stored + {y});
    if b.kind == AIR { return; }
    var kind := b.kind;
    if kind == PAINTED_BASE {
      kind := BaseAt(base, y).kind;
      if kind == AIR { return; }
    }
    if y > d.topY { d := d.(topY := y, kind := kind, color := b.color); }
  }

  /** The base layers from the top down. */
  method FindBase(base: Profile, stored: set<int>) returns (y: int)
    ensures y == BaseTop(base, stored, HEIGHT)
  {
    y := |base| - 1;
    BaseAbove(base, stored, HEIGHT);
    while y >= 0
      invariant -1 <= y < |base|
      invariant forall h :: y < h < HEIGHT ==> BaseAt(base, h).kind == AIR || h in stored
    {
      if y < HEIGHT && BaseAt(base, y).kind != AIR && y !in stored { return; }
      y := y - 1;
    }
  }

  lemma BaseAbove(base: Profile, stored: set<int>, n: nat)
    ensures forall h :: |base| <= h ==> BaseAt(base, h).kind == AIR
  {
  }

  lemma Flat(w: int, h: int, i: int, j: int)
    requires 0 <= i < w && 0 <= j < h
    ensures 0 <= j * w + i < w * h
  {
    assert (j + 1) * w <= h * w;
  }

  lemma FlatDiffers(w: int, i: int, j: int, p: int, q: int)
    requires 0 <= i < w && 0 <= p < w && j * w + i == q * w + p
    ensures i == p && j == q
  {
    if j < q { LowerRow(w, i, j, p, q); }
    if q < j { LowerRow(w, p, q, i, j); }
  }

  lemma LowerRow(w: int, i: int, j: int, p: int, q: int)
    requires 0 <= i < w && 0 <= p < w && j < q
    ensures j * w + i < q * w + p
  {
    assert (j + 1) * w <= q * w;
  }

  // --- the request ----------------------------------------------------------------------------------

  /** What the 64-bit number parser can hold. */
  predicate FitsLong(v: int) { -0x8000_0000_0000_0000 <= v < 0x8000_0000_0000_0000 }

  datatype Parsed =
    | Accepted(req: Request)
    | WrongCount
    | NotNumber(field: nat)
    | OutOfRange
    | BadStep
    | TooMany(w: int, h: int, need: int)

  function Samples(a: int, b: int, step: int): int
    requires step > 0
  {
    (b - a) / step + 1
  }

  function Lesser(a: int, b: int): int { if a < b then a else b }
  function Greater(a: int, b: int): int { if a < b then b else a }

  /** The numbers a request may hold. */
  predicate InRange(v: seq<int>)
    requires |v| == 5
  {
    (forall k :: 0 <= k < 4 ==> 0 <= v[k] <= XZ_MAX) && 1 <= v[4] <= MAX_STEP
  }

  method Parse(f: seq<string>) returns (p: Parsed)
    ensures p == WrongCount <==> |f| != 5
    ensures p.NotNumber? ==> |f| == 5 && p.field < 5 && BadField(f[p.field]) && forall k :: 0 <= k < p.field ==> !BadField(f[k])
    ensures |f| == 5 && (exists k :: 0 <= k < 5 && BadField(f[k])) ==> p.NotNumber?
    ensures |f| == 5 && !p.NotNumber? ==> Planned([Field(f[0]), Field(f[1]), Field(f[2]), Field(f[3]), Field(f[4])], p)
  {
    hide BadField, Field, Planned;
    if |f| != 5 { return WrongCount; }
    var v: seq<int> := [];
    for i := 0 to 5
      invariant |v| == i && forall k :: 0 <= k < i ==> !BadField(f[k]) && v[k] == Field(f[k])
    {
      if BadField(f[i]) { return NotNumber(i); }
      v := v + [Field(f[i])];
    }
    assert v == [Field(f[0]), Field(f[1]), Field(f[2]), Field(f[3]), Field(f[4])];
    p := Plan(v);
  }

  /** What five numbers make: a range error, a grid, or a refusal that names a step. */
  ghost predicate Planned(v: seq<int>, p: Parsed)
    requires |v| == 5
  {
    match p
    case OutOfRange => exists k :: 0 <= k < 4 && !(0 <= v[k] <= XZ_MAX)
    case BadStep => (forall k :: 0 <= k < 4 ==> 0 <= v[k] <= XZ_MAX) && !(1 <= v[4] <= MAX_STEP)
    case Accepted(r) => InRange(v) && Fits(r) && IsRequest(r, v[0], v[1], v[2], v[3], v[4])
    case TooMany(w, h, need) =>
      && InRange(v) && RefusedFor(need, v[0], v[1], v[2], v[3], v[4])
      && IsRequest(Request(Lesser(v[0], v[2]), Lesser(v[1], v[3]), v[4], w, h), v[0], v[1], v[2], v[3], v[4])
    case _ => false
  }

  method Plan(v: seq<int>) returns (p: Parsed)
    requires |v| == 5
    ensures Planned(v, p) && !p.WrongCount? && !p.NotNumber?
  {
    for i := 0 to 4
      invariant forall k :: 0 <= k < i ==> 0 <= v[k] <= XZ_MAX
    {
      if v[i] < 0 || v[i] > XZ_MAX { return OutOfRange; }
    }
    if v[4] < 1 || v[4] > MAX_STEP { return BadStep; }
    var x0, x1 := Lesser(v[0], v[2]), Greater(v[0], v[2]);
    var z0, z1 := Lesser(v[1], v[3]), Greater(v[1], v[3]);
    var w, h := Samples(x0, x1, v[4]), Samples(z0, z1, v[4]);
    SamplesCover(x0, x1, v[4]);
    SamplesCover(z0, z1, v[4]);
    hide Samples, Planned;
    if w > MAX_SIDE || h > MAX_SIDE {
      var span := if x1 - x0 > z1 - z0 then x1 - x0 else z1 - z0;
      LeastStep(x1 - x0, z1 - z0, span);
      assert !StepFits(x1 - x0, z1 - z0, v[4]) by { SamplesAre(x0, x1, z0, z1, v[4]); }
      hide StepFits;
      RefusalIs(v, w, h, span / MAX_SIDE + 1);
      return TooMany(w, h, span / MAX_SIDE + 1);
    }
    AnswerIs(v, Request(x0, z0, v[4], w, h));
    return Accepted(Request(x0, z0, v[4], w, h));
  }

  lemma RefusalIs(v: seq<int>, w: int, h: int, need: int)
    requires |v| == 5 && InRange(v) && RefusedFor(need, v[0], v[1], v[2], v[3], v[4])
    requires IsRequest(Request(Lesser(v[0], v[2]), Lesser(v[1], v[3]), v[4], w, h), v[0], v[1], v[2], v[3], v[4])
    ensures Planned(v, TooMany(w, h, need))
  {
    hide RefusedFor, IsRequest;
  }

  lemma AnswerIs(v: seq<int>, r: Request)
    requires |v| == 5 && InRange(v) && Fits(r) && IsRequest(r, v[0], v[1], v[2], v[3], v[4])
    ensures Planned(v, Accepted(r))
  {
    hide IsRequest, Fits;
  }

  lemma SamplesAre(x0: int, x1: int, z0: int, z1: int, step: int)
    requires step > 0
    ensures StepFits(x1 - x0, z1 - z0, step) <==> Samples(x0, x1, step) <= MAX_SIDE && Samples(z0, z1, step) <= MAX_SIDE
  {
  }

  lemma SamplesCover(a: int, b: int, step: int)
    requires step > 0 && a <= b
    ensures var n := Samples(a, b, step);
      n >= 1 && a + (n - 1) * step <= b < a + n * step
  {
    assert b - a == (b - a) / step * step + (b - a) % step;
  }

  function Field(s: string): int
  {
    var n := ReadInt(s);
    if n.Some? then n.value else 0
  }

  predicate BadField(s: string) { ReadInt(s).None? || !FitsLong(ReadInt(s).value) }

  /** The samples start at the low corner and are as many as fit up to the high one. */
  predicate IsRequest(r: Request, a: int, b: int, c: int, d: int, step: int) {
    && step > 0 && r.x0 == Lesser(a, c) && r.z0 == Lesser(b, d) && r.step == step
    && r.x0 + (r.w - 1) * step <= Greater(a, c) < r.x0 + r.w * step
    && r.z0 + (r.h - 1) * step <= Greater(b, d) < r.z0 + r.h * step
  }

  /** The step a refusal names is the least that fits: exactly the steps from it on would. */
  ghost predicate RefusedFor(need: int, a: int, b: int, c: int, d: int, step: int) {
    && 0 < step < need
    && forall s :: s > 0 ==> (StepFits(Greater(a, c) - Lesser(a, c), Greater(b, d) - Lesser(b, d), s) <==> AtLeast(s, need))
  }

  predicate AtLeast(s: int, need: int) { s >= need }

  predicate StepFits(dx: int, dz: int, step: int)
    requires step > 0
  {
    dx / step + 1 <= MAX_SIDE && dz / step + 1 <= MAX_SIDE
  }

  lemma LeastStep(dx: int, dz: int, span: int)
    requires dx >= 0 && dz >= 0 && span == if dx > dz then dx else dz
    ensures forall s :: s > 0 ==> (StepFits(dx, dz, s) <==> AtLeast(s, span / MAX_SIDE + 1))
  {
    forall s | s > 0
      ensures StepFits(dx, dz, s) <==> AtLeast(s, span / MAX_SIDE + 1)
    {
      Quotient(dx, s);
      Quotient(dz, s);
    }
  }

  lemma Quotient(d: int, s: int)
    requires d >= 0 && s > 0
    ensures d / s + 1 <= MAX_SIDE <==> d < MAX_SIDE * s
  {
    assert d == d / s * s + d % s;
    if d / s >= MAX_SIDE { assert d / s * s >= MAX_SIDE * s; }
    if d / s < MAX_SIDE { assert d / s * s <= (MAX_SIDE - 1) * s; }
  }

  // --- chunk column by chunk column -----------------------------------------------------------------

  datatype Group = Group(chunk: int, ks: seq<int>)

  datatype Sample = Sample(i: int, j: int, x: int, z: int)

  datatype Visit = Visit(cx: int, cz: int, batch: seq<Sample>)

  function ChunkOf(origin: int, step: int, k: int): int { (origin + k * step) / 16 }

  /** A group: consecutive samples, all in its chunk. */
  predicate Run(g: Group, origin: int, step: int) {
    g.ks != [] && forall t :: 0 <= t < |g.ks| ==> g.ks[t] == g.ks[0] + t && ChunkOf(origin, step, g.ks[t]) == g.chunk
  }

  function End(g: Group): int
    requires g.ks != []
  {
    g.ks[0] + |g.ks|
  }

  /** Samples 0 to n grouped by chunk: each group picks up where the last one stopped, in a later chunk. */
  predicate Grouped(g: seq<Group>, origin: int, step: int, n: int) {
    && (forall a :: 0 <= a < |g| ==> Run(g[a], origin, step))
    && (forall a :: 0 < a < |g| ==> g[a].ks[0] == End(g[a - 1]) && g[a - 1].chunk < g[a].chunk)
    && (if g == [] then n == 0 else g[0].ks[0] == 0 && End(g[|g| - 1]) == n)
  }

  method Groups(origin: int, step: int, n: int) returns (g: seq<Group>)
    requires step >= 1 && n >= 0
    ensures Grouped(g, origin, step, n)
  {
    g := [];
    for k := 0 to n
      invariant Grouped(g, origin, step, k)
    {
      var c := (origin + k * step) / 16;
      if g != [] { LaterChunk(g[|g| - 1], origin, step, k); }
      assert ChunkOf(origin, step, k) == c;
      GroupStep(g, origin, step, k);
      hide ChunkOf, Grouped;
      if g == [] || g[|g| - 1].chunk != c {
        g := g + [Group(c, [k])];
      } else {
        g := g[|g| - 1 := Group(c, g[|g| - 1].ks + [k])];
      }
    }
  }

  lemma GroupStep(g: seq<Group>, origin: int, step: int, k: int)
    requires Grouped(g, origin, step, k) && k >= 0
    requires g != [] ==> g[|g| - 1].chunk <= ChunkOf(origin, step, k)
    ensures var c := ChunkOf(origin, step, k);
      if g == [] || g[|g| - 1].chunk != c then Grouped(g + [Group(c, [k])], origin, step, k + 1)
      else Grouped(g[|g| - 1 := Group(c, g[|g| - 1].ks + [k])], origin, step, k + 1)
  {
    hide ChunkOf;
    if g != [] { assert Run(g[|g| - 1], origin, step); }
  }

  lemma LaterChunk(g: Group, origin: int, step: int, k: int)
    requires step >= 1 && Run(g, origin, step) && k == End(g)
    ensures g.chunk <= ChunkOf(origin, step, k)
  {
    assert g.ks[|g.ks| - 1] == k - 1 && ChunkOf(origin, step, k - 1) == g.chunk;
    assert k * step == (k - 1) * step + step;
  }

  lemma {:induction false} Rising(g: seq<Group>, origin: int, step: int, n: int, a: int, b: int)
    requires Grouped(g, origin, step, n) && 0 <= a < b < |g|
    ensures g[a].chunk < g[b].chunk
    decreases b
  {
    if a < b - 1 { Rising(g, origin, step, n, a, b - 1); }
  }

  /** Every sample is in a group. */
  lemma {:induction false} GroupOf(g: seq<Group>, origin: int, step: int, n: int, k: int) returns (a: int)
    requires Grouped(g, origin, step, n) && 0 <= k < n
    ensures 0 <= a < |g| && k in g[a].ks
  {
    a := 0;
    while End(g[a]) <= k
      invariant 0 <= a < |g| && g[a].ks[0] <= k
      decreases |g| - a
    {
      a := a + 1;
    }
    assert g[a].ks[k - g[a].ks[0]] == k;
  }

  function SampleAt(r: Request, i: int, j: int): Sample { Sample(i, j, r.x0 + i * r.step, r.z0 + j * r.step) }

  function Row(r: Request, xs: seq<int>, j: int): (s: seq<Sample>)
    ensures |s| == |xs| && forall t :: 0 <= t < |xs| ==> s[t] == SampleAt(r, xs[t], j)
  {
    seq(|xs|, t requires 0 <= t < |xs| => SampleAt(r, xs[t], j))
  }

  function Batch(r: Request, xs: seq<int>, zs: seq<int>): seq<Sample> {
    if zs == [] then [] else Batch(r, xs, zs[..|zs| - 1]) + Row(r, xs, zs[|zs| - 1])
  }

  predicate Ascending(ks: seq<int>) { forall t, u :: 0 <= t < u < |ks| ==> ks[t] < ks[u] }

  predicate NoRepeat(b: seq<Sample>) { forall t, u :: 0 <= t < u < |b| ==> b[t] != b[u] }

  /** A batch is every pair of its indices, each once. */
  lemma {:induction false} BatchIs(r: Request, xs: seq<int>, zs: seq<int>)
    requires Ascending(xs) && Ascending(zs)
    ensures forall s :: s in Batch(r, xs, zs) <==> s.i in xs && s.j in zs && s == SampleAt(r, s.i, s.j)
    ensures NoRepeat(Batch(r, xs, zs))
  {
    if zs != [] {
      var init, j := zs[..|zs| - 1], zs[|zs| - 1];
      assert zs == init + [j];
      BatchIs(r, xs, init);
      RowIs(r, xs, j);
      var a, b := Batch(r, xs, init), Row(r, xs, j);
      hide Row, SampleAt, Ascending;
      assert j !in init by { NotBefore(zs); }
      forall x, y | x in a && y in b
        ensures x != y
      {
        assert x.j in init && y.j == j;
      }
      NoRepeatJoin(a, b);
    }
  }

  lemma NoRepeatJoin(a: seq<Sample>, b: seq<Sample>)
    requires NoRepeat(a) && NoRepeat(b) && forall x, y :: x in a && y in b ==> x != y
    ensures NoRepeat(a + b)
  {
    forall t, u | 0 <= t < u < |a + b|
      ensures (a + b)[t] != (a + b)[u]
    {
      if t < |a| && u >= |a| { assert a[t] in a && b[u - |a|] in b; }
    }
  }

  lemma NotBefore(zs: seq<int>)
    requires Ascending(zs) && zs != []
    ensures zs[|zs| - 1] !in zs[..|zs| - 1]
  {
  }

  lemma RowIs(r: Request, xs: seq<int>, j: int)
    requires Ascending(xs)
    ensures forall s :: s in Row(r, xs, j) <==> s.i in xs && s.j == j && s == SampleAt(r, s.i, j)
    ensures NoRepeat(Row(r, xs, j))
  {
    forall s: Sample | s.i in xs && s == SampleAt(r, s.i, j)
      ensures s in Row(r, xs, j)
    {
      var t :| 0 <= t < |xs| && xs[t] == s.i;
      assert Row(r, xs, j)[t] == s;
    }
  }

  predicate Before(a: Visit, b: Visit) { a.cz < b.cz || (a.cz == b.cz && a.cx < b.cx) }

  /** One chunk column's visit: all of its samples, in place, each once. */
  ghost predicate VisitOk(r: Request, v: Visit) {
    && (forall s :: s in v.batch ==> 0 <= s.i < r.w && 0 <= s.j < r.h && s == SampleAt(r, s.i, s.j) && s.x / 16 == v.cx && s.z / 16 == v.cz)
    && NoRepeat(v.batch)
  }

  function VisitOf(r: Request, x: Group, z: Group): Visit { Visit(x.chunk, z.chunk, Batch(r, x.ks, z.ks)) }

  lemma VisitOfOk(r: Request, gx: seq<Group>, gz: seq<Group>, a: int, b: int)
    requires Grouped(gx, r.x0, r.step, r.w) && Grouped(gz, r.z0, r.step, r.h) && 0 <= a < |gx| && 0 <= b < |gz|
    ensures VisitOk(r, VisitOf(r, gx[a], gz[b]))
  {
    var x, z := gx[a], gz[b];
    assert Run(x, r.x0, r.step) && Run(z, r.z0, r.step);
    BatchIs(r, x.ks, z.ks);
    forall s | s in Batch(r, x.ks, z.ks)
      ensures 0 <= s.i < r.w && 0 <= s.j < r.h && s.x / 16 == x.chunk && s.z / 16 == z.chunk
    {
      InGroup(gx, r.x0, r.step, r.w, a, s.i);
      InGroup(gz, r.z0, r.step, r.h, b, s.j);
    }
    hide Batch, Grouped, Run;
  }

  lemma InGroup(g: seq<Group>, origin: int, step: int, n: int, a: int, k: int)
    requires Grouped(g, origin, step, n) && 0 <= a < |g| && k in g[a].ks
    ensures 0 <= k < n && ChunkOf(origin, step, k) == g[a].chunk
  {
    InBounds(g, origin, step, n, a);
    assert Run(g[a], origin, step);
    hide ChunkOf, Grouped;
  }

  lemma {:induction false} InBounds(g: seq<Group>, origin: int, step: int, n: int, a: int)
    requires Grouped(g, origin, step, n) && 0 <= a < |g|
    ensures 0 <= g[a].ks[0] && End(g[a]) <= n
  {
    for b := 0 to a
      invariant 0 <= g[b].ks[0]
    {
    }
    var c := |g| - 1;
    while c > a
      invariant a <= c < |g| && End(g[c]) <= n
      decreases c
    {
      c := c - 1;
    }
  }

  method MakeBatch(r: Request, xs: seq<int>, zs: seq<int>) returns (b: seq<Sample>)
    ensures b == Batch(r, xs, zs)
  {
    b := [];
    for t := 0 to |zs|
      invariant b == Batch(r, xs, zs[..t])
    {
      assert zs[..t + 1][..t] == zs[..t];
      ghost var was := b;
      for u := 0 to |xs|
        invariant b == was + Row(r, xs, zs[t])[..u]
      {
        b := b + [Sample(xs[u], zs[t], r.x0 + xs[u] * r.step, r.z0 + zs[t] * r.step)];
      }
      assert Row(r, xs, zs[t])[..|xs|] == Row(r, xs, zs[t]);
    }
    assert zs[..|zs|] == zs;
  }

  predicate InOrder(visits: seq<Visit>) { forall p, q :: 0 <= p < q < |visits| ==> Before(visits[p], visits[q]) }

  ghost predicate HandedOut(r: Request, visits: seq<Visit>, i: int, j: int) { exists v :: v in visits && SampleAt(r, i, j) in v.batch }

  /** The visits so far: in order, each right, and all from before the current chunk column. */
  ghost predicate Walked(r: Request, gx: seq<Group>, gz: seq<Group>, visits: seq<Visit>, a: int, b: int) {
    InOrder(visits) && AllVisited(r, gx, gz, visits, a, b) && AllEarlier(r, gx, gz, visits, a, b)
  }

  ghost predicate AllEarlier(r: Request, gx: seq<Group>, gz: seq<Group>, visits: seq<Visit>, a: int, b: int) {
    forall v :: v in visits ==> VisitOk(r, v) && Earlier(gx, gz, v, a, b)
  }

  predicate AllVisited(r: Request, gx: seq<Group>, gz: seq<Group>, visits: seq<Visit>, a: int, b: int) {
    forall p, q :: 0 <= p < |gx| && 0 <= q < |gz| && (q < b || (q == b && p < a)) ==> VisitOf(r, gx[p], gz[q]) in visits
  }

  /** A visit of a group pair before (a, b), rows first. */
  ghost predicate Earlier(gx: seq<Group>, gz: seq<Group>, v: Visit, a: int, b: int) {
    exists p, q :: 0 <= p < |gx| && 0 <= q < |gz| && (q < b || (q == b && p < a)) && v.cx == gx[p].chunk && v.cz == gz[q].chunk
  }

  lemma EarlierBefore(r: Request, gx: seq<Group>, gz: seq<Group>, v: Visit, a: int, b: int)
    requires Grouped(gx, r.x0, r.step, r.w) && Grouped(gz, r.z0, r.step, r.h) && 0 <= a < |gx| && 0 <= b < |gz|
    requires Earlier(gx, gz, v, a, b)
    ensures Before(v, VisitOf(r, gx[a], gz[b]))
  {
    var p, q :| 0 <= p < |gx| && 0 <= q < |gz| && (q < b || (q == b && p < a)) && v.cx == gx[p].chunk && v.cz == gz[q].chunk;
    if q < b { Rising(gz, r.z0, r.step, r.h, q, b); } else { Rising(gx, r.x0, r.step, r.w, p, a); }
  }

  lemma WalkStep(r: Request, gx: seq<Group>, gz: seq<Group>, visits: seq<Visit>, a: int, b: int)
    requires Grouped(gx, r.x0, r.step, r.w) && Grouped(gz, r.z0, r.step, r.h) && 0 <= a < |gx| && 0 <= b < |gz|
    requires Walked(r, gx, gz, visits, a, b)
    ensures Walked(r, gx, gz, visits + [VisitOf(r, gx[a], gz[b])], a + 1, b)
  {
    hide Grouped, VisitOk, VisitOf, InOrder, AllEarlier, AllVisited;
    AddVisited(r, gx, gz, visits, a, b);
    AddEarlier(r, gx, gz, visits, a, b);
    AddInOrder(visits, VisitOf(r, gx[a], gz[b]));
  }

  lemma AddEarlier(r: Request, gx: seq<Group>, gz: seq<Group>, visits: seq<Visit>, a: int, b: int)
    requires Grouped(gx, r.x0, r.step, r.w) && Grouped(gz, r.z0, r.step, r.h) && 0 <= a < |gx| && 0 <= b < |gz|
    requires AllEarlier(r, gx, gz, visits, a, b)
    ensures AllEarlier(r, gx, gz, visits + [VisitOf(r, gx[a], gz[b])], a + 1, b)
    ensures forall u :: u in visits ==> Before(u, VisitOf(r, gx[a], gz[b]))
  {
    VisitOfOk(r, gx, gz, a, b);
    EarlierSelf(r, gx, gz, a, b);
    hide Grouped, VisitOk, VisitOf, Before, Earlier;
    forall u | u in visits
      ensures Before(u, VisitOf(r, gx[a], gz[b])) && Earlier(gx, gz, u, a + 1, b)
    {
      EarlierBefore(r, gx, gz, u, a, b);
      StillEarlier(gx, gz, u, a, b);
    }
  }

  lemma AddVisited(r: Request, gx: seq<Group>, gz: seq<Group>, visits: seq<Visit>, a: int, b: int)
    requires AllVisited(r, gx, gz, visits, a, b) && 0 <= a < |gx| && 0 <= b < |gz|
    ensures AllVisited(r, gx, gz, visits + [VisitOf(r, gx[a], gz[b])], a + 1, b)
  {
    hide VisitOf;
  }

  lemma AddInOrder(visits: seq<Visit>, v: Visit)
    requires InOrder(visits) && forall u :: u in visits ==> Before(u, v)
    ensures InOrder(visits + [v])
  {
    hide Before;
    assert forall p :: 0 <= p < |visits| ==> visits[p] in visits;
  }

  lemma EarlierSelf(r: Request, gx: seq<Group>, gz: seq<Group>, a: int, b: int)
    requires 0 <= a < |gx| && 0 <= b < |gz|
    ensures Earlier(gx, gz, VisitOf(r, gx[a], gz[b]), a + 1, b)
  {
  }

  lemma StillEarlier(gx: seq<Group>, gz: seq<Group>, v: Visit, a: int, b: int)
    requires Earlier(gx, gz, v, a, b)
    ensures Earlier(gx, gz, v, a + 1, b)
  {
  }

  lemma WalkStart(r: Request, gx: seq<Group>, gz: seq<Group>)
    ensures Walked(r, gx, gz, [], 0, 0)
  {
  }

  lemma NextRow(r: Request, gx: seq<Group>, gz: seq<Group>, visits: seq<Visit>, b: int)
    ensures Walked(r, gx, gz, visits, |gx|, b) <==> Walked(r, gx, gz, visits, 0, b + 1)
  {
    hide VisitOk, VisitOf, Before, InOrder;
    forall v
      ensures Earlier(gx, gz, v, |gx|, b) <==> Earlier(gx, gz, v, 0, b + 1)
    {
    }
  }

  /** The walk hands out every sample exactly once, in the right chunk column, and visits no chunk
      column twice. */
  method Walk(r: Request) returns (visits: seq<Visit>)
    requires r.w >= 0 && r.h >= 0 && r.step >= 1
    ensures InOrder(visits)
    ensures forall v :: v in visits ==> VisitOk(r, v)
    ensures forall i, j :: 0 <= i < r.w && 0 <= j < r.h ==> HandedOut(r, visits, i, j)
  {
    hide Grouped, VisitOk, Run, Batch, Walked, Before, SampleAt;
    var gx := Groups(r.x0, r.step, r.w);
    var gz := Groups(r.z0, r.step, r.h);
    visits := [];
    WalkStart(r, gx, gz);
    for b := 0 to |gz|
      invariant Walked(r, gx, gz, visits, 0, b)
    {
      for a := 0 to |gx|
        invariant Walked(r, gx, gz, visits, a, b)
      {
        var batch := MakeBatch(r, gx[a].ks, gz[b].ks);
        WalkStep(r, gx, gz, visits, a, b);
        visits := visits + [Visit(gx[a].chunk, gz[b].chunk, batch)];
      }
      NextRow(r, gx, gz, visits, b);
    }
    WalkedAll(r, gx, gz, visits);
  }

  lemma WalkedAll(r: Request, gx: seq<Group>, gz: seq<Group>, visits: seq<Visit>)
    requires Grouped(gx, r.x0, r.step, r.w) && Grouped(gz, r.z0, r.step, r.h) && Walked(r, gx, gz, visits, 0, |gz|)
    ensures InOrder(visits)
    ensures forall v :: v in visits ==> VisitOk(r, v)
    ensures forall i, j :: 0 <= i < r.w && 0 <= j < r.h ==> HandedOut(r, visits, i, j)
  {
    hide Grouped, VisitOk, VisitOf, Before, SampleAt;
    forall i, j | 0 <= i < r.w && 0 <= j < r.h
      ensures HandedOut(r, visits, i, j)
    {
      var a := GroupOf(gx, r.x0, r.step, r.w, i);
      var b := GroupOf(gz, r.z0, r.step, r.h, j);
      InVisit(r, gx, gz, a, b, i, j);
      assert VisitOf(r, gx[a], gz[b]) in visits;
    }
  }

  lemma InVisit(r: Request, gx: seq<Group>, gz: seq<Group>, a: int, b: int, i: int, j: int)
    requires Grouped(gx, r.x0, r.step, r.w) && Grouped(gz, r.z0, r.step, r.h) && 0 <= a < |gx| && 0 <= b < |gz|
    requires i in gx[a].ks && j in gz[b].ks
    ensures SampleAt(r, i, j) in VisitOf(r, gx[a], gz[b]).batch
  {
    assert Run(gx[a], r.x0, r.step) && Run(gz[b], r.z0, r.step);
    BatchIs(r, gx[a].ks, gz[b].ks);
    hide Batch;
  }
}
