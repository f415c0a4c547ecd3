/**
 The block a player sees at a cell, as the burn, the fire, the height map, a region reply and a world
 file each make it out: they all agree.
 */
module Sight {
  import opened BaseProfile
  import opened BlockRules
  import Burn
  import EdenExport
  import FireSpread
  import RegionQuery
  import Topmap
  import opened Voxels

  /** The stored cells of one column. */
  function ColumnAt(cells: Cells, x: int, z: int): (m: Topmap.Column)
    ensures forall y :: y in m <==> Pos(x, y, z) in cells
    ensures forall y :: y in m ==> m[y] == cells[Pos(x, y, z)]
  {
    map p | p in cells && p.x == x && p.z == z :: p.y := cells[p]
  }

  /** What a client that draws this terrain shows at a height once it has been told this. */
  function DrawnKind(base: Profile, y: int, told: RegionQuery.Seen): int {
    if told.kind.Some? then told.kind.value else BaseAt(base, y).kind
  }

  ghost predicate Draws(of: int -> int, base: Profile) { forall y :: of(y) == BaseAt(base, y).kind }

  /** Every part of the server takes a cell for the same block, the one a client draws that has been told
      of the cell, or of nothing where nothing is stored. The height map and a world file agree on its
      paint too, which a file drops only where the block is air. */
  lemma OneSight(base: Profile, cells: Cells, env: Burn.Env, s: Burn.Sim, land: FireSpread.Land, p: Pos)
    requires 0 <= p.y < 256 && Draws(env.base, base) && Draws(land.base, base) && s.cells == cells && land.cells == cells
    ensures var seen := Topmap.Effective(base, ColumnAt(cells, p.x, p.z), p.y);
      var told := if p in cells then RegionQuery.Known(cells[p]) else RegionQuery.UNTOLD;
      var filed := EdenExport.FileVoxel(base, cells, p);
      && Burn.SeenKind(env, s, p) == FireSpread.KindAt(land, p) == DrawnKind(base, p.y, told) == seen.kind == filed.kind
      && (seen.kind != AIR ==> filed == seen)
      && (p in cells && seen.kind == AIR ==> filed == Block(AIR, 0))
  {
    assert p == Pos(p.x, p.y, p.z);
  }
}
