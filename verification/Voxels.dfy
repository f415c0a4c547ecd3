/**
 The world as the server stores it: a finite map from cells to blocks, over x and z in 24 bits and
 256 layers of height.
 */
module Voxels {
  import opened BlockRules

  datatype Pos = Pos(x: int, y: int, z: int)
  datatype Block = Block(kind: int, color: int)
  type Cells = map<Pos, Block>

  datatype Option<+T> = None | Some(value: T)

  const WORLD_MAX := 0xFFFFFF
  const Y_MIN := 0
  const Y_MAX := 256

  predicate InWorld(p: Pos) {
    0 <= p.x <= WORLD_MAX && 0 <= p.z <= WORLD_MAX && Y_MIN <= p.y < Y_MAX
  }

  /** The 64-bit key of a cell: x and z in 24 bits, y in 16. */
  function Key(p: Pos): int {
    p.x % 0x100_0000 * 0x100_0000_0000 + p.z % 0x100_0000 * 0x1_0000 + p.y % 0x1_0000
  }

  lemma KeyInWorld(p: Pos)
    requires InWorld(p)
    ensures Key(p) == (p.x * 0x100_0000 + p.z) * 0x1_0000 + p.y
  {
  }

  /** Cells of the world have different keys. */
  lemma KeyInjective(p: Pos, q: Pos)
    requires InWorld(p) && InWorld(q) && Key(p) == Key(q)
    ensures p == q
  {
    KeyInWorld(p);
    KeyInWorld(q);
  }

  /** The id the store keeps for a cell mined to air; it reads back as air. */
  const MINED := 254

  /** A block as the store keeps it: a byte each, and never the mined id. */
  function StoredBlock(kind: int, color: int): Block {
    Block(if kind % 256 == MINED then AIR else kind % 256, color % 256)
  }
}
