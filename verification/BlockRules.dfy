/**
 The block vocabulary that burning depends on: which ids are expansion blocks, what each one
 fills with, which faces of a ramp or side block are solid, and what fire spreads through.
 */
module BlockRules {
  const AIR := 0
  const BEDROCK := 1
  const STONE := 2
  const TNT := 9
  const FIREWORK := 65
  const GOLDEN_CUBE := 71
  const STEEL := 74
  const EXPAND_FIRST := 81
  const EXPAND_LAST := 111
  const BT_TNT := 87
  const PAINTED_BASE := 255

  const STONE_RAMP1 := 24
  const WOOD_RAMP1 := 28
  const SHINGLE_RAMP1 := 32
  const ICE_RAMP1 := 36
  const ICE_RAMP4 := 39
  const STONE_SIDE1 := 40
  const ICE_SIDE4 := 55

  predicate IsExpansion(kind: int) {
    EXPAND_FIRST <= kind <= EXPAND_LAST
  }

  predicate IsFlammable(kind: int) {
    || kind in {5, 6, 7, TNT, 18, 21, FIREWORK, 73}
    || WOOD_RAMP1 <= kind <= WOOD_RAMP1 + 3
    || 44 <= kind <= 47
    || 66 <= kind <= 70
    || IsExpansion(kind)
  }

  /** What ids 82..111 fill with, in id order; every other id fills with air. */
  const MATERIALS: seq<int> :=
    [8, 10, 2, 3, 4, TNT, 7, 56, 58, 57, 6, 5, 13, 14, 22,
     18, 15, 16, 17, 19, 2, 7, 15, 56, 21, 20, 23, FIREWORK, 72, STEEL]

  function ExpansionMaterial(kind: int): int {
    if EXPAND_FIRST < kind <= EXPAND_LAST then MATERIALS[kind - 82] else AIR
  }

  /** The first ramp of a side variant's material; 0 for every other block. */
  function ExpansionRamp(kind: int): int {
    match kind
    case 102 => STONE_RAMP1
    case 103 => WOOD_RAMP1
    case 104 => ICE_RAMP1
    case 105 => SHINGLE_RAMP1
    case _ => 0
  }

  function RampSolidMaterial(ramp1: int): int {
    if ramp1 == STONE_RAMP1 then STONE
    else if ramp1 == ICE_RAMP1 then 15
    else if ramp1 == WOOD_RAMP1 then 7
    else if ramp1 == SHINGLE_RAMP1 then 56
    else ramp1
  }

  /** Horizontal neighbour directions: +x, +z, -x, -z. */
  const FACE_DX: seq<int> := [1, 0, -1, 0]
  const FACE_DZ: seq<int> := [0, 1, 0, -1]

  const RAMP_FACE_SOLID: seq<seq<bool>> :=
    [[false, false, false, true], [true, false, false, false], [false, true, false, false], [false, false, true, false]]
  const SIDE_FACE_SOLID: seq<seq<bool>> :=
    [[false, false, true, true], [true, false, false, true], [true, true, false, false], [false, true, true, false]]

  /** Whether a neighbour of this kind, seen from direction d, is a solid face. */
  predicate FaceSolid(kind: int, d: nat)
    requires d < 4
  {
    if kind <= 0 then false
    else if STONE_RAMP1 <= kind <= ICE_RAMP4 then RAMP_FACE_SOLID[kind % 4][d]
    else if STONE_SIDE1 <= kind <= ICE_SIDE4 then SIDE_FACE_SOLID[kind % 4][d]
    else true
  }

  function One(b: bool): nat { if b then 1 else 0 }

  /** What a side variant's corner cell becomes, by which of its four faces are solid. */
  function RampForFaces(ramp1: int, solid: seq<bool>): int
    requires |solid| == 4
  {
    var n := One(solid[0]) + One(solid[1]) + One(solid[2]) + One(solid[3]);
    if n == 2 && solid[0] && solid[1] then ramp1 + 16
    else if n == 2 && solid[1] && solid[2] then ramp1 + 17
    else if n == 2 && solid[2] && solid[3] then ramp1 + 18
    else if n == 2 && solid[3] && solid[0] then ramp1 + 19
    else if n > 2 then RampSolidMaterial(ramp1)
    else ramp1
  }

  /** The direction a neighbour looks back from. */
  function Back(d: nat): nat
    requires d < 4
    ensures Back(d) < 4 && FACE_DX[Back(d)] == -FACE_DX[d] && FACE_DZ[Back(d)] == -FACE_DZ[d]
  {
    (d + 2) % 4
  }

  /** A corner cell fits its surroundings: between two solid neighbours round a corner it becomes the side
      piece whose solid faces are exactly those towards them, with more of them a block solid all round,
      and in every other case the plain ramp. */
  lemma CornerMeets(ramp1: int, solid: seq<bool>)
    requires ramp1 in {STONE_RAMP1, WOOD_RAMP1, ICE_RAMP1, SHINGLE_RAMP1} && |solid| == 4
    ensures var r, n := RampForFaces(ramp1, solid), One(solid[0]) + One(solid[1]) + One(solid[2]) + One(solid[3]);
      && (n == 2 && solid[0] != solid[2] ==> forall d: nat :: d < 4 ==> (FaceSolid(r, Back(d)) <==> solid[d]))
      && (n > 2 ==> forall d: nat :: d < 4 ==> FaceSolid(r, d))
      && (n < 2 || (n == 2 && solid[0] == solid[2]) ==> r == ramp1)
  {
  }
}
