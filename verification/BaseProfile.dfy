/** The terrain a client draws for itself: one block for every height, air above the last layer. */
module BaseProfile {
  import opened BlockRules
  import opened Voxels

  type Profile = seq<Block>

  function BaseAt(base: Profile, y: int): Block {
    if 0 <= y < |base| then base[y] else Block(AIR, 0)
  }

  predicate ByteProfile(base: Profile) { forall i :: 0 <= i < |base| ==> 0 <= base[i].kind < 256 && 0 <= base[i].color < 256 }
}
