/**
 * The grid part of a hit at a world position: once the position has been turned into cell
 * coordinates, the cell is bounds-checked, a live block there takes the damage, and the result
 * says whether that block is now destroyed. The float conversion of the position and the mesh
 * rebuild after a hit are left out.
 */
module Renderer {
  import opened Blocks
  import opened Grid

  /** The block a hit at cell (x, y, z) lands on, if any: the live block there. */
  function Target(g: array3<Block?>, x: int, y: int, z: int): (b: Block?)
    reads g
    ensures b != null ==> InBounds(g, x, z, y) && b == g[x, z, y]
  {
    if InBounds(g, x, z, y) then g[x, z, y] else null
  }

  /**
   * Hits cell (x, y, z) of `g`, whose extents are the chunk's width, length and height.
   * Outside the grid, or on an empty or destroyed cell, nothing changes and the answer is false.
   * Otherwise the block there takes exactly one hit of `damage`, and the answer is whether it
   * is destroyed afterwards. No cell of the grid and no other block changes.
   */
  method HitBlockAt(g: array3<Block?>, x: int, y: int, z: int, damage: int) returns (destroyed: bool)
    modifies if Target(g, x, y, z) != null then {Target(g, x, y, z)} else {}
    ensures !InBounds(g, x, z, y) ==> !destroyed
    ensures InBounds(g, x, z, y) && (g[x, z, y] == null || old(g[x, z, y].IsDestroyed())) ==>
              !destroyed && (g[x, z, y] != null ==> unchanged(g[x, z, y]))
    ensures InBounds(g, x, z, y) && g[x, z, y] != null && !old(g[x, z, y].IsDestroyed()) ==>
              && g[x, z, y].CurrentHealth == HitHealth(old(g[x, z, y].CurrentHealth), damage)
              && destroyed == g[x, z, y].IsDestroyed()
              && (destroyed <==> old(g[x, z, y].CurrentHealth) <= damage)
    ensures forall a, c, b :: InBounds(g, a, c, b) && g[a, c, b] != null && g[a, c, b] != Target(g, x, y, z) ==>
              g[a, c, b].CurrentHealth == old(g[a, c, b].CurrentHealth)
  {
    if x < 0 || y < 0 || z < 0 || x >= g.Length0 || y >= g.Length2 || z >= g.Length1 {
      return false;
    }
    var block := g[x, z, y];
    if block == null || block.IsDestroyed() {
      return false;
    }
    block.Hit(damage);
    destroyed := block.IsDestroyed();
  }
}
