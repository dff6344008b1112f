/** The block grid `Blocks[x, z, y]` shared by every pass, and the facts the passes keep about it. */
module Grid {
  import opened Blocks

  /** Whether `(x, z, y)` addresses a cell of `g` (the grid is indexed x, then z, then y). */
  predicate InBounds(g: array3<Block?>, x: int, z: int, y: int)
  {
    0 <= x < g.Length0 && 0 <= z < g.Length1 && 0 <= y < g.Length2
  }

  /** The cells of `g` that hold a block. */
  ghost function Occupied(g: array3<Block?>): iset<(int, int, int)>
    reads g
  {
    iset p: (int, int, int) | InBounds(g, p.0, p.1, p.2) && g[p.0, p.1, p.2] != null
  }

  /** Every block instance placed in the grid. */
  function AllCells(g: array3<Block?>): set<object>
    reads g
  {
    set x, z, y | 0 <= x < g.Length0 && 0 <= z < g.Length1 && 0 <= y < g.Length2 && g[x, z, y] != null
      :: g[x, z, y] as object
  }

  /** Every placed block names the registry entry of its own kind as its submesh. */
  ghost predicate Consistent(g: array3<Block?>, configs: seq<BlockConfig>)
    reads g
  {
    forall x, z, y :: InBounds(g, x, z, y) && g[x, z, y] != null ==>
      0 <= g[x, z, y].LayerIndex < |configs| && configs[g[x, z, y].LayerIndex] == g[x, z, y].Config
  }

  /** A registry that only grew at its end keeps every placed block consistent. */
  lemma ConsistentGrows(g: array3<Block?>, configs: seq<BlockConfig>, configs': seq<BlockConfig>)
    requires Consistent(g, configs)
    requires |configs| <= |configs'| && configs'[..|configs|] == configs
    ensures Consistent(g, configs')
  {
    forall x, z, y | InBounds(g, x, z, y) && g[x, z, y] != null
      ensures 0 <= g[x, z, y].LayerIndex < |configs'| && configs'[g[x, z, y].LayerIndex] == g[x, z, y].Config
    {
      var k := g[x, z, y].LayerIndex;
      assert configs'[..|configs|][k] == configs'[k];
    }
  }
}
