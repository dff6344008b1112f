/**
 * The cave pass: cells inside the carving window whose cave noise lies above the threshold are
 * emptied. The noise comparison is an oracle `hollow(x, z, y)`; everything else is the integer
 * window and the in-place writes.
 */
module Caves {
  import opened Blocks
  import opened ChunkConfigs
  import opened Mathf
  import opened Grid
  import opened Terrain

  /** The heights the cave pass visits: from `caveMinDepth` up to below `zeroHeight` and the grid top. */
  predicate InWindow(s: GeneratorSettings, h: int, y: int)
  {
    s.caveMinDepth <= y < Min(s.zeroHeight, h)
  }

  /** What carving leaves in a cell that held `c`. */
  function Carve(c: Block?, inWindow: bool, hollow: bool): (r: Block?)
    ensures r == null || r == c
    ensures inWindow && hollow ==> r == null
    ensures r != c ==> inWindow && hollow
  {
    if inWindow && hollow then null else c
  }

  /** The window never reaches below the grid when the source can index it. */
  predicate WindowInGrid(g: array3<Block?>, s: GeneratorSettings)
  {
    g.Length0 == 0 || g.Length1 == 0 || 0 <= s.caveMinDepth || Min(s.zeroHeight, g.Length2) <= s.caveMinDepth
  }

  /** Carves the column `(x, z)`. */
  method CarveColumn(g: array3<Block?>, s: GeneratorSettings, hollow: (int, int, int) -> bool, x: int, z: int)
    modifies g
    requires 0 <= x < g.Length0 && 0 <= z < g.Length1 && WindowInGrid(g, s)
    ensures forall x', z', y' :: InBounds(g, x', z', y') ==>
              g[x', z', y'] == if x' == x && z' == z then Carve(old(g[x', z', y']), InWindow(s, g.Length2, y'), hollow(x', z', y'))
                               else old(g[x', z', y'])
  {
    var h := Min(s.zeroHeight, g.Length2);
    var y := s.caveMinDepth;
    while y < h
      invariant s.caveMinDepth <= h ==> s.caveMinDepth <= y <= h
      invariant forall x', z', y' :: InBounds(g, x', z', y') ==>
                  g[x', z', y'] == if x' == x && z' == z && y' < y then Carve(old(g[x', z', y']), InWindow(s, g.Length2, y'), hollow(x', z', y'))
                                   else old(g[x', z', y'])
    {
      if hollow(x, z, y) && g[x, z, y] != null {
        g[x, z, y] := null;
      }
      y := y + 1;
    }
  }

  /** Carves the columns `(x, 0)` to `(x, l - 1)`. */
  method CarveRow(g: array3<Block?>, s: GeneratorSettings, hollow: (int, int, int) -> bool, x: int)
    modifies g
    requires 0 <= x < g.Length0 && WindowInGrid(g, s)
    ensures forall x', z', y' :: InBounds(g, x', z', y') ==>
              g[x', z', y'] == if x' == x then Carve(old(g[x', z', y']), InWindow(s, g.Length2, y'), hollow(x', z', y'))
                               else old(g[x', z', y'])
  {
    for z := 0 to g.Length1
      invariant forall x', z', y' :: InBounds(g, x', z', y') ==>
                  g[x', z', y'] == if x' == x && z' < z then Carve(old(g[x', z', y']), InWindow(s, g.Length2, y'), hollow(x', z', y'))
                                   else old(g[x', z', y'])
    {
      CarveColumn(g, s, hollow, x, z);
    }
  }

  /**
   * The cave pass over the whole grid: every cell ends up as `Carve` of its old content, so
   * cells only ever become empty, and only inside the window; the stratification of the
   * terrain and its consistency with the registry survive.
   */
  method GenerateCaves(g: array3<Block?>, s: GeneratorSettings, hollow: (int, int, int) -> bool,
                       ghost hm: array2<int>, ghost configs: seq<BlockConfig>, ghost layers: seq<ChunkLayer>)
    modifies g
    requires WindowInGrid(g, s)
    ensures forall x, z, y :: InBounds(g, x, z, y) ==>
              g[x, z, y] == Carve(old(g[x, z, y]), InWindow(s, g.Length2, y), hollow(x, z, y))
    ensures forall x, z, y :: InBounds(g, x, z, y) ==>
              g[x, z, y] == old(g[x, z, y]) || (g[x, z, y] == null && InWindow(s, g.Length2, y))
    ensures old(Stratified(g, hm, configs, layers)) ==> Stratified(g, hm, configs, layers)
    ensures old(Consistent(g, configs)) ==> Consistent(g, configs)
  {
    for x := 0 to g.Length0
      invariant forall x', z', y' :: InBounds(g, x', z', y') ==>
                  g[x', z', y'] == if x' < x then Carve(old(g[x', z', y']), InWindow(s, g.Length2, y'), hollow(x', z', y'))
                                   else old(g[x', z', y'])
    {
      CarveRow(g, s, hollow, x);
    }
    if old(Stratified(g, hm, configs, layers)) {
      forall x, z, y | InBounds(g, x, z, y)
        ensures CellOk(g[x, z, y], hm[x, z] - 1 - y, configs, layers)
      {
        assert old(CellOk(g[x, z, y], hm[x, z] - 1 - y, configs, layers));
      }
    }
  }
}
