/**
 * The base terrain pass: every column is filled from its surface downwards with the layer
 * stack, ore clusters are seeded into the layer being laid, and a backfill then spends up to 100
 * draws on each unit an ore still lacks of its minimum quota. Random draws are nondeterministic choices within the ranges
 * `System.Random.Next` and `Random.value` document.
 */
module Terrain {
  import opened Vectors
  import opened Blocks
  import opened ChunkConfigs
  import opened Registry
  import opened Mathf
  import opened Grid

  /** The height map covers exactly the columns of the grid. */
  predicate Shape(g: array3<Block?>, hm: array2<int>)
  {
    hm.Length0 == g.Length0 && hm.Length1 == g.Length1
  }

  /** No surface lies above height `h`, the top of the grid. */
  ghost predicate HeightsFit(hm: array2<int>, h: int)
    reads hm
  {
    forall x, z :: 0 <= x < hm.Length0 && 0 <= z < hm.Length1 ==> hm[x, z] <= h
  }

  /** Some rule of the layer has a positive minimum quota, so the backfill may draw for it. */
  predicate Refills(ores: seq<OreConfig>)
  {
    exists k :: 0 <= k < |ores| && ores[k].minTotalOres > 0
  }

  /**
   * What the ore draws of `layer` need from a column `height` tall in a grid `h` tall: a cluster
   * clamps its heights into the top `thickness` cells of the column, and a backfill draw picks
   * one of them, or the cell just above the surface when the thickness is zero.
   */
  predicate ColumnSafe(layer: ChunkLayer, height: int, h: int)
  {
    && (layer.ores != [] && layer.thickness >= 1 ==> layer.thickness <= height)
    && (Refills(layer.ores) ==> layer.thickness <= height && (layer.thickness == 0 ==> height < h))
  }

  /** A backfill draw needs a column to draw and a range of heights that is not reversed. */
  predicate LayerSafe(layer: ChunkLayer, w: int, l: int)
  {
    Refills(layer.ores) ==> 0 <= layer.thickness && 1 <= w && 1 <= l
  }

  /** What the ore draws need in order to stay inside a grid `h` tall over the height map `hm`. */
  ghost predicate OreSafe(layers: seq<ChunkLayer>, hm: array2<int>, h: int)
    reads hm
  {
    forall i :: 0 <= i < |layers| ==>
      && LayerSafe(layers[i], hm.Length0, hm.Length1)
      && forall x, z :: 0 <= x < hm.Length0 && 0 <= z < hm.Length1 ==> ColumnSafe(layers[i], hm[x, z], h)
  }

  /** Whether a block of kind `c` may sit `d` cells below the surface: inside a stratum, and of its kind or an ore. */
  predicate Belongs(layers: seq<ChunkLayer>, d: int, c: BlockConfig)
  {
    match StratumAt(layers, d)
    case None => false
    case Some(i) => c == layers[i].bloc || PlacesOre(layers, c)
  }

  /**
   * A cell `d` cells below its column's surface is empty, or holds a block that names its own
   * registry entry and belongs to that depth.
   */
  predicate CellOk(c: Block?, d: int, configs: seq<BlockConfig>, layers: seq<ChunkLayer>)
  {
    c == null || (0 <= c.LayerIndex < |configs| && configs[c.LayerIndex] == c.Config && Belongs(layers, d, c.Config))
  }

  /**
   * Every cell of the grid is in order: each placed block lies in its column inside the stratum
   * that owns its depth, is that stratum's block or an ore, and is consistent with the registry.
   */
  ghost predicate Stratified(g: array3<Block?>, hm: array2<int>, configs: seq<BlockConfig>, layers: seq<ChunkLayer>)
    reads g, hm
  {
    Shape(g, hm) &&
    forall x, z, y :: InBounds(g, x, z, y) ==> CellOk(g[x, z, y], hm[x, z] - 1 - y, configs, layers)
  }

  /** A stratified grid is consistent with its registry. */
  lemma StratifiedConsistent(g: array3<Block?>, hm: array2<int>, configs: seq<BlockConfig>, layers: seq<ChunkLayer>)
    requires Stratified(g, hm, configs, layers)
    ensures Consistent(g, configs)
  {
  }

  /** A registry that only grew keeps a stratified grid stratified. */
  lemma StratifiedGrows(g: array3<Block?>, hm: array2<int>, configs: seq<BlockConfig>, configs': seq<BlockConfig>,
                        layers: seq<ChunkLayer>)
    requires Stratified(g, hm, configs, layers)
    requires |configs| <= |configs'| && configs'[..|configs|] == configs
    ensures Stratified(g, hm, configs', layers)
  {
    forall x, z, y | InBounds(g, x, z, y)
      ensures CellOk(g[x, z, y], hm[x, z] - 1 - y, configs', layers)
    {
      var c := g[x, z, y];
      if c != null {
        assert configs'[..|configs|][c.LayerIndex] == configs'[c.LayerIndex];
      }
    }
  }

  /** Column `(x, z)` is occupied at every height some stratum owns. */
  ghost predicate Filled(g: array3<Block?>, hm: array2<int>, layers: seq<ChunkLayer>, x: int, z: int)
    reads g, hm
  {
    Shape(g, hm) && 0 <= x < g.Length0 && 0 <= z < g.Length1 &&
    forall y :: 0 <= y < g.Length2 && StratumAt(layers, hm[x, z] - 1 - y).Some? ==> (x, z, y) in Occupied(g)
  }

  /** Column `(x, z)` holds a block at every height from `lo` to `hi`. */
  ghost predicate Laid(g: array3<Block?>, x: int, z: int, lo: int, hi: int)
    reads g
  {
    0 <= x < g.Length0 && 0 <= z < g.Length1 && forall y :: lo <= y <= hi && 0 <= y < g.Length2 ==> g[x, z, y] != null
  }

  /** Each ore's count equals the number of coordinates recorded for it. */
  predicate Ledger(counts: map<BlockConfig, int>, veins: map<BlockConfig, seq<Vector3Int>>)
  {
    && (forall b :: b in veins ==> b in counts && counts[b] == |veins[b]|)
    && (forall b :: b in counts && b !in veins ==> counts[b] == 0)
  }

  /** Every recorded vein coordinate `(x, y, z)` addresses a cell of a `w` by `l` by `h` grid. */
  predicate VeinsWithin(veins: map<BlockConfig, seq<Vector3Int>>, w: int, l: int, h: int)
  {
    forall b, k :: b in veins && 0 <= k < |veins[b]| ==>
      0 <= veins[b][k].x < w && 0 <= veins[b][k].z < l && 0 <= veins[b][k].y < h
  }

  /** The cap of every ore kind of the stack: the largest limit among the rules that place it. */
  ghost function Caps(layers: seq<ChunkLayer>, withQuota: bool): (caps: map<BlockConfig, int>)
    ensures caps.Keys == OreBlocks(layers)
    ensures forall b :: b in caps ==> caps[b] == Cap(layers, b, withQuota)
  {
    map b | b in OreBlocks(layers) :: Cap(layers, b, withQuota)
  }

  /** Every ore rule of the stack has an entry in `caps` no smaller than the rule's own limit. */
  ghost predicate Covers(layers: seq<ChunkLayer>, caps: map<BlockConfig, int>, withQuota: bool)
  {
    forall i, k :: 0 <= i < |layers| && 0 <= k < |layers[i].ores| ==>
      layers[i].ores[k].block in caps && Limit(layers[i].ores[k], withQuota) <= caps[layers[i].ores[k].block]
  }

  /** The caps of a stack bound each of its rules. */
  lemma CapsCover(layers: seq<ChunkLayer>, withQuota: bool)
    ensures Covers(layers, Caps(layers, withQuota), withQuota)
  {
    forall i, k | 0 <= i < |layers| && 0 <= k < |layers[i].ores|
      ensures layers[i].ores[k].block in Caps(layers, withQuota)
    {
      assert layers[i].ores[k].block in OreBlocks(layers);
    }
  }

  /** Counts within the caps without quotas stay within the caps with quotas. */
  lemma CapsGrow(layers: seq<ChunkLayer>, counts: map<BlockConfig, int>)
    requires CountsWithin(counts, Caps(layers, false))
    ensures CountsWithin(counts, Caps(layers, true))
  {
    forall b | b in counts
      ensures counts[b] <= Caps(layers, true)[b]
    {
      CapWithQuota(layers, b);
    }
  }

  /** Every ore kind has a counter, and no count exceeds its kind's cap. */
  predicate CountsWithin(counts: map<BlockConfig, int>, caps: map<BlockConfig, int>)
  {
    counts.Keys == caps.Keys && forall b :: b in counts ==> counts[b] <= caps[b]
  }

  /** Every ore kind of the stack already has a registry entry. */
  ghost predicate OresRegistered(reg: Registry, layers: seq<ChunkLayer>)
  {
    forall b :: b in OreBlocks(layers) ==> b in reg.index
  }

  /**
   * The registry as the terrain pass leaves it: consistent, grown from `reg0` only at its end and
   * only by ore kinds (and not at all when the ores were registered up front), with an entry for
   * every layer block.
   */
  ghost predicate RegistryKept(reg0: Registry, reg: Registry, layers: seq<ChunkLayer>)
  {
    && Valid(reg) && Extends(reg, reg0) && (OresRegistered(reg0, layers) ==> reg == reg0)
    && (forall b :: b in reg.configs[|reg0.configs|..] ==> b in OreBlocks(layers))
    && (forall i :: 0 <= i < |layers| ==> layers[i].bloc in reg.index)
  }

  /** Registering an ore kind of the stack keeps the registry as the terrain pass keeps it. */
  lemma RegisterKept(reg0: Registry, reg: Registry, layers: seq<ChunkLayer>, b: BlockConfig)
    requires RegistryKept(reg0, reg, layers) && b in OreBlocks(layers)
    ensures RegistryKept(reg0, Register(reg, b).0, layers) && Extends(Register(reg, b).0, reg)
  {
    var reg' := Register(reg, b).0;
    ExtendsTrans(reg', reg, reg0);
    if b !in reg.index {
      assert OresRegistered(reg0, layers) ==> b in reg0.index;
      assert reg'.configs[|reg0.configs|..] == reg.configs[|reg0.configs|..] + [b];
    }
  }

  /** The cell holds a block drawn in submesh `gi`: an ore draw of a layer with that submesh takes it. */
  predicate Hosts(c: Block?, gi: int)
  {
    c != null && c.LayerIndex == gi
  }

  /**
   * What an ore pass may leave in a cell that held `before`: the same block, or a block of one of
   * the `kinds` in place of a block of kind `bloc` drawn in submesh `gi`.
   */
  predicate Reseeded(c: Block?, before: Block?, gi: int, bloc: BlockConfig, kinds: set<BlockConfig>)
  {
    c == before || (Hosts(before, gi) && before.Config == bloc && c != null && c.Config in kinds)
  }

  /** The same across layers: a block of one of the `kinds` in place of a block of one of the `blocs`. */
  predicate Replaced(c: Block?, before: Block?, blocs: set<BlockConfig>, kinds: set<BlockConfig>)
  {
    c == before || (before != null && before.Config in blocs && c != null && c.Config in kinds)
  }

  /** The kinds the layers of the stack are made of. */
  function StratumBlocks(layers: seq<ChunkLayer>): set<BlockConfig>
  {
    set i | 0 <= i < |layers| :: layers[i].bloc
  }

  /** The kinds the rules of one layer place. */
  function RuleBlocks(ores: seq<OreConfig>): set<BlockConfig>
  {
    set k | 0 <= k < |ores| :: ores[k].block
  }

  /** The ore ledger as the terrain pass keeps it: counts matching veins inside the grid, within the caps. */
  predicate LedgerKept(counts: map<BlockConfig, int>, veins: map<BlockConfig, seq<Vector3Int>>,
                       caps: map<BlockConfig, int>, w: int, l: int, h: int)
  {
    CountsWithin(counts, caps) && Ledger(counts, veins) && VeinsWithin(veins, w, l, h)
  }

  /**
   * Records one placed ore at `p`: appends the coordinate to the kind's vein, creating the vein
   * first if needed, and bumps the kind's counter.
   */
  function Record(counts: map<BlockConfig, int>, veins: map<BlockConfig, seq<Vector3Int>>, b: BlockConfig, p: Vector3Int)
    : (r: (map<BlockConfig, int>, map<BlockConfig, seq<Vector3Int>>))
    requires b in counts && Ledger(counts, veins)
    ensures Ledger(r.0, r.1)
    ensures r.0 == counts[b := counts[b] + 1]
    ensures r.1 == veins[b := (if b in veins then veins[b] else []) + [p]]
  {
    var vein := if b in veins then veins[b] else [];
    (counts[b := counts[b] + 1], veins[b := vein + [p]])
  }

  /** Recording an ore inside the grid, below its cap, keeps the ledger in order. */
  lemma RecordKept(counts: map<BlockConfig, int>, veins: map<BlockConfig, seq<Vector3Int>>, caps: map<BlockConfig, int>,
                   b: BlockConfig, p: Vector3Int, w: int, l: int, h: int)
    requires LedgerKept(counts, veins, caps, w, l, h)
    requires b in counts && counts[b] < caps[b]
    requires 0 <= p.x < w && 0 <= p.z < l && 0 <= p.y < h
    ensures LedgerKept(Record(counts, veins, b, p).0, Record(counts, veins, b, p).1, caps, w, l, h)
  {
    var vein: seq<Vector3Int> := if b in veins then veins[b] else [];
    var veins': map<BlockConfig, seq<Vector3Int>> := veins[b := vein + [p]];
    forall c: BlockConfig, k: int | c in veins' && 0 <= k < |veins'[c]|
      ensures 0 <= veins'[c][k].x < w && 0 <= veins'[c][k].z < l && 0 <= veins'[c][k].y < h
    {
      if c == b && k < |vein| {
        assert veins'[c][k] == vein[k];
      }
    }
  }

  /** The ore counter starts at zero for every ore kind of every layer. */
  method InitOreCounts(layers: seq<ChunkLayer>) returns (counts: map<BlockConfig, int>)
    ensures counts.Keys == OreBlocks(layers)
    ensures forall b :: b in counts ==> counts[b] == 0
  {
    counts := map[];
    for i := 0 to |layers|
      invariant counts.Keys == set i', k | 0 <= i' < i && 0 <= k < |layers[i'].ores| :: layers[i'].ores[k].block
      invariant forall b :: b in counts ==> counts[b] == 0
    {
      ghost var before := counts.Keys;
      for k := 0 to |layers[i].ores|
        invariant counts.Keys == before + set k' | 0 <= k' < k :: layers[i].ores[k'].block
        invariant forall b :: b in counts ==> counts[b] == 0
      {
        counts := counts[layers[i].ores[k].block := 0];
      }
    }
  }

  /** Puts block `b` into a cell where it belongs; every other cell keeps its block. */
  method Put(g: array3<Block?>, ghost hm: array2<int>, ghost configs: seq<BlockConfig>, ghost layers: seq<ChunkLayer>,
             x: int, z: int, y: int, b: Block)
    modifies g
    requires Stratified(g, hm, configs, layers) && InBounds(g, x, z, y)
    requires CellOk(b, hm[x, z] - 1 - y, configs, layers)
    ensures Stratified(g, hm, configs, layers) && g[x, z, y] == b
    ensures forall x', z', y' :: InBounds(g, x', z', y') && (x', z', y') != (x, z, y) ==> g[x', z', y'] == old(g[x', z', y'])
    ensures Occupied(g) == old(Occupied(g)) + iset{(x, z, y)}
    ensures old(g[x, z, y]) != null ==> Occupied(g) == old(Occupied(g))
  {
    g[x, z, y] := b;
    forall x', z', y' | InBounds(g, x', z', y')
      ensures CellOk(g[x', z', y'], hm[x', z'] - 1 - y', configs, layers)
    {
      if (x', z', y') != (x, z, y) {
        assert g[x', z', y'] == old(g[x', z', y']);
      }
    }
  }

  /**
   * Places one ore block at `(dx, dy, dz)` if the cell there holds a block of the layer being
   * seeded (index `gi`), looking the ore kind up and registering it if it has no entry. Shared by
   * the seeding pass and the backfill.
   */
  method PlaceOre(g: array3<Block?>, ghost hm: array2<int>, ghost layers: seq<ChunkLayer>, ghost i: nat, ghost k: nat,
                  ghost reg0: Registry, reg: Registry, ore: OreConfig, gi: int, transparent: bool,
                  dx: int, dy: int, dz: int)
    returns (reg': Registry, placed: bool)
    modifies g
    requires InBounds(g, dx, dz, dy)
    requires Stratified(g, hm, reg.configs, layers) && RegistryKept(reg0, reg, layers)
    requires i < |layers| && k < |layers[i].ores| && layers[i].ores[k] == ore && gi == reg.index[layers[i].bloc]
    ensures Stratified(g, hm, reg'.configs, layers) && RegistryKept(reg0, reg', layers) && Extends(reg', reg)
    ensures placed <==> old(g[dx, dz, dy]) != null && old(g[dx, dz, dy]).LayerIndex == gi
    ensures placed ==> old(g[dx, dz, dy]).Config == layers[i].bloc
    ensures placed ==> g[dx, dz, dy] != null && g[dx, dz, dy].Config == ore.block
                       && g[dx, dz, dy].IsTransparent == transparent && g[dx, dz, dy].LayerIndex == reg'.index[ore.block]
    ensures !placed ==> g[dx, dz, dy] == old(g[dx, dz, dy]) && reg' == reg
    ensures forall x, z, y :: InBounds(g, x, z, y) && (x, z, y) != (dx, dz, dy) ==> g[x, z, y] == old(g[x, z, y])
    ensures Occupied(g) == old(Occupied(g))
  {
    reg', placed := reg, false;
    var cell := g[dx, dz, dy];
    if cell != null && cell.LayerIndex == gi {
      assert ore.block in OreBlocks(layers);
      PlacesOreIff(layers, ore.block);
      assert CellOk(cell, hm[dx, dz] - 1 - dy, reg.configs, layers);
      RegisterKept(reg0, reg, layers, ore.block);
      var res := Register(reg, ore.block);
      reg' := res.0;
      var oreIdx := res.1;
      StratifiedGrows(g, hm, reg.configs, reg'.configs, layers);
      var b := new Block(oreIdx, ore.block, transparent);
      Put(g, hm, reg'.configs, layers, dx, dz, dy, b);
      placed := true;
    }
  }

  /**
   * Everything the terrain pass keeps while it seeds ores: the grid is stratified and consistent
   * with the registry, the registry only grew, the ledger is in order and within the caps.
   */
  ghost predicate Seeding(g: array3<Block?>, hm: array2<int>, layers: seq<ChunkLayer>, reg0: Registry, reg: Registry,
                          counts: map<BlockConfig, int>, veins: map<BlockConfig, seq<Vector3Int>>, caps: map<BlockConfig, int>)
    reads g, hm
  {
    && Stratified(g, hm, reg.configs, layers) && RegistryKept(reg0, reg, layers)
    && LedgerKept(counts, veins, caps, g.Length0, g.Length1, g.Length2)
  }

  /**
   * One ore draw that lands on `(dx, dy, dz)`: places the ore there if the cell holds a block
   * of its layer, and then records the coordinate and bumps the count.
   */
  method Strike(g: array3<Block?>, ghost hm: array2<int>, ghost layers: seq<ChunkLayer>, ghost i: nat, ghost k: nat,
                ghost reg0: Registry, reg: Registry, counts: map<BlockConfig, int>,
                veins: map<BlockConfig, seq<Vector3Int>>, ghost caps: map<BlockConfig, int>, ore: OreConfig, gi: int,
                transparent: bool, dx: int, dy: int, dz: int)
    returns (reg': Registry, counts': map<BlockConfig, int>, veins': map<BlockConfig, seq<Vector3Int>>, placed: bool)
    modifies g
    requires InBounds(g, dx, dz, dy)
    requires Seeding(g, hm, layers, reg0, reg, counts, veins, caps)
    requires i < |layers| && k < |layers[i].ores| && layers[i].ores[k] == ore && gi == reg.index[layers[i].bloc]
    requires ore.block in counts && counts[ore.block] < caps[ore.block]
    ensures Seeding(g, hm, layers, reg0, reg', counts', veins', caps)
    ensures gi == reg'.index[layers[i].bloc]
    ensures placed <==> old(g[dx, dz, dy]) != null && old(g[dx, dz, dy]).LayerIndex == gi
    ensures placed ==> old(g[dx, dz, dy]).Config == layers[i].bloc
    ensures placed ==> g[dx, dz, dy] != null && g[dx, dz, dy].Config == ore.block
                       && g[dx, dz, dy].IsTransparent == transparent && g[dx, dz, dy].LayerIndex == reg'.index[ore.block]
    ensures placed ==> (counts', veins') == Record(counts, veins, ore.block, Vector3Int(dx, dy, dz))
    ensures placed ==> counts' == counts[ore.block := counts[ore.block] + 1]
    ensures !placed ==> g[dx, dz, dy] == old(g[dx, dz, dy]) && reg' == reg && counts' == counts && veins' == veins
    ensures forall x, z, y :: InBounds(g, x, z, y) && (x, z, y) != (dx, dz, dy) ==> g[x, z, y] == old(g[x, z, y])
    ensures Occupied(g) == old(Occupied(g))
  {
    RecordKept(counts, veins, caps, ore.block, Vector3Int(dx, dy, dz), g.Length0, g.Length1, g.Length2);
    reg', placed := PlaceOre(g, hm, layers, i, k, reg0, reg, ore, gi, transparent, dx, dy, dz);
    counts', veins' := counts, veins;
    if placed {
      var r := Record(counts, veins, ore.block, Vector3Int(dx, dy, dz));
      counts', veins' := r.0, r.1;
    }
  }

  /**
   * `(dx, dz, dy)` is a cell a cluster around `(x, z, y)` can draw: one step away or less on each
   * horizontal axis, and in the top `thickness` cells of its column, where it is one step away
   * or less from `y` unless clamped to the top or bottom of that band.
   */
  ghost predicate Neighbour(g: array3<Block?>, hm: array2<int>, thickness: int, x: int, z: int, y: int,
                            dx: int, dz: int, dy: int)
    reads hm
  {
    && InBounds(g, dx, dz, dy) && -1 <= dx - x <= 1 && -1 <= dz - z <= 1
    && dx < hm.Length0 && dz < hm.Length1
    && hm[dx, dz] - thickness <= dy < hm[dx, dz]
    && (-1 <= dy - y <= 1 || dy == hm[dx, dz] - thickness || dy == hm[dx, dz] - 1)
  }

  /**
   * One draw of a cluster grown around `(x, z, y)`: a neighbour `(dx, dz, dy)` of the cell one
   * step away on every axis, clamped into the chunk horizontally and into the top `thickness`
   * cells of the drawn column, which takes the ore exactly when it holds a block of the layer.
   */
  method Spread(g: array3<Block?>, hm: array2<int>, ghost layers: seq<ChunkLayer>, ghost i: nat, ghost k: nat,
                ghost reg0: Registry, reg: Registry, counts: map<BlockConfig, int>,
                veins: map<BlockConfig, seq<Vector3Int>>, ghost caps: map<BlockConfig, int>, ore: OreConfig,
                thickness: int, gi: int, x: int, z: int, y: int)
    returns (reg': Registry, counts': map<BlockConfig, int>, veins': map<BlockConfig, seq<Vector3Int>>,
             placed: bool, dx: int, dy: int, dz: int)
    modifies g
    requires Shape(g, hm) && HeightsFit(hm, g.Length2) && OreSafe(layers, hm, g.Length2)
    requires i < |layers| && k < |layers[i].ores| && layers[i].ores[k] == ore && thickness == layers[i].thickness
    requires 0 <= x < g.Length0 && 0 <= z < g.Length1 && thickness >= 1
    requires Seeding(g, hm, layers, reg0, reg, counts, veins, caps) && gi == reg.index[layers[i].bloc]
    requires ore.block in counts && counts[ore.block] < caps[ore.block]
    ensures Seeding(g, hm, layers, reg0, reg', counts', veins', caps)
    ensures gi == reg'.index[layers[i].bloc]
    ensures Neighbour(g, hm, thickness, x, z, y, dx, dz, dy)
    ensures placed <==> Hosts(old(g[dx, dz, dy]), gi)
    ensures placed ==> g[dx, dz, dy] != null && g[dx, dz, dy].Config == ore.block
    ensures counts' == if placed then counts[ore.block := counts[ore.block] + 1] else counts
    ensures forall x', z', y' :: InBounds(g, x', z', y') && (x', z', y') != (dx, dz, dy) ==> g[x', z', y'] == old(g[x', z', y'])
    ensures forall x', z', y' :: InBounds(g, x', z', y') ==>
              Reseeded(g[x', z', y'], old(g[x', z', y']), gi, layers[i].bloc, {ore.block})
    ensures Occupied(g) == old(Occupied(g))
  {
    var rx :| -1 <= rx < 2;
    var rz :| -1 <= rz < 2;
    var ry :| -1 <= ry < 2;
    dx := Clamp(x + rx, 0, g.Length0 - 1);
    dz := Clamp(z + rz, 0, g.Length1 - 1);
    assert ColumnSafe(layers[i], hm[dx, dz], g.Length2);
    dy := Clamp(y + ry, hm[dx, dz] - thickness, hm[dx, dz] - 1);
    reg', counts', veins', placed := Strike(g, hm, layers, i, k, reg0, reg, counts, veins, caps, ore, gi,
                                            ore.block.isTransparent, dx, dy, dz);
  }

  /** One step of a cluster: a draw that adds at most one unit of the ore and reseeds at most that cell. */
  method Grow(g: array3<Block?>, hm: array2<int>, ghost layers: seq<ChunkLayer>, ghost i: nat, ghost k: nat,
              ghost reg0: Registry, reg: Registry, counts: map<BlockConfig, int>,
              veins: map<BlockConfig, seq<Vector3Int>>, ghost caps: map<BlockConfig, int>, ore: OreConfig,
              thickness: int, gi: int, x: int, z: int, y: int)
    returns (reg': Registry, counts': map<BlockConfig, int>, veins': map<BlockConfig, seq<Vector3Int>>)
    modifies g
    requires Shape(g, hm) && HeightsFit(hm, g.Length2) && OreSafe(layers, hm, g.Length2)
    requires i < |layers| && k < |layers[i].ores| && layers[i].ores[k] == ore && thickness == layers[i].thickness
    requires 0 <= x < g.Length0 && 0 <= z < g.Length1 && thickness >= 1
    requires Seeding(g, hm, layers, reg0, reg, counts, veins, caps) && gi == reg.index[layers[i].bloc]
    requires ore.block in counts && counts[ore.block] < caps[ore.block]
    ensures Seeding(g, hm, layers, reg0, reg', counts', veins', caps)
    ensures gi == reg'.index[layers[i].bloc]
    ensures counts'.Keys == counts.Keys && counts[ore.block] <= counts'[ore.block] <= counts[ore.block] + 1
    ensures forall b :: b in counts && b != ore.block ==> counts'[b] == counts[b]
    ensures forall x', z', y' :: InBounds(g, x', z', y') ==>
              Reseeded(g[x', z', y'], old(g[x', z', y']), gi, layers[i].bloc, {ore.block})
    ensures Occupied(g) == old(Occupied(g))
  {
    var placed, dx, dy, dz;
    reg', counts', veins', placed, dx, dy, dz := Spread(g, hm, layers, i, k, reg0, reg, counts, veins, caps, ore,
                                                        thickness, gi, x, z, y);
  }

  /**
   * One cluster of `ore` (rule `k` of layer `i`) seeded around the cell `(x, z, y)` being laid:
   * up to `clusterSize` draws, each a neighbour of the cell one step away on every axis (clamped
   * into the chunk horizontally and into the top `thickness` cells of the drawn column), while the
   * ore's count stays below its maximum.
   */
  method Cluster(g: array3<Block?>, hm: array2<int>, ghost layers: seq<ChunkLayer>, ghost i: nat, ghost k: nat,
                 ghost reg0: Registry, reg: Registry, counts: map<BlockConfig, int>,
                 veins: map<BlockConfig, seq<Vector3Int>>, ghost caps: map<BlockConfig, int>, ore: OreConfig,
                 thickness: int, gi: int, x: int, z: int, y: int)
    returns (reg': Registry, counts': map<BlockConfig, int>, veins': map<BlockConfig, seq<Vector3Int>>)
    modifies g
    requires Shape(g, hm) && HeightsFit(hm, g.Length2) && OreSafe(layers, hm, g.Length2)
    requires i < |layers| && k < |layers[i].ores| && layers[i].ores[k] == ore && thickness == layers[i].thickness
    requires 0 <= x < g.Length0 && 0 <= z < g.Length1 && thickness >= 1
    requires Seeding(g, hm, layers, reg0, reg, counts, veins, caps) && gi == reg.index[layers[i].bloc]
    requires ore.block in caps && ore.maxTotalOres <= caps[ore.block]
    ensures Seeding(g, hm, layers, reg0, reg', counts', veins', caps)
    ensures gi == reg'.index[layers[i].bloc]
    ensures counts'.Keys == counts.Keys && counts[ore.block] <= counts'[ore.block]
    ensures counts'[ore.block] <= Max(counts[ore.block], ore.maxTotalOres)
    ensures counts'[ore.block] <= counts[ore.block] + Max(ore.clusterSize, 0)
    ensures forall b :: b in counts && b != ore.block ==> counts'[b] == counts[b]
    ensures forall x, z, y :: InBounds(g, x, z, y) ==> Reseeded(g[x, z, y], old(g[x, z, y]), gi, layers[i].bloc, {ore.block})
    ensures Occupied(g) == old(Occupied(g))
  {
    reg', counts', veins' := reg, counts, veins;
    var c := 0;
    while c < ore.clusterSize && counts'[ore.block] < ore.maxTotalOres
      invariant 0 <= c <= Max(ore.clusterSize, 0)
      invariant Seeding(g, hm, layers, reg0, reg', counts', veins', caps)
      invariant gi == reg'.index[layers[i].bloc]
      invariant counts'.Keys == counts.Keys && counts[ore.block] <= counts'[ore.block] <= counts[ore.block] + c
      invariant counts'[ore.block] <= Max(counts[ore.block], ore.maxTotalOres)
      invariant forall b :: b in counts && b != ore.block ==> counts'[b] == counts[b]
      invariant forall x, z, y :: InBounds(g, x, z, y) ==> Reseeded(g[x, z, y], old(g[x, z, y]), gi, layers[i].bloc, {ore.block})
      invariant Occupied(g) == old(Occupied(g))
      decreases ore.clusterSize - c
    {
      label Before:
      reg', counts', veins' := Grow(g, hm, layers, i, k, reg0, reg', counts', veins', caps, ore, thickness, gi, x, z, y);
      forall x', z', y' | InBounds(g, x', z', y')
        ensures Reseeded(g[x', z', y'], old(g[x', z', y']), gi, layers[i].bloc, {ore.block})
      {
        assert Reseeded(old@Before(g[x', z', y']), old(g[x', z', y']), gi, layers[i].bloc, {ore.block});
      }
      c := c + 1;
    }
  }

  /**
   * Rule `k` of layer `i` at the cell just laid at `(x, z, y)`: while the ore is below its
   * maximum it rolls its chance and, when the roll is under it, grows a cluster there.
   */
  method SeedRule(g: array3<Block?>, hm: array2<int>, ghost layers: seq<ChunkLayer>, ghost i: nat, ghost k: nat,
                  ghost reg0: Registry, reg: Registry, counts: map<BlockConfig, int>,
                  veins: map<BlockConfig, seq<Vector3Int>>, ghost caps: map<BlockConfig, int>, ore: OreConfig,
                  thickness: int, gi: int, x: int, z: int, y: int)
    returns (reg': Registry, counts': map<BlockConfig, int>, veins': map<BlockConfig, seq<Vector3Int>>)
    modifies g
    requires Shape(g, hm) && HeightsFit(hm, g.Length2) && OreSafe(layers, hm, g.Length2)
    requires i < |layers| && k < |layers[i].ores| && layers[i].ores[k] == ore && thickness == layers[i].thickness
    requires 0 <= x < g.Length0 && 0 <= z < g.Length1 && thickness >= 1
    requires Seeding(g, hm, layers, reg0, reg, counts, veins, caps) && gi == reg.index[layers[i].bloc]
    requires Covers(layers, caps, false)
    ensures Seeding(g, hm, layers, reg0, reg', counts', veins', caps)
    ensures gi == reg'.index[layers[i].bloc]
    ensures counts'.Keys == counts.Keys && ore.block in counts
    ensures counts[ore.block] <= counts'[ore.block] <= Max(counts[ore.block], ore.maxTotalOres)
    ensures forall b :: b in counts && b != ore.block ==> counts'[b] == counts[b]
    ensures forall x, z, y :: InBounds(g, x, z, y) ==> Reseeded(g[x, z, y], old(g[x, z, y]), gi, layers[i].bloc, {ore.block})
    ensures Occupied(g) == old(Occupied(g))
  {
    reg', counts', veins' := reg, counts, veins;
    var current := counts'[ore.block];
    if current < ore.maxTotalOres {
      var roll: real :| 0.0 <= roll <= 1.0;
      if roll < ore.chance {
        reg', counts', veins' := Cluster(g, hm, layers, i, k, reg0, reg', counts', veins', caps, ore, thickness, gi, x, z, y);
      }
    }
  }

  /** One more rule of a layer keeps every count between its start and the layer's largest maximum for it. */
  lemma OreCapStep(counts0: map<BlockConfig, int>, counts1: map<BlockConfig, int>, counts2: map<BlockConfig, int>,
                   ores: seq<OreConfig>, k: nat)
    requires k < |ores| && ores[k].block in counts1
    requires counts1.Keys == counts0.Keys
    requires forall b :: b in counts0 ==> counts0[b] <= counts1[b] <= Max(counts0[b], OreCap(ores, b, false))
    requires counts2.Keys == counts1.Keys
    requires counts1[ores[k].block] <= counts2[ores[k].block] <= Max(counts1[ores[k].block], ores[k].maxTotalOres)
    requires forall b :: b in counts1 && b != ores[k].block ==> counts2[b] == counts1[b]
    ensures forall b :: b in counts0 ==> counts0[b] <= counts2[b] <= Max(counts0[b], OreCap(ores, b, false))
  {
    assert Limit(ores[k], false) <= OreCap(ores, ores[k].block, false);
  }

  /**
   * The ore pass at the cell just laid at height `y` of column `(x, z)` inside layer `i`: every
   * rule of the layer still below its maximum rolls its chance and, when the roll is under it,
   * grows a cluster there. No count falls or passes the layer's largest maximum for its kind,
   * and every cell it changes held a block of the layer and now holds one of the layer's ores.
   */
  method SeedOres(g: array3<Block?>, hm: array2<int>, ghost layers: seq<ChunkLayer>, ghost i: nat,
                  ghost reg0: Registry, reg: Registry, counts: map<BlockConfig, int>,
                  veins: map<BlockConfig, seq<Vector3Int>>, ghost caps: map<BlockConfig, int>,
                  ores: seq<OreConfig>, thickness: int, gi: int, x: int, z: int, y: int)
    returns (reg': Registry, counts': map<BlockConfig, int>, veins': map<BlockConfig, seq<Vector3Int>>)
    modifies g
    requires Shape(g, hm) && HeightsFit(hm, g.Length2) && OreSafe(layers, hm, g.Length2)
    requires i < |layers| && ores == layers[i].ores && thickness == layers[i].thickness
    requires 0 <= x < g.Length0 && 0 <= z < g.Length1 && thickness >= 1
    requires Seeding(g, hm, layers, reg0, reg, counts, veins, caps) && gi == reg.index[layers[i].bloc]
    requires Covers(layers, caps, false)
    ensures Seeding(g, hm, layers, reg0, reg', counts', veins', caps)
    ensures gi == reg'.index[layers[i].bloc]
    ensures counts'.Keys == counts.Keys
    ensures forall b :: b in counts ==> counts[b] <= counts'[b] <= Max(counts[b], OreCap(ores, b, false))
    ensures forall x, z, y :: InBounds(g, x, z, y) ==> Reseeded(g[x, z, y], old(g[x, z, y]), gi, layers[i].bloc, RuleBlocks(ores))
    ensures Occupied(g) == old(Occupied(g))
  {
    reg', counts', veins' := reg, counts, veins;
    for k := 0 to |ores|
      invariant Seeding(g, hm, layers, reg0, reg', counts', veins', caps)
      invariant gi == reg'.index[layers[i].bloc]
      invariant counts'.Keys == counts.Keys
      invariant forall b :: b in counts ==> counts[b] <= counts'[b] <= Max(counts[b], OreCap(ores, b, false))
      invariant forall x, z, y :: InBounds(g, x, z, y) ==> Reseeded(g[x, z, y], old(g[x, z, y]), gi, layers[i].bloc, RuleBlocks(ores))
      invariant Occupied(g) == old(Occupied(g))
    {
      assert ores[k].block in RuleBlocks(ores);
      ghost var before := counts';
      label Before:
      reg', counts', veins' := SeedRule(g, hm, layers, i, k, reg0, reg', counts', veins', caps, ores[k], thickness,
                                        gi, x, z, y);
      OreCapStep(counts, before, counts', ores, k);
      forall x', z', y' | InBounds(g, x', z', y')
        ensures Reseeded(g[x', z', y'], old(g[x', z', y']), gi, layers[i].bloc, RuleBlocks(ores))
      {
        assert Reseeded(old@Before(g[x', z', y']), old(g[x', z', y']), gi, layers[i].bloc, RuleBlocks(ores));
      }
    }
  }

  /** Lays a fresh block of layer `i` at a cell whose depth lies inside that layer's stratum. */
  method Lay(g: array3<Block?>, ghost hm: array2<int>, ghost layers: seq<ChunkLayer>, ghost i: nat, reg: Registry,
             gi: int, bloc: BlockConfig, x: int, z: int, y: int)
    modifies g
    requires Stratified(g, hm, reg.configs, layers) && Valid(reg) && InBounds(g, x, z, y)
    requires i < |layers| && bloc == layers[i].bloc && bloc in reg.index && gi == reg.index[bloc]
    requires Depth(layers, i) <= hm[x, z] - 1 - y < Depth(layers, i + 1)
    ensures Stratified(g, hm, reg.configs, layers)
    ensures g[x, z, y] != null && g[x, z, y].Config == bloc && g[x, z, y].LayerIndex == gi
    ensures Occupied(g) == old(Occupied(g)) + iset{(x, z, y)}
  {
    StratumOfDepth(layers, i, hm[x, z] - 1 - y);
    var b := new Block(gi, bloc);
    Put(g, hm, reg.configs, layers, x, z, y, b);
  }

  /** Lays one block of layer `i` at `(x, z, y)` and runs the ore pass there. */
  method LayCell(g: array3<Block?>, hm: array2<int>, layers: seq<ChunkLayer>, i: nat, ghost reg0: Registry,
                 reg: Registry, counts: map<BlockConfig, int>, veins: map<BlockConfig, seq<Vector3Int>>,
                 ghost caps: map<BlockConfig, int>, gi: int, x: int, z: int, y: int, ghost hi: int)
    returns (reg': Registry, counts': map<BlockConfig, int>, veins': map<BlockConfig, seq<Vector3Int>>)
    modifies g
    requires Shape(g, hm) && HeightsFit(hm, g.Length2) && OreSafe(layers, hm, g.Length2) && InBounds(g, x, z, y)
    requires Seeding(g, hm, layers, reg0, reg, counts, veins, caps) && Covers(layers, caps, false)
    requires i < |layers| && gi == reg.index[layers[i].bloc]
    requires Depth(layers, i) <= hm[x, z] - 1 - y < Depth(layers, i + 1)
    requires Laid(g, x, z, y + 1, hi)
    ensures Seeding(g, hm, layers, reg0, reg', counts', veins', caps)
    ensures gi == reg'.index[layers[i].bloc]
    ensures Laid(g, x, z, y, hi)
    ensures Occupied(g) == old(Occupied(g)) + iset{(x, z, y)}
  {
    var layer := layers[i];
    Lay(g, hm, layers, i, reg, gi, layer.bloc, x, z, y);
    ghost var laid := Occupied(g);
    assert Depth(layers, i + 1) == Depth(layers, i) + Span(layer);
    reg', counts', veins' := SeedOres(g, hm, layers, i, reg0, reg, counts, veins, caps,
                                      layer.ores, layer.thickness, gi, x, z, y);
    forall y' | y <= y' <= hi && 0 <= y' < g.Length2
      ensures g[x, z, y'] != null
    {
      if y' != y {
        assert (x, z, y') in old(Occupied(g));
      }
      assert (x, z, y') in laid;
    }
  }

  /**
   * Lays the blocks of layer `i` in column `(x, z)` from height `top` down: `cnt` blocks, the
   * layer's thickness or what is left of the column.
   */
  method LayStratum(g: array3<Block?>, hm: array2<int>, layers: seq<ChunkLayer>, i: nat, ghost reg0: Registry,
                    reg: Registry, counts: map<BlockConfig, int>, veins: map<BlockConfig, seq<Vector3Int>>,
                    ghost caps: map<BlockConfig, int>, x: int, z: int, top: int, ghost hi: int)
    returns (reg': Registry, counts': map<BlockConfig, int>, veins': map<BlockConfig, seq<Vector3Int>>, y: int)
    modifies g
    requires Shape(g, hm) && HeightsFit(hm, g.Length2) && OreSafe(layers, hm, g.Length2)
    requires 0 <= x < g.Length0 && 0 <= z < g.Length1
    requires Seeding(g, hm, layers, reg0, reg, counts, veins, caps) && Covers(layers, caps, false)
    requires i < |layers| && 0 <= top == hm[x, z] - 1 - Depth(layers, i) && top < g.Length2
    requires Laid(g, x, z, top + 1, hi)
    ensures Seeding(g, hm, layers, reg0, reg', counts', veins', caps)
    ensures y == hm[x, z] - 1 - Depth(layers, i + 1) || y == -1
    ensures -1 <= y <= top
    ensures Laid(g, x, z, y + 1, hi)
    ensures old(Occupied(g)) <= Occupied(g)
  {
    reg', counts', veins' := reg, counts, veins;
    var layer := layers[i];
    var cnt := Min(layer.thickness, top + 1);
    var gi := reg'.index[layer.bloc];
    y := top;
    var j := 0;
    while j < cnt
      invariant 0 <= j <= Max(cnt, 0) && y == top - j && -1 <= y
      invariant Seeding(g, hm, layers, reg0, reg', counts', veins', caps)
      invariant gi == reg'.index[layer.bloc]
      invariant Laid(g, x, z, y + 1, hi)
      invariant old(Occupied(g)) <= Occupied(g)
    {
      reg', counts', veins' := LayCell(g, hm, layers, i, reg0, reg', counts', veins', caps, gi, x, z, y, hi);
      y := y - 1;
      j := j + 1;
    }
    assert Depth(layers, i + 1) == Depth(layers, i) + Span(layer);
    if layer.thickness <= 0 {
      assert y == top;
    } else if layer.thickness <= top + 1 {
      assert j == layer.thickness;
    } else {
      assert y == -1;
    }
  }

  /**
   * Fills column `(x, z)` from its surface down: each layer in turn lays up to `thickness`
   * blocks (fewer once the column reaches the bottom), seeding ores at every block it lays.
   */
  method FillColumn(g: array3<Block?>, hm: array2<int>, layers: seq<ChunkLayer>, ghost reg0: Registry, reg: Registry,
                    counts: map<BlockConfig, int>, veins: map<BlockConfig, seq<Vector3Int>>,
                    ghost caps: map<BlockConfig, int>, x: int, z: int)
    returns (reg': Registry, counts': map<BlockConfig, int>, veins': map<BlockConfig, seq<Vector3Int>>)
    modifies g
    requires Shape(g, hm) && HeightsFit(hm, g.Length2) && OreSafe(layers, hm, g.Length2)
    requires 0 <= x < g.Length0 && 0 <= z < g.Length1
    requires Seeding(g, hm, layers, reg0, reg, counts, veins, caps) && Covers(layers, caps, false)
    ensures Seeding(g, hm, layers, reg0, reg', counts', veins', caps)
    ensures Filled(g, hm, layers, x, z)
    ensures old(Occupied(g)) <= Occupied(g)
  {
    reg', counts', veins' := reg, counts, veins;
    var y := hm[x, z] - 1;
    var i := 0;
    while i < |layers| && y >= 0
      invariant 0 <= i <= |layers| && y < g.Length2
      invariant y == hm[x, z] - 1 - Depth(layers, i) || y == -1
      invariant Seeding(g, hm, layers, reg0, reg', counts', veins', caps)
      invariant Laid(g, x, z, y + 1, hm[x, z] - 1)
      invariant old(Occupied(g)) <= Occupied(g)
    {
      reg', counts', veins', y := LayStratum(g, hm, layers, i, reg0, reg', counts', veins', caps, x, z, y, hm[x, z] - 1);
      i := i + 1;
    }
    ColumnFilled(g, hm, layers, x, z, y, i);
  }

  /** A column laid down to `y`, where the stack or the column ran out, is filled. */
  lemma ColumnFilled(g: array3<Block?>, hm: array2<int>, layers: seq<ChunkLayer>, x: int, z: int, y: int, i: nat)
    requires Shape(g, hm) && 0 <= x < g.Length0 && 0 <= z < g.Length1 && i <= |layers|
    requires Laid(g, x, z, y + 1, hm[x, z] - 1)
    requires y == hm[x, z] - 1 - Depth(layers, i) || y == -1
    requires i == |layers| || y < 0
    ensures Filled(g, hm, layers, x, z)
  {
    forall y' | 0 <= y' < g.Length2 && StratumAt(layers, hm[x, z] - 1 - y').Some?
      ensures g[x, z, y'] != null
    {
      assert y < y' <= hm[x, z] - 1;
    }
  }

  /** Fills the columns `(x, 0)` to `(x, l - 1)` of one row, in order. */
  method FillRow(g: array3<Block?>, hm: array2<int>, layers: seq<ChunkLayer>, ghost reg0: Registry, reg: Registry,
                 counts: map<BlockConfig, int>, veins: map<BlockConfig, seq<Vector3Int>>, ghost caps: map<BlockConfig, int>,
                 x: int)
    returns (reg': Registry, counts': map<BlockConfig, int>, veins': map<BlockConfig, seq<Vector3Int>>)
    modifies g
    requires Shape(g, hm) && HeightsFit(hm, g.Length2) && OreSafe(layers, hm, g.Length2) && 0 <= x < g.Length0
    requires Seeding(g, hm, layers, reg0, reg, counts, veins, caps) && Covers(layers, caps, false)
    ensures Seeding(g, hm, layers, reg0, reg', counts', veins', caps)
    ensures forall z :: 0 <= z < g.Length1 ==> Filled(g, hm, layers, x, z)
    ensures old(Occupied(g)) <= Occupied(g)
  {
    reg', counts', veins' := reg, counts, veins;
    for z := 0 to g.Length1
      invariant Seeding(g, hm, layers, reg0, reg', counts', veins', caps)
      invariant forall z' :: 0 <= z' < z ==> Filled(g, hm, layers, x, z')
      invariant old(Occupied(g)) <= Occupied(g)
    {
      label Before:
      reg', counts', veins' := FillColumn(g, hm, layers, reg0, reg', counts', veins', caps, x, z);
      forall z' | 0 <= z' < z
        ensures Filled(g, hm, layers, x, z')
      {
        assert old@Before(Filled(g, hm, layers, x, z'));
      }
    }
  }

  /** Fills every column of the chunk, x-major then z, as the first pass of the terrain generation. */
  method LayStrata(g: array3<Block?>, hm: array2<int>, layers: seq<ChunkLayer>, ghost reg0: Registry, reg: Registry,
                   counts: map<BlockConfig, int>, veins: map<BlockConfig, seq<Vector3Int>>, ghost caps: map<BlockConfig, int>)
    returns (reg': Registry, counts': map<BlockConfig, int>, veins': map<BlockConfig, seq<Vector3Int>>)
    modifies g
    requires Shape(g, hm) && HeightsFit(hm, g.Length2) && OreSafe(layers, hm, g.Length2)
    requires Seeding(g, hm, layers, reg0, reg, counts, veins, caps) && Covers(layers, caps, false)
    ensures Seeding(g, hm, layers, reg0, reg', counts', veins', caps)
    ensures forall x, z :: 0 <= x < g.Length0 && 0 <= z < g.Length1 ==> Filled(g, hm, layers, x, z)
  {
    reg', counts', veins' := reg, counts, veins;
    for x := 0 to g.Length0
      invariant Seeding(g, hm, layers, reg0, reg', counts', veins', caps)
      invariant forall x', z' :: 0 <= x' < x && 0 <= z' < g.Length1 ==> Filled(g, hm, layers, x', z')
    {
      label Before:
      reg', counts', veins' := FillRow(g, hm, layers, reg0, reg', counts', veins', caps, x);
      forall x', z' | 0 <= x' < x && 0 <= z' < g.Length1
        ensures Filled(g, hm, layers, x', z')
      {
        assert old@Before(Filled(g, hm, layers, x', z'));
      }
    }
  }

  /**
   * A backfill draw: a random column of the chunk and a random height among the top `thickness`
   * cells of that column; with a thickness of zero the height range is empty and the draw
   * returns its lower end, the cell just above the surface.
   */
  method Draw(g: array3<Block?>, hm: array2<int>, thickness: int) returns (cx: int, cy: int, cz: int)
    requires Shape(g, hm) && HeightsFit(hm, g.Length2) && g.Length0 >= 1 && g.Length1 >= 1 && thickness >= 0
    requires forall x, z :: 0 <= x < hm.Length0 && 0 <= z < hm.Length1 ==>
               thickness <= hm[x, z] && (thickness == 0 ==> hm[x, z] < g.Length2)
    ensures InBounds(g, cx, cz, cy)
    ensures thickness == 0 ==> cy == hm[cx, cz]
    ensures thickness >= 1 ==> hm[cx, cz] - thickness <= cy < hm[cx, cz]
  {
    cx :| 0 <= cx < g.Length0;
    cz :| 0 <= cz < g.Length1;
    var baseY := hm[cx, cz] - 1;
    var bottom := baseY - thickness + 1;
    if bottom <= baseY {
      cy :| bottom <= cy <= baseY;
    } else {
      cy := bottom;
    }
  }

  /** A layer with a rule that may still draw meets what `Draw` needs. */
  lemma DrawSafe(layers: seq<ChunkLayer>, hm: array2<int>, h: int, i: nat, k: nat)
    requires OreSafe(layers, hm, h) && i < |layers| && k < |layers[i].ores| && layers[i].ores[k].minTotalOres > 0
    ensures 0 <= layers[i].thickness && 1 <= hm.Length0 && 1 <= hm.Length1
    ensures forall x, z :: 0 <= x < hm.Length0 && 0 <= z < hm.Length1 ==>
              layers[i].thickness <= hm[x, z] && (layers[i].thickness == 0 ==> hm[x, z] < h)
  {
    assert Refills(layers[i].ores) && LayerSafe(layers[i], hm.Length0, hm.Length1);
    forall x, z | 0 <= x < hm.Length0 && 0 <= z < hm.Length1
      ensures layers[i].thickness <= hm[x, z] && (layers[i].thickness == 0 ==> hm[x, z] < h)
    {
      assert ColumnSafe(layers[i], hm[x, z], h);
    }
  }

  /** The block at cell `d` of the grid, none outside it. */
  function At(g: array3<Block?>, d: Vector3Int): Block?
    reads g
  {
    if InBounds(g, d.x, d.z, d.y) then g[d.x, d.z, d.y] else null
  }

  /** `d` is a cell a backfill draw of a layer `thickness` thick can land on, as `Draw` states. */
  ghost predicate Drawable(g: array3<Block?>, hm: array2<int>, thickness: int, d: Vector3Int)
    reads hm
  {
    && InBounds(g, d.x, d.z, d.y) && d.x < hm.Length0 && d.z < hm.Length1
    && (thickness == 0 ==> d.y == hm[d.x, d.z])
    && (thickness >= 1 ==> hm[d.x, d.z] - thickness <= d.y < hm[d.x, d.z])
  }

  /**
   * One backfill draw: a random cell `c` among the top `thickness` cells of a random column, and
   * whether it holds a block drawn in submesh `gi`, which the ore would take.
   */
  method Try(g: array3<Block?>, hm: array2<int>, thickness: int, gi: int) returns (hit: bool, c: Vector3Int)
    requires Shape(g, hm) && HeightsFit(hm, g.Length2) && thickness >= 0 && g.Length0 >= 1 && g.Length1 >= 1
    requires forall x, z :: 0 <= x < hm.Length0 && 0 <= z < hm.Length1 ==>
               thickness <= hm[x, z] && (thickness == 0 ==> hm[x, z] < g.Length2)
    ensures Drawable(g, hm, thickness, c)
    ensures hit <==> Hosts(At(g, c), gi)
  {
    var cx, cy, cz := Draw(g, hm, thickness);
    c := Vector3Int(cx, cy, cz);
    hit := g[cx, cz, cy] != null && g[cx, cz, cy].LayerIndex == gi;
  }

  /**
   * The draws of one unit of an ore's backfill: up to 100 draws, `drawn` in order, stopping at
   * the first that lands on a block drawn in submesh `gi`; `c` is the last draw.
   */
  method Probe(g: array3<Block?>, hm: array2<int>, thickness: int, gi: int)
    returns (hit: bool, attempts: int, c: Vector3Int, ghost drawn: seq<Vector3Int>)
    requires Shape(g, hm) && HeightsFit(hm, g.Length2) && thickness >= 0 && g.Length0 >= 1 && g.Length1 >= 1
    requires forall x, z :: 0 <= x < hm.Length0 && 0 <= z < hm.Length1 ==>
               thickness <= hm[x, z] && (thickness == 0 ==> hm[x, z] < g.Length2)
    ensures 1 <= attempts <= 100 && (!hit ==> attempts == 100) && |drawn| == attempts && c == drawn[attempts - 1]
    ensures forall j :: 0 <= j < |drawn| ==> Drawable(g, hm, thickness, drawn[j])
    ensures forall j :: 0 <= j < |drawn| - 1 ==> !Hosts(At(g, drawn[j]), gi)
    ensures hit <==> Hosts(At(g, c), gi)
  {
    attempts := 0;
    drawn := [];
    hit := false;
    c := Vector3Int(0, 0, 0);
    while attempts < 100
      invariant 0 <= attempts <= 100 && |drawn| == attempts && !hit
      invariant attempts >= 1 ==> c == drawn[attempts - 1]
      invariant forall j :: 0 <= j < |drawn| ==> Drawable(g, hm, thickness, drawn[j]) && !Hosts(At(g, drawn[j]), gi)
    {
      attempts := attempts + 1;
      hit, c := Try(g, hm, thickness, gi);
      drawn := drawn + [c];
      if hit {
        break;
      }
    }
  }

  /**
   * One unit of an ore's backfill for rule `k` of layer `i`: up to 100 draws, `drawn` in order,
   * until one lands on a block of the layer; the ore takes that cell and the unit stops there.
   * No cell changes before the hit, so the draws are made first and the ore placed after.
   */
  method Attempt(g: array3<Block?>, hm: array2<int>, ghost layers: seq<ChunkLayer>, ghost i: nat, ghost k: nat,
                 ghost reg0: Registry, reg: Registry, counts: map<BlockConfig, int>,
                 veins: map<BlockConfig, seq<Vector3Int>>, ghost caps: map<BlockConfig, int>, ore: OreConfig,
                 thickness: int, gi: int)
    returns (reg': Registry, counts': map<BlockConfig, int>, veins': map<BlockConfig, seq<Vector3Int>>,
             placed: bool, attempts: int, ghost drawn: seq<Vector3Int>)
    modifies g
    requires Shape(g, hm) && HeightsFit(hm, g.Length2) && thickness >= 0 && g.Length0 >= 1 && g.Length1 >= 1
    requires forall x, z :: 0 <= x < hm.Length0 && 0 <= z < hm.Length1 ==>
               thickness <= hm[x, z] && (thickness == 0 ==> hm[x, z] < g.Length2)
    requires i < |layers| && k < |layers[i].ores| && layers[i].ores[k] == ore && thickness == layers[i].thickness
    requires Seeding(g, hm, layers, reg0, reg, counts, veins, caps) && gi == reg.index[layers[i].bloc]
    requires ore.block in counts && counts[ore.block] < caps[ore.block] && counts[ore.block] < ore.minTotalOres
    ensures Seeding(g, hm, layers, reg0, reg', counts', veins', caps)
    ensures gi == reg'.index[layers[i].bloc]
    ensures 1 <= attempts <= 100 && (!placed ==> attempts == 100) && |drawn| == attempts
    ensures forall j :: 0 <= j < |drawn| ==> old(Drawable(g, hm, thickness, drawn[j]))
    ensures forall j :: 0 <= j < |drawn| - 1 ==> !Hosts(old(At(g, drawn[j])), gi)
    ensures placed <==> Hosts(old(At(g, drawn[attempts - 1])), gi)
    ensures placed ==> At(g, drawn[attempts - 1]) != null && At(g, drawn[attempts - 1]).Config == ore.block
    ensures !placed ==> forall j :: 0 <= j < |drawn| ==> !Hosts(old(At(g, drawn[j])), gi)
    ensures !placed ==> forall j :: 0 <= j < |drawn| ==> Drawable(g, hm, thickness, drawn[j]) && !Hosts(At(g, drawn[j]), gi)
    ensures counts' == if placed then counts[ore.block := counts[ore.block] + 1] else counts
    ensures forall x, z, y :: InBounds(g, x, z, y) ==> Reseeded(g[x, z, y], old(g[x, z, y]), gi, layers[i].bloc, {ore.block})
    ensures !placed ==> forall x, z, y :: InBounds(g, x, z, y) ==> g[x, z, y] == old(g[x, z, y])
    ensures Occupied(g) == old(Occupied(g))
  {
    assert 0 <= counts[ore.block] by {
      assert Ledger(counts, veins);
    }
    var hit, c;
    hit, attempts, c, drawn := Probe(g, hm, thickness, gi);
    assert forall j :: 0 <= j < |drawn| ==> old(Drawable(g, hm, thickness, drawn[j]));
    assert forall j :: 0 <= j < |drawn| - 1 ==> !Hosts(old(At(g, drawn[j])), gi);
    assert InBounds(g, c.x, c.z, c.y) by {
      assert Drawable(g, hm, thickness, drawn[attempts - 1]);
    }
    assert g[c.x, c.z, c.y] == old(At(g, drawn[attempts - 1]));
    reg', counts', veins', placed := reg, counts, veins, false;
    if hit {
      reg', counts', veins', placed := Strike(g, hm, layers, i, k, reg0, reg, counts, veins, caps, ore, gi,
                                              false, c.x, c.y, c.z);
      assert At(g, drawn[attempts - 1]) == g[c.x, c.z, c.y];
    } else {
      assert forall j :: 0 <= j < |drawn| ==> Drawable(g, hm, thickness, drawn[j]) && !Hosts(At(g, drawn[j]), gi);
    }
  }

  /**
   * One unit of an ore's backfill as the tally of misses sees it: a placement bumps the count,
   * and a unit that places nothing drew 100 cells, none of which holds a block of the layer.
   */
  method Deposit(g: array3<Block?>, hm: array2<int>, ghost layers: seq<ChunkLayer>, ghost i: nat, ghost k: nat,
                 ghost reg0: Registry, reg: Registry, counts: map<BlockConfig, int>,
                 veins: map<BlockConfig, seq<Vector3Int>>, ghost caps: map<BlockConfig, int>, ore: OreConfig,
                 thickness: int, gi: int)
    returns (reg': Registry, counts': map<BlockConfig, int>, veins': map<BlockConfig, seq<Vector3Int>>,
             placed: bool, ghost drawn: seq<Vector3Int>)
    modifies g
    requires Shape(g, hm) && HeightsFit(hm, g.Length2) && thickness >= 0 && g.Length0 >= 1 && g.Length1 >= 1
    requires forall x, z :: 0 <= x < hm.Length0 && 0 <= z < hm.Length1 ==>
               thickness <= hm[x, z] && (thickness == 0 ==> hm[x, z] < g.Length2)
    requires i < |layers| && k < |layers[i].ores| && layers[i].ores[k] == ore && thickness == layers[i].thickness
    requires Seeding(g, hm, layers, reg0, reg, counts, veins, caps) && gi == reg.index[layers[i].bloc]
    requires ore.block in counts && counts[ore.block] < caps[ore.block] && counts[ore.block] < ore.minTotalOres
    ensures Seeding(g, hm, layers, reg0, reg', counts', veins', caps)
    ensures gi == reg'.index[layers[i].bloc]
    ensures !placed ==> |drawn| == 100
    ensures !placed ==> forall j :: 0 <= j < |drawn| ==> Drawable(g, hm, thickness, drawn[j]) && !Hosts(At(g, drawn[j]), gi)
    ensures counts' == if placed then counts[ore.block := counts[ore.block] + 1] else counts
    ensures forall x, z, y :: InBounds(g, x, z, y) ==> Reseeded(g[x, z, y], old(g[x, z, y]), gi, layers[i].bloc, {ore.block})
    ensures Occupied(g) == old(Occupied(g))
  {
    var attempts;
    reg', counts', veins', placed, attempts, drawn := Attempt(g, hm, layers, i, k, reg0, reg, counts, veins, caps,
                                                              ore, thickness, gi);
  }

  /**
   * One unit of the backfill of rule `k` of layer `i`, with the units that placed nothing
   * tallied: `misses` such units so far and their draws `missed`. A unit that places nothing
   * adds itself and its 100 draws, none of which holds a block of the layer.
   */
  method Unit(g: array3<Block?>, hm: array2<int>, ghost layers: seq<ChunkLayer>, ghost i: nat, ghost k: nat,
              ghost reg0: Registry, reg: Registry, counts: map<BlockConfig, int>,
              veins: map<BlockConfig, seq<Vector3Int>>, ghost caps: map<BlockConfig, int>, ore: OreConfig,
              thickness: int, gi: int, ghost misses: nat, ghost missed: seq<Vector3Int>)
    returns (reg': Registry, counts': map<BlockConfig, int>, veins': map<BlockConfig, seq<Vector3Int>>,
             ghost misses': nat, ghost missed': seq<Vector3Int>)
    modifies g
    requires Shape(g, hm) && HeightsFit(hm, g.Length2) && thickness >= 0 && g.Length0 >= 1 && g.Length1 >= 1
    requires forall x, z :: 0 <= x < hm.Length0 && 0 <= z < hm.Length1 ==>
               thickness <= hm[x, z] && (thickness == 0 ==> hm[x, z] < g.Length2)
    requires i < |layers| && k < |layers[i].ores| && layers[i].ores[k] == ore && thickness == layers[i].thickness
    requires Seeding(g, hm, layers, reg0, reg, counts, veins, caps) && gi == reg.index[layers[i].bloc]
    requires ore.block in counts && counts[ore.block] < caps[ore.block] && counts[ore.block] < ore.minTotalOres
    requires |missed| == 100 * misses
    ensures Seeding(g, hm, layers, reg0, reg', counts', veins', caps)
    ensures gi == reg'.index[layers[i].bloc]
    ensures misses <= misses' <= misses + 1 && counts'[ore.block] + misses' == counts[ore.block] + 1 + misses
    ensures |missed'| == 100 * misses' && missed <= missed'
    ensures forall j :: |missed| <= j < |missed'| ==>
              Drawable(g, hm, thickness, missed'[j]) && !Hosts(At(g, missed'[j]), gi)
    ensures counts'.Keys == counts.Keys && forall b :: b in counts && b != ore.block ==> counts'[b] == counts[b]
    ensures forall x, z, y :: InBounds(g, x, z, y) ==> Reseeded(g[x, z, y], old(g[x, z, y]), gi, layers[i].bloc, {ore.block})
    ensures Occupied(g) == old(Occupied(g))
  {
    var placed;
    ghost var drawn;
    reg', counts', veins', placed, drawn := Deposit(g, hm, layers, i, k, reg0, reg, counts, veins, caps,
                                                    ore, thickness, gi);
    misses', missed' := misses, missed;
    if !placed {
      misses', missed' := misses + 1, missed + drawn;
      forall j | |missed| <= j < |missed'|
        ensures Drawable(g, hm, thickness, missed'[j]) && !Hosts(At(g, missed'[j]), gi)
      {
        assert missed'[j] == drawn[j - |missed|];
      }
    }
  }

  /**
   * The backfill of rule `k` of layer `i`: one unit per ore still missing from its minimum
   * quota. The count ends at the quota (or where it was, if already past it) less the `misses`
   * units that placed nothing; `missed` lists the 100 cells each of them drew, none of which
   * holds a block of the layer when the backfill ends.
   */
  method Replenish(g: array3<Block?>, hm: array2<int>, ghost layers: seq<ChunkLayer>, ghost i: nat, ghost k: nat,
                   ghost reg0: Registry, reg: Registry, counts: map<BlockConfig, int>,
                   veins: map<BlockConfig, seq<Vector3Int>>, ghost caps: map<BlockConfig, int>, ore: OreConfig,
                   thickness: int, gi: int)
    returns (reg': Registry, counts': map<BlockConfig, int>, veins': map<BlockConfig, seq<Vector3Int>>,
             ghost misses: nat, ghost missed: seq<Vector3Int>)
    modifies g
    requires Shape(g, hm) && HeightsFit(hm, g.Length2) && OreSafe(layers, hm, g.Length2)
    requires i < |layers| && k < |layers[i].ores| && layers[i].ores[k] == ore && thickness == layers[i].thickness
    requires Seeding(g, hm, layers, reg0, reg, counts, veins, caps) && gi == reg.index[layers[i].bloc]
    requires ore.block in caps && ore.minTotalOres <= caps[ore.block]
    ensures Seeding(g, hm, layers, reg0, reg', counts', veins', caps)
    ensures gi == reg'.index[layers[i].bloc]
    ensures counts'.Keys == counts.Keys && counts[ore.block] <= counts'[ore.block]
    ensures counts'[ore.block] + misses == Max(counts[ore.block], ore.minTotalOres)
    ensures misses <= Max(ore.minTotalOres - counts[ore.block], 0) && |missed| == 100 * misses
    ensures forall j :: 0 <= j < |missed| ==> Drawable(g, hm, thickness, missed[j]) && !Hosts(At(g, missed[j]), gi)
    ensures forall b :: b in counts && b != ore.block ==> counts'[b] == counts[b]
    ensures forall x, z, y :: InBounds(g, x, z, y) ==> Reseeded(g[x, z, y], old(g[x, z, y]), gi, layers[i].bloc, {ore.block})
    ensures Occupied(g) == old(Occupied(g))
  {
    var current := counts[ore.block];
    var need := ore.minTotalOres - current;
    reg', counts', veins' := reg, counts, veins;
    misses, missed := 0, [];
    if need > 0 {
      DrawSafe(layers, hm, g.Length2, i, k);
    }
    var u := 0;
    while u < need
      invariant 0 <= u <= Max(need, 0) && misses <= u && |missed| == 100 * misses
      invariant Seeding(g, hm, layers, reg0, reg', counts', veins', caps)
      invariant gi == reg'.index[layers[i].bloc]
      invariant counts'.Keys == counts.Keys && counts'[ore.block] + misses == current + u
      invariant forall j :: 0 <= j < |missed| ==> Drawable(g, hm, thickness, missed[j]) && !Hosts(At(g, missed[j]), gi)
      invariant forall b :: b in counts && b != ore.block ==> counts'[b] == counts[b]
      invariant forall x, z, y :: InBounds(g, x, z, y) ==> Reseeded(g[x, z, y], old(g[x, z, y]), gi, layers[i].bloc, {ore.block})
      invariant Occupied(g) == old(Occupied(g))
    {
      ghost var prev := missed;
      label Before:
      reg', counts', veins', misses, missed := Unit(g, hm, layers, i, k, reg0, reg', counts', veins', caps,
                                                    ore, thickness, gi, misses, missed);
      forall x', z', y' | InBounds(g, x', z', y')
        ensures Reseeded(g[x', z', y'], old(g[x', z', y']), gi, layers[i].bloc, {ore.block})
      {
        assert Reseeded(old@Before(g[x', z', y']), old(g[x', z', y']), gi, layers[i].bloc, {ore.block});
      }
      forall j | 0 <= j < |prev|
        ensures Drawable(g, hm, thickness, missed[j]) && !Hosts(At(g, missed[j]), gi)
      {
        var d := prev[j];
        assert missed[j] == d;
        assert Reseeded(g[d.x, d.z, d.y], old@Before(g[d.x, d.z, d.y]), gi, layers[i].bloc, {ore.block});
      }
      u := u + 1;
    }
  }

  /** Each layer's rules place kinds of the stack, in place of the layer's own kind. */
  lemma RuleKinds(layers: seq<ChunkLayer>, i: nat)
    requires i < |layers|
    ensures RuleBlocks(layers[i].ores) <= OreBlocks(layers) && layers[i].bloc in StratumBlocks(layers)
  {
    forall b | b in RuleBlocks(layers[i].ores)
      ensures b in OreBlocks(layers)
    {
      var k :| 0 <= k < |layers[i].ores| && layers[i].ores[k].block == b;
    }
  }

  /** The backfill of rule `k` of layer `i` as the layer's pass needs it: no count falls. */
  method Refill(g: array3<Block?>, hm: array2<int>, layers: seq<ChunkLayer>, i: nat, k: nat, ghost reg0: Registry,
                reg: Registry, counts: map<BlockConfig, int>, veins: map<BlockConfig, seq<Vector3Int>>,
                ghost caps: map<BlockConfig, int>, gi: int)
    returns (reg': Registry, counts': map<BlockConfig, int>, veins': map<BlockConfig, seq<Vector3Int>>)
    modifies g
    requires Shape(g, hm) && HeightsFit(hm, g.Length2) && OreSafe(layers, hm, g.Length2)
    requires i < |layers| && k < |layers[i].ores|
    requires Seeding(g, hm, layers, reg0, reg, counts, veins, caps) && gi == reg.index[layers[i].bloc]
    requires Covers(layers, caps, true)
    ensures Seeding(g, hm, layers, reg0, reg', counts', veins', caps)
    ensures gi == reg'.index[layers[i].bloc]
    ensures counts'.Keys == counts.Keys && forall b :: b in counts ==> counts[b] <= counts'[b]
    ensures forall x, z, y :: InBounds(g, x, z, y) ==>
              Reseeded(g[x, z, y], old(g[x, z, y]), gi, layers[i].bloc, {layers[i].ores[k].block})
    ensures Occupied(g) == old(Occupied(g))
  {
    ghost var misses, missed;
    reg', counts', veins', misses, missed := Replenish(g, hm, layers, i, k, reg0, reg, counts, veins, caps,
                                                       layers[i].ores[k], layers[i].thickness, gi);
  }

  /**
   * The backfill of the rules of layer `i`, in order. No count falls, and every cell it changes
   * held a block of the layer and now holds one of the layer's ores.
   */
  method BackfillLayer(g: array3<Block?>, hm: array2<int>, layers: seq<ChunkLayer>, i: nat, ghost reg0: Registry,
                       reg: Registry, counts: map<BlockConfig, int>, veins: map<BlockConfig, seq<Vector3Int>>,
                       ghost caps: map<BlockConfig, int>)
    returns (reg': Registry, counts': map<BlockConfig, int>, veins': map<BlockConfig, seq<Vector3Int>>)
    modifies g
    requires Shape(g, hm) && HeightsFit(hm, g.Length2) && OreSafe(layers, hm, g.Length2) && i < |layers|
    requires Seeding(g, hm, layers, reg0, reg, counts, veins, caps) && Covers(layers, caps, true)
    ensures Seeding(g, hm, layers, reg0, reg', counts', veins', caps)
    ensures reg'.index[layers[i].bloc] == reg.index[layers[i].bloc]
    ensures counts'.Keys == counts.Keys && forall b :: b in counts ==> counts[b] <= counts'[b]
    ensures forall x, z, y :: InBounds(g, x, z, y) ==>
              Reseeded(g[x, z, y], old(g[x, z, y]), reg.index[layers[i].bloc], layers[i].bloc, RuleBlocks(layers[i].ores))
    ensures Occupied(g) == old(Occupied(g))
  {
    reg', counts', veins' := reg, counts, veins;
    var gi := reg.index[layers[i].bloc];
    for k := 0 to |layers[i].ores|
      invariant Seeding(g, hm, layers, reg0, reg', counts', veins', caps)
      invariant gi == reg'.index[layers[i].bloc]
      invariant counts'.Keys == counts.Keys && forall b :: b in counts ==> counts[b] <= counts'[b]
      invariant forall x, z, y :: InBounds(g, x, z, y) ==>
                  Reseeded(g[x, z, y], old(g[x, z, y]), gi, layers[i].bloc, RuleBlocks(layers[i].ores))
      invariant Occupied(g) == old(Occupied(g))
    {
      var ore := layers[i].ores[k];
      assert ore.block in RuleBlocks(layers[i].ores);
      label Before:
      reg', counts', veins' := Refill(g, hm, layers, i, k, reg0, reg', counts', veins', caps, gi);
      forall x', z', y' | InBounds(g, x', z', y')
        ensures Reseeded(g[x', z', y'], old(g[x', z', y']), gi, layers[i].bloc, RuleBlocks(layers[i].ores))
      {
        assert Reseeded(g[x', z', y'], old@Before(g[x', z', y']), gi, layers[i].bloc, {ore.block});
        assert Reseeded(old@Before(g[x', z', y']), old(g[x', z', y']), gi, layers[i].bloc, RuleBlocks(layers[i].ores));
      }
    }
  }

  /**
   * The backfill pass: the rules of every layer, layer by layer and in order. No count falls, no
   * cell is emptied, and every cell it changes held a block of some layer and now holds an ore.
   */
  method Backfill(g: array3<Block?>, hm: array2<int>, layers: seq<ChunkLayer>, ghost reg0: Registry, reg: Registry,
                  counts: map<BlockConfig, int>, veins: map<BlockConfig, seq<Vector3Int>>, ghost caps: map<BlockConfig, int>)
    returns (reg': Registry, counts': map<BlockConfig, int>, veins': map<BlockConfig, seq<Vector3Int>>)
    modifies g
    requires Shape(g, hm) && HeightsFit(hm, g.Length2) && OreSafe(layers, hm, g.Length2)
    requires Seeding(g, hm, layers, reg0, reg, counts, veins, caps) && Covers(layers, caps, true)
    ensures Seeding(g, hm, layers, reg0, reg', counts', veins', caps)
    ensures counts'.Keys == counts.Keys && forall b :: b in counts ==> counts[b] <= counts'[b]
    ensures forall x, z, y :: InBounds(g, x, z, y) ==>
              Replaced(g[x, z, y], old(g[x, z, y]), StratumBlocks(layers), OreBlocks(layers))
    ensures Occupied(g) == old(Occupied(g))
  {
    reg', counts', veins' := reg, counts, veins;
    for i := 0 to |layers|
      invariant Seeding(g, hm, layers, reg0, reg', counts', veins', caps)
      invariant counts'.Keys == counts.Keys && forall b :: b in counts ==> counts[b] <= counts'[b]
      invariant forall x, z, y :: InBounds(g, x, z, y) ==>
                  Replaced(g[x, z, y], old(g[x, z, y]), StratumBlocks(layers), OreBlocks(layers))
      invariant Occupied(g) == old(Occupied(g))
    {
      RuleKinds(layers, i);
      ghost var gi := reg'.index[layers[i].bloc];
      label Before:
      reg', counts', veins' := BackfillLayer(g, hm, layers, i, reg0, reg', counts', veins', caps);
      forall x', z', y' | InBounds(g, x', z', y')
        ensures Replaced(g[x', z', y'], old(g[x', z', y']), StratumBlocks(layers), OreBlocks(layers))
      {
        assert Reseeded(g[x', z', y'], old@Before(g[x', z', y']), gi, layers[i].bloc, RuleBlocks(layers[i].ores));
        assert Replaced(old@Before(g[x', z', y']), old(g[x', z', y']), StratumBlocks(layers), OreBlocks(layers));
      }
    }
  }

  /**
   * The base terrain of a chunk: an empty `width x length x h` grid whose columns are filled
   * layer by layer from the height map with ores seeded on the way, followed by the backfill of
   * every ore's minimum quota. Returns the grid, the grown registry, and the ore ledger.
   */
  method GenerateBaseTerrain(cfg: ChunkConfig, h: int, hm: array2<int>, reg: Registry)
    returns (g: array3<Block?>, reg': Registry, counts: map<BlockConfig, int>,
             veins: map<BlockConfig, seq<Vector3Int>>)
    requires 0 <= cfg.width && 0 <= cfg.length && 0 <= h
    requires hm.Length0 == cfg.width && hm.Length1 == cfg.length && HeightsFit(hm, h) && OreSafe(cfg.layers, hm, h)
    requires Valid(reg) && forall i :: 0 <= i < |cfg.layers| ==> cfg.layers[i].bloc in reg.index
    ensures fresh(g) && g.Length0 == cfg.width && g.Length1 == cfg.length && g.Length2 == h
    ensures Stratified(g, hm, reg'.configs, cfg.layers)
    ensures forall x, z :: 0 <= x < cfg.width && 0 <= z < cfg.length ==> Filled(g, hm, cfg.layers, x, z)
    ensures RegistryKept(reg, reg', cfg.layers)
    ensures LedgerKept(counts, veins, Caps(cfg.layers, true), cfg.width, cfg.length, h)
  {
    var layers := cfg.layers;
    g := new Block?[cfg.width, cfg.length, h]((x, z, y) => null);
    veins := map[];
    counts := InitOreCounts(layers);
    ghost var capsF := Caps(layers, false);
    ghost var capsT := Caps(layers, true);
    CapsCover(layers, false);
    CapsCover(layers, true);
    assert reg.configs[..|reg.configs|] == reg.configs;
    reg' := reg;
    reg', counts, veins := LayStrata(g, hm, layers, reg, reg', counts, veins, capsF);
    CapsGrow(layers, counts);
    label Seeded:
    reg', counts, veins := Backfill(g, hm, layers, reg, reg', counts, veins, capsT);
    forall x, z | 0 <= x < cfg.width && 0 <= z < cfg.length
      ensures Filled(g, hm, layers, x, z)
    {
      assert old@Seeded(Filled(g, hm, layers, x, z));
    }
  }

  /**
   * After the terrain pass a cell holds a block exactly when its depth below the column's
   * surface falls inside one of the strata.
   */
  lemma TerrainExact(g: array3<Block?>, hm: array2<int>, configs: seq<BlockConfig>, layers: seq<ChunkLayer>)
    requires Stratified(g, hm, configs, layers)
    requires forall x, z :: 0 <= x < g.Length0 && 0 <= z < g.Length1 ==> Filled(g, hm, layers, x, z)
    ensures forall x, z, y :: InBounds(g, x, z, y) ==>
              (g[x, z, y] != null <==> StratumAt(layers, hm[x, z] - 1 - y).Some?)
  {
    forall x, z, y | InBounds(g, x, z, y)
      ensures g[x, z, y] != null <==> StratumAt(layers, hm[x, z] - 1 - y).Some?
    {
      assert Filled(g, hm, layers, x, z);
      if StratumAt(layers, hm[x, z] - 1 - y).Some? {
        assert (x, z, y) in Occupied(g);
      }
      assert CellOk(g[x, z, y], hm[x, z] - 1 - y, configs, layers);
    }
  }
}
