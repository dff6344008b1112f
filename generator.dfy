/**
 * The generator's driver: the registry, the height map, the base terrain, the optional caves and
 * the structures, in that order. Noise and random draws are inputs or nondeterministic choices
 * inside the passes; the log report at the end is left out.
 */
module Generator {
  import opened Vectors
  import opened Blocks
  import opened ChunkConfigs
  import opened Registry
  import opened Mathf
  import opened Grid
  import opened Heights
  import opened Terrain
  import opened Caves
  import opened Placement
  import opened Mesh

  /** Layer `i`'s block is among the layer blocks the registry scans. */
  lemma {:induction false} LayerBlocksHas(layers: seq<ChunkLayer>, i: int)
    requires 0 <= i < |layers|
    ensures layers[i].bloc in LayerBlocks(layers)
  {
    if i < |layers| - 1 {
      LayerBlocksHas(layers[..|layers| - 1], i);
    }
  }

  /** Ore `k`'s block is among the ore blocks of its layer. */
  lemma {:induction false} LayerOreBlocksHas(ores: seq<OreConfig>, k: int)
    requires 0 <= k < |ores|
    ensures ores[k].block in LayerOreBlocks(ores)
  {
    if k < |ores| - 1 {
      LayerOreBlocksHas(ores[..|ores| - 1], k);
    }
  }

  /** The block of ore `k` of layer `i` is among the ore blocks the registry scans. */
  lemma {:induction false} OreBlockListHas(layers: seq<ChunkLayer>, i: int, k: int)
    requires 0 <= i < |layers| && 0 <= k < |layers[i].ores|
    ensures layers[i].ores[k].block in OreBlockList(layers)
  {
    if i == |layers| - 1 {
      LayerOreBlocksHas(layers[i].ores, k);
    } else {
      var init := layers[..|layers| - 1];
      assert init[i] == layers[i];
      OreBlockListHas(init, i, k);
    }
  }

  /** Every block of the template of structure `k` is among the template blocks the registry scans. */
  lemma {:induction false} TemplateBlocksHas(structures: seq<ChunkStructure>, k: int, j: int)
    requires 0 <= k < |structures| && structures[k].config.Some?
    requires 0 <= j < |structures[k].config.value.blockTemplates|
    ensures structures[k].config.value.blockTemplates[j] in TemplateBlocks(structures)
  {
    if k < |structures| - 1 {
      var init := structures[..|structures| - 1];
      assert init[k] == structures[k];
      TemplateBlocksHas(init, k, j);
    }
  }

  /** The registry built from a configuration has an entry for every layer, template and ore block. */
  lemma SourcesRegistered(cfg: ChunkConfig, reg: Registry)
    requires Valid(reg) && reg.configs == Dedup(RegistrySources(cfg))
    ensures LayersRegistered(cfg.layers, reg) && OresRegistered(reg, cfg.layers)
    ensures forall k :: 0 <= k < |cfg.structures| && cfg.structures[k].config.Some? ==>
              TemplateRegistered(cfg.structures[k].config.value, reg)
  {
    var src := RegistrySources(cfg);
    DedupMembers(src);
    forall b | b in src
      ensures b in reg.index
    {
      var i :| 0 <= i < |reg.configs| && reg.configs[i] == b;
    }
    forall i | 0 <= i < |cfg.layers|
      ensures cfg.layers[i].bloc in reg.index
    {
      LayerBlocksHas(cfg.layers, i);
    }
    forall b | b in OreBlocks(cfg.layers)
      ensures b in reg.index
    {
      var i, k :| 0 <= i < |cfg.layers| && 0 <= k < |cfg.layers[i].ores| && cfg.layers[i].ores[k].block == b;
      OreBlockListHas(cfg.layers, i, k);
    }
    forall k, j | 0 <= k < |cfg.structures| && cfg.structures[k].config.Some? &&
                  0 <= j < |cfg.structures[k].config.value.blockTemplates|
      ensures cfg.structures[k].config.value.blockTemplates[j] in reg.index
    {
      TemplateBlocksHas(cfg.structures, k, j);
    }
  }

  /** A grid consistent with a registry names a submesh of that registry in every block. */
  lemma ConsistentIndexed(g: array3<Block?>, configs: seq<BlockConfig>)
    requires Consistent(g, configs)
    ensures Indexed(g, |configs|)
  {
  }

  /**
   * Generates a chunk. `rounded[x, z]` is column (x, z)'s height noise after scaling and
   * rounding, and `hollow` says where the cave noise clears the threshold. The grid is
   * width x length x chunkMaxHeight; the registry holds every distinct block kind once; every
   * placed block is consistent with the registry, so the grid can be meshed with one submesh per
   * registry entry; every structure coordinate lies inside the grid.
   */
  method Generate(cfg: ChunkConfig, s: GeneratorSettings, rounded: array2<int>, hollow: (int, int, int) -> bool)
    returns (g: array3<Block?>, reg: Registry, coords: seq<Vector3Int>)
    requires 0 <= cfg.width && 0 <= cfg.length && rounded.Length0 == cfg.width && rounded.Length1 == cfg.length
    requires 0 <= s.chunkMaxHeight
    requires forall x, z :: 0 <= x < cfg.width && 0 <= z < cfg.length ==> SurfaceHeight(s, rounded[x, z]) <= s.chunkMaxHeight
    requires forall i :: 0 <= i < |cfg.layers| ==>
               && LayerSafe(cfg.layers[i], cfg.width, cfg.length)
               && forall x, z :: 0 <= x < cfg.width && 0 <= z < cfg.length ==>
                    ColumnSafe(cfg.layers[i], SurfaceHeight(s, rounded[x, z]), s.chunkMaxHeight)
    requires s.enableCaves ==>
               cfg.width == 0 || cfg.length == 0 || 0 <= s.caveMinDepth || Min(s.zeroHeight, s.chunkMaxHeight) <= s.caveMinDepth
    requires forall k :: 0 <= k < |cfg.structures| && cfg.structures[k].config.Some? ==>
               Readable(cfg.structures[k].config.value) && cfg.structures[k].minCount <= cfg.structures[k].maxCount + 1
    ensures g.Length0 == cfg.width && g.Length1 == cfg.length && g.Length2 == s.chunkMaxHeight
    ensures Valid(reg) && reg.configs == Dedup(RegistrySources(cfg))
    ensures Consistent(g, reg.configs) && Indexed(g, |reg.configs|)
    ensures forall c :: c in coords ==> 0 <= c.x < g.Length0 && 0 <= c.y < g.Length1 && 0 <= c.z < g.Length2
  {
    reg := InitGlobals(cfg);
    SourcesRegistered(cfg, reg);
    var hm := GenerateHeightMap(s, cfg.width, cfg.length, rounded);
    var h := s.chunkMaxHeight;
    assert HeightsFit(hm, h);
    assert OreSafe(cfg.layers, hm, h);
    var reg', counts, veins;
    g, reg', counts, veins := GenerateBaseTerrain(cfg, h, hm, reg);
    assert reg' == reg;
    StratifiedConsistent(g, hm, reg.configs, cfg.layers);
    if s.enableCaves {
      GenerateCaves(g, s, hollow, hm, reg.configs, cfg.layers);
    }
    ghost var owners;
    coords, owners := PlaceStructures(cfg, g, hm, reg);
    ConsistentIndexed(g, reg.configs);
  }
}
