/** The configuration records of a chunk, and the arithmetic of its layer stack. */
module ChunkConfigs {
  import opened Vectors
  import opened Blocks
  import opened Structures

  /** An ore that may appear inside one layer. `noiseScale` is carried but never read. */
  datatype OreConfig = OreConfig(block: BlockConfig, chance: real, minTotalOres: int, maxTotalOres: int,
                                 clusterSize: int, noiseScale: real)

  /** One stratum of the layer stack: its block, how many cells deep it is, and its ores. */
  datatype ChunkLayer = ChunkLayer(bloc: BlockConfig, thickness: int, ores: seq<OreConfig>)

  /** A structure rule: the template (possibly missing), how many to place, and the spacing. */
  datatype ChunkStructure = ChunkStructure(config: Option<Template>, minCount: int, maxCount: int,
                                           spawnChance: real, minDistance: real)

  /** A chunk's configuration as the generator reads it. */
  datatype ChunkConfig = ChunkConfig(width: int, length: int, layers: seq<ChunkLayer>,
                                     structures: seq<ChunkStructure>)

  /** The integer settings of the Perlin generator asset that the discrete passes read. */
  datatype GeneratorSettings = GeneratorSettings(maxTerrainHeight: int, chunkMaxHeight: int, zeroHeight: int,
                                                 maxDown: int, enableCaves: bool, caveMinDepth: int)

  /** Cells a layer actually occupies: a non-positive thickness occupies none. */
  function Span(layer: ChunkLayer): nat
  {
    if layer.thickness > 0 then layer.thickness else 0
  }

  /** Depth below the surface at which layer `i` starts: the spans of the layers above it. */
  function Depth(layers: seq<ChunkLayer>, i: nat): nat
    requires i <= |layers|
  {
    if i == 0 then 0 else Depth(layers, i - 1) + Span(layers[i - 1])
  }

  /** Layers further down never start higher up. */
  lemma {:induction false} DepthMonotone(layers: seq<ChunkLayer>, i: nat, j: nat)
    requires i <= j <= |layers|
    ensures Depth(layers, i) <= Depth(layers, j)
    decreases j
  {
    if i < j {
      DepthMonotone(layers, i, j - 1);
    }
  }

  /** Search for the stratum holding depth `d`, among layers `i` onward. */
  function StratumFrom(layers: seq<ChunkLayer>, d: int, i: nat): (r: Option<nat>)
    requires i <= |layers| && Depth(layers, i) <= d
    ensures r.Some? ==> i <= r.value < |layers| && Depth(layers, r.value) <= d < Depth(layers, r.value + 1)
    ensures r.None? <==> d >= Depth(layers, |layers|)
    decreases |layers| - i
  {
    if i == |layers| then None
    else if d < Depth(layers, i + 1) then
      DepthMonotone(layers, i + 1, |layers|);
      Some(i)
    else StratumFrom(layers, d, i + 1)
  }

  /**
   * The layer a cell `d` cells below the surface belongs to (d = 0 is the top cell), or None
   * when it lies above the surface or below the whole stack.
   */
  function StratumAt(layers: seq<ChunkLayer>, d: int): (r: Option<nat>)
    ensures r.Some? ==> r.value < |layers| && Depth(layers, r.value) <= d < Depth(layers, r.value + 1)
    ensures r.None? <==> d < 0 || d >= Depth(layers, |layers|)
  {
    if d < 0 then None else StratumFrom(layers, d, 0)
  }

  /** Layer `i` owns exactly the depths from `Depth(i)` up to `Depth(i + 1)`. */
  lemma {:induction false} StratumOfDepth(layers: seq<ChunkLayer>, i: nat, d: int)
    requires i < |layers| && Depth(layers, i) <= d < Depth(layers, i + 1)
    ensures StratumAt(layers, d) == Some(i)
  {
    DepthMonotone(layers, i + 1, |layers|);
    var r := StratumAt(layers, d);
    var k := r.value;
    if k < i {
      DepthMonotone(layers, k + 1, i);
    } else if i < k {
      DepthMonotone(layers, i + 1, k);
    }
  }

  /** Every block kind that some layer's ore places. */
  function OreBlocks(layers: seq<ChunkLayer>): set<BlockConfig>
  {
    set i, k | 0 <= i < |layers| && 0 <= k < |layers[i].ores| :: layers[i].ores[k].block
  }

  /** Whether some rule of `ores` places kind `c`. */
  predicate RuleFor(ores: seq<OreConfig>, c: BlockConfig)
    decreases |ores|
  {
    |ores| > 0 && (ores[|ores| - 1].block == c || RuleFor(ores[..|ores| - 1], c))
  }

  /** Whether some layer of the stack has an ore rule placing kind `c`. */
  predicate PlacesOre(layers: seq<ChunkLayer>, c: BlockConfig)
    decreases |layers|
  {
    |layers| > 0 && (RuleFor(layers[|layers| - 1].ores, c) || PlacesOre(layers[..|layers| - 1], c))
  }

  lemma {:induction false} RuleForIff(ores: seq<OreConfig>, c: BlockConfig)
    ensures RuleFor(ores, c) <==> exists k :: 0 <= k < |ores| && ores[k].block == c
    decreases |ores|
  {
    if |ores| > 0 {
      RuleForIff(ores[..|ores| - 1], c);
      if RuleFor(ores[..|ores| - 1], c) {
        var k :| 0 <= k < |ores| - 1 && ores[..|ores| - 1][k].block == c;
        assert ores[k].block == c;
      }
      if exists k :: 0 <= k < |ores| && ores[k].block == c {
        var k :| 0 <= k < |ores| && ores[k].block == c;
        if k < |ores| - 1 {
          assert ores[..|ores| - 1][k].block == c;
        }
      }
    }
  }

  /** The recursive test agrees with the set of ore kinds. */
  lemma {:induction false} PlacesOreIff(layers: seq<ChunkLayer>, c: BlockConfig)
    ensures PlacesOre(layers, c) <==> c in OreBlocks(layers)
    decreases |layers|
  {
    if |layers| > 0 {
      var last := |layers| - 1;
      PlacesOreIff(layers[..last], c);
      RuleForIff(layers[last].ores, c);
      if PlacesOre(layers, c) {
        if RuleFor(layers[last].ores, c) {
          var k :| 0 <= k < |layers[last].ores| && layers[last].ores[k].block == c;
          assert c in OreBlocks(layers);
        } else {
          var i, k :| 0 <= i < last && 0 <= k < |layers[..last][i].ores| && layers[..last][i].ores[k].block == c;
          assert layers[i] == layers[..last][i];
          assert c in OreBlocks(layers);
        }
      }
      if c in OreBlocks(layers) {
        var i, k :| 0 <= i < |layers| && 0 <= k < |layers[i].ores| && layers[i].ores[k].block == c;
        if i < last {
          assert layers[..last][i] == layers[i];
          assert c in OreBlocks(layers[..last]);
        }
      }
    } else {
      assert OreBlocks(layers) == {};
    }
  }

  /** How many ores of this rule may exist: its maximum, or its minimum quota when that is larger. */
  function Limit(o: OreConfig, withQuota: bool): int
  {
    if withQuota && o.minTotalOres > o.maxTotalOres then o.minTotalOres else o.maxTotalOres
  }

  /** The largest limit among the rules of `ores` that place `b` (zero if none). */
  function OreCap(ores: seq<OreConfig>, b: BlockConfig, withQuota: bool): (r: nat)
    ensures forall k :: 0 <= k < |ores| && ores[k].block == b ==> Limit(ores[k], withQuota) <= r
    ensures r == 0 || exists k :: 0 <= k < |ores| && ores[k].block == b && Limit(ores[k], withQuota) == r
    decreases |ores|
  {
    if ores == [] then 0
    else
      var rest := OreCap(ores[..|ores| - 1], b, withQuota);
      var last := ores[|ores| - 1];
      if last.block == b && Limit(last, withQuota) > rest then Limit(last, withQuota) else rest
  }

  /** The largest limit among all ore rules of all layers that place `b` (zero if none). */
  function Cap(layers: seq<ChunkLayer>, b: BlockConfig, withQuota: bool): (r: nat)
    ensures forall i, k :: 0 <= i < |layers| && 0 <= k < |layers[i].ores| && layers[i].ores[k].block == b
              ==> Limit(layers[i].ores[k], withQuota) <= r
    ensures r == 0 || exists i, k ::
                        0 <= i < |layers| && 0 <= k < |layers[i].ores| &&
                        layers[i].ores[k].block == b && Limit(layers[i].ores[k], withQuota) == r
    decreases |layers|
  {
    if layers == [] then 0
    else
      var rest := Cap(layers[..|layers| - 1], b, withQuota);
      var here := OreCap(layers[|layers| - 1].ores, b, withQuota);
      assert forall i, k :: 0 <= i < |layers| - 1 && 0 <= k < |layers[i].ores| ==>
        layers[i].ores[k] == layers[..|layers| - 1][i].ores[k];
      assert forall i :: 0 <= i < |layers| - 1 ==> layers[i] == layers[..|layers| - 1][i];
      if here > rest then here else rest
  }

  /** Counting minimum quotas never lowers a cap. */
  lemma {:induction false} CapWithQuota(layers: seq<ChunkLayer>, b: BlockConfig)
    ensures Cap(layers, b, false) <= Cap(layers, b, true)
    decreases |layers|
  {
    if layers != [] {
      CapWithQuota(layers[..|layers| - 1], b);
      OreCapWithQuota(layers[|layers| - 1].ores, b);
    }
  }

  lemma {:induction false} OreCapWithQuota(ores: seq<OreConfig>, b: BlockConfig)
    ensures OreCap(ores, b, false) <= OreCap(ores, b, true)
    decreases |ores|
  {
    if ores != [] {
      OreCapWithQuota(ores[..|ores| - 1], b);
    }
  }
}
