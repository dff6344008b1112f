/**
 * The global block registry: the list of distinct block kinds in first-appearance order and the
 * dictionary from kind to list position (one submesh per entry).
 */
module Registry {
  import opened Vectors
  import opened Blocks
  import opened Structures
  import opened ChunkConfigs

  datatype Registry = Registry(configs: seq<BlockConfig>, index: map<BlockConfig, int>)

  /** The dictionary and the list agree: `index[configs[i]] == i`, and every key is listed. */
  ghost predicate Valid(r: Registry)
  {
    && (forall i :: 0 <= i < |r.configs| ==> r.configs[i] in r.index && r.index[r.configs[i]] == i)
    && (forall b :: b in r.index ==> 0 <= r.index[b] < |r.configs| && r.configs[r.index[b]] == b)
  }

  /** `r'` keeps every entry of `r` at the same position. */
  ghost predicate Extends(r': Registry, r: Registry)
  {
    && |r.configs| <= |r'.configs|
    && r'.configs[..|r.configs|] == r.configs
    && (forall b :: b in r.index ==> b in r'.index && r'.index[b] == r.index[b])
  }

  /** Growing in two steps is growing. */
  lemma ExtendsTrans(r'': Registry, r': Registry, r: Registry)
    requires Extends(r'', r') && Extends(r', r)
    ensures Extends(r'', r)
  {
    assert r''.configs[..|r.configs|] == r''.configs[..|r'.configs|][..|r.configs|];
  }

  /**
   * Looks a kind up, appending it at the next index when it is new; returns the registry and
   * the kind's index.
   */
  function Register(r: Registry, b: BlockConfig): (res: (Registry, int))
    requires Valid(r)
    ensures Valid(res.0) && Extends(res.0, r)
    ensures b in res.0.index && res.0.index[b] == res.1 && res.0.configs[res.1] == b
    ensures b in r.index ==> res.0 == r
    ensures b !in r.index ==> res.0.configs == r.configs + [b]
  {
    if b in r.index then (r, r.index[b])
    else
      var r' := Registry(r.configs + [b], r.index[b := |r.configs|]);
      assert forall c :: c in r'.index && c != b ==> c in r.index;
      (r', |r.configs|)
  }

  /** Whether no element occurs twice. */
  predicate Distinct<T(==)>(s: seq<T>)
  {
    forall i, j :: 0 <= i < j < |s| ==> s[i] != s[j]
  }

  /** The distinct elements of `s`, each kept at its first appearance. */
  function Dedup(s: seq<BlockConfig>): seq<BlockConfig>
    decreases |s|
  {
    if s == [] then []
    else
      var d := Dedup(s[..|s| - 1]);
      if s[|s| - 1] in d then d else d + [s[|s| - 1]]
  }

  /** Position of the first occurrence of `x` in `s`. */
  function FirstIndex(s: seq<BlockConfig>, x: BlockConfig): (r: nat)
    requires x in s
    ensures r < |s| && s[r] == x && x !in s[..r]
    decreases |s|
  {
    if x in s[..|s| - 1] then FirstIndex(s[..|s| - 1], x) else |s| - 1
  }

  /** Deduplication keeps exactly the elements of its input. */
  lemma {:induction false} DedupMembers(s: seq<BlockConfig>)
    ensures forall x :: x in Dedup(s) <==> x in s
    decreases |s|
  {
    if s != [] {
      DedupMembers(s[..|s| - 1]);
      assert s == s[..|s| - 1] + [s[|s| - 1]];
    }
  }

  /** Deduplication leaves no element twice. */
  lemma {:induction false} DedupDistinct(s: seq<BlockConfig>)
    ensures Distinct(Dedup(s))
    decreases |s|
  {
    if s != [] {
      DedupDistinct(s[..|s| - 1]);
    }
  }

  /** The kept elements are ordered by where they first appear in the input. */
  lemma {:induction false} DedupOrder(s: seq<BlockConfig>)
    ensures forall x :: x in Dedup(s) ==> x in s
    ensures forall i, j :: 0 <= i < j < |Dedup(s)| ==> FirstIndex(s, Dedup(s)[i]) < FirstIndex(s, Dedup(s)[j])
    decreases |s|
  {
    DedupMembers(s);
    if s != [] {
      var init := s[..|s| - 1];
      var d := Dedup(init);
      DedupOrder(init);
      DedupMembers(init);
      forall x | x in init
        ensures FirstIndex(s, x) == FirstIndex(init, x)
      {
        assert s[..|s| - 1] == init;
      }
      forall i, j | 0 <= i < j < |Dedup(s)|
        ensures FirstIndex(s, Dedup(s)[i]) < FirstIndex(s, Dedup(s)[j])
      {
        if j < |d| {
          assert Dedup(s)[i] == d[i] && Dedup(s)[j] == d[j];
        } else {
          assert Dedup(s)[j] == s[|s| - 1] && s[|s| - 1] !in init;
          assert Dedup(s)[i] == d[i] && d[i] in init;
        }
      }
    }
  }

  /** Registering one more kind extends the deduplicated list of everything seen so far. */
  lemma RegisterDedup(r: Registry, seen: seq<BlockConfig>, b: BlockConfig)
    requires Valid(r) && r.configs == Dedup(seen)
    ensures Register(r, b).0.configs == Dedup(seen + [b])
  {
    DedupMembers(seen);
    assert (seen + [b])[..|seen|] == seen;
  }

  /** The layer blocks, in layer order. */
  function LayerBlocks(layers: seq<ChunkLayer>): seq<BlockConfig>
    decreases |layers|
  {
    if layers == [] then [] else LayerBlocks(layers[..|layers| - 1]) + [layers[|layers| - 1].bloc]
  }

  /** The local block lists of the structures that have a template, in structure order. */
  function TemplateBlocks(structures: seq<ChunkStructure>): seq<BlockConfig>
    decreases |structures|
  {
    if structures == [] then []
    else
      var last := structures[|structures| - 1];
      TemplateBlocks(structures[..|structures| - 1]) + (if last.config.Some? then last.config.value.blockTemplates else [])
  }

  /** The ore blocks of one layer, in ore order. */
  function LayerOreBlocks(ores: seq<OreConfig>): seq<BlockConfig>
    decreases |ores|
  {
    if ores == [] then [] else LayerOreBlocks(ores[..|ores| - 1]) + [ores[|ores| - 1].block]
  }

  /** The ore blocks of every layer, layer by layer. */
  function OreBlockList(layers: seq<ChunkLayer>): seq<BlockConfig>
    decreases |layers|
  {
    if layers == [] then [] else OreBlockList(layers[..|layers| - 1]) + LayerOreBlocks(layers[|layers| - 1].ores)
  }

  /** Everything the registry scans, in scanning order: layers, then templates, then ores. */
  function RegistrySources(cfg: ChunkConfig): seq<BlockConfig>
  {
    LayerBlocks(cfg.layers) + TemplateBlocks(cfg.structures) + OreBlockList(cfg.layers)
  }

  /** Registers each kind of `bs` in turn (the `if (!map.ContainsKey(b))` scan of one list). */
  method RegisterEach(reg: Registry, ghost seen: seq<BlockConfig>, bs: seq<BlockConfig>) returns (reg': Registry)
    requires Valid(reg) && reg.configs == Dedup(seen)
    ensures Valid(reg') && reg'.configs == Dedup(seen + bs)
  {
    reg' := reg;
    assert seen + bs[..0] == seen;
    for k := 0 to |bs|
      invariant Valid(reg') && reg'.configs == Dedup(seen + bs[..k])
    {
      RegisterDedup(reg', seen + bs[..k], bs[k]);
      reg' := Register(reg', bs[k]).0;
      assert seen + bs[..k + 1] == (seen + bs[..k]) + [bs[k]];
    }
    assert bs[..|bs|] == bs;
  }

  /** The structure scan: the block list of every structure that has a template. */
  method RegisterTemplates(reg: Registry, ghost seen: seq<BlockConfig>, structures: seq<ChunkStructure>)
    returns (reg': Registry)
    requires Valid(reg) && reg.configs == Dedup(seen)
    ensures Valid(reg') && reg'.configs == Dedup(seen + TemplateBlocks(structures))
  {
    reg' := reg;
    assert seen + TemplateBlocks(structures[..0]) == seen;
    for i := 0 to |structures|
      invariant Valid(reg') && reg'.configs == Dedup(seen + TemplateBlocks(structures[..i]))
    {
      var st := structures[i];
      ghost var before := seen + TemplateBlocks(structures[..i]);
      assert structures[..i + 1][..i] == structures[..i];
      if st.config.Some? {
        reg' := RegisterEach(reg', before, st.config.value.blockTemplates);
        assert before + st.config.value.blockTemplates == seen + TemplateBlocks(structures[..i + 1]);
      } else {
        assert before == seen + TemplateBlocks(structures[..i + 1]);
      }
    }
    assert structures[..|structures|] == structures;
  }

  /** The ore scan: the ore blocks of every layer. */
  method RegisterOres(reg: Registry, ghost seen: seq<BlockConfig>, layers: seq<ChunkLayer>) returns (reg': Registry)
    requires Valid(reg) && reg.configs == Dedup(seen)
    ensures Valid(reg') && reg'.configs == Dedup(seen + OreBlockList(layers))
  {
    reg' := reg;
    assert seen + OreBlockList(layers[..0]) == seen;
    for i := 0 to |layers|
      invariant Valid(reg') && reg'.configs == Dedup(seen + OreBlockList(layers[..i]))
    {
      ghost var before := seen + OreBlockList(layers[..i]);
      assert layers[..i + 1][..i] == layers[..i];
      reg' := RegisterEach(reg', before, LayerOreBlocks(layers[i].ores));
      assert before + LayerOreBlocks(layers[i].ores) == seen + OreBlockList(layers[..i + 1]);
    }
    assert layers[..|layers|] == layers;
  }

  /**
   * Builds the registry: every distinct kind of the layers, then of the templates of the
   * structures that have one, then of the layers' ores, indexed 0..n-1 in first-appearance order.
   */
  method InitGlobals(cfg: ChunkConfig) returns (reg: Registry)
    ensures Valid(reg)
    ensures reg.configs == Dedup(RegistrySources(cfg))
  {
    reg := Registry([], map[]);
    assert reg.configs == Dedup([]);
    reg := RegisterEach(reg, [], LayerBlocks(cfg.layers));
    assert [] + LayerBlocks(cfg.layers) == LayerBlocks(cfg.layers);
    reg := RegisterTemplates(reg, LayerBlocks(cfg.layers), cfg.structures);
    reg := RegisterOres(reg, LayerBlocks(cfg.layers) + TemplateBlocks(cfg.structures), cfg.layers);
  }
}
