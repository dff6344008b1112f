/**
 * Structure placement: trial columns drawn without replacement, the spacing, bounds and
 * collision checks, the stamping of a template into the grid and the foundation filled in
 * under it. Random draws are nondeterministic choices within their documented ranges.
 */
module Placement {
  import opened Vectors
  import opened Blocks
  import opened Structures
  import opened ChunkConfigs
  import opened Registry
  import opened Mathf
  import opened Grid

  /**
   * A template the generator can read without running off its matrix: the structure editor
   * keeps every size component at least 1, and the matrix covers the whole volume.
   */
  predicate Readable(t: Template)
  {
    t.size.x >= 1 && t.size.y >= 1 && t.size.z >= 1 && Volume(t.size) <= |t.matrix|
  }

  /** Every block kind the template names has a registry entry. */
  predicate TemplateRegistered(t: Template, reg: Registry)
  {
    forall k :: 0 <= k < |t.blockTemplates| ==> t.blockTemplates[k] in reg.index
  }

  /** Every layer block has a registry entry. */
  predicate LayersRegistered(layers: seq<ChunkLayer>, reg: Registry)
  {
    forall i :: 0 <= i < |layers| ==> layers[i].bloc in reg.index
  }

  /** The box of a template whose low corner is (ox, oy, oz) lies inside a w x l x h grid. */
  predicate Fits(size: Vector3Int, ox: int, oy: int, oz: int, w: int, l: int, h: int)
  {
    0 <= ox && ox + size.x <= w && 0 <= oz && oz + size.z <= l && 0 <= oy && oy + size.y <= h
  }

  /** The column probe `x + sx * z` of a footprint column stays inside the matrix. */
  lemma {:induction false} ProbeInRange(size: Vector3Int, tx: int, tz: int)
    requires size.y >= 1 && 0 <= tx < size.x && 0 <= tz < size.z
    ensures 0 <= tx + size.x * tz < Volume(size)
  {
    MulLeftMono(size.x, tz, size.z - 1);
    assert size.x * (size.z - 1) == size.x * size.z - size.x;
    MulLeftMono(size.x * size.z, 1, size.y);
    assert size.x * size.y * size.z == size.x * size.z * size.y;
  }

  /** The matrix entry the foundation pass tests for footprint column (tx, tz). */
  function Probe(t: Template, tx: int, tz: int): int
    requires Readable(t) && 0 <= tx < t.size.x && 0 <= tz < t.size.z
  {
    ProbeInRange(t.size, tx, tz);
    t.matrix[tx + t.size.x * tz]
  }

  /** The block kind stamped at template cell (tx, ty, tz): values 1 to |blockTemplates| name one, any other value none. */
  function Stamps(t: Template, tx: int, ty: int, tz: int): Option<BlockConfig>
    requires Readable(t) && InTemplate(t.size, tx, ty, tz)
  {
    FlatIndexInRange(t.size, tx, ty, tz);
    var v := TemplateValue(t, tx, ty, tz);
    if 1 <= v <= |t.blockTemplates| then Some(t.blockTemplates[v - 1]) else None
  }

  /** `c` is a block as `new Block(map[b], b)` makes it: kind `b`, its registry index, not transparent. */
  predicate Holds(c: Block?, b: BlockConfig, reg: Registry)
  {
    c != null && c.Config == b && b in reg.index && c.LayerIndex == reg.index[b] && !c.IsTransparent
  }

  /** What stamping template cell (tx, ty, tz) leaves in a grid cell that held `before`. */
  predicate StampOk(c: Block?, before: Block?, t: Template, reg: Registry, tx: int, ty: int, tz: int)
    requires Readable(t) && InTemplate(t.size, tx, ty, tz)
  {
    match Stamps(t, tx, ty, tz)
    case Some(b) => Holds(c, b, reg)
    case None => c == before
  }

  /** Template cell (tx, ty, tz) is solid and the grid cell it would go to is already taken. */
  predicate Blocked(g: array3<Block?>, t: Template, ox: int, oy: int, oz: int, tx: int, ty: int, tz: int)
    reads g
    requires Readable(t) && Fits(t.size, ox, oy, oz, g.Length0, g.Length1, g.Length2)
  {
    InTemplate(t.size, tx, ty, tz) &&
    (FlatIndexInRange(t.size, tx, ty, tz); TemplateValue(t, tx, ty, tz) > 0) &&
    g[ox + tx, oz + tz, oy + ty] != null
  }

  /**
   * The collision scan: true exactly when some solid template cell would land on an occupied
   * grid cell. The two outer loops stop at the first hit; the innermost one runs to its end.
   */
  method Collides(g: array3<Block?>, t: Template, ox: int, oy: int, oz: int) returns (coll: bool)
    requires Readable(t) && Fits(t.size, ox, oy, oz, g.Length0, g.Length1, g.Length2)
    ensures coll <==> exists tx, ty, tz :: Blocked(g, t, ox, oy, oz, tx, ty, tz)
  {
    coll := false;
    var x0 := 0;
    while x0 < t.size.x && !coll
      invariant 0 <= x0 <= t.size.x
      invariant !coll ==> forall tx, ty, tz :: tx < x0 ==> !Blocked(g, t, ox, oy, oz, tx, ty, tz)
      invariant coll ==> exists tx, ty, tz :: Blocked(g, t, ox, oy, oz, tx, ty, tz)
    {
      var y0 := 0;
      while y0 < t.size.y && !coll
        invariant 0 <= y0 <= t.size.y
        invariant !coll ==> forall tx, ty, tz :: tx < x0 || (tx == x0 && ty < y0) ==> !Blocked(g, t, ox, oy, oz, tx, ty, tz)
        invariant coll ==> exists tx, ty, tz :: Blocked(g, t, ox, oy, oz, tx, ty, tz)
      {
        for z0 := 0 to t.size.z
          invariant !coll ==> forall tx, ty, tz :: tx < x0 || (tx == x0 && (ty < y0 || (ty == y0 && tz < z0))) ==>
                                !Blocked(g, t, ox, oy, oz, tx, ty, tz)
          invariant coll ==> exists tx, ty, tz :: Blocked(g, t, ox, oy, oz, tx, ty, tz)
        {
          FlatIndexInRange(t.size, x0, y0, z0);
          if TemplateValue(t, x0, y0, z0) > 0 && g[ox + x0, oz + z0, oy + y0] != null {
            coll := true;
            assert Blocked(g, t, ox, oy, oz, x0, y0, z0);
          }
        }
        y0 := y0 + 1;
      }
      x0 := x0 + 1;
    }
  }

  /** Stamps template cell (x0, y0, z0) into the grid. */
  method StampCell(g: array3<Block?>, t: Template, reg: Registry, ox: int, oy: int, oz: int, x0: int, y0: int, z0: int)
    modifies g
    requires Readable(t) && TemplateRegistered(t, reg) && Fits(t.size, ox, oy, oz, g.Length0, g.Length1, g.Length2)
    requires InTemplate(t.size, x0, y0, z0)
    ensures StampOk(g[ox + x0, oz + z0, oy + y0], old(g[ox + x0, oz + z0, oy + y0]), t, reg, x0, y0, z0)
    ensures forall x, z, y :: InBounds(g, x, z, y) && (x, z, y) != (ox + x0, oz + z0, oy + y0) ==> g[x, z, y] == old(g[x, z, y])
  {
    FlatIndexInRange(t.size, x0, y0, z0);
    var val := TemplateValue(t, x0, y0, z0);
    if val != 0 {
      var ti := val - 1;
      if 0 <= ti < |t.blockTemplates| {
        var bc := t.blockTemplates[ti];
        var b := new Block(reg.index[bc], bc);
        g[ox + x0, oz + z0, oy + y0] := b;
      }
    }
  }

  /** Stamps the template cells (x0, y0, 0) to (x0, y0, sz - 1). */
  method StampLine(g: array3<Block?>, t: Template, reg: Registry, ox: int, oy: int, oz: int, x0: int, y0: int)
    modifies g
    requires Readable(t) && TemplateRegistered(t, reg) && Fits(t.size, ox, oy, oz, g.Length0, g.Length1, g.Length2)
    requires 0 <= x0 < t.size.x && 0 <= y0 < t.size.y
    ensures forall x, z, y :: InBounds(g, x, z, y) ==>
              if x == ox + x0 && y == oy + y0 && oz <= z < oz + t.size.z
              then StampOk(g[x, z, y], old(g[x, z, y]), t, reg, x0, y0, z - oz)
              else g[x, z, y] == old(g[x, z, y])
  {
    for z0 := 0 to t.size.z
      invariant forall x, z, y :: InBounds(g, x, z, y) ==>
                  if x == ox + x0 && y == oy + y0 && oz <= z < oz + z0
                  then StampOk(g[x, z, y], old(g[x, z, y]), t, reg, x0, y0, z - oz)
                  else g[x, z, y] == old(g[x, z, y])
    {
      StampCell(g, t, reg, ox, oy, oz, x0, y0, z0);
    }
  }

  /** Stamps the template cells with first coordinate x0. */
  method StampSlice(g: array3<Block?>, t: Template, reg: Registry, ox: int, oy: int, oz: int, x0: int)
    modifies g
    requires Readable(t) && TemplateRegistered(t, reg) && Fits(t.size, ox, oy, oz, g.Length0, g.Length1, g.Length2)
    requires 0 <= x0 < t.size.x
    ensures forall x, z, y :: InBounds(g, x, z, y) ==>
              if x == ox + x0 && oy <= y < oy + t.size.y && oz <= z < oz + t.size.z
              then StampOk(g[x, z, y], old(g[x, z, y]), t, reg, x0, y - oy, z - oz)
              else g[x, z, y] == old(g[x, z, y])
  {
    for y0 := 0 to t.size.y
      invariant forall x, z, y :: InBounds(g, x, z, y) ==>
                  if x == ox + x0 && oy <= y < oy + y0 && oz <= z < oz + t.size.z
                  then StampOk(g[x, z, y], old(g[x, z, y]), t, reg, x0, y - oy, z - oz)
                  else g[x, z, y] == old(g[x, z, y])
    {
      StampLine(g, t, reg, ox, oy, oz, x0, y0);
    }
  }

  /**
   * Stamps the whole template with its low corner at (ox, oy, oz). Every template cell naming
   * a block kind gets a new block of that kind; all other cells keep what they held. When the
   * collision scan found nothing, no occupied cell is overwritten.
   */
  method Stamp(g: array3<Block?>, t: Template, reg: Registry, ox: int, oy: int, oz: int)
    modifies g
    requires Readable(t) && TemplateRegistered(t, reg) && Fits(t.size, ox, oy, oz, g.Length0, g.Length1, g.Length2)
    ensures forall x, z, y :: InBounds(g, x, z, y) ==>
              if InTemplate(t.size, x - ox, y - oy, z - oz)
              then StampOk(g[x, z, y], old(g[x, z, y]), t, reg, x - ox, y - oy, z - oz)
              else g[x, z, y] == old(g[x, z, y])
    ensures (forall tx, ty, tz :: !old(Blocked(g, t, ox, oy, oz, tx, ty, tz))) ==>
              forall x, z, y :: InBounds(g, x, z, y) && old(g[x, z, y]) != null ==> g[x, z, y] == old(g[x, z, y])
  {
    for x0 := 0 to t.size.x
      invariant forall x, z, y :: InBounds(g, x, z, y) ==>
                  if ox <= x < ox + x0 && InTemplate(t.size, x - ox, y - oy, z - oz)
                  then StampOk(g[x, z, y], old(g[x, z, y]), t, reg, x - ox, y - oy, z - oz)
                  else g[x, z, y] == old(g[x, z, y])
    {
      StampSlice(g, t, reg, ox, oy, oz, x0);
    }
    if forall tx, ty, tz :: !old(Blocked(g, t, ox, oy, oz, tx, ty, tz)) {
      forall x, z, y | InBounds(g, x, z, y) && old(g[x, z, y]) != null
        ensures g[x, z, y] == old(g[x, z, y])
      {
        if InTemplate(t.size, x - ox, y - oy, z - oz) {
          assert !old(Blocked(g, t, ox, oy, oz, x - ox, y - oy, z - oz));
        }
      }
    }
  }

  /**
   * What the foundation pass leaves in a cell `d` cells below a structure's base that held
   * `before`: inside the layer stack it fills an empty cell with that depth's layer block and
   * keeps an occupied one; below the stack it puts the last layer's block whatever was there.
   */
  predicate FoundationOk(c: Block?, before: Block?, layers: seq<ChunkLayer>, reg: Registry, d: int)
  {
    match StratumAt(layers, d)
    case Some(i) => if before != null then c == before else Holds(c, layers[i].bloc, reg)
    case None => if d < 0 || |layers| == 0 then c == before else Holds(c, layers[|layers| - 1].bloc, reg)
  }

  /**
   * Fills the column (wx, wz) from `top` down to 0: layer by layer into empty cells, then the
   * last layer's block into every remaining cell.
   */
  method FoundationColumn(g: array3<Block?>, layers: seq<ChunkLayer>, reg: Registry, wx: int, wz: int, top: int)
    modifies g
    requires 0 <= wx < g.Length0 && 0 <= wz < g.Length1 && -1 <= top < g.Length2
    requires LayersRegistered(layers, reg)
    ensures forall x, z, y :: InBounds(g, x, z, y) ==>
              if x == wx && z == wz && y <= top
              then FoundationOk(g[x, z, y], old(g[x, z, y]), layers, reg, top - y)
              else g[x, z, y] == old(g[x, z, y])
  {
    var fy := top;
    var li := 0;
    while fy >= 0 && li < |layers|
      invariant 0 <= li <= |layers|
      invariant fy == Max(top - Depth(layers, li), -1)
      invariant forall x, z, y :: InBounds(g, x, z, y) ==>
                  if x == wx && z == wz && fy < y <= top
                  then FoundationOk(g[x, z, y], old(g[x, z, y]), layers, reg, top - y)
                  else g[x, z, y] == old(g[x, z, y])
    {
      var layer := layers[li];
      var gi := reg.index[layer.bloc];
      var j := 0;
      while j < layer.thickness && fy >= 0
        invariant 0 <= j <= Span(layer)
        invariant fy == Max(top - Depth(layers, li) - j, -1)
        invariant forall x, z, y :: InBounds(g, x, z, y) ==>
                    if x == wx && z == wz && fy < y <= top
                    then FoundationOk(g[x, z, y], old(g[x, z, y]), layers, reg, top - y)
                    else g[x, z, y] == old(g[x, z, y])
      {
        StratumOfDepth(layers, li, top - fy);
        if g[wx, wz, fy] == null {
          var b := new Block(gi, layer.bloc);
          g[wx, wz, fy] := b;
        }
        fy := fy - 1;
        j := j + 1;
      }
      li := li + 1;
    }
    if fy >= 0 && |layers| > 0 {
      var last := layers[|layers| - 1];
      var gi := reg.index[last.bloc];
      while fy >= 0
        invariant -1 <= fy <= top - Depth(layers, |layers|)
        invariant forall x, z, y :: InBounds(g, x, z, y) ==>
                    if x == wx && z == wz && fy < y <= top
                    then FoundationOk(g[x, z, y], old(g[x, z, y]), layers, reg, top - y)
                    else g[x, z, y] == old(g[x, z, y])
      {
        var b := new Block(gi, last.bloc);
        g[wx, wz, fy] := b;
        fy := fy - 1;
      }
    }
  }

  /** Whether the foundation pass works on grid column (x, z) of a structure based at (ox, oz). */
  predicate UnderFootprint(t: Template, ox: int, oz: int, x: int, z: int)
    requires Readable(t)
  {
    0 <= x - ox < t.size.x && 0 <= z - oz < t.size.z && Probe(t, x - ox, z - oz) != 0
  }

  /** Fills the foundation columns (x0, 0) to (x0, sz - 1) of the footprint. */
  method FoundationRow(g: array3<Block?>, t: Template, layers: seq<ChunkLayer>, reg: Registry, ox: int, oy: int, oz: int, x0: int)
    modifies g
    requires Readable(t) && LayersRegistered(layers, reg) && Fits(t.size, ox, oy, oz, g.Length0, g.Length1, g.Length2)
    requires 0 <= x0 < t.size.x
    ensures forall x, z, y :: InBounds(g, x, z, y) ==>
              if x == ox + x0 && UnderFootprint(t, ox, oz, x, z) && y < oy
              then FoundationOk(g[x, z, y], old(g[x, z, y]), layers, reg, oy - 1 - y)
              else g[x, z, y] == old(g[x, z, y])
  {
    for z0 := 0 to t.size.z
      invariant forall x, z, y :: InBounds(g, x, z, y) ==>
                  if x == ox + x0 && z < oz + z0 && UnderFootprint(t, ox, oz, x, z) && y < oy
                  then FoundationOk(g[x, z, y], old(g[x, z, y]), layers, reg, oy - 1 - y)
                  else g[x, z, y] == old(g[x, z, y])
    {
      var matIdx := Probe(t, x0, z0);
      if matIdx != 0 {
        FoundationColumn(g, layers, reg, ox + x0, oz + z0, oy - 1);
      }
    }
  }

  /**
   * Fills in the ground under a structure based at (ox, oy, oz): in every footprint column
   * whose probe cell is non-zero, the cells below `oy` as `FoundationOk` says; nothing else
   * changes. The probe reads template cell (x, z, 0), not the bottom cell (x, 0, z)
   * (see `Structures.FoundationProbeCell`).
   */
  method FillStructureFoundation(g: array3<Block?>, t: Template, layers: seq<ChunkLayer>, reg: Registry, ox: int, oy: int, oz: int)
    modifies g
    requires Readable(t) && LayersRegistered(layers, reg) && Fits(t.size, ox, oy, oz, g.Length0, g.Length1, g.Length2)
    ensures forall x, z, y :: InBounds(g, x, z, y) ==>
              if UnderFootprint(t, ox, oz, x, z) && y < oy
              then FoundationOk(g[x, z, y], old(g[x, z, y]), layers, reg, oy - 1 - y)
              else g[x, z, y] == old(g[x, z, y])
  {
    for x0 := 0 to t.size.x
      invariant forall x, z, y :: InBounds(g, x, z, y) ==>
                  if x < ox + x0 && UnderFootprint(t, ox, oz, x, z) && y < oy
                  then FoundationOk(g[x, z, y], old(g[x, z, y]), layers, reg, oy - 1 - y)
                  else g[x, z, y] == old(g[x, z, y])
    {
      FoundationRow(g, t, layers, reg, ox, oy, oz, x0);
    }
  }

  /** What placing a structure based at (ox, oy, oz) leaves in grid cell (x, z, y) that held `before`. */
  predicate BuiltCell(c: Block?, before: Block?, t: Template, layers: seq<ChunkLayer>, reg: Registry,
                      ox: int, oy: int, oz: int, x: int, z: int, y: int)
    requires Readable(t)
  {
    if InTemplate(t.size, x - ox, y - oy, z - oz) then StampOk(c, before, t, reg, x - ox, y - oy, z - oz)
    else if UnderFootprint(t, ox, oz, x, z) && y < oy then FoundationOk(c, before, layers, reg, oy - 1 - y)
    else c == before
  }

  /**
   * Stamps the template and fills its foundation. Every cell ends up as `BuiltCell` says; no
   * cell is emptied, no occupied cell inside the template box is overwritten when the collision
   * scan found nothing, and a grid consistent with the registry stays consistent.
   */
  method Build(g: array3<Block?>, t: Template, layers: seq<ChunkLayer>, reg: Registry, ox: int, oy: int, oz: int)
    modifies g
    requires Readable(t) && TemplateRegistered(t, reg) && LayersRegistered(layers, reg)
    requires Fits(t.size, ox, oy, oz, g.Length0, g.Length1, g.Length2)
    requires forall tx, ty, tz :: !Blocked(g, t, ox, oy, oz, tx, ty, tz)
    ensures forall x, z, y :: InBounds(g, x, z, y) ==>
              BuiltCell(g[x, z, y], old(g[x, z, y]), t, layers, reg, ox, oy, oz, x, z, y)
    ensures forall x, z, y :: InBounds(g, x, z, y) && InTemplate(t.size, x - ox, y - oy, z - oz) && old(g[x, z, y]) != null ==>
              g[x, z, y] == old(g[x, z, y])
    ensures old(Occupied(g)) <= Occupied(g)
    ensures Valid(reg) && old(Consistent(g, reg.configs)) ==> Consistent(g, reg.configs)
  {
    Stamp(g, t, reg, ox, oy, oz);
    label Stamped:
    FillStructureFoundation(g, t, layers, reg, ox, oy, oz);
    forall x, z, y | InBounds(g, x, z, y)
      ensures BuiltCell(g[x, z, y], old(g[x, z, y]), t, layers, reg, ox, oy, oz, x, z, y)
    {
      if !InTemplate(t.size, x - ox, y - oy, z - oz) {
        assert old@Stamped(g[x, z, y]) == old(g[x, z, y]);
      } else {
        assert g[x, z, y] == old@Stamped(g[x, z, y]);
      }
    }
    forall p | p in old(Occupied(g))
      ensures p in Occupied(g)
    {
      assert BuiltCell(g[p.0, p.1, p.2], old(g[p.0, p.1, p.2]), t, layers, reg, ox, oy, oz, p.0, p.1, p.2);
    }
    if Valid(reg) && old(Consistent(g, reg.configs)) {
      forall x, z, y | InBounds(g, x, z, y) && g[x, z, y] != null
        ensures 0 <= g[x, z, y].LayerIndex < |reg.configs| && reg.configs[g[x, z, y].LayerIndex] == g[x, z, y].Config
      {
        assert BuiltCell(g[x, z, y], old(g[x, z, y]), t, layers, reg, ox, oy, oz, x, z, y);
      }
    }
  }

  /**
   * Whether the straight-line distance between two columns is below `minDistance`: the square
   * root of the squared distance is below a bound exactly when the bound is positive and the
   * squared distance is below its square.
   */
  predicate Near(p: Vector2Int, c: Vector2Int, minDistance: real)
  {
    0.0 < minDistance &&
    (((p.x - c.x) * (p.x - c.x) + (p.y - c.y) * (p.y - c.y)) as real) < minDistance * minDistance
  }

  /** Accepted centres, pairwise at least `minDistance` apart. */
  predicate Separated(placed: seq<Vector2Int>, minDistance: real)
  {
    forall i, j :: 0 <= i < j < |placed| ==> !Near(placed[i], placed[j], minDistance)
  }

  /** The spacing check: true exactly when some accepted centre is nearer than `minDistance`. */
  method TooClose(placed: seq<Vector2Int>, center: Vector2Int, minDistance: real) returns (tooClose: bool)
    ensures tooClose <==> exists i :: 0 <= i < |placed| && Near(placed[i], center, minDistance)
    ensures !tooClose && Separated(placed, minDistance) ==> Separated(placed + [center], minDistance)
  {
    tooClose := false;
    var i := 0;
    while i < |placed|
      invariant 0 <= i <= |placed| && !tooClose
      invariant forall k :: 0 <= k < i ==> !Near(placed[k], center, minDistance)
    {
      if Near(placed[i], center, minDistance) {
        tooClose := true;
        break;
      }
      i := i + 1;
    }
  }

  /** The candidate list: every column (cx, cz) of a w x l chunk once, x-major. */
  method Candidates(w: int, l: int) returns (cands: seq<Vector2Int>)
    requires 0 <= w && 0 <= l
    ensures |cands| == w * l && Distinct(cands)
    ensures forall p :: p in cands <==> 0 <= p.x < w && 0 <= p.y < l
  {
    cands := [];
    for cx := 0 to w
      invariant |cands| == cx * l && Distinct(cands)
      invariant forall p :: p in cands <==> 0 <= p.x < cx && 0 <= p.y < l
    {
      for cz := 0 to l
        invariant |cands| == cx * l + cz && Distinct(cands)
        invariant forall p :: p in cands <==> (0 <= p.x < cx && 0 <= p.y < l) || (p.x == cx && 0 <= p.y < cz)
      {
        cands := cands + [Vector2Int(cx, cz)];
      }
      assert cx * l + l == (cx + 1) * l;
    }
  }

  /**
   * The checks of one trial at column `center`, in the order they run: the spawn roll, the
   * spacing check, the footprint bounds, the base height bounds and the collision scan. A trial
   * that passes them all is accepted; one whose spawn chance is at least 1 and that passes the
   * other four always is.
   */
  method Accept(g: array3<Block?>, hm: array2<int>, t: Template, rule: ChunkStructure,
                center: Vector2Int, placed: seq<Vector2Int>)
    returns (ok: bool, ox: int, oy: int, oz: int)
    requires hm.Length0 == g.Length0 && hm.Length1 == g.Length1
    requires 0 <= center.x < g.Length0 && 0 <= center.y < g.Length1
    requires Readable(t)
    ensures ox == center.x - t.anchor.x && oz == center.y - t.anchor.z && oy == hm[center.x, center.y] - t.anchor.y
    ensures ok ==> 0.0 <= rule.spawnChance
    ensures ok ==> forall i :: 0 <= i < |placed| ==> !Near(placed[i], center, rule.minDistance)
    ensures ok ==> Fits(t.size, ox, oy, oz, g.Length0, g.Length1, g.Length2)
    ensures ok ==> forall tx, ty, tz :: !Blocked(g, t, ox, oy, oz, tx, ty, tz)
    ensures !ok && 1.0 <= rule.spawnChance && (forall i :: 0 <= i < |placed| ==> !Near(placed[i], center, rule.minDistance)) &&
            Fits(t.size, ox, oy, oz, g.Length0, g.Length1, g.Length2) ==>
              exists tx, ty, tz :: Blocked(g, t, ox, oy, oz, tx, ty, tz)
  {
    ok := false;
    ox, oz := center.x - t.anchor.x, center.y - t.anchor.z;
    oy := hm[center.x, center.y] - t.anchor.y;
    var roll: real :| 0.0 <= roll <= 1.0;
    if roll > rule.spawnChance {
      return;
    }
    var tooClose := TooClose(placed, center, rule.minDistance);
    if tooClose {
      return;
    }
    if ox < 0 || oz < 0 || ox + t.size.x > g.Length0 || oz + t.size.z > g.Length1 {
      return;
    }
    if oy < 0 || oy + t.size.y > g.Length2 {
      return;
    }
    var coll := Collides(g, t, ox, oy, oz);
    ok := !coll;
  }

  /**
   * One trial at column `center`: an accepted trial builds the structure with its low corner at
   * (ox, oy, oz), the column less the anchor and the ground height there less the anchor; a
   * rejected one leaves the grid as it was, and with a certain spawn, a well-separated centre
   * and a box that fits, it is rejected only on a collision.
   */
  method Trial(g: array3<Block?>, hm: array2<int>, t: Template, rule: ChunkStructure, layers: seq<ChunkLayer>,
               reg: Registry, center: Vector2Int, placed: seq<Vector2Int>)
    returns (accepted: bool, ox: int, oy: int, oz: int)
    modifies g
    requires hm.Length0 == g.Length0 && hm.Length1 == g.Length1
    requires 0 <= center.x < g.Length0 && 0 <= center.y < g.Length1
    requires Readable(t) && TemplateRegistered(t, reg) && LayersRegistered(layers, reg)
    ensures ox == center.x - t.anchor.x && oz == center.y - t.anchor.z && oy == hm[center.x, center.y] - t.anchor.y
    ensures accepted ==> forall i :: 0 <= i < |placed| ==> !Near(placed[i], center, rule.minDistance)
    ensures accepted ==> Fits(t.size, ox, oy, oz, g.Length0, g.Length1, g.Length2)
    ensures accepted ==> forall x, z, y :: InBounds(g, x, z, y) ==>
              BuiltCell(g[x, z, y], old(g[x, z, y]), t, layers, reg, ox, oy, oz, x, z, y)
    ensures accepted ==> forall x, z, y ::
              InBounds(g, x, z, y) && old(g[x, z, y]) != null && InTemplate(t.size, x - ox, y - oy, z - oz)
              ==> g[x, z, y] == old(g[x, z, y])
    ensures !accepted ==> forall x, z, y :: InBounds(g, x, z, y) ==> g[x, z, y] == old(g[x, z, y])
    ensures !accepted && 1.0 <= rule.spawnChance && (forall i :: 0 <= i < |placed| ==> !Near(placed[i], center, rule.minDistance)) &&
            Fits(t.size, ox, oy, oz, g.Length0, g.Length1, g.Length2) ==>
              exists tx, ty, tz :: Blocked(g, t, ox, oy, oz, tx, ty, tz)
    ensures old(Occupied(g)) <= Occupied(g)
    ensures Valid(reg) && old(Consistent(g, reg.configs)) ==> Consistent(g, reg.configs)
  {
    accepted, ox, oy, oz := Accept(g, hm, t, rule, center, placed);
    if accepted {
      Build(g, t, layers, reg, ox, oy, oz);
    }
  }

  /**
   * The candidates left and the columns tried so far: neither has repeats, they share no
   * column, and every column of both lies in the w x l chunk.
   */
  predicate Pool(cands: seq<Vector2Int>, tried: seq<Vector2Int>, w: int, l: int)
  {
    && Distinct(cands) && Distinct(tried) && (forall p :: p in tried ==> p !in cands)
    && (forall p :: p in cands ==> 0 <= p.x < w && 0 <= p.y < l)
    && (forall p :: p in tried ==> 0 <= p.x < w && 0 <= p.y < l)
  }

  /**
   * The recorded structure coordinates: one per accepted centre, holding its column and the
   * base height of the structure, whose box fits the w x l x h grid.
   */
  ghost predicate Sites(coords: seq<Vector3Int>, placed: seq<Vector2Int>, hm: array2<int>, t: Template, w: int, l: int, h: int)
    reads hm
  {
    |coords| == |placed| &&
    forall i :: 0 <= i < |placed| ==>
      0 <= placed[i].x < hm.Length0 && 0 <= placed[i].y < hm.Length1 &&
      coords[i] == Vector3Int(placed[i].x, placed[i].y, hm[placed[i].x, placed[i].y] - t.anchor.y) &&
      Fits(t.size, placed[i].x - t.anchor.x, coords[i].z, placed[i].y - t.anchor.z, w, l, h)
  }

  /**
   * Moving the drawn candidate `cands[idx]` onto the tried list keeps both lists free of
   * repeats and apart from each other, and keeps their total length.
   */
  lemma {:induction false} MoveTried(tried: seq<Vector2Int>, cands: seq<Vector2Int>, idx: int, w: int, l: int)
    requires Pool(cands, tried, w, l) && 0 <= idx < |cands|
    ensures Pool(cands[..idx] + cands[idx + 1..], tried + [cands[idx]], w, l)
    ensures |cands[..idx] + cands[idx + 1..]| + |tried + [cands[idx]]| == |cands| + |tried|
  {
    RemoveAt(cands, idx);
    var tried' := tried + [cands[idx]];
    forall i, j | 0 <= i < j < |tried'|
      ensures tried'[i] != tried'[j]
    {
      if j == |tried| {
        assert tried'[i] in tried;
      }
    }
    forall p | p in tried'
      ensures p in tried || p == cands[idx]
    {
      var m :| 0 <= m < |tried'| && tried'[m] == p;
      if m < |tried| {
        assert tried[m] == p;
      }
    }
  }

  /** Removing one entry of a list without repeats leaves a list without repeats, short of exactly that entry. */
  lemma {:induction false} RemoveAt<T>(s: seq<T>, idx: int)
    requires Distinct(s) && 0 <= idx < |s|
    ensures Distinct(s[..idx] + s[idx + 1..]) && |s[..idx] + s[idx + 1..]| == |s| - 1
    ensures forall p :: p in s[..idx] + s[idx + 1..] <==> p in s && p != s[idx]
  {
    var r := s[..idx] + s[idx + 1..];
    assert forall k :: 0 <= k < |r| ==> r[k] == if k < idx then s[k] else s[k + 1];
    forall p | p in s && p != s[idx]
      ensures p in r
    {
      var m :| 0 <= m < |s| && s[m] == p;
      if m < idx {
        assert r[m] == p;
      } else {
        assert r[m - 1] == p;
      }
    }
  }

  /**
   * Whether grid cell (x, z, y) is one a structure recorded at `c` (column (c.x, c.y), base
   * height c.z) may have written: a cell of its template box, or a cell below the base in one
   * of its foundation columns.
   */
  predicate SiteCell(t: Template, c: Vector3Int, x: int, z: int, y: int)
  {
    && Readable(t)
    && (|| InTemplate(t.size, x - (c.x - t.anchor.x), y - c.z, z - (c.y - t.anchor.z))
        || (UnderFootprint(t, c.x - t.anchor.x, c.y - t.anchor.z, x, z) && y < c.z))
  }

  /**
   * A trial at column `center` with its outcome recorded: an accepted trial appends the centre
   * and its coordinates and leaves every cell as `BuiltCell` says for the structure based
   * there; a rejected one records nothing and changes no cell.
   */
  method Settle(g: array3<Block?>, hm: array2<int>, t: Template, rule: ChunkStructure, layers: seq<ChunkLayer>,
                reg: Registry, center: Vector2Int, placed: seq<Vector2Int>, coords: seq<Vector3Int>)
    returns (placed': seq<Vector2Int>, coords': seq<Vector3Int>)
    modifies g
    requires hm.Length0 == g.Length0 && hm.Length1 == g.Length1
    requires 0 <= center.x < g.Length0 && 0 <= center.y < g.Length1
    requires Readable(t) && TemplateRegistered(t, reg) && LayersRegistered(layers, reg)
    requires Separated(placed, rule.minDistance)
    requires Sites(coords, placed, hm, t, g.Length0, g.Length1, g.Length2)
    ensures Separated(placed', rule.minDistance)
    ensures Sites(coords', placed', hm, t, g.Length0, g.Length1, g.Length2)
    ensures placed' == placed || placed' == placed + [center]
    ensures placed' == placed ==> coords' == coords && forall x, z, y :: InBounds(g, x, z, y) ==> g[x, z, y] == old(g[x, z, y])
    ensures placed' != placed ==> |coords'| == |coords| + 1 && coords'[..|coords|] == coords
    ensures placed' != placed ==> forall x, z, y :: InBounds(g, x, z, y) ==>
              BuiltCell(g[x, z, y], old(g[x, z, y]), t, layers, reg,
                        coords'[|coords|].x - t.anchor.x, coords'[|coords|].z, coords'[|coords|].y - t.anchor.z, x, z, y)
    ensures placed' != placed ==> forall x, z, y ::
              InBounds(g, x, z, y) && old(g[x, z, y]) != null &&
              InTemplate(t.size, x - (coords'[|coords|].x - t.anchor.x), y - coords'[|coords|].z, z - (coords'[|coords|].y - t.anchor.z))
              ==> g[x, z, y] == old(g[x, z, y])
    ensures old(Occupied(g)) <= Occupied(g)
    ensures Valid(reg) && old(Consistent(g, reg.configs)) ==> Consistent(g, reg.configs)
  {
    var accepted, ox, oy, oz := Trial(g, hm, t, rule, layers, reg, center, placed);
    if accepted {
      coords' := coords + [Vector3Int(center.x, center.y, oy)];
      placed' := placed + [center];
      assert coords'[..|coords|] == coords && coords'[|coords|] == Vector3Int(center.x, center.y, oy);
    } else {
      coords', placed' := coords, placed;
    }
  }

  /**
   * One trial of the structure loop: draws a candidate column, moves it onto the tried list
   * and, when the trial is accepted, records its centre and coordinates.
   */
  method Step(g: array3<Block?>, hm: array2<int>, t: Template, rule: ChunkStructure, layers: seq<ChunkLayer>,
              reg: Registry, cands: seq<Vector2Int>, ghost tried: seq<Vector2Int>, placed: seq<Vector2Int>,
              coords: seq<Vector3Int>)
    returns (cands': seq<Vector2Int>, ghost tried': seq<Vector2Int>, placed': seq<Vector2Int>, coords': seq<Vector3Int>)
    modifies g
    requires hm.Length0 == g.Length0 && hm.Length1 == g.Length1
    requires Readable(t) && TemplateRegistered(t, reg) && LayersRegistered(layers, reg)
    requires Pool(cands, tried, g.Length0, g.Length1) && |cands| > 0
    requires Separated(placed, rule.minDistance) && forall i :: 0 <= i < |placed| ==> placed[i] in tried
    requires Sites(coords, placed, hm, t, g.Length0, g.Length1, g.Length2)
    ensures Pool(cands', tried', g.Length0, g.Length1) && |cands'| == |cands| - 1 && |tried'| == |tried| + 1
    ensures Separated(placed', rule.minDistance) && forall i :: 0 <= i < |placed'| ==> placed'[i] in tried'
    ensures Sites(coords', placed', hm, t, g.Length0, g.Length1, g.Length2)
    ensures placed' == placed || placed' == placed + [tried'[|tried|]]
    ensures placed' == placed ==> coords' == coords && forall x, z, y :: InBounds(g, x, z, y) ==> g[x, z, y] == old(g[x, z, y])
    ensures placed' != placed ==> |coords'| == |coords| + 1 && coords'[..|coords|] == coords
    ensures placed' != placed ==> forall x, z, y :: InBounds(g, x, z, y) ==>
              BuiltCell(g[x, z, y], old(g[x, z, y]), t, layers, reg,
                        coords'[|coords|].x - t.anchor.x, coords'[|coords|].z, coords'[|coords|].y - t.anchor.z, x, z, y)
    ensures placed' != placed ==> forall x, z, y ::
              InBounds(g, x, z, y) && old(g[x, z, y]) != null &&
              InTemplate(t.size, x - (coords'[|coords|].x - t.anchor.x), y - coords'[|coords|].z, z - (coords'[|coords|].y - t.anchor.z))
              ==> g[x, z, y] == old(g[x, z, y])
    ensures old(Occupied(g)) <= Occupied(g)
    ensures Valid(reg) && old(Consistent(g, reg.configs)) ==> Consistent(g, reg.configs)
  {
    var idx :| 0 <= idx < |cands|;
    var center := cands[idx];
    MoveTried(tried, cands, idx, g.Length0, g.Length1);
    cands' := cands[..idx] + cands[idx + 1..];
    tried' := tried + [center];
    assert center in cands;
    placed', coords' := Settle(g, hm, t, rule, layers, reg, center, placed, coords);
  }

  /**
   * One trial of the structure loop as the loop sees it: a cell changes only inside the box or
   * the foundation of the site it records, and earlier records are kept.
   */
  method Advance(g: array3<Block?>, hm: array2<int>, t: Template, rule: ChunkStructure, layers: seq<ChunkLayer>,
                 reg: Registry, cands: seq<Vector2Int>, ghost tried: seq<Vector2Int>, placed: seq<Vector2Int>,
                 coords: seq<Vector3Int>)
    returns (cands': seq<Vector2Int>, ghost tried': seq<Vector2Int>, placed': seq<Vector2Int>, coords': seq<Vector3Int>)
    modifies g
    requires hm.Length0 == g.Length0 && hm.Length1 == g.Length1
    requires Readable(t) && TemplateRegistered(t, reg) && LayersRegistered(layers, reg)
    requires Pool(cands, tried, g.Length0, g.Length1) && |cands| > 0
    requires Separated(placed, rule.minDistance) && forall i :: 0 <= i < |placed| ==> placed[i] in tried
    requires Sites(coords, placed, hm, t, g.Length0, g.Length1, g.Length2)
    ensures Pool(cands', tried', g.Length0, g.Length1) && |cands'| == |cands| - 1 && |tried'| == |tried| + 1
    ensures Separated(placed', rule.minDistance) && forall i :: 0 <= i < |placed'| ==> placed'[i] in tried'
    ensures Sites(coords', placed', hm, t, g.Length0, g.Length1, g.Length2)
    ensures |placed| <= |placed'| <= |placed| + 1 && coords'[..|coords|] == coords
    ensures forall x, z, y :: InBounds(g, x, z, y) && g[x, z, y] != old(g[x, z, y]) ==>
              |coords| < |coords'| && SiteCell(t, coords'[|coords|], x, z, y)
    ensures old(Occupied(g)) <= Occupied(g)
    ensures Valid(reg) && old(Consistent(g, reg.configs)) ==> Consistent(g, reg.configs)
  {
    cands', tried', placed', coords' := Step(g, hm, t, rule, layers, reg, cands, tried, placed, coords);
    if placed' == placed {
      assert coords'[..|coords|] == coords;
    }
  }

  /**
   * The trials of one structure rule. `toPlace` is drawn from [minCount, maxCount]; columns
   * are drawn from the candidate list without replacement, so none is tried twice; the loop
   * stops once `toPlace` structures stand or the number of trials reaches the number of
   * columns left, which cuts it off after about half of the chunk's columns.
   */
  method PlaceStructure(g: array3<Block?>, hm: array2<int>, rule: ChunkStructure, t: Template,
                        layers: seq<ChunkLayer>, reg: Registry)
    returns (coords: seq<Vector3Int>, placed: seq<Vector2Int>, ghost tried: seq<Vector2Int>, toPlace: int)
    modifies g
    requires hm.Length0 == g.Length0 && hm.Length1 == g.Length1
    requires Readable(t) && TemplateRegistered(t, reg) && LayersRegistered(layers, reg)
    requires rule.minCount <= rule.maxCount + 1
    ensures rule.minCount <= rule.maxCount ==> rule.minCount <= toPlace <= rule.maxCount
    ensures rule.minCount == rule.maxCount + 1 ==> toPlace == rule.minCount
    ensures |placed| <= Max(toPlace, 0) && Separated(placed, rule.minDistance)
    ensures Distinct(tried) && forall i :: 0 <= i < |placed| ==> placed[i] in tried
    ensures forall p :: p in tried ==> 0 <= p.x < g.Length0 && 0 <= p.y < g.Length1
    ensures 2 * |tried| <= g.Length0 * g.Length1 + 1
    ensures |placed| < toPlace ==> g.Length0 * g.Length1 <= 2 * |tried|
    ensures Sites(coords, placed, hm, t, g.Length0, g.Length1, g.Length2)
    ensures forall x, z, y :: InBounds(g, x, z, y) && g[x, z, y] != old(g[x, z, y]) ==>
              exists i :: 0 <= i < |coords| && SiteCell(t, coords[i], x, z, y)
    ensures old(Occupied(g)) <= Occupied(g)
    ensures Valid(reg) && old(Consistent(g, reg.configs)) ==> Consistent(g, reg.configs)
  {
    if rule.minCount < rule.maxCount + 1 {
      toPlace :| rule.minCount <= toPlace <= rule.maxCount;
    } else {
      toPlace := rule.minCount;
    }
    var cands := Candidates(g.Length0, g.Length1);
    placed, coords, tried := [], [], [];
    var attempts := 0;
    while |placed| < toPlace && attempts < |cands|
      invariant attempts == |tried| && |tried| + |cands| == g.Length0 * g.Length1 && 2 * |tried| <= g.Length0 * g.Length1 + 1
      invariant Pool(cands, tried, g.Length0, g.Length1)
      invariant |placed| <= Max(toPlace, 0) && Separated(placed, rule.minDistance)
      invariant forall i :: 0 <= i < |placed| ==> placed[i] in tried
      invariant Sites(coords, placed, hm, t, g.Length0, g.Length1, g.Length2)
      invariant forall x, z, y :: InBounds(g, x, z, y) && g[x, z, y] != old(g[x, z, y]) ==>
                  exists i :: 0 <= i < |coords| && SiteCell(t, coords[i], x, z, y)
      invariant old(Occupied(g)) <= Occupied(g)
      invariant Valid(reg) && old(Consistent(g, reg.configs)) ==> Consistent(g, reg.configs)
    {
      attempts := attempts + 1;
      ghost var prev := coords;
      label Before:
      cands, tried, placed, coords := Advance(g, hm, t, rule, layers, reg, cands, tried, placed, coords);
      forall x, z, y | InBounds(g, x, z, y) && g[x, z, y] != old(g[x, z, y])
        ensures exists i :: 0 <= i < |coords| && SiteCell(t, coords[i], x, z, y)
      {
        if g[x, z, y] != old@Before(g[x, z, y]) {
          assert SiteCell(t, coords[|prev|], x, z, y);
        } else {
          var i :| 0 <= i < |prev| && SiteCell(t, prev[i], x, z, y);
          assert coords[i] == prev[i];
        }
      }
    }
  }

  /** A structure rule the generator can run: a readable, registered template and a valid count range. */
  predicate Placeable(rule: ChunkStructure, reg: Registry)
  {
    rule.config.Some? ==>
      Readable(rule.config.value) && TemplateRegistered(rule.config.value, reg) && rule.minCount <= rule.maxCount + 1
  }

  /**
   * Recorded coordinate `j`, placed by structure rule `owners[j]`, is one whose template box or
   * foundation covers grid cell (x, z, y).
   */
  predicate Owned(rules: seq<ChunkStructure>, owners: seq<nat>, coords: seq<Vector3Int>, j: int, x: int, z: int, y: int)
  {
    && 0 <= j < |coords| && j < |owners| && owners[j] < |rules| && rules[owners[j]].config.Some?
    && SiteCell(rules[owners[j]].config.value, coords[j], x, z, y)
  }

  /**
   * Runs the structure rules in order, skipping those without a template, and returns the
   * coordinates (column x, column z, base height) of every structure built, with `owners`
   * naming the rule that built each. A cell changes only inside the template box or the
   * foundation of a recorded structure; structures never empty a cell, and blocks stay
   * consistent with the registry.
   */
  method PlaceStructures(cfg: ChunkConfig, g: array3<Block?>, hm: array2<int>, reg: Registry)
    returns (coords: seq<Vector3Int>, ghost owners: seq<nat>)
    modifies g
    requires hm.Length0 == g.Length0 && hm.Length1 == g.Length1
    requires Valid(reg) && LayersRegistered(cfg.layers, reg)
    requires forall k :: 0 <= k < |cfg.structures| ==> Placeable(cfg.structures[k], reg)
    ensures forall c :: c in coords ==> 0 <= c.x < g.Length0 && 0 <= c.y < g.Length1 && 0 <= c.z < g.Length2
    ensures |owners| == |coords| && forall j :: 0 <= j < |owners| ==> owners[j] < |cfg.structures|
    ensures forall x, z, y :: InBounds(g, x, z, y) && g[x, z, y] != old(g[x, z, y]) ==>
              exists j :: 0 <= j < |coords| && Owned(cfg.structures, owners, coords, j, x, z, y)
    ensures old(Occupied(g)) <= Occupied(g)
    ensures old(Consistent(g, reg.configs)) ==> Consistent(g, reg.configs)
  {
    coords, owners := [], [];
    for k := 0 to |cfg.structures|
      invariant forall c :: c in coords ==> 0 <= c.x < g.Length0 && 0 <= c.y < g.Length1 && 0 <= c.z < g.Length2
      invariant |owners| == |coords| && forall j :: 0 <= j < |owners| ==> owners[j] < k
      invariant forall x, z, y :: InBounds(g, x, z, y) && g[x, z, y] != old(g[x, z, y]) ==>
                  exists j :: 0 <= j < |coords| && Owned(cfg.structures, owners, coords, j, x, z, y)
      invariant old(Occupied(g)) <= Occupied(g)
      invariant old(Consistent(g, reg.configs)) ==> Consistent(g, reg.configs)
    {
      var st := cfg.structures[k];
      if st.config.Some? {
        assert Placeable(st, reg);
        label Before:
        var more, placed, tried, toPlace := PlaceStructure(g, hm, st, st.config.value, cfg.layers, reg);
        forall c | c in more
          ensures 0 <= c.x < g.Length0 && 0 <= c.y < g.Length1 && 0 <= c.z < g.Length2
        {
          var i :| 0 <= i < |more| && more[i] == c;
          assert 0 <= i < |placed|;
        }
        ghost var prev, prevOwners := coords, owners;
        coords, owners := coords + more, owners + seq(|more|, _ => k);
        forall x, z, y | InBounds(g, x, z, y) && g[x, z, y] != old(g[x, z, y])
          ensures exists j :: 0 <= j < |coords| && Owned(cfg.structures, owners, coords, j, x, z, y)
        {
          if g[x, z, y] != old@Before(g[x, z, y]) {
            var i :| 0 <= i < |more| && SiteCell(st.config.value, more[i], x, z, y);
            assert Owned(cfg.structures, owners, coords, |prev| + i, x, z, y);
          } else {
            var j :| 0 <= j < |prev| && Owned(cfg.structures, prevOwners, prev, j, x, z, y);
            assert Owned(cfg.structures, owners, coords, j, x, z, y);
          }
        }
      }
    }
  }
}
