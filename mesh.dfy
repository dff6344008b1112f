/**
 * Mesh face extraction: which faces of which blocks are drawn, and the vertex, normal, uv and
 * index lists they are appended to. The Unity mesh built from those lists, the camera and the
 * float view direction are left out; whether a direction faces the camera is an oracle.
 */
module Mesh {
  import opened Vectors
  import opened Blocks
  import opened Grid
  import opened Registry

  const Forward := Vector3Int(0, 0, 1)
  const Back := Vector3Int(0, 0, -1)
  const Left := Vector3Int(-1, 0, 0)
  const Right := Vector3Int(1, 0, 0)
  const Up := Vector3Int(0, 1, 0)
  const Down := Vector3Int(0, -1, 0)

  /** The six face normals, in the order the mesh pass tries them. */
  const Directions: seq<Vector3Int> := [Forward, Back, Left, Right, Up, Down]

  /** The texture corners of every face, in vertex order. */
  const BaseUV: seq<Vector2Int> := [Vector2Int(0, 0), Vector2Int(1, 0), Vector2Int(1, 1), Vector2Int(0, 1)]

  /** The damage shade of a face: health over strength (the float division is not evaluated). */
  datatype Progress = Progress(health: int, strength: int)

  /** One drawn face: its cell, its normal, the submesh it goes to and its shade. */
  datatype Face = Face(x: int, y: int, z: int, n: Vector3Int, layer: int, prog: Progress)

  /** The four parallel per-vertex lists. */
  datatype VertexData = VertexData(vertices: seq<Vector3Int>, normals: seq<Vector3Int>, uvs: seq<Vector2Int>,
                                   uv2: seq<Progress>)

  /** The lists a mesh is built from: the vertex data and one index list per registry entry. */
  datatype MeshData = MeshData(data: VertexData, triangles: seq<seq<int>>)

  function Offset(p: Vector3Int, dx: int, dy: int, dz: int): Vector3Int
  {
    Vector3Int(p.x + dx, p.y + dy, p.z + dz)
  }

  /** `v` is a corner of the unit cube at `p` lying on the cube's face with outward normal `n`. */
  predicate OnFace(v: Vector3Int, p: Vector3Int, n: Vector3Int)
  {
    && p.x <= v.x <= p.x + 1 && p.y <= v.y <= p.y + 1 && p.z <= v.z <= p.z + 1
    && (n.x > 0 ==> v.x == p.x + 1) && (n.x < 0 ==> v.x == p.x)
    && (n.y > 0 ==> v.y == p.y + 1) && (n.y < 0 ==> v.y == p.y)
    && (n.z > 0 ==> v.z == p.z + 1) && (n.z < 0 ==> v.z == p.z)
  }

  /**
   * The four corners of the face of the cube at `p` with normal `n`; any vector other than the
   * first five directions gets the bottom face. The corners are distinct and all lie on that face.
   */
  function FaceVertices(p: Vector3Int, n: Vector3Int): (v: seq<Vector3Int>)
    ensures |v| == 4
    ensures forall i :: 0 <= i < 4 ==> OnFace(v[i], p, if n in Directions then n else Down)
    ensures forall i, j :: 0 <= i < j < 4 ==> v[i] != v[j]
  {
    if n == Forward then [Offset(p, 0, 0, 1), Offset(p, 1, 0, 1), Offset(p, 1, 1, 1), Offset(p, 0, 1, 1)]
    else if n == Back then [Offset(p, 1, 0, 0), Offset(p, 0, 0, 0), Offset(p, 0, 1, 0), Offset(p, 1, 1, 0)]
    else if n == Left then [Offset(p, 0, 0, 0), Offset(p, 0, 0, 1), Offset(p, 0, 1, 1), Offset(p, 0, 1, 0)]
    else if n == Right then [Offset(p, 1, 0, 1), Offset(p, 1, 0, 0), Offset(p, 1, 1, 0), Offset(p, 1, 1, 1)]
    else if n == Up then [Offset(p, 0, 1, 1), Offset(p, 1, 1, 1), Offset(p, 1, 1, 0), Offset(p, 0, 1, 0)]
    else [Offset(p, 0, 0, 0), Offset(p, 1, 0, 0), Offset(p, 1, 0, 1), Offset(p, 0, 0, 1)]
  }

  /** Whether direction `n` is drawn: one of the six, not down, and facing the camera. */
  predicate Visible(facing: Vector3Int -> bool, n: Vector3Int)
  {
    n in Directions && n != Down && facing(n)
  }

  /** The directions among `ds` the filter keeps, in order: every one but down that faces the camera. */
  function VisibleAmong(facing: Vector3Int -> bool, ds: seq<Vector3Int>): seq<Vector3Int>
  {
    if ds == [] then []
    else
      var d := ds[|ds| - 1];
      VisibleAmong(facing, ds[..|ds| - 1]) + if d != Down && facing(d) then [d] else []
  }

  /** The filter keeps exactly the directions of `ds` other than down that face the camera. */
  lemma {:induction false} VisibleAmongIff(facing: Vector3Int -> bool, ds: seq<Vector3Int>)
    ensures forall d :: d in VisibleAmong(facing, ds) <==> d in ds && d != Down && facing(d)
  {
    if ds != [] {
      VisibleAmongIff(facing, ds[..|ds| - 1]);
      assert ds == ds[..|ds| - 1] + [ds[|ds| - 1]];
    }
  }

  /** The filter keeps no direction twice when `ds` holds none twice. */
  lemma {:induction false} VisibleAmongDistinct(facing: Vector3Int -> bool, ds: seq<Vector3Int>)
    requires Distinct(ds)
    ensures Distinct(VisibleAmong(facing, ds))
  {
    if ds != [] {
      var init := ds[..|ds| - 1];
      var d := ds[|ds| - 1];
      assert Distinct(init);
      VisibleAmongDistinct(facing, init);
      VisibleAmongIff(facing, init);
      var r0 := VisibleAmong(facing, init);
      if d != Down && facing(d) {
        assert d !in r0;
        var r := r0 + [d];
        forall i, j | 0 <= i < j < |r|
          ensures r[i] != r[j]
        {
          if j == |r0| {
            assert r[i] == r0[i] && r0[i] in r0;
          }
        }
      }
    }
  }

  /** The directions the mesh pass tries, in the order of `Directions`. */
  function FacingDirections(facing: Vector3Int -> bool): seq<Vector3Int>
  {
    VisibleAmong(facing, Directions)
  }

  /** The direction filter: the visible directions, each once, in the order of `Directions`. */
  method VisibleDirections(facing: Vector3Int -> bool) returns (dirs: seq<Vector3Int>)
    ensures dirs == FacingDirections(facing)
    ensures forall d :: d in dirs <==> Visible(facing, d)
    ensures Down !in dirs
    ensures Distinct(dirs)
  {
    dirs := [];
    for i := 0 to |Directions|
      invariant dirs == VisibleAmong(facing, Directions[..i])
    {
      var dir := Directions[i];
      assert Directions[..i + 1][..i] == Directions[..i];
      if dir == Down {
        continue;
      }
      if facing(dir) {
        dirs := dirs + [dir];
      }
    }
    assert Directions[..|Directions|] == Directions;
    VisibleAmongIff(facing, Directions);
    VisibleAmongDistinct(facing, Directions);
  }

  /** The block at chunk position (x, y, z), or null outside the grid. */
  function At(g: array3<Block?>, x: int, y: int, z: int): Block?
    reads g
  {
    if InBounds(g, x, z, y) then g[x, z, y] else null
  }

  /** A neighbour hides the face of `cur` towards it when it is live and opaque, or when both are transparent. */
  predicate Hides(nb: Block?, cur: Block)
    reads nb
  {
    nb != null && !nb.IsDestroyed() && (!nb.Config.isTransparent || cur.Config.isTransparent)
  }

  /** The culling rule: the face of `cur` at (x, y, z) with normal `n` is drawn unless its neighbour hides it. */
  predicate FaceVisible(g: array3<Block?>, x: int, y: int, z: int, n: Vector3Int, cur: Block)
    reads g, At(g, x + n.x, y + n.y, z + n.z)
  {
    !Hides(At(g, x + n.x, y + n.y, z + n.z), cur)
  }

  /**
   * Face `f` belongs in the mesh: its cell holds a live block and is not excluded, its
   * direction is visible and not culled, and it carries that block's submesh and shade.
   */
  ghost predicate Shows(g: array3<Block?>, facing: Vector3Int -> bool, exclude: set<Vector3Int>, f: Face)
    reads g, At(g, f.x, f.y, f.z), At(g, f.x + f.n.x, f.y + f.n.y, f.z + f.n.z)
  {
    var b := At(g, f.x, f.y, f.z);
    && b != null && !b.IsDestroyed() && Vector3Int(f.x, f.y, f.z) !in exclude
    && Visible(facing, f.n) && FaceVisible(g, f.x, f.y, f.z, f.n, b)
    && f.layer == b.LayerIndex && f.prog == Progress(b.CurrentHealth, b.Config.strength)
  }

  /** The six indices of the two triangles of a face whose first vertex is `start`. */
  function Quad(start: int): seq<int>
  {
    [start, start + 1, start + 2, start + 2, start + 3, start]
  }

  /** Appends one face: four vertices, normals, uvs and shades, and its indices to its submesh. */
  function AddFace(m: MeshData, f: Face): MeshData
    requires 0 <= f.layer < |m.triangles|
  {
    var d := m.data;
    MeshData(VertexData(d.vertices + FaceVertices(Vector3Int(f.x, f.y, f.z), f.n),
                        d.normals + [f.n, f.n, f.n, f.n],
                        d.uvs + BaseUV,
                        d.uv2 + [f.prog, f.prog, f.prog, f.prog]),
             m.triangles[f.layer := m.triangles[f.layer] + Quad(|d.vertices|)])
  }

  /**
   * One face adds four entries to each vertex list, and the six indices start, start + 1,
   * start + 2, start + 2, start + 3, start to its own submesh only, where start is the number of
   * vertices before it.
   */
  lemma AddFaceEmits(m: MeshData, f: Face)
    requires 0 <= f.layer < |m.triangles|
    ensures var m', start := AddFace(m, f), |m.data.vertices|;
            && |m'.data.vertices| == start + 4 && |m'.data.normals| == |m.data.normals| + 4
            && |m'.data.uvs| == |m.data.uvs| + 4 && |m'.data.uv2| == |m.data.uv2| + 4
            && m'.data.vertices[start..] == FaceVertices(Vector3Int(f.x, f.y, f.z), f.n)
            && m'.triangles[f.layer] == m.triangles[f.layer] + [start, start + 1, start + 2, start + 2, start + 3, start]
            && |m'.triangles| == |m.triangles|
            && forall s :: 0 <= s < |m.triangles| && s != f.layer ==> m'.triangles[s] == m.triangles[s]
  {
    var m', start := AddFace(m, f), |m.data.vertices|;
    assert m'.data.vertices == m.data.vertices + FaceVertices(Vector3Int(f.x, f.y, f.z), f.n);
  }

  /** Every face names one of `total` submeshes. */
  predicate Layered(faces: seq<Face>, total: nat)
  {
    forall k :: 0 <= k < |faces| ==> 0 <= faces[k].layer < total
  }

  /**
   * The lists `m` after appending `faces` in order. A face naming no submesh would make the source
   * fail; the mesh pass never lists one (see GenerateMesh), and this definition passes over it.
   */
  function AddFaces(m: MeshData, faces: seq<Face>): (r: MeshData)
    ensures |r.triangles| == |m.triangles|
  {
    if faces == [] then m
    else
      var r := AddFaces(m, faces[..|faces| - 1]);
      var f := faces[|faces| - 1];
      if 0 <= f.layer < |r.triangles| then AddFace(r, f) else r
  }

  /** Empty vertex lists and `total` empty index lists. */
  function EmptyMesh(total: nat): MeshData
  {
    MeshData(VertexData([], [], [], []), seq(total, _ => []))
  }

  /** Appending two face lists one after the other appends their concatenation. */
  lemma {:induction false} AddFacesAppend(m: MeshData, a: seq<Face>, b: seq<Face>)
    ensures AddFaces(m, a + b) == AddFaces(AddFaces(m, a), b)
  {
    if b == [] {
      assert a + b == a;
    } else {
      AddFacesAppend(m, a, b[..|b| - 1]);
      assert (a + b)[..|a + b| - 1] == a + b[..|b| - 1];
    }
  }

  /** The four vertex lists hold four entries per face. */
  lemma {:induction false} MeshLengths(faces: seq<Face>, total: nat)
    ensures var m := AddFaces(EmptyMesh(total), faces);
            && |m.data.vertices| <= 4 * |faces| && |m.data.normals| == |m.data.vertices|
            && |m.data.uvs| == |m.data.vertices| && |m.data.uv2| == |m.data.vertices|
    ensures Layered(faces, total) ==> |AddFaces(EmptyMesh(total), faces).data.vertices| == 4 * |faces|
  {
    if faces != [] {
      var init := faces[..|faces| - 1];
      MeshLengths(init, total);
      if Layered(faces, total) {
        assert Layered(init, total);
      }
    }
  }

  /** Every index list of `m` holds whole quads, and every index names a vertex of `m`. */
  predicate Indices(m: MeshData)
  {
    && (forall s :: 0 <= s < |m.triangles| ==> |m.triangles[s]| % 6 == 0)
    && (forall s, j :: 0 <= s < |m.triangles| && 0 <= j < |m.triangles[s]| ==> 0 <= m.triangles[s][j] < |m.data.vertices|)
  }

  /** Appending a face keeps the index lists whole and in range. */
  lemma AddFaceIndices(m: MeshData, f: Face)
    requires 0 <= f.layer < |m.triangles| && Indices(m)
    ensures Indices(AddFace(m, f))
  {
    var m' := AddFace(m, f);
    var q := Quad(|m.data.vertices|);
    assert |m'.data.vertices| == |m.data.vertices| + 4;
    forall s | 0 <= s < |m'.triangles|
      ensures |m'.triangles[s]| % 6 == 0
    {
      if s == f.layer {
        assert m'.triangles[s] == m.triangles[s] + q;
      }
    }
    forall s, j | 0 <= s < |m'.triangles| && 0 <= j < |m'.triangles[s]|
      ensures 0 <= m'.triangles[s][j] < |m'.data.vertices|
    {
      if s == f.layer && j >= |m.triangles[s]| {
        assert m'.triangles[s][j] == q[j - |m.triangles[s]|];
      } else {
        assert m'.triangles[s][j] == m.triangles[s][j];
      }
    }
  }

  /** The index lists of any mesh built from the empty one hold whole quads, and every index names a vertex. */
  lemma {:induction false} MeshIndices(faces: seq<Face>, total: nat)
    ensures Indices(AddFaces(EmptyMesh(total), faces))
  {
    if faces != [] {
      var init := faces[..|faces| - 1];
      MeshIndices(init, total);
      var r := AddFaces(EmptyMesh(total), init);
      var f := faces[|faces| - 1];
      if 0 <= f.layer < |r.triangles| {
        AddFaceIndices(r, f);
      }
    }
  }

  /** Appends face `f`: its four vertices, normals, uvs and shades, then its six indices. */
  method AppendFace(m: MeshData, f: Face) returns (m': MeshData)
    requires 0 <= f.layer < |m.triangles|
    ensures m' == AddFace(m, f)
  {
    var fv := FaceVertices(Vector3Int(f.x, f.y, f.z), f.n);
    var start := |m.data.vertices|;
    var vd := m.data;
    for i := 0 to 4
      invariant vd.vertices == m.data.vertices + fv[..i]
      invariant vd.normals == m.data.normals + seq(i, _ => f.n)
      invariant vd.uvs == m.data.uvs + BaseUV[..i]
      invariant vd.uv2 == m.data.uv2 + seq(i, _ => f.prog)
    {
      vd := VertexData(vd.vertices + [fv[i]], vd.normals + [f.n], vd.uvs + [BaseUV[i]], vd.uv2 + [f.prog]);
      assert fv[..i + 1] == fv[..i] + [fv[i]];
      assert BaseUV[..i + 1] == BaseUV[..i] + [BaseUV[i]];
      assert seq(i + 1, _ => f.n) == seq(i, _ => f.n) + [f.n];
      assert seq(i + 1, _ => f.prog) == seq(i, _ => f.prog) + [f.prog];
    }
    assert fv[..4] == fv && BaseUV[..4] == BaseUV;
    assert seq(4, _ => f.n) == [f.n, f.n, f.n, f.n] && seq(4, _ => f.prog) == [f.prog, f.prog, f.prog, f.prog];
    m' := MeshData(vd, m.triangles[f.layer := m.triangles[f.layer] + Quad(start)]);
  }

  /** The face of `block` at (x, y, z) with normal `n`, carrying the block's submesh and shade. */
  function FaceOf(x: int, y: int, z: int, n: Vector3Int, block: Block): Face
    reads block
  {
    Face(x, y, z, n, block.LayerIndex, Progress(block.CurrentHealth, block.Config.strength))
  }

  /**
   * Tries the face of `block` at (x, y, z) with normal `n`: a face the culling rule lets through
   * is appended, any other leaves the lists as they were.
   */
  method TryAddFace(g: array3<Block?>, x: int, y: int, z: int, n: Vector3Int, block: Block, m: MeshData)
    returns (m': MeshData)
    requires InBounds(g, x, z, y) && g[x, z, y] == block && 0 <= block.LayerIndex < |m.triangles|
    ensures m' == if FaceVisible(g, x, y, z, n, block) then AddFace(m, FaceOf(x, y, z, n, block)) else m
  {
    var nx, ny, nz := x + n.x, y + n.y, z + n.z;
    var outside := nx < 0 || ny < 0 || nz < 0 || nx >= g.Length0 || ny >= g.Length2 || nz >= g.Length1;
    var neighbor := if !outside then g[nx, nz, ny] else null;
    if !outside && neighbor != null && !neighbor.IsDestroyed() {
      var nbT := neighbor.Config.isTransparent;
      var curT := block.Config.isTransparent;
      if !nbT || (nbT && curT) {
        return m;
      }
    }
    m' := AppendFace(m, FaceOf(x, y, z, n, block));
  }

  /** Every placed block names one of `total` submeshes. */
  ghost predicate Indexed(g: array3<Block?>, total: nat)
    reads g
  {
    forall x, z, y :: InBounds(g, x, z, y) && g[x, z, y] != null ==> 0 <= g[x, z, y].LayerIndex < total
  }

  /** Every block the grid holds is in `blocks`. */
  ghost predicate Within(g: array3<Block?>, blocks: set<Block>)
    reads g
  {
    forall x, z, y :: InBounds(g, x, z, y) && g[x, z, y] != null ==> g[x, z, y] in blocks
  }

  /** The blocks the grid holds. */
  ghost function Cells(g: array3<Block?>): set<Block>
    reads g
  {
    set x, z, y | 0 <= x < g.Length0 && 0 <= z < g.Length1 && 0 <= y < g.Length2 && g[x, z, y] != null :: g[x, z, y]
  }

  /** The faces of `block` at (x, y, z) that the culling rule lets through, for the directions `ds` in order. */
  function DirFaces(g: array3<Block?>, blocks: set<Block>, x: int, y: int, z: int, block: Block, ds: seq<Vector3Int>): seq<Face>
    requires Within(g, blocks) && block in blocks
    reads g, blocks
  {
    if ds == [] then []
    else
      var n := ds[|ds| - 1];
      DirFaces(g, blocks, x, y, z, block, ds[..|ds| - 1]) + if FaceVisible(g, x, y, z, n, block) then [FaceOf(x, y, z, n, block)] else []
  }

  /** The faces the mesh pass lists for cell (x, y, z): none for an excluded, empty or destroyed cell. */
  function CellFaces(g: array3<Block?>, blocks: set<Block>, dirs: seq<Vector3Int>, exclude: set<Vector3Int>, x: int, y: int, z: int): seq<Face>
    requires Within(g, blocks)
    reads g, blocks
  {
    var b := At(g, x, y, z);
    if Vector3Int(x, y, z) in exclude || b == null || b.IsDestroyed() then []
    else DirFaces(g, blocks, x, y, z, b, dirs)
  }

  /**
   * The faces listed for every cell before (x, y, z) in the scan order of the mesh pass: x
   * outermost, then y up to the height `g.Length2`, then z up to the length `g.Length1`.
   * (x, y, g.Length1) and (x, y + 1, 0) are the same point of the scan, and so are
   * (x, g.Length2, 0) and (x + 1, 0, 0).
   */
  function ScanFaces(g: array3<Block?>, blocks: set<Block>, dirs: seq<Vector3Int>, exclude: set<Vector3Int>,
                     x: nat, y: nat, z: nat): seq<Face>
    requires Within(g, blocks)
    reads g, blocks
    decreases x, y, z
  {
    if z > 0 then ScanFaces(g, blocks, dirs, exclude, x, y, z - 1) + CellFaces(g, blocks, dirs, exclude, x, y, z - 1)
    else if y > 0 then ScanFaces(g, blocks, dirs, exclude, x, y - 1, g.Length1)
    else if x > 0 then ScanFaces(g, blocks, dirs, exclude, x - 1, g.Length2, 0)
    else []
  }

  /** Cell (a, b, c) comes before (x, y, z) in scan order. */
  predicate Before(a: int, b: int, c: int, x: int, y: int, z: int)
  {
    a < x || (a == x && (b < y || (b == y && c < z)))
  }

  /** The face list of the whole chunk, in the order the mesh pass visits cells and directions. */
  ghost function Faces(g: array3<Block?>, facing: Vector3Int -> bool, exclude: set<Vector3Int>): seq<Face>
    reads g, Cells(g)
  {
    ScanFaces(g, Cells(g), FacingDirections(facing), exclude, g.Length0, 0, 0)
  }

  /** A face of `block` is listed for directions `ds` exactly when its normal is among them and it is not culled. */
  lemma {:induction false} DirFacesIff(g: array3<Block?>, blocks: set<Block>, x: int, y: int, z: int, block: Block,
                                       ds: seq<Vector3Int>, f: Face)
    requires Within(g, blocks) && block in blocks
    ensures f in DirFaces(g, blocks, x, y, z, block, ds) <==>
            f.n in ds && FaceVisible(g, x, y, z, f.n, block) && f == FaceOf(x, y, z, f.n, block)
  {
    if ds != [] {
      DirFacesIff(g, blocks, x, y, z, block, ds[..|ds| - 1], f);
      assert ds == ds[..|ds| - 1] + [ds[|ds| - 1]];
    }
  }

  /** A face is listed for its own cell exactly when it belongs in the mesh. */
  lemma CellFacesIff(g: array3<Block?>, blocks: set<Block>, facing: Vector3Int -> bool, dirs: seq<Vector3Int>,
                     exclude: set<Vector3Int>, f: Face)
    requires Within(g, blocks) && forall d :: d in dirs <==> Visible(facing, d)
    ensures f in CellFaces(g, blocks, dirs, exclude, f.x, f.y, f.z) <==> Shows(g, facing, exclude, f)
  {
    var b := At(g, f.x, f.y, f.z);
    if !(Vector3Int(f.x, f.y, f.z) in exclude || b == null || b.IsDestroyed()) {
      DirFacesIff(g, blocks, f.x, f.y, f.z, b, dirs, f);
    }
  }

  /** A face listed for cell (x, y, z) lies at (x, y, z). */
  lemma CellFacesAt(g: array3<Block?>, blocks: set<Block>, dirs: seq<Vector3Int>, exclude: set<Vector3Int>,
                    x: int, y: int, z: int, f: Face)
    requires Within(g, blocks)
    ensures f in CellFaces(g, blocks, dirs, exclude, x, y, z) ==> f.x == x && f.y == y && f.z == z
  {
    var b := At(g, x, y, z);
    if !(Vector3Int(x, y, z) in exclude || b == null || b.IsDestroyed()) {
      DirFacesIff(g, blocks, x, y, z, b, dirs, f);
    }
  }

  /** A face is listed before (x, y, z) exactly when its own cell is in the grid, comes earlier and lists it. */
  lemma {:induction false} ScanFacesIff(g: array3<Block?>, blocks: set<Block>, dirs: seq<Vector3Int>,
                                        exclude: set<Vector3Int>, x: nat, y: nat, z: nat, f: Face)
    requires Within(g, blocks) && y <= g.Length2 && z <= g.Length1
    ensures f in ScanFaces(g, blocks, dirs, exclude, x, y, z) <==>
            && 0 <= f.x && 0 <= f.y < g.Length2 && 0 <= f.z < g.Length1 && Before(f.x, f.y, f.z, x, y, z)
            && f in CellFaces(g, blocks, dirs, exclude, f.x, f.y, f.z)
    decreases x, y, z
  {
    if z > 0 {
      ScanFacesIff(g, blocks, dirs, exclude, x, y, z - 1, f);
      CellFacesAt(g, blocks, dirs, exclude, x, y, z - 1, f);
    } else if y > 0 {
      ScanFacesIff(g, blocks, dirs, exclude, x, y - 1, g.Length1, f);
    } else if x > 0 {
      ScanFacesIff(g, blocks, dirs, exclude, x - 1, g.Length2, 0, f);
    }
  }

  /** Soundness and completeness of the face list: it holds exactly the faces that belong in the mesh. */
  lemma FacesIff(g: array3<Block?>, facing: Vector3Int -> bool, exclude: set<Vector3Int>)
    ensures forall f :: f in Faces(g, facing, exclude) <==> Shows(g, facing, exclude, f)
  {
    var blocks, dirs := Cells(g), FacingDirections(facing);
    VisibleAmongIff(facing, Directions);
    forall f
      ensures f in Faces(g, facing, exclude) <==> Shows(g, facing, exclude, f)
    {
      ScanFacesIff(g, blocks, dirs, exclude, g.Length0, 0, 0, f);
      CellFacesIff(g, blocks, facing, dirs, exclude, f);
    }
  }

  /** Empty, destroyed and excluded cells contribute no face, hence no vertex and no index. */
  lemma SkippedCells(g: array3<Block?>, facing: Vector3Int -> bool, exclude: set<Vector3Int>)
    ensures forall f :: f in Faces(g, facing, exclude) ==>
                        && At(g, f.x, f.y, f.z) != null && !At(g, f.x, f.y, f.z).IsDestroyed()
                        && Vector3Int(f.x, f.y, f.z) !in exclude
  {
    FacesIff(g, facing, exclude);
  }

  /**
   * A drawn face borders a gap, a destroyed block or a live transparent neighbour of an opaque
   * block. So two adjacent live opaque blocks draw no face on their shared side, and neither do
   * two adjacent live transparent blocks.
   */
  lemma SharedFaces(g: array3<Block?>, facing: Vector3Int -> bool, exclude: set<Vector3Int>)
    ensures forall f :: f in Faces(g, facing, exclude) ==>
                        var a, b := At(g, f.x, f.y, f.z), At(g, f.x + f.n.x, f.y + f.n.y, f.z + f.n.z);
                        a != null && (b != null && !b.IsDestroyed() ==> b.Config.isTransparent && !a.Config.isTransparent)
  {
    FacesIff(g, facing, exclude);
  }

  /**
   * Between a live opaque block and a live transparent neighbour only the opaque block's face is
   * drawn: the transparent one is hidden by the opaque one, but does not hide it.
   */
  lemma OneSidedTransparency(g: array3<Block?>, x: int, y: int, z: int, n: Vector3Int, a: Block, b: Block)
    requires At(g, x, y, z) == a && At(g, x + n.x, y + n.y, z + n.z) == b
    requires !a.IsDestroyed() && !b.IsDestroyed() && !a.Config.isTransparent && b.Config.isTransparent
    ensures FaceVisible(g, x, y, z, n, a)
    ensures !FaceVisible(g, x + n.x, y + n.y, z + n.z, Vector3Int(-n.x, -n.y, -n.z), b)
  {
    assert x + n.x + -n.x == x && y + n.y + -n.y == y && z + n.z + -n.z == z;
  }

  /**
   * One step of drawing a live cell: tries direction `dirs[i]`, so that the faces appended for
   * the cell grow from those of the first `i` directions to those of the first `i + 1`.
   */
  method CellFace(g: array3<Block?>, ghost blocks: set<Block>, dirs: seq<Vector3Int>, i: int,
                  x: int, y: int, z: int, block: Block, ghost base: MeshData, m: MeshData)
    returns (m': MeshData)
    requires 0 <= i < |dirs| && InBounds(g, x, z, y) && g[x, z, y] == block && Within(g, blocks)
    requires 0 <= block.LayerIndex < |base.triangles|
    requires m == AddFaces(base, DirFaces(g, blocks, x, y, z, block, dirs[..i]))
    ensures m' == AddFaces(base, DirFaces(g, blocks, x, y, z, block, dirs[..i + 1]))
  {
    label Before:
    m' := TryAddFace(g, x, y, z, dirs[i], block, m);
    ghost var done := DirFaces(g, blocks, x, y, z, block, dirs[..i]);
    assert done == old@Before(DirFaces(g, blocks, x, y, z, block, dirs[..i]));
    ghost var step := if FaceVisible(g, x, y, z, dirs[i], block) then [FaceOf(x, y, z, dirs[i], block)] else [];
    assert dirs[..i + 1][..i] == dirs[..i];
    assert DirFaces(g, blocks, x, y, z, block, dirs[..i + 1]) == done + step;
    AddFacesAppend(base, done, step);
    assert step != [] ==> step[..0] == [];
  }

  /**
   * Draws the cell (x, y, z): an excluded, empty or destroyed cell adds nothing; otherwise each
   * direction of `dirs` is tried in order. The lists grow by exactly the cell's faces.
   */
  method MeshCell(g: array3<Block?>, ghost blocks: set<Block>, dirs: seq<Vector3Int>, exclude: set<Vector3Int>,
                  x: int, y: int, z: int, m: MeshData)
    returns (m': MeshData)
    requires InBounds(g, x, z, y) && Indexed(g, |m.triangles|) && Within(g, blocks)
    ensures m' == AddFaces(m, CellFaces(g, blocks, dirs, exclude, x, y, z))
  {
    m' := m;
    if Vector3Int(x, y, z) in exclude {
      return;
    }
    var block := g[x, z, y];
    if block == null || block.IsDestroyed() {
      return;
    }
    for i := 0 to |dirs|
      invariant m' == AddFaces(m, DirFaces(g, blocks, x, y, z, block, dirs[..i]))
    {
      m' := CellFace(g, blocks, dirs, i, x, y, z, block, m, m');
    }
    assert dirs[..|dirs|] == dirs;
  }

  /** One step of drawing a line: draws cell (x, y, z) after the cells before it. */
  method LineStep(g: array3<Block?>, ghost blocks: set<Block>, dirs: seq<Vector3Int>, exclude: set<Vector3Int>,
                  x: nat, y: nat, z: nat, ghost base: MeshData, m: MeshData)
    returns (m': MeshData)
    requires x < g.Length0 && y < g.Length2 && z < g.Length1
    requires Indexed(g, |base.triangles|) && Within(g, blocks)
    requires m == AddFaces(base, ScanFaces(g, blocks, dirs, exclude, x, y, z))
    ensures m' == AddFaces(base, ScanFaces(g, blocks, dirs, exclude, x, y, z + 1))
  {
    label Before:
    m' := MeshCell(g, blocks, dirs, exclude, x, y, z, m);
    ghost var done := ScanFaces(g, blocks, dirs, exclude, x, y, z);
    assert done == old@Before(ScanFaces(g, blocks, dirs, exclude, x, y, z));
    AddFacesAppend(base, done, CellFaces(g, blocks, dirs, exclude, x, y, z));
  }

  /** Draws the cells (x, y, 0) to (x, y, g.Length1 - 1) in order. */
  method MeshLine(g: array3<Block?>, ghost blocks: set<Block>, dirs: seq<Vector3Int>, exclude: set<Vector3Int>,
                  x: nat, y: nat, ghost base: MeshData, m: MeshData)
    returns (m': MeshData)
    requires x < g.Length0 && y < g.Length2 && Indexed(g, |base.triangles|) && Within(g, blocks)
    requires m == AddFaces(base, ScanFaces(g, blocks, dirs, exclude, x, y, 0))
    ensures m' == AddFaces(base, ScanFaces(g, blocks, dirs, exclude, x, y, g.Length1))
  {
    m' := m;
    for z := 0 to g.Length1
      invariant m' == AddFaces(base, ScanFaces(g, blocks, dirs, exclude, x, y, z))
    {
      m' := LineStep(g, blocks, dirs, exclude, x, y, z, base, m');
    }
  }

  /** Draws the lines y = 0 to g.Length2 - 1 of slice x in order. */
  method MeshSlice(g: array3<Block?>, ghost blocks: set<Block>, dirs: seq<Vector3Int>, exclude: set<Vector3Int>,
                   x: nat, ghost base: MeshData, m: MeshData)
    returns (m': MeshData)
    requires x < g.Length0 && Indexed(g, |base.triangles|) && Within(g, blocks)
    requires m == AddFaces(base, ScanFaces(g, blocks, dirs, exclude, x, 0, 0))
    ensures m' == AddFaces(base, ScanFaces(g, blocks, dirs, exclude, x + 1, 0, 0))
  {
    m' := m;
    for y := 0 to g.Length2
      invariant m' == AddFaces(base, ScanFaces(g, blocks, dirs, exclude, x, y, 0))
    {
      m' := MeshLine(g, blocks, dirs, exclude, x, y, base, m');
    }
  }

  /**
   * The mesh of a chunk: the lists are those of appending, in scan order, the faces that belong
   * in the mesh and no others. Hence there is one index list per registry entry, the four vertex
   * lists hold four entries per face, and every index names a vertex.
   */
  method GenerateMesh(g: array3<Block?>, configs: seq<BlockConfig>, facing: Vector3Int -> bool, exclude: set<Vector3Int>)
    returns (m: MeshData, ghost faces: seq<Face>)
    requires Indexed(g, |configs|)
    ensures faces == Faces(g, facing, exclude)
    ensures Layered(faces, |configs|) && m == AddFaces(EmptyMesh(|configs|), faces)
    ensures forall f :: f in faces <==> Shows(g, facing, exclude, f)
    ensures |m.triangles| == |configs| && |m.data.vertices| == 4 * |faces| && |m.data.normals| == 4 * |faces|
    ensures |m.data.uvs| == 4 * |faces| && |m.data.uv2| == 4 * |faces|
    ensures Indices(m)
  {
    var total := |configs|;
    var dirs := VisibleDirections(facing);
    ghost var blocks := Cells(g);
    var empty := EmptyMesh(total);
    m := empty;
    for x := 0 to g.Length0
      invariant m == AddFaces(empty, ScanFaces(g, blocks, dirs, exclude, x, 0, 0))
    {
      m := MeshSlice(g, blocks, dirs, exclude, x, empty, m);
    }
    faces := ScanFaces(g, blocks, dirs, exclude, g.Length0, 0, 0);
    FacesIff(g, facing, exclude);
    forall k | 0 <= k < |faces|
      ensures 0 <= faces[k].layer < total
    {
      assert Shows(g, facing, exclude, faces[k]);
    }
    MeshLengths(faces, total);
    MeshIndices(faces, total);
  }
}
