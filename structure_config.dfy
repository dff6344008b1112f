/** Structure templates: a 3D matrix of block numbers stored flat, with a size and an anchor. */
module Structures {
  import opened Vectors
  import opened Blocks

  /** Position of template cell (x, y, z) in the flat matrix: x varies fastest, then y, then z. */
  function FlatIndex(size: Vector3Int, x: int, y: int, z: int): int
  {
    x + size.x * (y + size.y * z)
  }

  /** Whether (x, y, z) is a cell of a template of the given size. */
  predicate InTemplate(size: Vector3Int, x: int, y: int, z: int)
  {
    0 <= x < size.x && 0 <= y < size.y && 0 <= z < size.z
  }

  /** Number of cells in a template of the given size. */
  function Volume(size: Vector3Int): int
  {
    size.x * size.y * size.z
  }

  lemma MulLeftMono(a: int, b: int, c: int)
    requires a >= 0 && b <= c
    ensures a * b <= a * c
  {
  }

  /** A number written with a low digit below `base` has exactly one such decomposition. */
  lemma DigitsUnique(base: int, d: int, q: int, d': int, q': int)
    requires 0 <= d < base && 0 <= d' < base
    requires d + base * q == d' + base * q'
    ensures d == d' && q == q'
  {
    if q < q' {
      assert base * (q + 1) == base * q + base;
      MulLeftMono(base, q + 1, q');
      assert false;
    } else if q' < q {
      assert base * (q' + 1) == base * q' + base;
      MulLeftMono(base, q' + 1, q);
      assert false;
    }
  }

  /** Every cell of a template has its flat index inside the matrix. */
  lemma {:induction false} FlatIndexInRange(size: Vector3Int, x: int, y: int, z: int)
    requires InTemplate(size, x, y, z)
    ensures 0 <= FlatIndex(size, x, y, z) < Volume(size)
  {
    var inner := y + size.y * z;
    MulLeftMono(size.y, z, size.z - 1);
    assert size.y * (size.z - 1) == size.y * size.z - size.y;
    assert 0 <= inner < size.y * size.z;
    MulLeftMono(size.x, inner, size.y * size.z - 1);
    assert size.x * (size.y * size.z - 1) == size.x * (size.y * size.z) - size.x;
    assert size.x * (size.y * size.z) == Volume(size);
    assert 0 <= size.x * inner;
  }

  /** Distinct template cells have distinct flat indices. */
  lemma {:induction false} FlatIndexInjective(size: Vector3Int, x: int, y: int, z: int, x': int, y': int, z': int)
    requires InTemplate(size, x, y, z) && InTemplate(size, x', y', z')
    requires FlatIndex(size, x, y, z) == FlatIndex(size, x', y', z')
    ensures x == x' && y == y' && z == z'
  {
    DigitsUnique(size.x, x, y + size.y * z, x', y' + size.y * z');
    DigitsUnique(size.y, y, z, y', z');
  }

  /**
   * The foundation pass probes `matrix[x + sx * z]`, which is the flat index of cell (x, z, 0);
   * it is the bottom cell (x, 0, z) of that column only when sy = 1, z = 0 or sx = 0.
   */
  lemma {:induction false} FoundationProbeCell(size: Vector3Int, x: int, z: int)
    ensures x + size.x * z == FlatIndex(size, x, z, 0)
    ensures x + size.x * z == FlatIndex(size, x, 0, z) <==> size.y == 1 || z == 0 || size.x == 0
  {
    assert FlatIndex(size, x, 0, z) == x + size.x * (size.y * z);
    assert size.x * (size.y * z) - size.x * z == size.x * z * (size.y - 1);
    if size.x * z * (size.y - 1) == 0 {
      assert size.x == 0 || z == 0 || size.y - 1 == 0;
    }
  }

  /** The view of a structure config that the generator reads; it never writes to it. */
  datatype Template = Template(size: Vector3Int, anchor: Vector3Int, matrix: seq<int>,
                               blockTemplates: seq<BlockConfig>, flattenGroundUnderStructure: bool)

  /** The value stored at template cell (x, y, z). */
  function TemplateValue(t: Template, x: int, y: int, z: int): int
    requires 0 <= FlatIndex(t.size, x, y, z) < |t.matrix|
  {
    t.matrix[FlatIndex(t.size, x, y, z)]
  }

  /** An authored structure: the raw size and anchor, the flat matrix and the local block list. */
  class StructureConfig {
    var sizeRaw: SerializableVector3Int
    var anchorRaw: SerializableVector3Int
    var serializedMatrix: array<int>
    var blockTemplates: seq<BlockConfig>
    var flattenGroundUnderStructure: bool

    constructor (sizeRaw: SerializableVector3Int, anchorRaw: SerializableVector3Int, serializedMatrix: array<int>,
                 blockTemplates: seq<BlockConfig>, flattenGroundUnderStructure: bool)
      ensures this.sizeRaw == sizeRaw && this.anchorRaw == anchorRaw && this.serializedMatrix == serializedMatrix
      ensures this.blockTemplates == blockTemplates && this.flattenGroundUnderStructure == flattenGroundUnderStructure
    {
      this.sizeRaw := sizeRaw;
      this.anchorRaw := anchorRaw;
      this.serializedMatrix := serializedMatrix;
      this.blockTemplates := blockTemplates;
      this.flattenGroundUnderStructure := flattenGroundUnderStructure;
    }

    /** The size, copied component-wise from `sizeRaw`. */
    function Size(): (s: Vector3Int)
      reads this, sizeRaw
      ensures s.x == sizeRaw.x && s.y == sizeRaw.y && s.z == sizeRaw.z
    {
      sizeRaw.ToVector3Int()
    }

    /** The anchor, copied component-wise from `anchorRaw`. */
    function Anchor(): (a: Vector3Int)
      reads this, anchorRaw
      ensures a.x == anchorRaw.x && a.y == anchorRaw.y && a.z == anchorRaw.z
    {
      anchorRaw.ToVector3Int()
    }

    /** Flat index of (x, y, z) for this template's size (range: `FlatIndexInRange`). */
    function GetIndex(x: int, y: int, z: int): (i: int)
      reads this, sizeRaw
      ensures InTemplate(Size(), x, y, z) ==> 0 <= i < Volume(Size())
    {
      var i := FlatIndex(Size(), x, y, z);
      if InTemplate(Size(), x, y, z) then FlatIndexInRange(Size(), x, y, z); i else i
    }

    /** The value stored for cell (x, y, z). */
    function GetValue(x: int, y: int, z: int): (v: int)
      reads this, sizeRaw, serializedMatrix
      requires 0 <= GetIndex(x, y, z) < serializedMatrix.Length
      ensures v in serializedMatrix[..]
    {
      serializedMatrix[GetIndex(x, y, z)]
    }

    /** Writes one matrix entry: reading the cell back gives `value`, every other cell keeps its value. */
    method SetValue(x: int, y: int, z: int, value: int)
      requires 0 <= GetIndex(x, y, z) < serializedMatrix.Length
      modifies serializedMatrix
      ensures GetValue(x, y, z) == value
      ensures serializedMatrix[..] == old(serializedMatrix[..])[GetIndex(x, y, z) := value]
      ensures forall x', y', z' ::
                InTemplate(Size(), x, y, z) && InTemplate(Size(), x', y', z') && (x', y', z') != (x, y, z) &&
                0 <= GetIndex(x', y', z') < serializedMatrix.Length
                ==> GetValue(x', y', z') == old(GetValue(x', y', z'))
    {
      serializedMatrix[GetIndex(x, y, z)] := value;
      forall x', y', z' | InTemplate(Size(), x, y, z) && InTemplate(Size(), x', y', z') && (x', y', z') != (x, y, z) &&
                          0 <= GetIndex(x', y', z') < serializedMatrix.Length
        ensures GetValue(x', y', z') == old(GetValue(x', y', z'))
      {
        if GetIndex(x', y', z') == GetIndex(x, y, z) {
          FlatIndexInjective(Size(), x, y, z, x', y', z');
        }
      }
    }

    /** The value the generator reads in place of this object. */
    function Snapshot(): (t: Template)
      reads this, sizeRaw, anchorRaw, serializedMatrix
      ensures t.size == Size() && t.anchor == Anchor() && t.matrix == serializedMatrix[..]
      ensures forall x, y, z :: 0 <= GetIndex(x, y, z) < serializedMatrix.Length ==>
                TemplateValue(t, x, y, z) == GetValue(x, y, z)
    {
      Template(Size(), Anchor(), serializedMatrix[..], blockTemplates, flattenGroundUnderStructure)
    }
  }
}
