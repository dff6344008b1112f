/** Integer vectors, the optional-value wrapper, and the serialisable vector wrapper. */
module Vectors {

  /** A value that may be absent (a C# null reference). */
  datatype Option<T> = None | Some(value: T)

  /** Unity's Vector3Int: an integer point or offset. */
  datatype Vector3Int = Vector3Int(x: int, y: int, z: int)

  /** Unity's Vector2Int; as a grid column its `y` is the z coordinate. */
  datatype Vector2Int = Vector2Int(x: int, y: int)

  /** A mutable three-component integer vector that the inspector can serialise. */
  class SerializableVector3Int {
    var x: int
    var y: int
    var z: int

    /** The parameterless constructor leaves every field at its default value, zero. */
    constructor Empty()
      ensures x == 0 && y == 0 && z == 0
    {
      x := 0;
      y := 0;
      z := 0;
    }

    /** Stores the three components exactly. */
    constructor (x: int, y: int, z: int)
      ensures this.x == x && this.y == y && this.z == z
    {
      this.x := x;
      this.y := y;
      this.z := z;
    }

    /** Reads the three fields out as a value. */
    function ToVector3Int(): (v: Vector3Int)
      reads this
      ensures v.x == x && v.y == y && v.z == z
    {
      Vector3Int(x, y, z)
    }

    /** Overwrites all three fields with the components of `v`; converting back gives `v`. */
    method FromVector3Int(v: Vector3Int)
      modifies this
      ensures x == v.x && y == v.y && z == v.z
      ensures ToVector3Int() == v
    {
      x := v.x;
      y := v.y;
      z := v.z;
    }
  }

  /** Converting a vector in and out of a serialisable wrapper returns it unchanged. */
  method RoundTrip(s: SerializableVector3Int, v: Vector3Int) returns (r: Vector3Int)
    modifies s
    ensures r == v
  {
    s.FromVector3Int(v);
    r := s.ToVector3Int();
  }
}
