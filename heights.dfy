/**
 * The integer part of the height map: the normalised noise value, scaled and rounded, is lifted
 * to the base level and clamped into the terrain band. The noise itself is an input.
 */
module Heights {
  import opened Mathf
  import opened ChunkConfigs

  /** The lowest surface the generator produces. */
  function BaseLevel(s: GeneratorSettings): int
  {
    s.zeroHeight - s.maxDown
  }

  /** The surface height of one column, from its rounded scaled noise `rounded`. */
  function SurfaceHeight(s: GeneratorSettings, rounded: int): (h: int)
    ensures Min(BaseLevel(s), s.maxTerrainHeight) <= h <= Max(BaseLevel(s), s.maxTerrainHeight)
    ensures BaseLevel(s) <= s.maxTerrainHeight ==> BaseLevel(s) <= h <= s.maxTerrainHeight
    ensures 0 <= rounded <= s.maxTerrainHeight - BaseLevel(s) ==> h == BaseLevel(s) + rounded
    ensures s.maxTerrainHeight < BaseLevel(s) ==> h == if rounded < 0 then BaseLevel(s) else s.maxTerrainHeight
  {
    Clamp(BaseLevel(s) + rounded, BaseLevel(s), s.maxTerrainHeight)
  }

  /**
   * Fills the height map column by column. `rounded[x, z]` is the noise value of the column
   * after normalisation, scaling and rounding, whatever it turned out to be.
   */
  method GenerateHeightMap(s: GeneratorSettings, w: nat, l: nat, rounded: array2<int>) returns (heightMap: array2<int>)
    requires rounded.Length0 == w && rounded.Length1 == l
    ensures heightMap.Length0 == w && heightMap.Length1 == l
    ensures forall x, z :: 0 <= x < w && 0 <= z < l ==> heightMap[x, z] == SurfaceHeight(s, rounded[x, z])
    ensures forall x, z :: 0 <= x < w && 0 <= z < l ==>
              Min(BaseLevel(s), s.maxTerrainHeight) <= heightMap[x, z] <= Max(BaseLevel(s), s.maxTerrainHeight)
  {
    heightMap := new int[w, l];
    for x := 0 to w
      invariant forall x', z :: 0 <= x' < x && 0 <= z < l ==> heightMap[x', z] == SurfaceHeight(s, rounded[x', z])
    {
      for z := 0 to l
        invariant forall x', z' :: 0 <= x' < x && 0 <= z' < l ==> heightMap[x', z'] == SurfaceHeight(s, rounded[x', z'])
        invariant forall z' :: 0 <= z' < z ==> heightMap[x, z'] == SurfaceHeight(s, rounded[x, z'])
      {
        heightMap[x, z] := SurfaceHeight(s, rounded[x, z]);
      }
    }
  }
}
