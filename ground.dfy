/**
 * What the two downward ground rays decide: whether Ralph's move is
 * committed, and how high the camera sits.
 */
module Ground {
  import opened Geometry

  /** One ray intersection: the name of the node hit and the height of the surface point. */
  datatype Hit = Hit(name: string, z: real)

  const Terrain: string := "terrain"

  /** The hits are sorted nearest first; only the nearest one is consulted. */
  predicate NearestIsTerrain(hits: seq<Hit>) {
    |hits| > 0 && hits[0].name == Terrain
  }

  /**
   * Commit or roll back Ralph's move: on terrain he keeps his candidate
   * x and y and stands on the surface; otherwise (another object, or no
   * hit at all) his whole position is the one saved before the move.
   */
  function GroundRalph(candidate: Vec3, start: Vec3, hits: seq<Hit>): (r: Vec3)
    ensures NearestIsTerrain(hits) ==> r.x == candidate.x && r.y == candidate.y && r.z == hits[0].z
    ensures !NearestIsTerrain(hits) ==> r == start
  {
    if NearestIsTerrain(hits) then WithZ(candidate, hits[0].z) else start
  }

  /**
   * The camera's height: one unit above the terrain under it (or where it
   * was, when the nearest hit is not terrain), and never lower than two
   * units above Ralph.
   */
  function CameraHeight(camZ: real, ralphZ: real, hits: seq<Hit>): (r: real)
    ensures r >= ralphZ + 2.0
    ensures NearestIsTerrain(hits) ==> r == Max(hits[0].z + 1.0, ralphZ + 2.0)
    ensures !NearestIsTerrain(hits) ==> r == Max(camZ, ralphZ + 2.0)
  {
    var z := if NearestIsTerrain(hits) then hits[0].z + 1.0 else camZ;
    if z < ralphZ + 2.0 then ralphZ + 2.0 else z
  }
}
