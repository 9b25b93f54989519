/**
 * The two mesh objects the colouring code updates in place. Only what the
 * core reads or writes is modelled: vertex positions and per-vertex colours.
 */
module Meshes {
  import opened Vectors
  import opened Colors
  import opened Wrappers

  /** A pyvista `PolyData`: its `points` and its `point_data` arrays by name. */
  class PolyData {
    var points: seq<Vec3>
    var pointData: map<string, seq<Rgb>>

    constructor (points: seq<Vec3>)
      ensures this.points == points && pointData == map[]
    {
      this.points := points;
      pointData := map[];
    }
  }

  /** A trimesh `Trimesh`: its `vertices` and the `vertex_colors` of its visual, if any were set. */
  class Trimesh {
    var vertices: seq<Vec3>
    var vertexColors: Option<seq<Rgb>>

    constructor (vertices: seq<Vec3>)
      ensures this.vertices == vertices && vertexColors == None
    {
      this.vertices := vertices;
      vertexColors := None;
    }
  }

  /** The name under which the pyvista variants store their colours. */
  const ColorsKey: string := "colors"
}
