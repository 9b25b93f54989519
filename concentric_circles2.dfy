/**
 * The trimesh variant of the concentric-shell generator: every rind is turned
 * toward its normal by a 4x4 homogeneous transform built from scipy's
 * `Rotation.align_vectors`, the parts are combined by one union over the whole
 * list with a fallback to `trimesh.util.concatenate`, and the result is
 * coloured by distance from the origin into the mesh's `vertex_colors`.
 */
module ConcentricCircles2 {
  import opened Wrappers
  import opened Vectors
  import opened Colors
  import opened Meshes
  import opened Shells
  import opened GreatCircles
  import opened RadialGradient
  import ConcentricCircles

  // ---------------------------------------------------------------------------
  // The rotation transform (`calculate_rotation_matrix`)
  // ---------------------------------------------------------------------------

  /**
   * `np.eye(4)` with its upper-left 3x3 block replaced by the rotation scipy
   * returns for `align_vectors(target, initial)`. `alignVectors(a, b)` stands
   * for scipy's rotation matrix that best carries `b` onto `a`.
   */
  function CalculateRotationMatrix(initialNormal: Vec3, targetNormal: Vec3,
                                   alignVectors: (Vec3, Vec3) -> Mat3): (m: Mat4)
    ensures UpperLeft(m) == alignVectors(targetNormal, initialNormal)
    ensures m.r0.c3 == 0.0 && m.r1.c3 == 0.0 && m.r2.c3 == 0.0
    ensures m.r3 == Row4(0.0, 0.0, 0.0, 1.0)
  {
    var r := alignVectors(targetNormal, initialNormal);
    Mat4(Row4(r.r0.x, r.r0.y, r.r0.z, 0.0),
         Row4(r.r1.x, r.r1.y, r.r1.z, 0.0),
         Row4(r.r2.x, r.r2.y, r.r2.z, 0.0),
         Row4(0.0, 0.0, 0.0, 1.0))
  }

  /**
   * The upper-left 3x3 block of a 4x4 transform, `m[:3, :3]`. When the
   * transform has no translation, the block alone decides where it moves a
   * point.
   */
  function UpperLeft(m: Mat4): (r: Mat3)
    ensures m.r0.c3 == 0.0 && m.r1.c3 == 0.0 && m.r2.c3 == 0.0 ==>
      forall p :: ApplyHomogeneous(m, p).c0 == MatVec(r, p).x &&
        ApplyHomogeneous(m, p).c1 == MatVec(r, p).y && ApplyHomogeneous(m, p).c2 == MatVec(r, p).z
  {
    Mat3(Vec3(m.r0.c0, m.r0.c1, m.r0.c2),
         Vec3(m.r1.c0, m.r1.c1, m.r1.c2),
         Vec3(m.r2.c0, m.r2.c1, m.r2.c2))
  }

  /**
   * The transform is a pure rotation: it applies the 3x3 rotation to a point,
   * adds no translation and keeps the homogeneous coordinate at 1.
   */
  lemma {:induction false} TransformIsRotation(initialNormal: Vec3, targetNormal: Vec3,
                                               alignVectors: (Vec3, Vec3) -> Mat3, p: Vec3)
    ensures var m, r := CalculateRotationMatrix(initialNormal, targetNormal, alignVectors),
                        alignVectors(targetNormal, initialNormal);
      ApplyHomogeneous(m, p) == Row4(MatVec(r, p).x, MatVec(r, p).y, MatVec(r, p).z, 1.0)
  {
    var m, r := CalculateRotationMatrix(initialNormal, targetNormal, alignVectors),
                alignVectors(targetNormal, initialNormal);
    assert RowTimes(m.r0, p) == Dot(r.r0, p);
    assert RowTimes(m.r1, p) == Dot(r.r1, p);
    assert RowTimes(m.r2, p) == Dot(r.r2, p);
  }

  /**
   * The transform is determined by its rotation: any 4x4 matrix with the same
   * upper-left block, no translation and bottom row [0, 0, 0, 1] is this one.
   */
  lemma TransformDeterminedByRotation(initialNormal: Vec3, targetNormal: Vec3,
                                      alignVectors: (Vec3, Vec3) -> Mat3, m: Mat4)
    requires UpperLeft(m) == alignVectors(targetNormal, initialNormal)
    requires m.r0.c3 == 0.0 && m.r1.c3 == 0.0 && m.r2.c3 == 0.0
    requires m.r3 == Row4(0.0, 0.0, 0.0, 1.0)
    ensures m == CalculateRotationMatrix(initialNormal, targetNormal, alignVectors)
  {
  }

  /**
   * When scipy's rotation carries the torus axis onto the target normal, the
   * 4x4 transform carries the homogeneous point (axis, 1) onto (target, 1).
   */
  lemma TransformCarriesAxisToTarget(initialNormal: Vec3, targetNormal: Vec3,
                                     alignVectors: (Vec3, Vec3) -> Mat3)
    requires MatVec(alignVectors(targetNormal, initialNormal), initialNormal) == targetNormal
    ensures ApplyHomogeneous(CalculateRotationMatrix(initialNormal, targetNormal, alignVectors), initialNormal) ==
      Row4(targetNormal.x, targetNormal.y, targetNormal.z, 1.0)
  {
    TransformIsRotation(initialNormal, targetNormal, alignVectors, initialNormal);
  }

  // ---------------------------------------------------------------------------
  // Generating the parts (`create_single_rind`, `generate_geometry`)
  // ---------------------------------------------------------------------------

  /**
   * One rind of the given radii, built around [0, 0, 1], with `transformMatrix`
   * applied to it; the direction index only labels the part.
   */
  function CreateSingleRind(majorRadius: real, minorRadius: real, direction: nat, transformMatrix: Mat4): (p: Part)
    ensures p.Rind? && p.majorRadius == majorRadius && p.minorRadius == minorRadius && p.direction == direction
    ensures p.placement == Transformed(transformMatrix)
  {
    Rind(majorRadius, minorRadius, direction, Transformed(transformMatrix))
  }

  /** The transform applied to the rind of each of the nine directions, in direction order. */
  function RindTransforms(normals: seq<Vec3>, alignVectors: (Vec3, Vec3) -> Mat3): (ps: seq<Placement>)
    requires |normals| == DirectionCount
    ensures |ps| == DirectionCount
  {
    seq(DirectionCount, j requires 0 <= j < DirectionCount =>
      Transformed(CalculateRotationMatrix(ZAxis, normals[j], alignVectors)))
  }

  /** The rind built for direction j of shell i extends the shell's first j rinds by one. */
  lemma AppendRind(cfg: ShellConfig, normals: seq<Vec3>, alignVectors: (Vec3, Vec3) -> Mat3, i: nat, j: nat)
    requires |normals| == DirectionCount && j < DirectionCount
    ensures var shell := ShellRinds(cfg, RindTransforms(normals, alignVectors), i);
      shell[..j + 1] == shell[..j] +
        [CreateSingleRind(ShellRadius(cfg, i), cfg.rindThickness, j, CalculateRotationMatrix(ZAxis, normals[j], alignVectors))]
  {
    var shell := ShellRinds(cfg, RindTransforms(normals, alignVectors), i);
    assert shell[j] == CreateSingleRind(ShellRadius(cfg, i), cfg.rindThickness, j, CalculateRotationMatrix(ZAxis, normals[j], alignVectors));
  }

  /**
   * Every rind of every shell is placed by the transform that rotates
   * [0, 0, 1] onto its direction's normal; the transform's own contract says
   * that this is the rotation in the upper-left block, with no translation
   * and bottom row [0, 0, 0, 1].
   */
  lemma RindsRotatedTowardNormals(cfg: ShellConfig, normals: seq<Vec3>, alignVectors: (Vec3, Vec3) -> Mat3,
                                  i: nat, j: nat)
    requires |normals| == DirectionCount && i < cfg.numConcentricShells && j < DirectionCount
    ensures var k := SphereCount(cfg) + DirectionCount * i + j;
      var parts := ShellParts(cfg, RindTransforms(normals, alignVectors));
      k < |parts| &&
      parts[k] == Rind(cfg.baseSphereRadius + i as real * cfg.shellSpacing, cfg.rindThickness, j,
                       Transformed(CalculateRotationMatrix(ZAxis, normals[j], alignVectors)))
  {
    var placements := RindTransforms(normals, alignVectors);
    ShellPartAt(cfg, placements, i, j);
  }

  /**
   * The nested loops of `generate_geometry`: the central sphere first when
   * configured, then shell by shell, nine transformed rinds per shell in
   * direction order.
   */
  method GenerateGeometry(cfg: ShellConfig, norms: seq<real>, alignVectors: (Vec3, Vec3) -> Mat3)
    returns (allMeshes: seq<Part>)
    requires AreTemplateNorms(norms)
    ensures allMeshes == ShellParts(cfg, RindTransforms(GreatCircleNormals(norms), alignVectors))
  {
    allMeshes := [];
    if cfg.addCentralSphere {
      allMeshes := allMeshes + [CentralSphere(cfg.centralSphereRadius)];
    }
    var greatCircleNormals := GreatCircleNormals(norms);
    ghost var placements := RindTransforms(greatCircleNormals, alignVectors);
    var initialTorusNormal := ZAxis;
    for i := 0 to cfg.numConcentricShells
      invariant allMeshes == SpherePart(cfg) + RindsOfShells(cfg, placements, i)
    {
      var currentRadius := cfg.baseSphereRadius + i as real * cfg.shellSpacing;
      assert currentRadius == ShellRadius(cfg, i);
      ghost var shell, before := ShellRinds(cfg, placements, i), allMeshes;
      for j := 0 to DirectionCount
        invariant allMeshes == before + shell[..j]
      {
        var rotationMatrix := CalculateRotationMatrix(initialTorusNormal, greatCircleNormals[j], alignVectors);
        var rindMesh := CreateSingleRind(currentRadius, cfg.rindThickness, j, rotationMatrix);
        AppendRind(cfg, greatCircleNormals, alignVectors, i, j);
        allMeshes := allMeshes + [rindMesh];
      }
      assert shell[..DirectionCount] == shell;
    }
  }

  // ---------------------------------------------------------------------------
  // Combining the parts (`combine_meshes`)
  // ---------------------------------------------------------------------------

  /**
   * `combine_meshes` with one union call over the whole list: nothing for an
   * empty list; the union when enabled and it succeeds; otherwise the
   * concatenation of the whole list. `unionAll` returning None stands for
   * the exception the union raises.
   */
  function CombineMeshes<M>(meshesList: seq<M>, applyBooleanUnion: bool,
                            unionAll: seq<M> -> Option<M>, concatenate: seq<M> -> M): (r: Option<M>)
    ensures r.None? <==> |meshesList| == 0
    ensures r.Some? ==> r == unionAll(meshesList) || r == Some(concatenate(meshesList))
    ensures |meshesList| > 0 && applyBooleanUnion && unionAll(meshesList).Some? ==> r == unionAll(meshesList)
    ensures |meshesList| > 0 && !applyBooleanUnion ==> r == Some(concatenate(meshesList))
    ensures |meshesList| > 0 && unionAll(meshesList).None? ==> r == Some(concatenate(meshesList))
  {
    if |meshesList| == 0 then None
    else if applyBooleanUnion then
      match unionAll(meshesList)
      case Some(finalMesh) => Some(finalMesh)
      case None => Some(concatenate(meshesList))
    else Some(concatenate(meshesList))
  }

  /**
   * The two variants agree: when the whole-list union is the left fold of a
   * pairwise union (failing as soon as a step fails) and the fallback is the
   * same, both `combine_meshes` return the same result on every list.
   */
  lemma SameAsPairwiseFold<M>(meshesList: seq<M>, applyBooleanUnion: bool,
                              union: (M, M) -> Option<M>, unionAll: seq<M> -> Option<M>,
                              concatenate: seq<M> -> M)
    requires |meshesList| > 0 ==> unionAll(meshesList) == ConcentricCircles.UnionPrefix(meshesList, |meshesList|, union)
    ensures CombineMeshes(meshesList, applyBooleanUnion, unionAll, concatenate) ==
      ConcentricCircles.Combined(meshesList, applyBooleanUnion, union, concatenate)
  {
  }

  // ---------------------------------------------------------------------------
  // Colouring (`apply_radial_gradient`, `apply_colors`)
  // ---------------------------------------------------------------------------

  /** The four stops `apply_colors` passes: yellow, orange, magenta, purple. */
  const ColorGradient: seq<Rgb> := [Rgb(255, 255, 0), Rgb(255, 165, 0), Rgb(255, 0, 255), Rgb(128, 0, 128)]

  /** With these stops, red never drops below 128 and the innermost and outermost vertices are yellow and purple. */
  lemma GradientPalette(radii: seq<real>, i: nat)
    requires |radii| > 0 && i < |radii|
    ensures 128 <= RadialColors(radii, ColorGradient)[i].r
    ensures radii[i] == Numerics.Min(radii) ==> RadialColors(radii, ColorGradient)[i] == Rgb(255, 255, 0)
    ensures radii[i] == Numerics.Max(radii) && Numerics.Min(radii) < Numerics.Max(radii) ==>
      RadialColors(radii, ColorGradient)[i] == Rgb(128, 0, 128)
  {
    ColorsWithinStops(radii, ColorGradient, i, 0, 128, 255);
    ExtremeVerticesGetEndStops(radii, ColorGradient, i);
  }

  /**
   * `apply_radial_gradient` on a trimesh mesh: a mesh without vertices is
   * returned as it is; otherwise one colour per vertex becomes its
   * `vertex_colors`. The vertices never change. `radii` are the vertices'
   * distances from the origin.
   */
  method ApplyRadialGradient(mesh: Trimesh, colorStopsRgb: seq<Rgb>, radii: seq<real>)
    returns (result: Trimesh)
    requires AreRadii(radii, mesh.vertices)
    requires |mesh.vertices| > 0 ==> |colorStopsRgb| >= 1
    modifies mesh`vertexColors
    ensures result == mesh && mesh.vertices == old(mesh.vertices)
    ensures |mesh.vertices| == 0 ==> mesh.vertexColors == old(mesh.vertexColors)
    ensures |mesh.vertices| > 0 ==> mesh.vertexColors == Some(RadialColors(radii, colorStopsRgb))
    ensures |mesh.vertices| > 0 ==> |mesh.vertexColors.value| == |mesh.vertices|
  {
    var vertices := mesh.vertices;
    if |vertices| == 0 {
      return mesh;
    }
    var vertexColors := RadialColors(radii, colorStopsRgb);
    mesh.vertexColors := Some(vertexColors);
    result := mesh;
  }

  /**
   * `apply_colors`: nothing happens when the gradient is disabled or there is
   * no mesh; otherwise the four-stop radial gradient is applied.
   */
  method ApplyColors(mesh: Trimesh?, applyColorGradient: bool, radii: seq<real>)
    returns (result: Trimesh?)
    requires mesh != null ==> AreRadii(radii, mesh.vertices)
    modifies mesh
    ensures result == mesh
    ensures mesh != null ==> mesh.vertices == old(mesh.vertices)
    ensures mesh != null && (!applyColorGradient || |mesh.vertices| == 0) ==>
      mesh.vertexColors == old(mesh.vertexColors)
    ensures mesh != null && applyColorGradient && |mesh.vertices| > 0 ==>
      mesh.vertexColors == Some(RadialColors(radii, ColorGradient))
  {
    if !applyColorGradient || mesh == null {
      return mesh;
    }
    result := ApplyRadialGradient(mesh, ColorGradient, radii);
  }
}
