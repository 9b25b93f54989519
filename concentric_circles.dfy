/**
 * The pyvista variant of the concentric-shell generator: rinds are rotated by
 * an axis-angle rule with two special cases, the parts are combined by a
 * left fold of pairwise boolean unions with an all-or-nothing fallback to
 * `pv.merge`, and the result is coloured by distance from the origin.
 */
module ConcentricCircles {
  import opened Wrappers
  import opened Vectors
  import opened Colors
  import opened Meshes
  import opened Shells
  import opened GreatCircles
  import opened RadialGradient

  // ---------------------------------------------------------------------------
  // Orienting one rind (`create_single_rind`)
  // ---------------------------------------------------------------------------

  /** `np.clip` of a scalar. */
  function Clip(x: real, lo: real, hi: real): (c: real)
    requires lo <= hi
    ensures lo <= c <= hi
    ensures lo <= x <= hi ==> c == x
  {
    if x < lo then lo else if x > hi then hi else x
  }

  /**
   * The branch `create_single_rind` takes for a target normal whose norm is
   * `norm`: the target is re-normalised and its dot product with the torus
   * axis [0, 0, 1] decides. About +1: the torus stays as built; about -1: it
   * is flipped 180 degrees about x; otherwise it is rotated about the cross
   * product of the axis and the target by the arc-cosine of the clipped dot.
   * That rotation axis is perpendicular to both vectors.
   */
  function RindPlacement(target: Vec3, norm: real): (p: Placement)
    requires norm > 0.0 && norm * norm == SqNorm(target)
    ensures p.RotatedAbout? ==>
      Dot(p.axis, ZAxis) == 0.0 && Dot(p.axis, Divide(target, norm)) == 0.0 && -1.0 <= p.cosAngle <= 1.0
    ensures p.AsBuilt? <==> AllClose(Divide(target, norm).z, 1.0)
    ensures p.FlippedAboutX? <==> !AllClose(Divide(target, norm).z, 1.0) && AllClose(Divide(target, norm).z, -1.0)
  {
    var unit := Divide(target, norm);
    var dot := Dot(ZAxis, unit);
    if AllClose(dot, 1.0) then AsBuilt
    else if AllClose(dot, -1.0) then FlippedAboutX
    else RotatedAbout(Cross(ZAxis, unit), Clip(dot, -1.0, 1.0))
  }

  /**
   * One rind of the given radii, built around [0, 0, 1] and turned toward
   * `target`: left as built when the normalised target is about [0, 0, 1],
   * flipped when it is about [0, 0, -1], and otherwise rotated about an axis
   * perpendicular to both.
   */
  function CreateSingleRind(majorRadius: real, minorRadius: real, direction: nat, target: Vec3, norm: real): (p: Part)
    requires norm > 0.0 && norm * norm == SqNorm(target)
    ensures p.Rind? && p.majorRadius == majorRadius && p.minorRadius == minorRadius && p.direction == direction
    ensures var z := Divide(target, norm).z;
      (p.placement.AsBuilt? <==> AllClose(z, 1.0)) &&
      (p.placement.FlippedAboutX? <==> !AllClose(z, 1.0) && AllClose(z, -1.0)) &&
      (p.placement.RotatedAbout? <==> !AllClose(z, 1.0) && !AllClose(z, -1.0))
    ensures p.placement.RotatedAbout? ==>
      Dot(p.placement.axis, ZAxis) == 0.0 && Dot(p.placement.axis, Divide(target, norm)) == 0.0
  {
    Rind(majorRadius, minorRadius, direction, RindPlacement(target, norm))
  }

  /** A square root of one half lies strictly between -3/4 and 3/4. */
  lemma HalfRootBound(z: real)
    requires z * z == 0.5
    ensures -0.75 < z < 0.75
  {
    assert (0.75 - z) * (0.75 + z) == 0.0625;
  }

  /** For a unit target the branch depends only on its z component. */
  lemma PlacementOfUnit(u: Vec3)
    requires SqNorm(u) == 1.0
    ensures RindPlacement(u, 1.0) ==
      if AllClose(u.z, 1.0) then AsBuilt
      else if AllClose(u.z, -1.0) then FlippedAboutX
      else RotatedAbout(Vec3(-u.y, u.x, 0.0), Clip(u.z, -1.0, 1.0))
  {
    assert Divide(u, 1.0) == u;
    assert Cross(ZAxis, u) == Vec3(-u.y, u.x, 0.0);
  }

  /** The z component of each normal, and which normals leave the z axis. */
  lemma NormalHeights(norms: seq<real>, j: nat)
    requires AreTemplateNorms(norms) && j < DirectionCount
    ensures var u := GreatCircleNormals(norms)[j];
      (j == 2 ==> u == ZAxis) &&
      (j != 2 ==> -0.75 < u.z < 0.75 && (u.x != 0.0 || u.y != 0.0))
  {
    if j < 3 {
      AxisNormal(norms, j);
    } else {
      DiagonalHeight(norms, j);
    }
  }

  /** A normal of a two-axis template lies off the z axis, strictly between heights -3/4 and 3/4. */
  lemma DiagonalHeight(norms: seq<real>, j: nat)
    requires AreTemplateNorms(norms) && 3 <= j < DirectionCount
    ensures var u := GreatCircleNormals(norms)[j];
      -0.75 < u.z < 0.75 && (u.x != 0.0 || u.y != 0.0)
  {
    var t, u := Templates()[j], GreatCircleNormals(norms)[j];
    DiagonalNormal(norms, j);
    if t.z != 0 {
      HalfRootBound(u.z);
    }
    assert t.x != 0 || t.y != 0;
  }

  /**
   * Among the nine great-circle normals only the third, [0, 0, 1], keeps the
   * torus as built; none takes the 180-degree flip (no normal points along
   * [0, 0, -1]); the other eight are rotated about a non-zero axis.
   */
  lemma RindBranches(norms: seq<real>, j: nat)
    requires AreTemplateNorms(norms) && j < DirectionCount
    ensures var u := GreatCircleNormals(norms)[j];
      SqNorm(u) == 1.0 &&
      (RindPlacement(u, 1.0).AsBuilt? <==> j == 2) &&
      !RindPlacement(u, 1.0).FlippedAboutX? &&
      (j != 2 ==> RindPlacement(u, 1.0).RotatedAbout? && RindPlacement(u, 1.0).axis != Vec3(0.0, 0.0, 0.0))
  {
    var u := GreatCircleNormals(norms)[j];
    NormalsAreUnit(norms, j);
    PlacementOfUnit(u);
    NormalHeights(norms, j);
  }

  /** The placement used for each of the nine directions, in direction order. */
  function RindPlacements(norms: seq<real>): (ps: seq<Placement>)
    requires AreTemplateNorms(norms)
    ensures |ps| == DirectionCount
  {
    var normals := GreatCircleNormals(norms);
    assert forall j :: 0 <= j < DirectionCount ==> SqNorm(normals[j]) == 1.0 by {
      forall j | 0 <= j < DirectionCount ensures SqNorm(normals[j]) == 1.0 {
        NormalsAreUnit(norms, j);
      }
    }
    seq(DirectionCount, j requires 0 <= j < DirectionCount => RindPlacement(normals[j], 1.0))
  }

  /**
   * The branch pattern of the nine placements: only direction 2 is left as
   * built, none is flipped, and the others are rotated about a non-zero axis.
   */
  predicate BranchPattern(placements: seq<Placement>) {
    |placements| == DirectionCount &&
    forall j :: 0 <= j < DirectionCount ==>
      (placements[j].AsBuilt? <==> j == 2) && !placements[j].FlippedAboutX? &&
      (j != 2 ==> placements[j].RotatedAbout? && placements[j].axis != Vec3(0.0, 0.0, 0.0))
  }

  /** The placements `create_single_rind` chooses for the nine great-circle normals follow that pattern. */
  lemma PlacementsFollowPattern(norms: seq<real>)
    requires AreTemplateNorms(norms)
    ensures BranchPattern(RindPlacements(norms))
  {
    forall j | 0 <= j < DirectionCount
      ensures var p := RindPlacements(norms)[j];
        (p.AsBuilt? <==> j == 2) && !p.FlippedAboutX? &&
        (j != 2 ==> p.RotatedAbout? && p.axis != Vec3(0.0, 0.0, 0.0))
    {
      RindBranches(norms, j);
      assert RindPlacements(norms)[j] == RindPlacement(GreatCircleNormals(norms)[j], 1.0);
    }
  }

  /**
   * In the generated list, the rind for shell i and direction j has major
   * radius base + i*spacing and is left as built exactly when j is 2; no rind
   * is flipped, and every other rind is rotated about a non-zero axis.
   */
  lemma GeneratedRindBranches(cfg: ShellConfig, placements: seq<Placement>, i: nat, j: nat)
    requires BranchPattern(placements) && i < cfg.numConcentricShells && j < DirectionCount
    ensures var k := SphereCount(cfg) + DirectionCount * i + j;
      var parts := ShellParts(cfg, placements);
      k < |parts| && parts[k].Rind? && parts[k].direction == j &&
      parts[k].majorRadius == cfg.baseSphereRadius + i as real * cfg.shellSpacing &&
      (parts[k].placement.AsBuilt? <==> j == 2) && !parts[k].placement.FlippedAboutX? &&
      (j != 2 ==> parts[k].placement.RotatedAbout? && parts[k].placement.axis != Vec3(0.0, 0.0, 0.0))
  {
    ShellPartAt(cfg, placements, i, j);
  }

  // ---------------------------------------------------------------------------
  // Generating the parts (`generate_geometry`)
  // ---------------------------------------------------------------------------

  /**
   * The nested loops of `generate_geometry`: the central sphere first when
   * configured, then shell by shell, nine rinds per shell in direction order.
   */
  method GenerateGeometry(cfg: ShellConfig, norms: seq<real>) returns (allMeshes: seq<Part>)
    requires AreTemplateNorms(norms)
    ensures allMeshes == ShellParts(cfg, RindPlacements(norms))
  {
    ghost var placements := RindPlacements(norms);
    allMeshes := [];
    if cfg.addCentralSphere {
      allMeshes := allMeshes + [CentralSphere(cfg.centralSphereRadius)];
    }
    var greatCircleNormals := GreatCircleNormals(norms);
    for i := 0 to cfg.numConcentricShells
      invariant allMeshes == SpherePart(cfg) + RindsOfShells(cfg, placements, i)
    {
      var currentRadius := cfg.baseSphereRadius + i as real * cfg.shellSpacing;
      assert currentRadius == ShellRadius(cfg, i);
      ghost var shell, before := ShellRinds(cfg, placements, i), allMeshes;
      for j := 0 to DirectionCount
        invariant allMeshes == before + shell[..j]
      {
        AppendRind(cfg, norms, i, j);
        var rindMesh := CreateSingleRind(currentRadius, cfg.rindThickness, j, greatCircleNormals[j], 1.0);
        allMeshes := allMeshes + [rindMesh];
      }
      assert shell[..DirectionCount] == shell;
    }
  }

  /** The rind `create_single_rind` returns for direction j of shell i extends the shell's first j rinds by one. */
  lemma AppendRind(cfg: ShellConfig, norms: seq<real>, i: nat, j: nat)
    requires AreTemplateNorms(norms) && j < DirectionCount
    ensures SqNorm(GreatCircleNormals(norms)[j]) == 1.0
    ensures var shell := ShellRinds(cfg, RindPlacements(norms), i);
      shell[..j + 1] == shell[..j] +
        [CreateSingleRind(ShellRadius(cfg, i), cfg.rindThickness, j, GreatCircleNormals(norms)[j], 1.0)]
  {
    NormalsAreUnit(norms, j);
    var shell := ShellRinds(cfg, RindPlacements(norms), i);
    assert shell[j] == CreateSingleRind(ShellRadius(cfg, i), cfg.rindThickness, j, GreatCircleNormals(norms)[j], 1.0);
  }

  // ---------------------------------------------------------------------------
  // Combining the parts (`combine_meshes`)
  // ---------------------------------------------------------------------------

  /**
   * The left fold of the first n meshes under the fallible pairwise union,
   * starting from the first mesh: None as soon as one union fails.
   */
  function UnionPrefix<M>(meshes: seq<M>, n: nat, union: (M, M) -> Option<M>): (r: Option<M>)
    requires 1 <= n <= |meshes|
    ensures n == 1 ==> r == Some(meshes[0])
    ensures n == 2 ==> r == union(meshes[0], meshes[1])
  {
    if n == 1 then Some(meshes[0])
    else match UnionPrefix(meshes, n - 1, union)
      case None => None
      case Some(acc) => union(acc, meshes[n - 1])
  }

  /**
   * What `combine_meshes` returns: None for no meshes; `merge` of the whole
   * list when union is disabled or any union step fails; otherwise the full
   * fold.
   */
  function Combined<M>(meshes: seq<M>, applyBooleanUnion: bool,
                       union: (M, M) -> Option<M>, merge: seq<M> -> M): (r: Option<M>)
    ensures r.None? <==> |meshes| == 0
    ensures |meshes| > 0 && !applyBooleanUnion ==> r == Some(merge(meshes))
  {
    if |meshes| == 0 then None
    else if !applyBooleanUnion then Some(merge(meshes))
    else match UnionPrefix(meshes, |meshes|, union)
      case Some(u) => Some(u)
      case None => Some(merge(meshes))
  }

  /** Once a union step fails, every longer prefix fails too. */
  lemma {:induction false} FailurePersists<M>(meshes: seq<M>, k: nat, n: nat, union: (M, M) -> Option<M>)
    requires 1 <= k <= n <= |meshes|
    requires UnionPrefix(meshes, k, union) == None
    ensures UnionPrefix(meshes, n, union) == None
    decreases n - k
  {
    if k < n {
      FailurePersists(meshes, k + 1, n, union);
    }
  }

  /**
   * `combine_meshes`: the fold loop over the remaining meshes; an exception
   * (a failed union) abandons it and merges the whole original list.
   */
  method CombineMeshes<M>(meshesList: seq<M>, applyBooleanUnion: bool,
                          union: (M, M) -> Option<M>, merge: seq<M> -> M)
    returns (finalMesh: Option<M>)
    ensures finalMesh == Combined(meshesList, applyBooleanUnion, union, merge)
  {
    if |meshesList| == 0 {
      return None;
    }
    if applyBooleanUnion {
      var acc := meshesList[0];
      var total := |meshesList|;
      var i := 1;
      var failed := false;
      while i < total && !failed
        invariant 1 <= i <= total
        invariant !failed ==> UnionPrefix(meshesList, i, union) == Some(acc)
        invariant failed ==> UnionPrefix(meshesList, i, union) == None
      {
        match union(acc, meshesList[i]) {
          case None =>
            failed := true;
          case Some(u) =>
            acc := u;
        }
        i := i + 1;
      }
      if failed {
        FailurePersists(meshesList, i, total, union);
        finalMesh := Some(merge(meshesList));
      } else {
        finalMesh := Some(acc);
      }
    } else {
      finalMesh := Some(merge(meshesList));
    }
  }

  /** No meshes give no result; one mesh with union enabled comes back unchanged, no union attempted. */
  lemma CombineEmptyAndSingle<M>(m: M, union: (M, M) -> Option<M>, merge: seq<M> -> M)
    ensures Combined([], true, union, merge) == None && Combined([], false, union, merge) == None
    ensures Combined([m], true, union, merge) == Some(m)
    ensures Combined([m], false, union, merge) == Some(merge([m]))
  {
  }

  /**
   * A union failure at any step k gives the merge of the WHOLE list, never a
   * partial union of the first k meshes.
   */
  lemma FailureAtStepMergesAll<M>(meshes: seq<M>, k: nat, acc: M,
                                  union: (M, M) -> Option<M>, merge: seq<M> -> M)
    requires 1 <= k < |meshes|
    requires UnionPrefix(meshes, k, union) == Some(acc) && union(acc, meshes[k]) == None
    ensures Combined(meshes, true, union, merge) == Some(merge(meshes))
  {
    FailingStep(meshes, k, acc, union);
    FailurePersists(meshes, k + 1, |meshes|, union);
  }

  /** A failed union at step k makes the fold of the first k + 1 meshes fail. */
  lemma FailingStep<M>(meshes: seq<M>, k: nat, acc: M, union: (M, M) -> Option<M>)
    requires 1 <= k < |meshes|
    requires UnionPrefix(meshes, k, union) == Some(acc) && union(acc, meshes[k]) == None
    ensures UnionPrefix(meshes, k + 1, union) == None
  {
  }

  /**
   * All or nothing: a non-empty list combines either to the union of all of
   * its meshes, folded left to right, or to the merge of all of them.
   */
  lemma CombineAllOrNothing<M>(meshes: seq<M>, applyBooleanUnion: bool,
                               union: (M, M) -> Option<M>, merge: seq<M> -> M)
    requires |meshes| > 0
    ensures var r := Combined(meshes, applyBooleanUnion, union, merge);
      r == Some(merge(meshes)) ||
      (applyBooleanUnion && UnionPrefix(meshes, |meshes|, union) == r)
    ensures applyBooleanUnion && UnionPrefix(meshes, |meshes|, union).Some? ==>
      Combined(meshes, applyBooleanUnion, union, merge) == UnionPrefix(meshes, |meshes|, union)
  {
  }

  // ---------------------------------------------------------------------------
  // Colouring (`apply_radial_gradient`, `apply_colors`)
  // ---------------------------------------------------------------------------

  /** The four stops `apply_colors` passes: yellow, orange, magenta, purple. */
  const ColorGradient: seq<Rgb> := [Rgb(255, 255, 0), Rgb(255, 100, 0), Rgb(255, 0, 255), Rgb(128, 0, 128)]

  /**
   * `apply_radial_gradient` on a pyvista mesh: a mesh without points is left
   * alone; otherwise one colour per point is stored under "colors". The
   * points never change. `radii` are the points' distances from the origin.
   */
  method ApplyRadialGradient(mesh: PolyData, colorStopsRgb: seq<Rgb>, radii: seq<real>)
    returns (result: PolyData)
    requires AreRadii(radii, mesh.points)
    requires |mesh.points| > 0 ==> |colorStopsRgb| >= 1
    modifies mesh`pointData
    ensures result == mesh && mesh.points == old(mesh.points)
    ensures |mesh.points| == 0 ==> mesh.pointData == old(mesh.pointData)
    ensures |mesh.points| > 0 ==>
      mesh.pointData == old(mesh.pointData)[ColorsKey := RadialColors(radii, colorStopsRgb)]
    ensures |mesh.points| > 0 ==> |mesh.pointData[ColorsKey]| == |mesh.points|
  {
    var vertices := mesh.points;
    if |vertices| == 0 {
      return mesh;
    }
    var vertexColors := RadialColors(radii, colorStopsRgb);
    mesh.pointData := mesh.pointData[ColorsKey := vertexColors];
    result := mesh;
  }

  /**
   * `apply_colors`: nothing happens when the gradient is disabled or there is
   * no mesh; otherwise the four-stop radial gradient is applied.
   */
  method ApplyColors(mesh: PolyData?, applyColorGradient: bool, radii: seq<real>)
    returns (result: PolyData?)
    requires mesh != null ==> AreRadii(radii, mesh.points)
    modifies mesh
    ensures result == mesh
    ensures mesh != null ==> mesh.points == old(mesh.points)
    ensures mesh != null && (!applyColorGradient || |mesh.points| == 0) ==> mesh.pointData == old(mesh.pointData)
    ensures mesh != null && applyColorGradient && |mesh.points| > 0 ==>
      mesh.pointData == old(mesh.pointData)[ColorsKey := RadialColors(radii, ColorGradient)]
  {
    if !applyColorGradient || mesh == null {
      return mesh;
    }
    result := ApplyRadialGradient(mesh, ColorGradient, radii);
  }
}
