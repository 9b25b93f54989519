# Escher models: concentric shells and a trefoil knot, in Dafny

A model of the geometric and colouring core of the Escher-inspired 3D scripts:

- the nine great-circle normals with octahedral symmetry (`get_great_circle_normals`);
- the ordered list of parts for the concentric-shell sculpture (`generate_geometry`): an optional central sphere, then nine tori ("rinds") per shell;
- how each rind is turned toward its normal: the branch choice in the pyvista variant, the 4x4 transform in the trimesh variant;
- how the parts are combined (`combine_meshes`): a left fold of pairwise unions, or one whole-list union, with a fallback that merges the whole list;
- the radial colour gradient (`apply_radial_gradient`) and the `apply_colors` guard, in both variants;
- the height-based two-colour blend of the knot (`apply_colors` in `knots.py`).

Modules:

| file | module | models |
|---|---|---|
| `wrappers.dfy` | `Wrappers` | `Option` |
| `vectors.dfy` | `Vectors` | 3-vectors, small matrices, numpy `allclose` |
| `numerics.dfy` | `Numerics` | `np.min`/`np.max`, min-max rescaling, `np.linspace(0, 1, n)`, `np.interp`, `astype(np.uint8)` |
| `great_circles.dfy` | `GreatCircles` | `get_great_circle_normals` (identical in three scripts) |
| `colors.dfy` | `Colors` | byte RGB triples and colour channels |
| `radial_gradient.dfy` | `RadialGradient` | the colour computation of `apply_radial_gradient` (identical in both shell scripts) |
| `meshes.dfy` | `Meshes` | the two mesh classes the colouring updates in place |
| `shells.dfy` | `Shells` | the part list `generate_geometry` must produce |
| `concentric_circles.dfy` | `ConcentricCircles` | `concentric_circles.py`: rind orientation branches, generation loops, fold-union combine, colouring |
| `concentric_circles2.dfy` | `ConcentricCircles2` | `concentric_circles2.py`: rotation transform, generation loops, whole-list-union combine, colouring |
| `knots.dfy` | `Knots` | `knots.py` `apply_colors` |

Library operations are parameters of the model, and the model's contracts hold for every choice of them:
- the pairwise boolean union is a function `(M, M) -> Option<M>`, and the whole-list union is `seq<M> -> Option<M>`. `None` stands for the exception the library raises;
- `pv.merge` and `trimesh.util.concatenate` are functions `seq<M> -> M`;
- scipy's `Rotation.align_vectors(...).as_matrix()` is a function `(Vec3, Vec3) -> Mat3`.

Dafny reals have no square root, so the model takes Euclidean norms as inputs:
- `norms[k]` is characterised as the positive number whose square is the squared length of template k (`IsNormOf`);
- each vertex's distance from the origin is characterised by `AreRadii`.

Numbers are exact reals. numpy's `astype(np.uint8)` is modelled as truncation toward zero followed by reduction modulo 256 (`Numerics.Uint8`). The model proves that the wrap-around never happens in any of the gradients.

## Model

| member | source | states |
|---|---|---|
| GreatCircles.Templates | visualize_normals.py:8-12 | exactly nine direction templates, in the listed order |
| GreatCircles.TemplateShape | visualize_normals.py:8-12 | every component is in {-1, 0, 1}; the first three templates are unit axes with one non-zero component; the other six are face diagonals with squared length 2 and exactly one zero component |
| GreatCircles.TemplatesPairwiseNonParallel | visualize_normals.py:8-12 | no two templates have a zero cross product, so they span nine different great circles |
| GreatCircles.TemplatesOnDistinctLines | visualize_normals.py:8-12 | no template equals another or the negation of another |
| GreatCircles.GreatCircleNormals | visualize_normals.py:14 | nine normals, each its template divided by the template's norm |
| GreatCircles.NormalsAreUnit | visualize_normals.py:14 | every normal has squared length exactly 1 |
| GreatCircles.DividedByNormIsUnit | concentric_circles.py:58 | a template divided by its own norm is a unit vector |
| GreatCircles.AxisUnit | concentric_circles.py:58 | an axis template is unchanged by normalisation |
| GreatCircles.DiagonalUnit | concentric_circles.py:58 | a diagonal template divided by sqrt(2) has unit length |
| GreatCircles.AxisNormalsUnchanged | visualize_normals.py:8-14 | the first three normals are exactly [1,0,0], [0,1,0] and [0,0,1] |
| GreatCircles.AxisNormal | concentric_circles2.py:69-74 | normal k for k < 3 is its own template |
| GreatCircles.NormalSigns | concentric_circles2.py:74 | every normal has the sign pattern of its template, zeros included |
| GreatCircles.DiagonalNormal | visualize_normals.py:14 | each diagonal normal has one zero component, and its two other components square to 1/2 and carry the template's signs (that is, they are ±1/√2) |
| GreatCircles.NormalsOnDistinctLines | visualize_normals.py:8-14 | no normal equals another normal or its negation |
| Numerics.Min | concentric_circles.py:30 | `np.min`: a member of the array that no element undercuts |
| Numerics.Max | concentric_circles.py:30 | `np.max`: a member of the array that no element exceeds |
| Numerics.Rescale | concentric_circles.py:35 | min-max normalisation maps [lo, hi] into [0, 1]; it is 0 exactly at lo and 1 exactly at hi |
| Numerics.RescaleMonotone | concentric_circles2.py:41 | normalisation keeps the order of values |
| Numerics.Linspace | concentric_circles.py:38 | n stops from 0 to 1: 0 first, 1 last when n >= 2, strictly increasing |
| Numerics.SegmentBetween | concentric_circles.py:40-42 | the straight line between two samples stays between their values |
| Numerics.InterpAtSample | concentric_circles.py:40-42 | `np.interp` at a sample point returns that sample's value |
| Numerics.Interp | concentric_circles.py:40-42 | `np.interp` over increasing sample points: at or below the first point it returns the first value, and at or beyond the last point the last value |
| Numerics.InterpBracketed | concentric_circles.py:40-42 | between sample points k and k+1, the interpolated value lies between samples k and k+1 |
| Numerics.InterpWithin | concentric_circles.py:40-42 | interpolation never leaves a range that holds every sample value |
| Vectors.AllClose | concentric_circles.py:83-88 | `np.allclose` with rtol 1e-5 and atol 1e-8: a value is close to itself, and a value close to 1 (or -1) lies within 1% of it |
| Numerics.Uint8 | concentric_circles.py:44 | the cast always yields a byte, and within [0, 256) it is plain truncation |
| Colors.Channel | concentric_circles.py:37-42 | one channel of the stop list, one value per stop |
| RadialGradient.NormalizedRadii | concentric_circles.py:29-35 | one normalised radius per vertex, each in [0, 1], with all zeros when every radius is equal |
| RadialGradient.RadialColors | concentric_circles.py:37-44 | exactly one colour per vertex |
| RadialGradient.NormalizedRadiiEndpoints | concentric_circles.py:30-35 | in a non-degenerate range, a normalised radius is 0 exactly at the minimum radius and 1 exactly at the maximum; normalising keeps the order of radii |
| RadialGradient.GradientColor | concentric_circles.py:37-44 | the colour at one normalised position: positions at or below 0 give exactly the first stop, and positions at or above 1 exactly the last |
| RadialGradient.GradientBetweenStops | concentric_circles.py:38-44 | between two adjacent stops every channel is the truncated interpolation and lies between those stops' values, so the cast never wraps |
| RadialGradient.ColorsWithinStops | concentric_circles2.py:53-58 | every channel of every vertex colour is within the range of that channel over the stops |
| RadialGradient.GradientWithin | concentric_circles2.py:53-58 | at any position, each channel stays within any range that holds that channel of every stop |
| RadialGradient.UniformRadiiGetFirstStop | concentric_circles.py:32-33 | when all vertices are at the same distance, every vertex gets exactly the first stop |
| RadialGradient.ExtremeVerticesGetEndStops | concentric_circles.py:30-44 | a closest vertex gets exactly the first stop; a farthest vertex gets exactly the last stop unless every distance is equal |
| RadialGradient.TwoStopMidpoint | concentric_circles.py:38-44 | stops (255,255,0) and (128,0,128) give (191,127,64) at position 1/2 |
| Shells.SpherePart | concentric_circles.py:101-104 | the central sphere as a list of zero or one parts |
| Shells.ShellRadius | concentric_circles.py:108 | shell 0 has the base radius, and with a non-negative spacing no shell is smaller than the base |
| Shells.ShellRinds | concentric_circles.py:110-112 | nine rinds per shell |
| Shells.RindsOfShells | concentric_circles.py:107-112 | nine rinds for each of the first n shells |
| Shells.ShellParts | concentric_circles.py:97-113 | the expected list has (1 if sphere else 0) + 9 × shells parts |
| Shells.RindOfShellAt | concentric_circles.py:107-112 | the rind for shell i and direction j sits at position 9i + j among the rinds |
| Shells.ShellPartAt | concentric_circles.py:100-112 | sphere first when configured; the rind for shell i and direction j at SphereCount + 9i + j, with radius base + i·spacing, the configured thickness and direction j's placement |
| Shells.RindsHaveDirections | concentric_circles.py:110-112 | every rind carries a direction index below nine |
| Shells.PartsAreSphereThenRinds | concentric_circles.py:100-112 | a part is the sphere exactly when the sphere is configured and it is the first part; every other part is a rind |
| Shells.ShellsNested | concentric_circles.py:108 | with positive spacing, each shell's radius is larger than the one before |
| ConcentricCircles.Clip | concentric_circles.py:91 | `np.clip`: the result is in [lo, hi], and a value already in range is unchanged |
| ConcentricCircles.RindPlacement | concentric_circles.py:79-93 | a rotation's axis is perpendicular to [0,0,1] and to the normalised target, and its cosine is in [-1, 1]; the torus is left as built exactly when the target's z component is `allclose` to 1, and flipped exactly when it is not close to 1 but close to -1 |
| ConcentricCircles.CreateSingleRind | concentric_circles.py:63-95 | a rind with the requested radii; it is left as built, flipped or rotated exactly as the normalised target's z component is close to 1, close to -1, or neither; a rotation axis is perpendicular to [0,0,1] and to the target |
| ConcentricCircles.PlacementOfUnit | concentric_circles.py:79-93 | for a unit target, the branch depends only on its z component, and the rotation axis is (-y, x, 0) |
| ConcentricCircles.NormalHeights | concentric_circles.py:79-88 | normal 2 is [0,0,1]; every other normal has z strictly between -3/4 and 3/4 and a non-zero x or y |
| ConcentricCircles.DiagonalHeight | concentric_circles.py:79-88 | a diagonal normal has a non-zero x or y, and z strictly between -3/4 and 3/4 |
| ConcentricCircles.RindBranches | concentric_circles.py:79-93 | only direction 2 takes the identity branch; none takes the 180-degree flip; the other eight are rotated about a non-zero axis |
| ConcentricCircles.RindPlacements | concentric_circles.py:110-111 | one placement per direction, nine in all |
| ConcentricCircles.PlacementsFollowPattern | concentric_circles.py:79-93 | the nine placements follow that branch pattern |
| ConcentricCircles.GeneratedRindBranches | concentric_circles.py:107-112 | in the generated list, the rind for shell i and direction j has radius base + i·spacing; it is left as built exactly when j is 2; none is flipped; the others are rotated about a non-zero axis |
| ConcentricCircles.GenerateGeometry | concentric_circles.py:97-113 | the nested loops produce exactly the expected part list |
| ConcentricCircles.UnionPrefix | concentric_circles.py:124-128 | the left fold of pairwise unions over the first n meshes: one mesh is itself, and two meshes are their union |
| ConcentricCircles.Combined | concentric_circles.py:115-136 | what `combine_meshes` returns: nothing exactly for an empty list, and the merge of the whole list when union is disabled |
| ConcentricCircles.FailurePersists | concentric_circles.py:126-128 | once a union step fails, every longer fold fails too |
| ConcentricCircles.CombineMeshes | concentric_circles.py:115-136 | the loop returns what the combine specification says: None for an empty list, the full left fold when every union succeeds, and the merge of the whole list otherwise |
| ConcentricCircles.CombineEmptyAndSingle | concentric_circles.py:117-124 | no meshes give None; a single mesh with union enabled is returned as it is |
| ConcentricCircles.FailureAtStepMergesAll | concentric_circles.py:122-132 | a union failure at any step gives the merge of the whole list, never a partial union |
| ConcentricCircles.CombineAllOrNothing | concentric_circles.py:119-134 | a non-empty list combines either to the union of all meshes or to the merge of all of them |
| ConcentricCircles.ApplyRadialGradient | concentric_circles.py:21-48 | a mesh without points keeps its point data; otherwise "colors" gets one colour per point; the points never change |
| ConcentricCircles.ApplyColors | concentric_circles.py:138-150 | a missing mesh or a disabled gradient changes nothing; otherwise the four-stop gradient (255,255,0), (255,100,0), (255,0,255), (128,0,128) is applied |
| ConcentricCircles2.CalculateRotationMatrix | concentric_circles2.py:76-81 | the upper-left 3×3 block is the rotation; the translation column is zero; the bottom row is [0,0,0,1] |
| ConcentricCircles2.UpperLeft | concentric_circles2.py:80 | `m[:3, :3]`: for a transform without translation, the block alone decides where each point goes |
| ConcentricCircles2.TransformIsRotation | concentric_circles2.py:79-81 | applied to (p, 1), the transform gives (R·p, 1) |
| ConcentricCircles2.TransformDeterminedByRotation | concentric_circles2.py:79-81 | any 4×4 matrix with that block, no translation and that bottom row is this transform |
| ConcentricCircles2.TransformCarriesAxisToTarget | concentric_circles2.py:76-81 | when the rotation carries [0,0,1] onto the target, the transform carries (axis, 1) onto (target, 1) |
| ConcentricCircles2.CreateSingleRind | concentric_circles2.py:83-90 | a rind with the requested radii, placed by exactly the given transform |
| ConcentricCircles2.RindTransforms | concentric_circles2.py:106-107 | one transform per direction, nine in all |
| ConcentricCircles2.RindsRotatedTowardNormals | concentric_circles2.py:103-109 | the rind for shell i and direction j has radius base + i·spacing and is transformed by the rotation from [0,0,1] to normal j |
| ConcentricCircles2.GenerateGeometry | concentric_circles2.py:92-110 | the nested loops produce exactly the expected part list, with transformed rinds |
| ConcentricCircles2.CombineMeshes | concentric_circles2.py:112-130 | None exactly for an empty list; the whole-list union when enabled and it succeeds; the concatenation of the whole list when disabled or when the union fails |
| ConcentricCircles2.SameAsPairwiseFold | concentric_circles2.py:112-130 | when the whole-list union is the left fold of pairwise unions, both variants of `combine_meshes` agree on every list |
| ConcentricCircles2.GradientPalette | concentric_circles2.py:138-144 | with this variant's stops, red never drops below 128; the closest vertex is yellow and the farthest purple |
| ConcentricCircles2.ApplyRadialGradient | concentric_circles2.py:22-62 | a mesh without vertices keeps its colours; otherwise `vertex_colors` gets one colour per vertex; the vertices never change |
| ConcentricCircles2.ApplyColors | concentric_circles2.py:132-144 | a missing mesh or a disabled gradient changes nothing; otherwise the four-stop gradient (255,255,0), (255,165,0), (255,0,255), (128,0,128) is applied |
| Knots.YCoords | knots.py:35 | one y coordinate per vertex |
| Knots.NormalizedY | knots.py:36-37 | every normalised height is in [0, 1] |
| Knots.Blend | knots.py:41-43 | weight 0 gives the dark end value, weight 1 the light end value, and equal ends give that value at every weight |
| Knots.KnotColor | knots.py:39-44 | blue is always 255; weight 0 gives exactly dark blue [0,100,255] and weight 1 exactly light blue [200,240,255] |
| Knots.KnotColors | knots.py:39-44 | exactly one colour per vertex |
| Knots.NormalizedYEndpoints | knots.py:36-37 | a normalised height is 0 exactly at the lowest y and 1 exactly at the highest; it keeps the order of heights |
| Knots.BlendBetween | knots.py:41-43 | for a weight in [0, 1], the blend lies between the two end colours and grows with the weight |
| Numerics.FloorBetween | knots.py:44 | truncating a value that lies between two integers keeps it between them, so the byte cast of a blend or an interpolation lands between its end values |
| Knots.KnotColorRange | knots.py:39-44 | red is in [0, 200], green in [100, 240], blue is exactly 255; weight 0 gives dark blue and weight 1 light blue |
| Knots.KnotColorMonotone | knots.py:39-44 | a larger weight never gives less red or less green |
| Knots.KnotColorsOfVertex | knots.py:34-44 | every vertex is blue 255, red in [0, 200], green in [100, 240]; the lowest vertex is exactly [0,100,255] and the highest exactly [200,240,255] |
| Knots.KnotColorsMonotone | knots.py:35-44 | a vertex at least as high as another has at least as much red and green |
| Knots.ApplyColors | knots.py:31-47 | "colors" gets exactly one colour per vertex, and the vertices are not touched |

## Left out

- Rendering and plotting (`render_model`, `plot_vectors`), progress printing and the `__main__` glue. They are user interface and output only.
- Primitive construction (`vtkParametricTorus` with `surface_from_para`, `pv.Sphere`, `trimesh.creation.torus`, `icosphere`) and its resolutions. A part records only what is asked of the library: kind, radii, direction index and placement.
- The knot's centreline (`set_points`, sine and cosine) and its tube (`apply_mesh`). These are floating-point trigonometry and library calls. `Knots.ApplyColors` takes any mesh.
- The rotation maths itself: `rotate_x`, `rotate_vector`, `np.arccos`, `np.degrees` and scipy's `align_vectors`. The model records which rotation is requested, and the trimesh variant's 4×4 embedding, not the rotated geometry.
- Boolean-union internals and the merge and concatenate semantics, including point deduplication by `pv.merge`. They are library code and are parameters of the model.
- The `.copy()` of the first mesh in the fold. Meshes in the fold are values, so a copy is the mesh itself.
- Euclidean norms (square roots). They are inputs characterised by their squares, as described above.
- Floating-point rounding. The model uses exact reals. In floats, for example, 255·(1 − v) + 255·v may come out just below 255 and truncate to 254; in exact arithmetic it is 255.
- The alpha channel that trimesh adds to `vertex_colors`. Only the RGB triple is modelled.
- `RadialGradient.GradientColor`, `RadialGradient.RadialColors`: an empty colour-stop list on a mesh with vertices makes indexing the stop array raise (IndexError) before any interpolation. The model requires at least one stop in that case.
- `Knots.ApplyColors`, `Knots.KnotColors`: a mesh without vertices makes `min()` raise, and a flat mesh (every y equal) divides zero by zero. Unlike the shell scripts, `knots.py` has no guard for this. The model requires a non-empty mesh with more than one height.
- `ConcentricCircles.ApplyColors`, `ConcentricCircles2.ApplyColors`: `not mesh` is modelled as "no mesh" (`null`). If the library instead treats a mesh with no vertices as false, the result is the same: such a mesh comes back unchanged from the empty-mesh guard.
- `RadialGradient.TwoStopMidpoint`: at position 1/2 the blue channel is exactly 0 + 0.5·128 = 64, so the colour is (191,127,64).
