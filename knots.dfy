/**
 * The colouring step of the trefoil-knot model (`apply_colors`): every vertex
 * of the tube mesh is coloured by its height y, min-max normalised over the
 * mesh, as a linear blend from dark blue at the lowest vertex to light blue
 * at the highest one, cast to bytes and stored under "colors".
 */
module Knots {
  import opened Vectors
  import opened Numerics
  import opened Colors
  import opened Meshes

  /** The colour of the lowest vertex, `[0, 100, 255]`. */
  const DarkBlue: Rgb := Rgb(0, 100, 255)

  /** The colour of the highest vertex, `[200, 240, 255]`. */
  const LightBlue: Rgb := Rgb(200, 240, 255)

  /** `vertices[:, 1]`. */
  function YCoords(points: seq<Vec3>): (ys: seq<real>)
    ensures |ys| == |points|
  {
    seq(|points|, i requires 0 <= i < |points| => points[i].y)
  }

  /**
   * `(y_coords - min_y) / (max_y - min_y)`. The source has no guard for a flat
   * mesh, so the range must not be empty: every normalised value is in [0, 1].
   */
  function NormalizedY(ys: seq<real>): (vs: seq<real>)
    requires |ys| > 0 && Min(ys) < Max(ys)
    ensures |vs| == |ys|
    ensures forall i :: 0 <= i < |vs| ==> 0.0 <= vs[i] <= 1.0
  {
    var lo, hi := Min(ys), Max(ys);
    seq(|ys|, i requires 0 <= i < |ys| => Rescale(ys[i], lo, hi))
  }

  /** One channel of `color_dark_blue * (1 - val) + color_light_blue * val`, before the cast. */
  function Blend(a: Byte, b: Byte, v: real): (y: real)
    ensures v == 0.0 ==> y == a as real
    ensures v == 1.0 ==> y == b as real
    ensures a == b ==> y == a as real
  {
    a as real * (1.0 - v) + b as real * v
  }

  /**
   * The byte colour for normalised height `v`: blue is always 255, and the
   * ends of the range give exactly the two end colours.
   */
  function KnotColor(v: real): (c: Rgb)
    ensures c.b == 255
    ensures v == 0.0 ==> c == DarkBlue
    ensures v == 1.0 ==> c == LightBlue
  {
    assert Uint8(255.0) == 255;
    assert v == 0.0 ==> Uint8(0.0) == 0 && Uint8(100.0) == 100;
    assert v == 1.0 ==> Uint8(200.0) == 200 && Uint8(240.0) == 240;
    Rgb(Uint8(Blend(DarkBlue.r, LightBlue.r, v)),
        Uint8(Blend(DarkBlue.g, LightBlue.g, v)),
        Uint8(Blend(DarkBlue.b, LightBlue.b, v)))
  }

  /** The colours `apply_colors` computes, one per vertex in vertex order. */
  function KnotColors(points: seq<Vec3>): (colors: seq<Rgb>)
    requires |points| > 0 && Min(YCoords(points)) < Max(YCoords(points))
    ensures |colors| == |points|
  {
    var normalizedY := NormalizedY(YCoords(points));
    seq(|points|, i requires 0 <= i < |points| => KnotColor(normalizedY[i]))
  }

  /** A vertex's normalised height is 0 exactly at the lowest y and 1 exactly at the highest, and keeps the order of heights. */
  lemma NormalizedYEndpoints(ys: seq<real>, i: nat, j: nat)
    requires |ys| > 0 && Min(ys) < Max(ys) && i < |ys| && j < |ys|
    ensures NormalizedY(ys)[i] == 0.0 <==> ys[i] == Min(ys)
    ensures NormalizedY(ys)[i] == 1.0 <==> ys[i] == Max(ys)
    ensures ys[i] <= ys[j] ==> NormalizedY(ys)[i] <= NormalizedY(ys)[j]
  {
    if ys[i] <= ys[j] {
      RescaleMonotone(ys[i], ys[j], Min(ys), Max(ys));
    }
  }

  /** For v in [0, 1] the blend lies between its two end values, and moves toward `b` as v grows. */
  lemma BlendBetween(a: Byte, b: Byte, u: real, v: real)
    requires a <= b && 0.0 <= u <= v <= 1.0
    ensures a as real <= Blend(a, b, u) <= Blend(a, b, v) <= b as real
  {
    var d := b as real - a as real;
    assert Blend(a, b, u) - a as real == d * u;
    assert Blend(a, b, v) - Blend(a, b, u) == d * (v - u);
    assert b as real - Blend(a, b, v) == d * (1.0 - v);
    NonNegativeProduct(d, u);
    NonNegativeProduct(d, v - u);
    NonNegativeProduct(d, 1.0 - v);
  }

  lemma NonNegativeProduct(p: real, q: real)
    requires p >= 0.0 && q >= 0.0
    ensures p * q >= 0.0
  {
  }

  /**
   * Colour of one normalised height in [0, 1]: red in [0, 200], green in
   * [100, 240], blue always exactly 255; at 0 it is dark blue and at 1 light blue.
   */
  lemma KnotColorRange(v: real)
    requires 0.0 <= v <= 1.0
    ensures 0 <= KnotColor(v).r <= 200 && 100 <= KnotColor(v).g <= 240 && KnotColor(v).b == 255
    ensures v == 0.0 ==> KnotColor(v) == DarkBlue
    ensures v == 1.0 ==> KnotColor(v) == LightBlue
  {
    BlendBetween(0, 200, v, v);
    BlendBetween(100, 240, v, v);
    FloorBetween(Blend(0, 200, v), 0, 200);
    FloorBetween(Blend(100, 240, v), 100, 240);
  }

  /** A higher normalised height never gives less red or less green. */
  lemma KnotColorMonotone(u: real, v: real)
    requires 0.0 <= u <= v <= 1.0
    ensures KnotColor(u).r <= KnotColor(v).r && KnotColor(u).g <= KnotColor(v).g
  {
    BlendBetween(0, 200, u, v);
    BlendBetween(100, 240, u, v);
    BlendBetween(0, 200, v, v);
    BlendBetween(100, 240, v, v);
    FloorMonotone(Blend(0, 200, u), Blend(0, 200, v));
    FloorMonotone(Blend(100, 240, u), Blend(100, 240, v));
  }

  /**
   * Every vertex gets blue 255, red in [0, 200] and green in [100, 240]; the
   * lowest vertex is exactly dark blue and the highest exactly light blue.
   */
  lemma KnotColorsOfVertex(points: seq<Vec3>, i: nat)
    requires |points| > 0 && Min(YCoords(points)) < Max(YCoords(points)) && i < |points|
    ensures var c := KnotColors(points)[i];
      c.b == 255 && 0 <= c.r <= 200 && 100 <= c.g <= 240
    ensures points[i].y == Min(YCoords(points)) ==> KnotColors(points)[i] == DarkBlue
    ensures points[i].y == Max(YCoords(points)) ==> KnotColors(points)[i] == LightBlue
  {
    var ys := YCoords(points);
    var v := NormalizedY(ys)[i];
    NormalizedYEndpoints(ys, i, i);
    KnotColorRange(v);
  }

  /** A vertex at least as high as another has at least as much red and green. */
  lemma KnotColorsMonotone(points: seq<Vec3>, i: nat, j: nat)
    requires |points| > 0 && Min(YCoords(points)) < Max(YCoords(points)) && i < |points| && j < |points|
    requires points[i].y <= points[j].y
    ensures KnotColors(points)[i].r <= KnotColors(points)[j].r
    ensures KnotColors(points)[i].g <= KnotColors(points)[j].g
  {
    var ys := YCoords(points);
    NormalizedYEndpoints(ys, i, j);
    KnotColorMonotone(NormalizedY(ys)[i], NormalizedY(ys)[j]);
  }

  /**
   * `apply_colors`: the colours are stored under "colors", one per vertex, and
   * the vertices are not touched. The mesh must have vertices at more than
   * one height.
   */
  method ApplyColors(knotMesh: PolyData) returns (result: PolyData)
    requires |knotMesh.points| > 0 && Min(YCoords(knotMesh.points)) < Max(YCoords(knotMesh.points))
    modifies knotMesh`pointData
    ensures result == knotMesh && knotMesh.points == old(knotMesh.points)
    ensures knotMesh.pointData == old(knotMesh.pointData)[ColorsKey := KnotColors(knotMesh.points)]
    ensures |knotMesh.pointData[ColorsKey]| == |knotMesh.points|
  {
    var vertices := knotMesh.points;
    var colors := KnotColors(vertices);
    knotMesh.pointData := knotMesh.pointData[ColorsKey := colors];
    result := knotMesh;
  }
}
