/**
 * The fixed set of nine great-circle normals with octahedral symmetry
 * (`get_great_circle_normals`): the three coordinate axes and the six face
 * diagonals of a cube, each divided by its own Euclidean norm.
 */
module GreatCircles {
  import opened Vectors
  import Numerics

  const DirectionCount: nat := 9

  /** The integer templates, in the order the normals are returned. */
  function Templates(): (ts: seq<IVec3>)
    ensures |ts| == DirectionCount
  {
    [ IVec3(1, 0, 0), IVec3(0, 1, 0), IVec3(0, 0, 1),
      IVec3(1, 1, 0), IVec3(1, -1, 0), IVec3(1, 0, 1),
      IVec3(1, 0, -1), IVec3(0, 1, 1), IVec3(0, 1, -1) ]
  }

  /** `norms[k]` is `np.linalg.norm` of template k. */
  predicate AreTemplateNorms(norms: seq<real>) {
    |norms| == DirectionCount &&
    forall k :: 0 <= k < DirectionCount ==> IsNormOf(norms[k], Templates()[k])
  }

  /** Each template divided by its norm: nine unit vectors, in template order. */
  function GreatCircleNormals(norms: seq<real>): (ns: seq<Vec3>)
    requires AreTemplateNorms(norms)
    ensures |ns| == DirectionCount
  {
    seq(DirectionCount, k requires 0 <= k < DirectionCount => Divide(ToReal(Templates()[k]), norms[k]))
  }

  /** Every normal has unit length. */
  lemma NormalsAreUnit(norms: seq<real>, k: nat)
    requires AreTemplateNorms(norms) && k < DirectionCount
    ensures SqNorm(GreatCircleNormals(norms)[k]) == 1.0
  {
    DividedByNormIsUnit(k, norms[k]);
  }

  /** Dividing a template by its norm gives a unit vector. */
  lemma DividedByNormIsUnit(k: nat, n: real)
    requires k < DirectionCount && IsNormOf(n, Templates()[k])
    ensures SqNorm(Divide(ToReal(Templates()[k]), n)) == 1.0
  {
    var t := Templates()[k];
    TemplateShape(k);
    if k < 3 {
      AxisUnit(t, n);
    } else {
      DiagonalUnit(t, n);
    }
  }

  /** A template with one unit component, divided by its norm, is itself and has unit length. */
  lemma AxisUnit(t: IVec3, n: real)
    requires -1 <= t.x <= 1 && -1 <= t.y <= 1 && -1 <= t.z <= 1 && ZeroComponents(t) == 2
    requires n > 0.0 && n * n == ISqNorm(t) as real
    ensures Divide(ToReal(t), n) == ToReal(t)
    ensures SqNorm(ToReal(t)) == 1.0
  {
    assert ISqNorm(t) == 1;
    NormOfOne(n);
  }

  /** A template with one zero and two unit components, divided by sqrt(2), has unit length. */
  lemma DiagonalUnit(t: IVec3, n: real)
    requires -1 <= t.x <= 1 && -1 <= t.y <= 1 && -1 <= t.z <= 1 && ZeroComponents(t) == 1
    requires n > 0.0 && n * n == 2.0
    ensures SqNorm(Divide(ToReal(t), n)) == 1.0
  {
    var u := Divide(ToReal(t), n);
    ComponentSquare(t.x, n);
    ComponentSquare(t.y, n);
    ComponentSquare(t.z, n);
    assert u.x * u.x == (if t.x == 0 then 0.0 else 0.5);
    assert u.y * u.y == (if t.y == 0 then 0.0 else 0.5);
    assert u.z * u.z == (if t.z == 0 then 0.0 else 0.5);
  }

  /** A component in {-1, 0, 1} divided by sqrt(2) squares to 0 or 1/2. */
  lemma ComponentSquare(c: int, n: real)
    requires -1 <= c <= 1 && n > 0.0 && n * n == 2.0
    ensures (c as real / n) * (c as real / n) == if c == 0 then 0.0 else 0.5
  {
    if c == 1 {
      HalfSquare(n);
    } else if c == -1 {
      HalfSquare(n);
      assert -1.0 / n == -(1.0 / n);
    }
  }

  lemma HalfSquare(n: real)
    requires n > 0.0 && n * n == 2.0
    ensures (1.0 / n) * (1.0 / n) == 0.5
  {
    var q := 1.0 / n;
    assert q * n == 1.0;
    ProductSquare(q, n);
  }

  lemma ProductSquare(q: real, n: real)
    ensures (q * q) * (n * n) == (q * n) * (q * n)
  {
  }

  function ZeroComponents(t: IVec3): nat {
    (if t.x == 0 then 1 else 0) + (if t.y == 0 then 1 else 0) + (if t.z == 0 then 1 else 0)
  }

  /**
   * The templates: components in {-1, 0, 1}; the first three are the unit
   * axes (one non-zero component), the remaining six the face diagonals (two).
   */
  lemma TemplateShape(k: nat)
    requires k < DirectionCount
    ensures var t := Templates()[k];
      -1 <= t.x <= 1 && -1 <= t.y <= 1 && -1 <= t.z <= 1 &&
      (k < 3 ==> ISqNorm(t) == 1 && ZeroComponents(t) == 2) &&
      (3 <= k ==> ISqNorm(t) == 2 && ZeroComponents(t) == 1)
  {
    var ts := Templates();
    if k == 0 { assert ts[0] == IVec3(1, 0, 0); }
    else if k == 1 { assert ts[1] == IVec3(0, 1, 0); }
    else if k == 2 { assert ts[2] == IVec3(0, 0, 1); }
    else if k == 3 { assert ts[3] == IVec3(1, 1, 0); }
    else if k == 4 { assert ts[4] == IVec3(1, -1, 0); }
    else if k == 5 { assert ts[5] == IVec3(1, 0, 1); }
    else if k == 6 { assert ts[6] == IVec3(1, 0, -1); }
    else if k == 7 { assert ts[7] == IVec3(0, 1, 1); }
    else { assert ts[8] == IVec3(0, 1, -1); }
  }

  /**
   * No template is a multiple of another (their cross product is never zero),
   * so the nine normals define nine different great circles.
   */
  lemma TemplatesPairwiseNonParallel()
    ensures forall i, j :: 0 <= i < j < DirectionCount ==> ICross(Templates()[i], Templates()[j]) != IVec3(0, 0, 0)
  {
  }

  lemma NormOfOne(n: real)
    requires n > 0.0 && n * n == 1.0
    ensures n == 1.0
  {
    assert (n - 1.0) * (n + 1.0) == 0.0;
  }

  /** The three axis templates come out unchanged. */
  lemma AxisNormalsUnchanged(norms: seq<real>)
    requires AreTemplateNorms(norms)
    ensures GreatCircleNormals(norms)[0] == Vec3(1.0, 0.0, 0.0)
    ensures GreatCircleNormals(norms)[1] == Vec3(0.0, 1.0, 0.0)
    ensures GreatCircleNormals(norms)[2] == Vec3(0.0, 0.0, 1.0)
  {
    AxisNormal(norms, 0);
    AxisNormal(norms, 1);
    AxisNormal(norms, 2);
  }

  lemma AxisNormal(norms: seq<real>, k: nat)
    requires AreTemplateNorms(norms) && k < 3
    ensures GreatCircleNormals(norms)[k] == ToReal(Templates()[k])
  {
    assert IsNormOf(norms[k], Templates()[k]);
    assert ISqNorm(Templates()[k]) == 1;
    NormOfOne(norms[k]);
    assert GreatCircleNormals(norms)[k] == Divide(ToReal(Templates()[k]), norms[k]);
  }

  function Sign(r: real): int {
    if r > 0.0 then 1 else if r < 0.0 then -1 else 0
  }

  function Negate(v: Vec3): Vec3 {
    Vec3(-v.x, -v.y, -v.z)
  }

  /**
   * Dividing by a positive norm keeps the sign of every component, so each
   * normal has its template's pattern of signs and zeros.
   */
  lemma NormalSigns(norms: seq<real>, k: nat)
    requires AreTemplateNorms(norms) && k < DirectionCount
    ensures var t, u := Templates()[k], GreatCircleNormals(norms)[k];
      Sign(u.x) == t.x && Sign(u.y) == t.y && Sign(u.z) == t.z
  {
    var t, n := Templates()[k], norms[k];
    TemplateShape(k);
    Numerics.QuotientFacts(t.x as real, n);
    Numerics.QuotientFacts(t.y as real, n);
    Numerics.QuotientFacts(t.z as real, n);
  }

  /**
   * Each diagonal normal has exactly one zero component, and its two other
   * components are +-1/sqrt(2) with the template's signs.
   */
  lemma DiagonalNormal(norms: seq<real>, k: nat)
    requires AreTemplateNorms(norms) && 3 <= k < DirectionCount
    ensures var t, u := Templates()[k], GreatCircleNormals(norms)[k];
      ZeroComponents(t) == 1 &&
      (t.x == 0 ==> u.x == 0.0) && (t.x != 0 ==> u.x * u.x == 0.5 && Sign(u.x) == t.x) &&
      (t.y == 0 ==> u.y == 0.0) && (t.y != 0 ==> u.y * u.y == 0.5 && Sign(u.y) == t.y) &&
      (t.z == 0 ==> u.z == 0.0) && (t.z != 0 ==> u.z * u.z == 0.5 && Sign(u.z) == t.z)
  {
    var t, n := Templates()[k], norms[k];
    TemplateShape(k);
    NormalSigns(norms, k);
    ComponentSquare(t.x, n);
    ComponentSquare(t.y, n);
    ComponentSquare(t.z, n);
  }

  /** Two different templates are neither equal nor opposite. */
  lemma TemplatesOnDistinctLines()
    ensures forall i, j :: 0 <= i < j < DirectionCount ==>
      Templates()[i] != Templates()[j] &&
      Templates()[i] != IVec3(-Templates()[j].x, -Templates()[j].y, -Templates()[j].z)
  {
  }

  /**
   * No normal equals another or its negation: the nine normals span nine
   * different lines through the origin, one per great circle.
   */
  lemma NormalsOnDistinctLines(norms: seq<real>, i: nat, j: nat)
    requires AreTemplateNorms(norms) && i < DirectionCount && j < DirectionCount && i != j
    ensures GreatCircleNormals(norms)[i] != GreatCircleNormals(norms)[j]
    ensures GreatCircleNormals(norms)[i] != Negate(GreatCircleNormals(norms)[j])
  {
    NormalSigns(norms, i);
    NormalSigns(norms, j);
    TemplatesOnDistinctLines();
    var ti, tj := Templates()[i], Templates()[j];
    if i < j {
      assert ti != tj && ti != IVec3(-tj.x, -tj.y, -tj.z);
    } else {
      assert tj != ti && tj != IVec3(-ti.x, -ti.y, -ti.z);
    }
  }
}
