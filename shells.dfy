/**
 * The ordered list of parts `generate_geometry` builds: an optional central
 * sphere, then for every shell one torus ("rind") per great-circle normal.
 * Primitive construction is a library call, so a part records what was
 * asked of the library: its kind, radii, direction index and placement.
 */
module Shells {
  import opened Vectors
  import GreatCircles

  /** The configuration constants `generate_geometry` reads. */
  datatype ShellConfig = ShellConfig(
    baseSphereRadius: real,
    rindThickness: real,
    numConcentricShells: nat,
    shellSpacing: real,
    addCentralSphere: bool,
    centralSphereRadius: real)

  /** How a freshly built torus (axis `[0, 0, 1]`) is turned toward its normal. */
  datatype Placement =
    | AsBuilt                                      // left as built
    | FlippedAboutX                                // `rotate_x(180)`
    | RotatedAbout(axis: Vec3, cosAngle: real)     // `rotate_vector(axis, degrees(arccos(cosAngle)))`
    | Transformed(matrix: Mat4)                    // `apply_transform(matrix)`

  datatype Part =
    | CentralSphere(radius: real)
    | Rind(majorRadius: real, minorRadius: real, direction: nat, placement: Placement)

  /** The major radius of shell i. */
  function ShellRadius(cfg: ShellConfig, i: nat): (r: real)
    ensures i == 0 ==> r == cfg.baseSphereRadius
    ensures cfg.shellSpacing >= 0.0 ==> r >= cfg.baseSphereRadius
  {
    cfg.baseSphereRadius + i as real * cfg.shellSpacing
  }

  function SphereCount(cfg: ShellConfig): nat {
    if cfg.addCentralSphere then 1 else 0
  }

  /** The central sphere, when configured, as a list of zero or one parts. */
  function SpherePart(cfg: ShellConfig): (ps: seq<Part>)
    ensures |ps| == SphereCount(cfg)
  {
    if cfg.addCentralSphere then [CentralSphere(cfg.centralSphereRadius)] else []
  }

  /** The nine rinds of shell i, in direction order. */
  function ShellRinds(cfg: ShellConfig, placements: seq<Placement>, i: nat): (rs: seq<Part>)
    requires |placements| == GreatCircles.DirectionCount
    ensures |rs| == GreatCircles.DirectionCount
  {
    seq(GreatCircles.DirectionCount, j requires 0 <= j < GreatCircles.DirectionCount =>
      Rind(ShellRadius(cfg, i), cfg.rindThickness, j, placements[j]))
  }

  /** The rinds of the first n shells, shell after shell. */
  function RindsOfShells(cfg: ShellConfig, placements: seq<Placement>, n: nat): (rs: seq<Part>)
    requires |placements| == GreatCircles.DirectionCount
    ensures |rs| == GreatCircles.DirectionCount * n
  {
    if n == 0 then [] else RindsOfShells(cfg, placements, n - 1) + ShellRinds(cfg, placements, n - 1)
  }

  /**
   * The list the generator must produce, given the placement it uses for each
   * of the nine directions: the sphere (if any), then shells in order, and
   * within each shell the directions in order.
   */
  function ShellParts(cfg: ShellConfig, placements: seq<Placement>): (parts: seq<Part>)
    requires |placements| == GreatCircles.DirectionCount
    ensures |parts| == SphereCount(cfg) + GreatCircles.DirectionCount * cfg.numConcentricShells
  {
    SpherePart(cfg) + RindsOfShells(cfg, placements, cfg.numConcentricShells)
  }

  /** Within the first n shells, the rind for shell i and direction j sits at 9*i + j. */
  lemma {:induction false} RindOfShellAt(cfg: ShellConfig, placements: seq<Placement>, n: nat, i: nat, j: nat)
    requires |placements| == GreatCircles.DirectionCount
    requires i < n && j < GreatCircles.DirectionCount
    ensures GreatCircles.DirectionCount * i + j < GreatCircles.DirectionCount * n
    ensures RindsOfShells(cfg, placements, n)[GreatCircles.DirectionCount * i + j] ==
      Rind(ShellRadius(cfg, i), cfg.rindThickness, j, placements[j])
  {
    if i < n - 1 {
      RindOfShellAt(cfg, placements, n - 1, i, j);
    }
  }

  /**
   * Where each part sits: the sphere (when configured) first; the rind for
   * shell i and direction j at position SphereCount + 9*i + j, with major
   * radius base + i*spacing, the configured thickness and direction j's placement.
   */
  lemma ShellPartAt(cfg: ShellConfig, placements: seq<Placement>, i: nat, j: nat)
    requires |placements| == GreatCircles.DirectionCount
    requires i < cfg.numConcentricShells && j < GreatCircles.DirectionCount
    ensures cfg.addCentralSphere ==> ShellParts(cfg, placements)[0] == CentralSphere(cfg.centralSphereRadius)
    ensures var k := SphereCount(cfg) + GreatCircles.DirectionCount * i + j;
      k < |ShellParts(cfg, placements)| &&
      ShellParts(cfg, placements)[k] == Rind(ShellRadius(cfg, i), cfg.rindThickness, j, placements[j])
  {
    RindOfShellAt(cfg, placements, cfg.numConcentricShells, i, j);
  }

  /** Every rind among the first n shells has a direction index below nine. */
  lemma {:induction false} RindsHaveDirections(cfg: ShellConfig, placements: seq<Placement>, n: nat, k: nat)
    requires |placements| == GreatCircles.DirectionCount
    requires k < GreatCircles.DirectionCount * n
    ensures RindsOfShells(cfg, placements, n)[k].Rind?
    ensures RindsOfShells(cfg, placements, n)[k].direction < GreatCircles.DirectionCount
  {
    if k < GreatCircles.DirectionCount * (n - 1) {
      RindsHaveDirections(cfg, placements, n - 1, k);
    }
  }

  /** Every part but the sphere is a rind with a direction index below nine. */
  lemma PartsAreSphereThenRinds(cfg: ShellConfig, placements: seq<Placement>, k: nat)
    requires |placements| == GreatCircles.DirectionCount
    requires k < |ShellParts(cfg, placements)|
    ensures ShellParts(cfg, placements)[k].CentralSphere? <==> (cfg.addCentralSphere && k == 0)
    ensures ShellParts(cfg, placements)[k].Rind? ==> ShellParts(cfg, placements)[k].direction < GreatCircles.DirectionCount
  {
    if k >= SphereCount(cfg) {
      RindsHaveDirections(cfg, placements, cfg.numConcentricShells, k - SphereCount(cfg));
    }
  }

  /** With a positive spacing the shells are strictly nested: each one wider than the one before. */
  lemma ShellsNested(cfg: ShellConfig, i: nat, j: nat)
    requires cfg.shellSpacing > 0.0 && i < j
    ensures ShellRadius(cfg, i) < ShellRadius(cfg, j)
  {
    assert ShellRadius(cfg, j) - ShellRadius(cfg, i) == (j - i) as real * cfg.shellSpacing;
  }
}
