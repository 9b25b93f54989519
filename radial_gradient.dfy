/**
 * The colour computation of `apply_radial_gradient`, shared verbatim by both
 * concentric-shell variants: each vertex's distance from the origin is
 * min-max normalised (all zeros when every distance is the same), then each
 * channel is interpolated over stops evenly spaced on [0, 1] and cast to a byte.
 */
module RadialGradient {
  import opened Numerics
  import opened Colors

  /** The normalised radii: every one in [0, 1], and all zero when every radius is the same. */
  function NormalizedRadii(radii: seq<real>): (ts: seq<real>)
    requires |radii| > 0
    ensures |ts| == |radii|
    ensures forall i :: 0 <= i < |ts| ==> 0.0 <= ts[i] <= 1.0
    ensures Min(radii) == Max(radii) ==> forall i :: 0 <= i < |ts| ==> ts[i] == 0.0
  {
    var lo, hi := Min(radii), Max(radii);
    if hi == lo then seq(|radii|, _ => 0.0)
    else seq(|radii|, i requires 0 <= i < |radii| => Rescale(radii[i], lo, hi))
  }

  /**
   * The colour for normalised position `t`: each channel interpolated over the
   * stops, then cast. Positions at or below 0 give exactly the first stop, and
   * positions at or above 1 exactly the last.
   */
  function GradientColor(t: real, stops: seq<Rgb>): (c: Rgb)
    requires |stops| >= 1
    ensures t <= 0.0 ==> c == stops[0]
    ensures t >= 1.0 ==> c == stops[|stops| - 1]
  {
    var xs := Linspace(|stops|);
    var c := Rgb(Uint8(Interp(t, xs, Channel(stops, 0))),
                 Uint8(Interp(t, xs, Channel(stops, 1))),
                 Uint8(Interp(t, xs, Channel(stops, 2))));
    assert t <= 0.0 ==> c == stops[0] by {
      if t <= 0.0 {
        StopChannels(stops, 0);
      }
    }
    assert t >= 1.0 ==> c == stops[|stops| - 1] by {
      if t >= 1.0 {
        StopChannels(stops, |stops| - 1);
      }
    }
    c
  }

  /** Casting a stop's own channel values back to bytes gives the stop. */
  lemma StopChannels(stops: seq<Rgb>, k: nat)
    requires k < |stops|
    ensures Rgb(Uint8(Channel(stops, 0)[k]), Uint8(Channel(stops, 1)[k]), Uint8(Channel(stops, 2)[k])) == stops[k]
  {
  }

  /** One colour per vertex, in vertex order. */
  function RadialColors(radii: seq<real>, stops: seq<Rgb>): (colors: seq<Rgb>)
    requires |radii| > 0 && |stops| >= 1
    ensures |colors| == |radii|
  {
    var ts := NormalizedRadii(radii);
    seq(|radii|, i requires 0 <= i < |radii| => GradientColor(ts[i], stops))
  }

  /**
   * In a non-degenerate range a vertex's normalised radius is 0 exactly when it
   * is a closest vertex and 1 exactly when it is a farthest one, and
   * normalising keeps the order of the radii.
   */
  lemma NormalizedRadiiEndpoints(radii: seq<real>, i: nat, j: nat)
    requires |radii| > 0 && i < |radii| && j < |radii|
    ensures Min(radii) < Max(radii) ==>
      (NormalizedRadii(radii)[i] == 0.0 <==> radii[i] == Min(radii)) &&
      (NormalizedRadii(radii)[i] == 1.0 <==> radii[i] == Max(radii))
    ensures radii[i] <= radii[j] ==> NormalizedRadii(radii)[i] <= NormalizedRadii(radii)[j]
  {
    var lo, hi := Min(radii), Max(radii);
    if lo < hi && radii[i] <= radii[j] {
      RescaleMonotone(radii[i], radii[j], lo, hi);
    }
  }

  /**
   * A position between stop positions k and k+1 gets, in every channel, a
   * value between those two stops' values: it is the truncation of the
   * interpolated value, which never needs to wrap around.
   */
  lemma GradientBetweenStops(t: real, stops: seq<Rgb>, k: nat, ch: nat)
    requires k + 1 < |stops| && ch < 3
    requires Linspace(|stops|)[k] <= t <= Linspace(|stops|)[k + 1]
    ensures var v := Interp(t, Linspace(|stops|), Channel(stops, ch));
      Component(GradientColor(t, stops), ch) == v.Floor &&
      Between(Component(GradientColor(t, stops), ch) as real, Component(stops[k], ch) as real, Component(stops[k + 1], ch) as real)
  {
    var xs, fs := Linspace(|stops|), Channel(stops, ch);
    var v := Interp(t, xs, fs);
    InterpBracketed(t, xs, fs, k);
    InterpWithin(t, xs, fs, 0.0, 255.0);
    ChannelIsCast(t, stops, ch);
    assert fs[k] == Component(stops[k], ch) as real && fs[k + 1] == Component(stops[k + 1], ch) as real;
    FloorBetween(v, Component(stops[k], ch), Component(stops[k + 1], ch));
  }

  /** Channel `ch` of the colour at `t` is the byte cast of that channel's interpolation. */
  lemma ChannelIsCast(t: real, stops: seq<Rgb>, ch: nat)
    requires |stops| >= 1 && ch < 3
    ensures Component(GradientColor(t, stops), ch) == Uint8(Interp(t, Linspace(|stops|), Channel(stops, ch)))
  {
  }

  /** Every channel of every vertex colour lies within the range that channel spans over the stops. */
  lemma ColorsWithinStops(radii: seq<real>, stops: seq<Rgb>, i: nat, ch: nat, lo: int, hi: int)
    requires |radii| > 0 && |stops| >= 1 && i < |radii| && ch < 3
    requires forall k :: 0 <= k < |stops| ==> lo <= Component(stops[k], ch) <= hi
    ensures lo <= Component(RadialColors(radii, stops)[i], ch) <= hi
  {
    GradientWithin(NormalizedRadii(radii)[i], stops, ch, lo, hi);
  }

  /** At any position, a channel stays within a range that holds that channel of every stop. */
  lemma GradientWithin(t: real, stops: seq<Rgb>, ch: nat, lo: int, hi: int)
    requires |stops| >= 1 && ch < 3
    requires forall k :: 0 <= k < |stops| ==> lo <= Component(stops[k], ch) <= hi
    ensures lo <= Component(GradientColor(t, stops), ch) <= hi
  {
    var xs, fs := Linspace(|stops|), Channel(stops, ch);
    var v := Interp(t, xs, fs);
    InterpWithin(t, xs, fs, lo as real, hi as real);
    InterpWithin(t, xs, fs, 0.0, 255.0);
    ChannelIsCast(t, stops, ch);
    FloorBetween(v, lo, hi);
  }

  /** When every vertex is at the same distance, every vertex gets exactly the first stop. */
  lemma UniformRadiiGetFirstStop(radii: seq<real>, stops: seq<Rgb>)
    requires |radii| > 0 && |stops| >= 1
    requires forall i :: 0 <= i < |radii| ==> radii[i] == radii[0]
    ensures forall i :: 0 <= i < |radii| ==> RadialColors(radii, stops)[i] == stops[0]
  {
    assert Min(radii) == Max(radii);
  }

  /**
   * A closest vertex gets exactly the first stop; a farthest vertex gets
   * exactly the last stop unless every vertex is at the same distance.
   */
  lemma ExtremeVerticesGetEndStops(radii: seq<real>, stops: seq<Rgb>, i: nat)
    requires |radii| > 0 && |stops| >= 1 && i < |radii|
    ensures radii[i] == Min(radii) ==> RadialColors(radii, stops)[i] == stops[0]
    ensures radii[i] == Max(radii) && Min(radii) < Max(radii) ==>
      RadialColors(radii, stops)[i] == stops[|stops| - 1]
  {
    NormalizedRadiiEndpoints(radii, i, i);
  }

  /** The two-stop gradient at its midpoint: (255,255,0) and (128,0,128) average to (191,127,64) after truncation. */
  lemma TwoStopMidpoint()
    ensures GradientColor(0.5, [Rgb(255, 255, 0), Rgb(128, 0, 128)]) == Rgb(191, 127, 64)
  {
    var stops := [Rgb(255, 255, 0), Rgb(128, 0, 128)];
    assert Linspace(2) == [0.0, 1.0];
    assert Channel(stops, 0) == [255.0, 128.0];
    assert Channel(stops, 1) == [255.0, 0.0];
    assert Channel(stops, 2) == [0.0, 128.0];
    assert Interp(0.5, [0.0, 1.0], [255.0, 128.0]) == 191.5;
    assert Interp(0.5, [0.0, 1.0], [255.0, 0.0]) == 127.5;
    assert Interp(0.5, [0.0, 1.0], [0.0, 128.0]) == 64.0;
    assert Uint8(191.5) == 191 && Uint8(127.5) == 127 && Uint8(64.0) == 64;
  }
}
