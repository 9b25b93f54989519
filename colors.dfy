/** Byte-valued RGB colours, as numpy `uint8` triples. */
module Colors {
  type Byte = b: int | 0 <= b < 256

  datatype Rgb = Rgb(r: Byte, g: Byte, b: Byte)

  /** Channel 0, 1 or 2 of a colour (red, green, blue). */
  function Component(c: Rgb, ch: nat): Byte
    requires ch < 3
  {
    if ch == 0 then c.r else if ch == 1 then c.g else c.b
  }

  /** One channel of a list of colours as reals: `np.array(stops)[:, ch]`. */
  function Channel(stops: seq<Rgb>, ch: nat): (vs: seq<real>)
    requires ch < 3
    ensures |vs| == |stops|
  {
    seq(|stops|, k requires 0 <= k < |stops| => Component(stops[k], ch) as real)
  }
}
