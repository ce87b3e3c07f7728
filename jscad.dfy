/**
 * The JSCAD geometry the legend builders return, kept symbolic: each
 * constructor records one call of the modelling library and its
 * arguments, and nothing here says what the call computes.
 */
module Jscad {
  import opened JsValues

  /** A colour as three channels in [0, 1]. */
  datatype Rgb = Rgb(r: real, g: real, b: real)

  /** Two-dimensional geometry. */
  datatype Geom2 =
    | Line(points: seq<Point>)                                  // `line(points)`
    | Expand(delta: real, roundCorners: bool, source: Geom2)    // `expand({ delta, corners }, g)`

  /** Three-dimensional geometry. */
  datatype Geom3 =
    | ExtrudeLinear(height: real, section: Geom2)               // `extrudeLinear({ height }, g)`
    | Translate(dx: real, dy: real, dz: real, solid: Geom3)     // `translate([dx, dy, dz], g)`
    | Colorize(color: Rgb, solid: Geom3)                        // `colorize(color, g)`

  /** The board facts a builder reads. */
  datatype GeomContext = GeomContext(pcbThickness: real)

  const White: Rgb := Rgb(1.0, 1.0, 1.0)

  /** The thickness every legend extrusion defaults to. */
  const LegendHeight: real := 0.012

  /** +1 on the top layer, -1 on the bottom layer. */
  function LayerSign(layer: string): (s: real)
    ensures s == 1.0 || s == -1.0
    ensures s == -1.0 <==> layer == "bottom"
  {
    if layer == "bottom" then -1.0 else 1.0
  }
}
