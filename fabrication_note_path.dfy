/**
 * `createFabricationNotePathGeom`: a fabrication-note route, whose
 * coordinates may arrive as strings, becomes a line expanded by half the
 * stroke width, extruded 0.012 high, lifted 2.5 m beyond the board face
 * on its layer and coloured with the fabrication-note colour.
 */
module FabricationNotePath {
  import opened JsValues
  import opened Jscad

  /** A route point whose coordinates are numbers or numeric strings. */
  datatype RoutePoint = RoutePoint(x: NumOrStr, y: NumOrStr)

  datatype FabricationNotePath = FabricationNotePath(route: seq<RoutePoint>, strokeWidth: Option<NumOrStr>, layer: string)

  /** `FABRICATION_NOTE_COLOR` */
  const FabricationNoteColor: Rgb := Rgb(1.0, 0.8, 0.2)

  const DefaultStrokeWidth: real := 0.1

  /** A coordinate: a number as it is, a string parsed with 0 as the fallback. */
  function Coordinate(v: NumOrStr): real {
    NumberOrParsed(Some(v), 0.0)
  }

  /** The route as plane points. */
  function RoutePoints(route: seq<RoutePoint>): (points: seq<Point>)
    ensures |points| == |route|
    ensures forall i :: 0 <= i < |route| ==>
              points[i] == Point(Coordinate(route[i].x), Coordinate(route[i].y))
  {
    seq(|route|, i requires 0 <= i < |route| => Point(Coordinate(route[i].x), Coordinate(route[i].y)))
  }

  function StrokeWidth(path: FabricationNotePath): real {
    NumberOrParsed(path.strokeWidth, DefaultStrokeWidth)
  }

  /** The height of the slab's base: the board's half thickness plus 2.5 m, signed by layer. */
  function PathZ(path: FabricationNotePath, ctx: GeomContext, m: real): real {
    var layerSign := LayerSign(path.layer);
    layerSign * ctx.pcbThickness / 2.0 + layerSign * m * 2.5
  }

  /** `createFabricationNotePathGeom`; `m` is the geometry module's clearance constant. */
  function FabricationNotePathGeom(path: FabricationNotePath, ctx: GeomContext, m: real): (g: Option<Geom3>)
    ensures g.Some? <==> |path.route| >= 2
    ensures g.Some? ==> g.value.Colorize? && g.value.color == FabricationNoteColor && g.value.solid.Translate?
  {
    if |path.route| < 2 then None
    else
      var pathLine := Line(RoutePoints(path.route));
      var expanded := Expand(StrokeWidth(path) / 2.0, true, pathLine);
      var zPos := PathZ(path, ctx, m);
      Some(Colorize(FabricationNoteColor, Translate(0.0, 0.0, zPos, ExtrudeLinear(LegendHeight, expanded))))
  }

  // ---------------------------------------------------------------------
  // Properties

  /** A string coordinate that is not a non-zero number is placed at 0; a number is kept. */
  lemma CoordinateFallback(v: NumOrStr)
    ensures v.Num? ==> Coordinate(v) == v.n
    ensures v.Str? && (ParseFloat(v.s).None? || ParseFloat(v.s) == Some(0.0)) ==> Coordinate(v) == 0.0
    ensures v.Str? && ParseFloat(v.s).Some? ==> Coordinate(v) == ParseFloat(v.s).value
  {
  }

  /** The slab is the route's line expanded by half the stroke width and extruded 0.012 high. */
  lemma SlabShape(path: FabricationNotePath, ctx: GeomContext, m: real)
    requires |path.route| >= 2
    ensures var g := FabricationNotePathGeom(path, ctx, m).value;
            g.solid.solid == ExtrudeLinear(0.012, Expand(StrokeWidth(path) / 2.0, true, Line(RoutePoints(path.route))))
  {
  }

  /** A missing stroke width gives 0.1, an unparseable one 0.1, a numeric one is used as given. */
  lemma StrokeWidthDefault(path: FabricationNotePath)
    ensures path.strokeWidth.None? ==> StrokeWidth(path) == 0.1
    ensures path.strokeWidth.Some? && path.strokeWidth.value.Str? && ParseFloat(path.strokeWidth.value.s).None?
            ==> StrokeWidth(path) == 0.1
    ensures path.strokeWidth.Some? && path.strokeWidth.value.Num? ==> StrokeWidth(path) == path.strokeWidth.value.n
  {
  }

  /** z = sign (t/2 + 2.5 m): bottom is the negation of top. */
  lemma LayerSignedZ(path: FabricationNotePath, ctx: GeomContext, m: real)
    ensures PathZ(path, ctx, m) == LayerSign(path.layer) * (ctx.pcbThickness / 2.0 + 2.5 * m)
    ensures path.layer == "bottom" ==> PathZ(path, ctx, m) == -(ctx.pcbThickness / 2.0 + 2.5 * m)
  {
  }
}
