/**
 * `createSilkscreenPathGeom`: a silkscreen route becomes a line, expanded
 * by half the stroke width with round corners, extruded into a thin slab
 * and lifted just above the board surface on its layer.
 */
module SilkscreenPath {
  import opened JsValues
  import opened Jscad

  datatype PathElement = PathElement(route: seq<Point>, strokeWidth: Option<NumOrStr>, layer: string)

  datatype Options = Options(color: Option<Rgb>, height: Option<real>, zOffsetMultiplier: Option<real>)

  const DefaultStrokeWidth: real := 0.1
  const DefaultZOffsetMultiplier: real := 1.5

  /** The stroke width: 0.1 when missing, a string parsed with 0.1 as the fallback. */
  function StrokeWidth(sp: PathElement): real {
    NumberOrParsed(sp.strokeWidth, DefaultStrokeWidth)
  }

  /** The height of the slab's base: half the board plus `m` times the multiplier, signed by layer. */
  function PathZ(sp: PathElement, ctx: GeomContext, m: real, options: Options): real {
    var layerSign := LayerSign(sp.layer);
    var multiplier := OrElse(options.zOffsetMultiplier, DefaultZOffsetMultiplier);
    layerSign * ctx.pcbThickness / 2.0 + layerSign * m * multiplier
  }

  /**
   * `createSilkscreenPathGeom`; `m` is the small clearance constant of
   * the geometry module, whose file is not part of this model.
   */
  function SilkscreenPathGeom(sp: PathElement, ctx: GeomContext, m: real, options: Options): (g: Option<Geom3>)
    ensures g.Some? <==> |sp.route| >= 2
    ensures g.Some? ==> g.value.Colorize? && g.value.solid.Translate?
  {
    if |sp.route| < 2 then None
    else
      var pathLine := Line(sp.route);
      var expanded := Expand(StrokeWidth(sp) / 2.0, true, pathLine);
      var zPos := PathZ(sp, ctx, m, options);
      var pathGeom := Translate(0.0, 0.0, zPos, ExtrudeLinear(OrElse(options.height, LegendHeight), expanded));
      Some(Colorize(if options.color.Some? then options.color.value else White, pathGeom))
  }

  // ---------------------------------------------------------------------
  // Properties

  /** The line is expanded by half the stroke width, with round corners, through every route point. */
  lemma ExpandsByHalfStroke(sp: PathElement, ctx: GeomContext, m: real, options: Options)
    requires |sp.route| >= 2
    ensures var g := SilkscreenPathGeom(sp, ctx, m, options).value;
            g.solid.solid.ExtrudeLinear?
            && g.solid.solid.section == Expand(StrokeWidth(sp) / 2.0, true, Line(sp.route))
  {
  }

  /** A missing stroke width, or a string that does not parse to a non-zero number, gives 0.1. */
  lemma StrokeWidthDefault(sp: PathElement)
    ensures sp.strokeWidth.None? ==> StrokeWidth(sp) == 0.1
    ensures sp.strokeWidth.Some? && sp.strokeWidth.value.Str?
            && (ParseFloat(sp.strokeWidth.value.s).None? || ParseFloat(sp.strokeWidth.value.s) == Some(0.0))
            ==> StrokeWidth(sp) == 0.1
    ensures sp.strokeWidth.Some? && sp.strokeWidth.value.Num? ==> StrokeWidth(sp) == sp.strokeWidth.value.n
  {
  }

  /** The slab on the bottom layer sits at exactly the negated height of the same slab on top. */
  lemma BottomMirrorsTop(route: seq<Point>, strokeWidth: Option<NumOrStr>, top: string,
                         ctx: GeomContext, m: real, options: Options)
    requires top != "bottom"
    ensures PathZ(PathElement(route, strokeWidth, "bottom"), ctx, m, options)
            == -PathZ(PathElement(route, strokeWidth, top), ctx, m, options)
  {
  }

  /** Whatever options are given, the colour, the height and the z offset are the ones they ask for. */
  lemma OptionsAreHonoured(sp: PathElement, ctx: GeomContext, m: real, options: Options)
    requires |sp.route| >= 2
    ensures var g := SilkscreenPathGeom(sp, ctx, m, options).value;
            g.color == (if options.color.Some? then options.color.value else White)
            && g.solid.dz == PathZ(sp, ctx, m, options)
            && g.solid.solid.height == OrElse(options.height, 0.012)
  {
  }

  /** Without options the slab is white, 0.012 high and lifted by 1.5 m beyond the board face. */
  lemma DefaultOptions(sp: PathElement, ctx: GeomContext, m: real)
    requires |sp.route| >= 2 && sp.layer == "top"
    ensures var g := SilkscreenPathGeom(sp, ctx, m, Options(None, None, None)).value;
            g.color == White && g.solid.dz == ctx.pcbThickness / 2.0 + 1.5 * m
            && g.solid.solid.height == 0.012
  {
  }
}
