/**
 * `createFabricationNoteTextureForLayer`: the fabrication notes of one board
 * side painted onto a canvas sized to the board. Paths are stroked with
 * round caps, then texts are stroked from their laid-out glyph outlines;
 * the bottom side is painted through a vertical flip.
 */
module FabricationNoteTexture {
  import opened JsValues
  import opened Canvas
  import FabricationNoteText
  import opened FabricationNotePath

  type NoteText = FabricationNoteText.NoteText
  type TextGeoms = FabricationNoteText.TextGeoms
  type Outline = FabricationNoteText.Outline

  /** The board's `center`, whose coordinates may be numbers, strings or absent. */
  datatype CenterInput = CenterInput(x: Option<NumOrStr>, y: Option<NumOrStr>)

  /** The fields of the board record the texture reads. */
  datatype BoardData = BoardData(width: Option<NumOrStr>, height: Option<NumOrStr>, center: Option<CenterInput>)

  /** `DEFAULT_COLOR`: the fabrication-note colour (1, 0.8, 0.2) as rounded 8-bit channels. */
  const DefaultColor: string := "rgb(255, 204, 51)"

  const DefaultPathStrokeWidth: real := 0.1

  /**
   * `toNumber`: a number as it is, a string when it parses to a finite
   * number (0 included), anything else the fallback.
   */
  function ToNumber(value: Option<NumOrStr>, fallback: real): real {
    match value
    case Some(Num(n)) => n
    case Some(Str(s)) => if ParseFloat(s).Some? then ParseFloat(s).value else fallback
    case None => fallback
  }

  /** `Math.max(1, Math.floor(size * resolution))` */
  function CanvasSize(size: real, resolution: real): (pixels: int)
    ensures pixels >= 1
    ensures pixels == 1 || pixels == (size * resolution).Floor
  {
    var floor := (size * resolution).Floor;
    if floor < 1 then 1 else floor
  }

  /** The board extent and centre; a missing centre coordinate is the middle of the board. */
  function BoardView(board: BoardData, resolution: real): View {
    var boardWidth := ToNumber(board.width, 0.0);
    var boardHeight := ToNumber(board.height, 0.0);
    var cx := if board.center.Some? then board.center.value.x else None;
    var cy := if board.center.Some? then board.center.value.y else None;
    View(Point(ToNumber(cx, boardWidth / 2.0), ToNumber(cy, boardHeight / 2.0)), boardWidth, boardHeight, resolution)
  }

  /** A route point with each coordinate read by `toNumber` with 0 as the fallback. */
  function TexturePoint(p: RoutePoint): Point {
    Point(ToNumber(Some(p.x), 0.0), ToNumber(Some(p.y), 0.0))
  }

  function TexturePoints(route: seq<RoutePoint>): (points: seq<Point>)
    ensures |points| == |route|
  {
    seq(|route|, i requires 0 <= i < |route| => TexturePoint(route[i]))
  }

  /** The stroke width of a note's text: `min(max(0.01, 0.1 f), 0.05 f)` millimetres. */
  function TextStrokeWidth(fontSize: real): real {
    Min(Max(0.01, fontSize * 0.1), fontSize * 0.05)
  }

  /** The commands that paint one path: nothing for fewer than two points. */
  function PathCommands(path: FabricationNotePath, view: View): seq<Command> {
    if |path.route| < 2 then []
    else
      [BeginPath, SetLineWidth(Pixels(view, ToNumber(path.strokeWidth, DefaultPathStrokeWidth))),
       SetLineCap("round"), SetLineJoin("round")]
      + PenCommands(CanvasPoints(view, TexturePoints(path.route))) + [Stroke]
  }

  function PathsCommands(paths: seq<FabricationNotePath>, view: View): seq<Command> {
    if paths == [] then []
    else PathsCommands(paths[..|paths| - 1], view) + PathCommands(paths[|paths| - 1], view)
  }

  /**
   * An offset as a number. Only a layout without any glyph point has a NaN
   * or infinite offset, and then there is no point to move by it.
   */
  function OffsetValue(n: JsNumber): real {
    if n.Finite? then n.value else 0.0
  }

  /** A glyph point moved to its place on the board. */
  function PlacedPoints(segment: Outline, g: TextGeoms): (points: seq<Point>)
    ensures |points| == |segment|
  {
    seq(|segment|, i requires 0 <= i < |segment| =>
      Point(segment[i].x + OffsetValue(g.xOffset) + g.anchorPosition.x,
            segment[i].y + OffsetValue(g.yOffset) + g.anchorPosition.y))
  }

  /** The commands that stroke one glyph segment: nothing for an empty one. */
  function SegmentCommands(segment: Outline, g: TextGeoms, view: View): seq<Command> {
    if segment == [] then []
    else [BeginPath] + PenCommands(CanvasPoints(view, PlacedPoints(segment, g))) + [Stroke]
  }

  function SegmentsCommands(segments: seq<Outline>, g: TextGeoms, view: View): seq<Command> {
    if segments == [] then []
    else SegmentsCommands(segments[..|segments| - 1], g, view) + SegmentCommands(segments[|segments| - 1], g, view)
  }

  /** The stroke settings for a text's glyphs: thin, square-ended lines. */
  function TextSettings(g: TextGeoms, view: View): seq<Command> {
    [SetLineWidth(Pixels(view, TextStrokeWidth(g.fontSize))), SetLineCap("butt"), SetLineJoin("miter")]
  }

  /** The commands that paint one laid-out text: nothing when it has no outline. */
  function TextCommands(g: TextGeoms, view: View): seq<Command> {
    if g.textOutlines == [] then []
    else TextSettings(g, view) + SegmentsCommands(g.textOutlines, g, view)
  }

  function TextsCommands(texts: seq<NoteText>, view: View, glyphs: (real, string) -> seq<Outline>,
                         rotate: (real, Point) -> Point): seq<Command>
  {
    if texts == [] then []
    else
      TextsCommands(texts[..|texts| - 1], view, glyphs, rotate)
      + TextCommands(FabricationNoteText.TextGeomsOf(texts[|texts| - 1], glyphs, rotate), view)
  }

  /** The flip that makes the bottom side read as seen through the board. */
  function FlipCommands(layer: Side, canvasHeight: int): seq<Command> {
    if layer == Bottom then [Translate(0.0, canvasHeight as real), Scale(1.0, -1.0)] else []
  }

  function TextsOnLayer(texts: seq<NoteText>, layer: Side): seq<NoteText> {
    Filter(texts, (t: NoteText) => t.layer == Some(layer.Name()))
  }

  function PathsOnLayer(paths: seq<FabricationNotePath>, layer: Side): seq<FabricationNotePath> {
    Filter(paths, (p: FabricationNotePath) => p.layer == layer.Name())
  }

  /**
   * The texture for one side: `None` when nothing lies on that side or the
   * canvas has no 2D context (`hasContext` stands for `getContext("2d")`).
   */
  function TextureOf(layer: Side, texts: seq<NoteText>, paths: seq<FabricationNotePath>, board: BoardData,
                     resolution: real, color: string, hasContext: bool,
                     glyphs: (real, string) -> seq<Outline>, rotate: (real, Point) -> Point): Option<Texture>
  {
    var textsOnLayer := TextsOnLayer(texts, layer);
    var pathsOnLayer := PathsOnLayer(paths, layer);
    if textsOnLayer == [] && pathsOnLayer == [] then None
    else
      var view := BoardView(board, resolution);
      var canvasWidth := CanvasSize(view.width, resolution);
      var canvasHeight := CanvasSize(view.height, resolution);
      if !hasContext then None
      else
        Some(Texture(canvasWidth, canvasHeight,
                     FlipCommands(layer, canvasHeight) + [SetStrokeStyle(color), SetFillStyle(color)]
                     + PathsCommands(pathsOnLayer, view) + TextsCommands(textsOnLayer, view, glyphs, rotate)))
  }

  // ---------------------------------------------------------------------
  // Drawing

  /** One iteration of `pathsOnLayer.forEach`. */
  method DrawPath(ctx: Context2D, path: FabricationNotePath, view: View)
    modifies ctx
    ensures ctx.log == old(ctx.log) + PathCommands(path, view)
  {
    if |path.route| < 2 {
      return;
    }
    ctx.BeginPath();
    var strokeWidth := ToNumber(path.strokeWidth, DefaultPathStrokeWidth);
    ctx.SetLineWidth(Pixels(view, strokeWidth));
    ctx.SetLineCap("round");
    ctx.SetLineJoin("round");
    TracePolyline(ctx, view, TexturePoints(path.route));
    ctx.Stroke();
  }

  method DrawPaths(ctx: Context2D, paths: seq<FabricationNotePath>, view: View)
    modifies ctx
    ensures ctx.log == old(ctx.log) + PathsCommands(paths, view)
  {
    ghost var start := ctx.log;
    for i := 0 to |paths|
      invariant ctx.log == start + PathsCommands(paths[..i], view)
    {
      DrawPath(ctx, paths[i], view);
      assert paths[..i + 1][..i] == paths[..i];
      AppendAssociates(start, PathsCommands(paths[..i], view), PathCommands(paths[i], view));
    }
    assert paths[..|paths|] == paths;
  }

  /** One iteration of `textOutlines.forEach`. */
  method DrawSegment(ctx: Context2D, segment: Outline, g: TextGeoms, view: View)
    modifies ctx
    ensures ctx.log == old(ctx.log) + SegmentCommands(segment, g, view)
  {
    if |segment| == 0 {
      return;
    }
    ctx.BeginPath();
    TracePolyline(ctx, view, PlacedPoints(segment, g));
    ctx.Stroke();
  }

  /** `textOutlines.forEach`: each non-empty segment stroked in turn. */
  method DrawSegments(ctx: Context2D, segments: seq<Outline>, g: TextGeoms, view: View)
    modifies ctx
    ensures ctx.log == old(ctx.log) + SegmentsCommands(segments, g, view)
  {
    ghost var start := ctx.log;
    for i := 0 to |segments|
      invariant ctx.log == start + SegmentsCommands(segments[..i], g, view)
    {
      DrawSegment(ctx, segments[i], g, view);
      assert segments[..i + 1][..i] == segments[..i];
      AppendAssociates(start, SegmentsCommands(segments[..i], g, view), SegmentCommands(segments[i], g, view));
    }
    assert segments[..|segments|] == segments;
  }

  /** Painting one laid-out text: its stroke settings, then each non-empty segment. */
  method DrawTextGeoms(ctx: Context2D, g: TextGeoms, view: View)
    modifies ctx
    ensures ctx.log == old(ctx.log) + TextCommands(g, view)
  {
    if |g.textOutlines| == 0 {
      return;
    }
    ctx.SetLineWidth(Pixels(view, TextStrokeWidth(g.fontSize)));
    ctx.SetLineCap("butt");
    ctx.SetLineJoin("miter");
    assert ctx.log == old(ctx.log) + TextSettings(g, view);
    DrawSegments(ctx, g.textOutlines, g, view);
    AppendAssociates(old(ctx.log), TextSettings(g, view), SegmentsCommands(g.textOutlines, g, view));
  }

  /** One iteration of `textsOnLayer.forEach`: lay the text out, then paint it. */
  method DrawText(ctx: Context2D, text: NoteText, view: View, glyphs: (real, string) -> seq<Outline>,
                  rotate: (real, Point) -> Point)
    modifies ctx
    ensures ctx.log == old(ctx.log) + TextCommands(FabricationNoteText.TextGeomsOf(text, glyphs, rotate), view)
  {
    var g := FabricationNoteText.CreateFabricationNoteTextGeoms(text, glyphs, rotate);
    DrawTextGeoms(ctx, g, view);
  }

  method DrawTexts(ctx: Context2D, texts: seq<NoteText>, view: View, glyphs: (real, string) -> seq<Outline>,
                   rotate: (real, Point) -> Point)
    modifies ctx
    ensures ctx.log == old(ctx.log) + TextsCommands(texts, view, glyphs, rotate)
  {
    ghost var start := ctx.log;
    for i := 0 to |texts|
      invariant ctx.log == start + TextsCommands(texts[..i], view, glyphs, rotate)
    {
      DrawText(ctx, texts[i], view, glyphs, rotate);
      assert texts[..i + 1][..i] == texts[..i];
      AppendAssociates(start, TextsCommands(texts[..i], view, glyphs, rotate),
                       TextCommands(FabricationNoteText.TextGeomsOf(texts[i], glyphs, rotate), view));
    }
    assert texts[..|texts|] == texts;
  }

  /** `createFabricationNoteTextureForLayer` */
  method CreateFabricationNoteTextureForLayer(
    layer: Side, texts: seq<NoteText>, paths: seq<FabricationNotePath>, board: BoardData,
    resolution: real, color: string, hasContext: bool,
    glyphs: (real, string) -> seq<Outline>, rotate: (real, Point) -> Point)
    returns (texture: Option<Texture>)
    ensures texture == TextureOf(layer, texts, paths, board, resolution, color, hasContext, glyphs, rotate)
  {
    var textsOnLayer := TextsOnLayer(texts, layer);
    var pathsOnLayer := PathsOnLayer(paths, layer);
    if |textsOnLayer| == 0 && |pathsOnLayer| == 0 {
      return None;
    }
    var view := BoardView(board, resolution);
    var canvasWidth := CanvasSize(view.width, resolution);
    var canvasHeight := CanvasSize(view.height, resolution);
    if !hasContext {
      return None;
    }
    var ctx := new Context2D();
    if layer == Bottom {
      ctx.Translate(0.0, canvasHeight as real);
      ctx.Scale(1.0, -1.0);
    }
    assert ctx.log == FlipCommands(layer, canvasHeight);
    ctx.SetStrokeStyle(color);
    ctx.SetFillStyle(color);
    assert ctx.log == FlipCommands(layer, canvasHeight) + [SetStrokeStyle(color), SetFillStyle(color)];
    DrawPaths(ctx, pathsOnLayer, view);
    DrawTexts(ctx, textsOnLayer, view, glyphs, rotate);
    return Some(Texture(canvasWidth, canvasHeight, ctx.log));
  }

  // ---------------------------------------------------------------------
  // Properties

  /**
   * `toNumber` keeps a number, keeps a parsed string even when it is 0 (where
   * `parseFloat(s) || fallback` would not), and falls back otherwise.
   */
  lemma ToNumberCases(value: Option<NumOrStr>, fallback: real)
    ensures value.Some? && value.value.Num? ==> ToNumber(value, fallback) == value.value.n
    ensures value.Some? && value.value.Str? && ParseFloat(value.value.s).Some?
            ==> ToNumber(value, fallback) == ParseFloat(value.value.s).value
    ensures value.None? || (value.value.Str? && ParseFloat(value.value.s).None?)
            ==> ToNumber(value, fallback) == fallback
    ensures value.Some? && value.value.Str? && ParseFloat(value.value.s) == Some(0.0) && fallback != 0.0
            ==> ToNumber(value, fallback) != NumberOrParsed(value, fallback)
  {
  }

  /** There is no texture exactly when nothing lies on the side or there is no 2D context. */
  lemma NullWhenNothingOnLayer(layer: Side, texts: seq<NoteText>, paths: seq<FabricationNotePath>,
                               board: BoardData, resolution: real, color: string, hasContext: bool,
                               glyphs: (real, string) -> seq<Outline>, rotate: (real, Point) -> Point)
    ensures TextureOf(layer, texts, paths, board, resolution, color, hasContext, glyphs, rotate).None?
            <==> !hasContext
                 || ((forall t :: t in texts ==> t.layer != Some(layer.Name()))
                     && (forall p :: p in paths ==> p.layer != layer.Name()))
  {
    var textsOnLayer := TextsOnLayer(texts, layer);
    var pathsOnLayer := PathsOnLayer(paths, layer);
    if textsOnLayer != [] {
      assert textsOnLayer[0] in textsOnLayer;
    }
    if pathsOnLayer != [] {
      assert pathsOnLayer[0] in pathsOnLayer;
    }
  }

  /** The canvas is at least one pixel each way, and otherwise the board size times the resolution, floored. */
  lemma CanvasAtLeastOnePixel(layer: Side, texts: seq<NoteText>, paths: seq<FabricationNotePath>,
                              board: BoardData, resolution: real, color: string, hasContext: bool,
                              glyphs: (real, string) -> seq<Outline>, rotate: (real, Point) -> Point)
    requires TextureOf(layer, texts, paths, board, resolution, color, hasContext, glyphs, rotate).Some?
    ensures var t := TextureOf(layer, texts, paths, board, resolution, color, hasContext, glyphs, rotate).value;
            var view := BoardView(board, resolution);
            t.width >= 1 && t.height >= 1
            && ((view.width * resolution).Floor >= 1 ==> t.width == (view.width * resolution).Floor)
            && ((view.height * resolution).Floor >= 1 ==> t.height == (view.height * resolution).Floor)
  {
  }

  /** A board without a centre is centred on the middle of its own extent. */
  lemma DefaultCenter(board: BoardData, resolution: real)
    requires board.center.None?
    ensures var view := BoardView(board, resolution);
            view.center == Point(view.width / 2.0, view.height / 2.0)
            && ToCanvas(view, Point(0.0, 0.0)) == Point(0.0, view.height * resolution)
  {
  }

  /** On the bottom side the flip is issued before anything is drawn; on the top side there is none. */
  lemma FlipComesFirst(layer: Side, texts: seq<NoteText>, paths: seq<FabricationNotePath>,
                       board: BoardData, resolution: real, color: string, hasContext: bool,
                       glyphs: (real, string) -> seq<Outline>, rotate: (real, Point) -> Point)
    requires TextureOf(layer, texts, paths, board, resolution, color, hasContext, glyphs, rotate).Some?
    ensures var t := TextureOf(layer, texts, paths, board, resolution, color, hasContext, glyphs, rotate).value;
            (layer == Bottom ==> t.commands[..2] == [Translate(0.0, t.height as real), Scale(1.0, -1.0)]
                                 && t.commands[2] == SetStrokeStyle(color))
            && (layer == Top ==> t.commands[0] == SetStrokeStyle(color))
  {
    var t := TextureOf(layer, texts, paths, board, resolution, color, hasContext, glyphs, rotate).value;
    var view := BoardView(board, resolution);
    var head := FlipCommands(layer, t.height) + [SetStrokeStyle(color), SetFillStyle(color)];
    var drawn := PathsCommands(PathsOnLayer(paths, layer), view);
    var written := TextsCommands(TextsOnLayer(texts, layer), view, glyphs, rotate);
    assert t.commands == head + drawn + written;
    assert forall i :: 0 <= i < |head| ==> t.commands[i] == head[i];
  }

  /**
   * A path with fewer than two points draws nothing; any other is stroked
   * with its width (0.1 by default) times the resolution, round-capped,
   * through every one of its points.
   */
  lemma PathStroke(path: FabricationNotePath, view: View)
    ensures |path.route| < 2 <==> PathCommands(path, view) == []
    ensures |path.route| >= 2 ==>
              var cs := PathCommands(path, view);
              cs[0] == BeginPath && cs[1] == SetLineWidth(ToNumber(path.strokeWidth, 0.1) * view.resolution)
              && cs[2] == SetLineCap("round") && cs[3] == SetLineJoin("round")
              && cs[|cs| - 1] == Stroke && |cs| == |path.route| + 5
  {
  }

  /** A text without outlines draws nothing; any other starts with the text stroke width. */
  lemma TextStroke(g: TextGeoms, view: View)
    ensures g.textOutlines == [] <==> TextCommands(g, view) == []
    ensures g.textOutlines != [] ==>
              TextCommands(g, view)[0]
              == SetLineWidth(Min(Max(0.01, g.fontSize * 0.1), g.fontSize * 0.05) * view.resolution)
  {
  }

  /**
   * For any font size that is not negative the 0.01 floor has no effect:
   * the text stroke is always half a tenth of the font size.
   */
  lemma TextStrokeIsATwentieth(fontSize: real)
    requires fontSize >= 0.0
    ensures TextStrokeWidth(fontSize) == fontSize * 0.05
  {
  }

  /** A glyph point is drawn where its offsets and the anchor move it, mapped to the canvas. */
  lemma SegmentPointsPlaced(segment: Outline, g: TextGeoms, view: View, i: nat)
    requires i < |segment|
    requires g.xOffset.Finite? && g.yOffset.Finite?
    ensures var cs := SegmentCommands(segment, g, view);
            var p := ToCanvas(view, Point(segment[i].x + g.xOffset.value + g.anchorPosition.x,
                                          segment[i].y + g.yOffset.value + g.anchorPosition.y));
            cs[i + 1] == (if i == 0 then MoveTo(p) else LineTo(p))
  {
    var placed := PlacedPoints(segment, g);
    var points := CanvasPoints(view, placed);
    var pen := PenCommands(points);
    assert SegmentCommands(segment, g, view)[i + 1] == pen[i] by {
      assert SegmentCommands(segment, g, view) == [BeginPath] + pen + [Stroke];
    }
    PenCommandAt(points, i);
    assert points[i] == ToCanvas(view, placed[i]);
  }
}
