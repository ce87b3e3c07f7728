/**
 * `createSilkscreenTextureForLayer`: the silkscreen and fabrication-note
 * legend of one board side painted onto a single canvas. Silkscreen paths,
 * fabrication paths, silkscreen texts and fabrication texts are drawn in
 * that order; texts are laid out by `createSilkscreenTextGeoms`, which this
 * model receives as a function, and anchored at their own position, at the
 * centre of the component they name, or at the board centre.
 */
module SilkscreenTexture {
  import opened JsValues
  import opened Canvas
  import FabricationNoteTexture

  /** A silkscreen or fabrication path record; the rasteriser reads both alike. */
  datatype LegendPath = LegendPath(route: Option<seq<Point>>, strokeWidth: Option<NumOrStr>, layer: Option<string>)

  /** A silkscreen or fabrication text record; the rasteriser reads both alike. */
  datatype LegendText = LegendText(
    text: Option<string>,
    fontSize: Option<NumOrStr>,
    anchorPosition: Option<Point>,
    pcbComponentId: Option<string>,
    layer: Option<string>,
    ccwRotation: Option<NumOrStr>,
    rotation: Option<NumOrStr>,
    anchorAlignment: Option<string>)

  /** A `pcb_component` record: its id and its centre, either of which may be missing. */
  datatype Component = Component(id: Option<string>, center: Option<Point>)

  /** The board record: its extent and its optional centre. */
  datatype Board = Board(width: real, height: real, center: Option<Point>)

  /** The `PcbTextElementForGeoms` handed to `createSilkscreenTextGeoms`. */
  datatype TextElement = TextElement(
    text: string, fontSize: real, anchorPosition: Point, anchorAlignment: string, layer: Side, ccwRotation: real)

  /** What `createSilkscreenTextGeoms` returns: glyph segments and the offsets that align them. */
  datatype TextGeoms = TextGeoms(textOutlines: seq<seq<Point>>, xOffset: real, yOffset: real)

  /** The arguments of `createSilkscreenTextureForLayer`, with the circuit's records already listed by kind. */
  datatype Inputs = Inputs(
    layer: Side,
    silkscreenTexts: seq<LegendText>,
    silkscreenPaths: seq<LegendPath>,
    fabricationNoteTexts: seq<LegendText>,
    fabricationNotePaths: seq<LegendPath>,
    components: seq<Component>,
    board: Board,
    resolution: real,
    silkscreenColor: string,
    fabricationNoteColor: string,
    hasContext: bool)

  /** The colours used when the caller passes none. */
  const DefaultSilkscreenColor: string := "rgb(255,255,255)"
  const DefaultFabricationNoteColor: string := "rgb(255,215,0)"

  const SilkscreenPathStroke: real := 0.1
  const FabricationNotePathStroke: real := 0.15
  const DefaultFontSize: real := 0.25

  /** `normalizeLayer`: "bottom" is the bottom side and any other value the top. */
  function NormalizeLayer(value: Option<string>): (side: Side)
    ensures side == Bottom <==> value == Some("bottom")
  {
    if value == Some("bottom") then Bottom else Top
  }

  function TextsOnLayer(texts: seq<LegendText>, layer: Side): seq<LegendText> {
    Filter(texts, (t: LegendText) => NormalizeLayer(t.layer) == layer)
  }

  function PathsOnLayer(paths: seq<LegendPath>, layer: Side): seq<LegendPath> {
    Filter(paths, (p: LegendPath) => NormalizeLayer(p.layer) == layer)
  }

  /** The board centre the texture is centred on: (0, 0) for a board without one. */
  function BoardCenter(board: Board): Point {
    if board.center.Some? then board.center.value else Point(0.0, 0.0)
  }

  function BoardView(board: Board, resolution: real): View {
    View(BoardCenter(board), board.width, board.height, resolution)
  }

  /** `Math.floor(size * resolution)`, with no lower bound. */
  function CanvasSize(size: real, resolution: real): int {
    (size * resolution).Floor
  }

  // ---------------------------------------------------------------------
  // Component centres

  /** A component enters the map when it has a non-empty id and a centre. */
  predicate Registers(c: Component) {
    c.id.Some? && c.id.value != "" && c.center.Some?
  }

  predicate RegistersAs(c: Component, id: string) {
    Registers(c) && c.id.value == id
  }

  /** The `componentCenters` map after the components before it have been visited. */
  function ComponentCenters(components: seq<Component>): map<string, Point> {
    if components == [] then map[]
    else
      var c := components[|components| - 1];
      var before := ComponentCenters(components[..|components| - 1]);
      if Registers(c) then before[c.id.value := c.center.value] else before
  }

  /** `pcbComponents.forEach(... componentCenters.set(...))` */
  method BuildComponentCenters(components: seq<Component>) returns (centers: map<string, Point>)
    ensures centers == ComponentCenters(components)
  {
    centers := map[];
    for i := 0 to |components|
      invariant centers == ComponentCenters(components[..i])
    {
      var component := components[i];
      if component.id.Some? && component.id.value != "" && component.center.Some? {
        centers := centers[component.id.value := component.center.value];
      }
      assert components[..i + 1][..i] == components[..i];
    }
    assert components[..|components|] == components;
  }

  /**
   * `resolveAnchorPosition`: the text's own anchor, else the centre of the
   * component it names when that component is in the map, else the board centre.
   */
  function ResolveAnchorPosition(source: LegendText, centers: map<string, Point>, boardCenter: Point): (p: Point)
    ensures source.anchorPosition.Some? ==> p == source.anchorPosition.value
    ensures source.anchorPosition.None? ==>
              p == boardCenter
              || (source.pcbComponentId.Some? && source.pcbComponentId.value in centers
                  && p == centers[source.pcbComponentId.value])
  {
    if source.anchorPosition.Some? then source.anchorPosition.value
    else if source.pcbComponentId.Some? && source.pcbComponentId.value != ""
            && source.pcbComponentId.value in centers then
      centers[source.pcbComponentId.value]
    else boardCenter
  }

  // ---------------------------------------------------------------------
  // Paths

  function PathCommands(path: LegendPath, color: string, defaultStroke: real, view: View): seq<Command> {
    if path.route.None? || |path.route.value| < 2 then []
    else
      [BeginPath, SetStrokeStyle(color), SetLineWidth(Pixels(view, NumberOrParsed(path.strokeWidth, defaultStroke))),
       SetLineCap("round"), SetLineJoin("round")]
      + PenCommands(CanvasPoints(view, path.route.value)) + [Stroke]
  }

  function PathsCommands(paths: seq<LegendPath>, color: string, defaultStroke: real, view: View): seq<Command> {
    if paths == [] then []
    else
      PathsCommands(paths[..|paths| - 1], color, defaultStroke, view)
      + PathCommands(paths[|paths| - 1], color, defaultStroke, view)
  }

  /** One iteration of `drawPaths`: a route of fewer than two points is skipped. */
  method DrawPath(ctx: Context2D, path: LegendPath, color: string, defaultStroke: real, view: View)
    modifies ctx
    ensures ctx.log == old(ctx.log) + PathCommands(path, color, defaultStroke, view)
  {
    if path.route.None? || |path.route.value| < 2 {
      return;
    }
    ctx.BeginPath();
    ctx.SetStrokeStyle(color);
    var strokeWidth := NumberOrParsed(path.strokeWidth, defaultStroke);
    ctx.SetLineWidth(Pixels(view, strokeWidth));
    ctx.SetLineCap("round");
    ctx.SetLineJoin("round");
    TracePolyline(ctx, view, path.route.value);
    ctx.Stroke();
  }

  /** `drawPaths(paths, color, defaultStroke)` */
  method DrawPaths(ctx: Context2D, paths: seq<LegendPath>, color: string, defaultStroke: real, view: View)
    modifies ctx
    ensures ctx.log == old(ctx.log) + PathsCommands(paths, color, defaultStroke, view)
  {
    ghost var start := ctx.log;
    for i := 0 to |paths|
      invariant ctx.log == start + PathsCommands(paths[..i], color, defaultStroke, view)
    {
      DrawPath(ctx, paths[i], color, defaultStroke, view);
      assert paths[..i + 1][..i] == paths[..i];
      AppendAssociates(start, PathsCommands(paths[..i], color, defaultStroke, view),
                       PathCommands(paths[i], color, defaultStroke, view));
    }
    assert paths[..|paths|] == paths;
  }

  // ---------------------------------------------------------------------
  // Texts

  /** `!textSource?.text` fails: there is a non-empty text. */
  predicate HasText(t: LegendText) {
    t.text.Some? && t.text.value != ""
  }

  /** The rotation read from `ccw_rotation ?? rotation ?? 0`, parsed with 0 as the fallback. */
  function RotationOf(t: LegendText): real {
    NumberOrParsed(if t.ccwRotation.Some? then t.ccwRotation else t.rotation, 0.0)
  }

  /** The alignment `anchor_alignment ?? "center"`. */
  function AlignmentOf(t: LegendText): string {
    if t.anchorAlignment.Some? then t.anchorAlignment.value else "center"
  }

  /** The element handed to the layout, carrying the rotation computed as `ccwRotation` in `drawTextElements`. */
  function TextElementOf(t: LegendText, centers: map<string, Point>, boardCenter: Point): TextElement
    requires HasText(t)
  {
    TextElement(t.text.value, NumberOrParsed(t.fontSize, DefaultFontSize),
                ResolveAnchorPosition(t, centers, boardCenter), AlignmentOf(t), NormalizeLayer(t.layer), RotationOf(t))
  }

  /** The text stroke width `max(0.01, min(0.1 f, 0.05 f))` millimetres. */
  function TextStrokeWidth(fontSize: real): real {
    Max(0.01, Min(fontSize * 0.1, fontSize * 0.05))
  }

  /** The settings issued before a text's segments. */
  function TextSettings(fontSize: real, color: string, view: View): seq<Command> {
    [SetLineWidth(Pixels(view, TextStrokeWidth(fontSize))), SetLineCap("butt"), SetLineJoin("miter"),
     SetStrokeStyle(color), SetFillStyle(color)]
  }

  /** A glyph point moved by the layout's offsets and the anchor. */
  function PlacedPoints(segment: seq<Point>, g: TextGeoms, anchor: Point): (points: seq<Point>)
    ensures |points| == |segment|
  {
    seq(|segment|, i requires 0 <= i < |segment| =>
      Point(segment[i].x + g.xOffset + anchor.x, segment[i].y + g.yOffset + anchor.y))
  }

  function SegmentCommands(segment: seq<Point>, g: TextGeoms, anchor: Point, view: View): seq<Command> {
    if segment == [] then []
    else [BeginPath] + PenCommands(CanvasPoints(view, PlacedPoints(segment, g, anchor))) + [Stroke]
  }

  function SegmentsCommands(segments: seq<seq<Point>>, g: TextGeoms, anchor: Point, view: View): seq<Command> {
    if segments == [] then []
    else
      SegmentsCommands(segments[..|segments| - 1], g, anchor, view)
      + SegmentCommands(segments[|segments| - 1], g, anchor, view)
  }

  /** The commands for one text: none when it has no text, the settings and its segments otherwise. */
  function TextCommands(t: LegendText, color: string, view: View, centers: map<string, Point>,
                        layout: TextElement -> TextGeoms): seq<Command>
  {
    if !HasText(t) then []
    else
      var element := TextElementOf(t, centers, view.center);
      var g := layout(element);
      TextSettings(element.fontSize, color, view) + SegmentsCommands(g.textOutlines, g, element.anchorPosition, view)
  }

  function TextsCommands(texts: seq<LegendText>, color: string, view: View, centers: map<string, Point>,
                         layout: TextElement -> TextGeoms): seq<Command>
  {
    if texts == [] then []
    else
      TextsCommands(texts[..|texts| - 1], color, view, centers, layout)
      + TextCommands(texts[|texts| - 1], color, view, centers, layout)
  }

  /** One iteration of `segment.forEach` inside `textOutlines.forEach`. */
  method DrawSegment(ctx: Context2D, segment: seq<Point>, g: TextGeoms, anchor: Point, view: View)
    modifies ctx
    ensures ctx.log == old(ctx.log) + SegmentCommands(segment, g, anchor, view)
  {
    if |segment| == 0 {
      return;
    }
    ctx.BeginPath();
    TracePolyline(ctx, view, PlacedPoints(segment, g, anchor));
    ctx.Stroke();
  }

  /** `textOutlines.forEach` */
  method DrawSegments(ctx: Context2D, g: TextGeoms, anchor: Point, view: View)
    modifies ctx
    ensures ctx.log == old(ctx.log) + SegmentsCommands(g.textOutlines, g, anchor, view)
  {
    ghost var start := ctx.log;
    var segments := g.textOutlines;
    for i := 0 to |segments|
      invariant ctx.log == start + SegmentsCommands(segments[..i], g, anchor, view)
    {
      DrawSegment(ctx, segments[i], g, anchor, view);
      assert segments[..i + 1][..i] == segments[..i];
      AppendAssociates(start, SegmentsCommands(segments[..i], g, anchor, view),
                       SegmentCommands(segments[i], g, anchor, view));
    }
    assert segments[..|segments|] == segments;
  }

  /** One iteration of `drawTextElements`. */
  method DrawTextElement(ctx: Context2D, t: LegendText, color: string, view: View, centers: map<string, Point>,
                         layout: TextElement -> TextGeoms)
    modifies ctx
    ensures ctx.log == old(ctx.log) + TextCommands(t, color, view, centers, layout)
  {
    if t.text.None? || t.text.value == "" {
      return;
    }
    var fontSize := NumberOrParsed(t.fontSize, DefaultFontSize);
    var anchorPosition := ResolveAnchorPosition(t, centers, view.center);
    var layerValue := NormalizeLayer(t.layer);
    var ccwRotation := RotationOf(t);
    var textElement := TextElement(t.text.value, fontSize, anchorPosition, AlignmentOf(t), layerValue, ccwRotation);
    var g := layout(textElement);
    ctx.SetLineWidth(Pixels(view, TextStrokeWidth(fontSize)));
    ctx.SetLineCap("butt");
    ctx.SetLineJoin("miter");
    ctx.SetStrokeStyle(color);
    ctx.SetFillStyle(color);
    assert ctx.log == old(ctx.log) + TextSettings(fontSize, color, view);
    DrawSegments(ctx, g, anchorPosition, view);
    AppendAssociates(old(ctx.log), TextSettings(fontSize, color, view),
                     SegmentsCommands(g.textOutlines, g, anchorPosition, view));
  }

  /** `drawTextElements(elements, color)` */
  method DrawTextElements(ctx: Context2D, texts: seq<LegendText>, color: string, view: View,
                          centers: map<string, Point>, layout: TextElement -> TextGeoms)
    modifies ctx
    ensures ctx.log == old(ctx.log) + TextsCommands(texts, color, view, centers, layout)
  {
    ghost var start := ctx.log;
    for i := 0 to |texts|
      invariant ctx.log == start + TextsCommands(texts[..i], color, view, centers, layout)
    {
      DrawTextElement(ctx, texts[i], color, view, centers, layout);
      assert texts[..i + 1][..i] == texts[..i];
      AppendAssociates(start, TextsCommands(texts[..i], color, view, centers, layout),
                       TextCommands(texts[i], color, view, centers, layout));
    }
    assert texts[..|texts|] == texts;
  }

  // ---------------------------------------------------------------------
  // The texture

  /** Nothing of either legend lies on the requested side. */
  predicate NothingOnLayer(inputs: Inputs) {
    TextsOnLayer(inputs.silkscreenTexts, inputs.layer) == []
    && PathsOnLayer(inputs.silkscreenPaths, inputs.layer) == []
    && TextsOnLayer(inputs.fabricationNoteTexts, inputs.layer) == []
    && PathsOnLayer(inputs.fabricationNotePaths, inputs.layer) == []
  }

  /**
   * The texture for one side: the flip, then silkscreen paths, fabrication
   * paths, silkscreen texts and fabrication texts, each text laid out with
   * the rotation the code computes for it.
   */
  function TextureOf(inputs: Inputs, layout: TextElement -> TextGeoms): Option<Texture> {
    if NothingOnLayer(inputs) || !inputs.hasContext then None
    else
      var layer := inputs.layer;
      var view := BoardView(inputs.board, inputs.resolution);
      var centers := ComponentCenters(inputs.components);
      var canvasHeight := CanvasSize(inputs.board.height, inputs.resolution);
      Some(Texture(CanvasSize(inputs.board.width, inputs.resolution), canvasHeight,
                   FabricationNoteTexture.FlipCommands(layer, canvasHeight)
                   + PathsCommands(PathsOnLayer(inputs.silkscreenPaths, layer), inputs.silkscreenColor,
                                   SilkscreenPathStroke, view)
                   + PathsCommands(PathsOnLayer(inputs.fabricationNotePaths, layer), inputs.fabricationNoteColor,
                                   FabricationNotePathStroke, view)
                   + TextsCommands(TextsOnLayer(inputs.silkscreenTexts, layer), inputs.silkscreenColor,
                                   view, centers, layout)
                   + TextsCommands(TextsOnLayer(inputs.fabricationNoteTexts, layer), inputs.fabricationNoteColor,
                                   view, centers, layout)))
  }

  /** `createSilkscreenTextureForLayer`, with `ccwRotation` passed on to the layout. */
  method CreateSilkscreenTextureForLayer(inputs: Inputs, layout: TextElement -> TextGeoms)
    returns (texture: Option<Texture>)
    ensures texture == TextureOf(inputs, layout)
  {
    var layer := inputs.layer;
    var textsOnLayer := TextsOnLayer(inputs.silkscreenTexts, layer);
    var pathsOnLayer := PathsOnLayer(inputs.silkscreenPaths, layer);
    var fabricationTextsOnLayer := TextsOnLayer(inputs.fabricationNoteTexts, layer);
    var fabricationPathsOnLayer := PathsOnLayer(inputs.fabricationNotePaths, layer);
    if |textsOnLayer| == 0 && |pathsOnLayer| == 0 && |fabricationTextsOnLayer| == 0
       && |fabricationPathsOnLayer| == 0 {
      return None;
    }
    var canvasWidth := CanvasSize(inputs.board.width, inputs.resolution);
    var canvasHeight := CanvasSize(inputs.board.height, inputs.resolution);
    if !inputs.hasContext {
      return None;
    }
    var ctx := new Context2D();
    if layer == Bottom {
      ctx.Translate(0.0, canvasHeight as real);
      ctx.Scale(1.0, -1.0);
    }
    assert ctx.log == FabricationNoteTexture.FlipCommands(layer, canvasHeight);
    var view := BoardView(inputs.board, inputs.resolution);
    var componentCenters := BuildComponentCenters(inputs.components);
    DrawPaths(ctx, pathsOnLayer, inputs.silkscreenColor, SilkscreenPathStroke, view);
    DrawPaths(ctx, fabricationPathsOnLayer, inputs.fabricationNoteColor, FabricationNotePathStroke, view);
    DrawTextElements(ctx, textsOnLayer, inputs.silkscreenColor, view, componentCenters, layout);
    DrawTextElements(ctx, fabricationTextsOnLayer, inputs.fabricationNoteColor, view, componentCenters, layout);
    return Some(Texture(canvasWidth, canvasHeight, ctx.log));
  }

  // ---------------------------------------------------------------------
  // The `ccw_rotation` shorthand property of the text element, as written

  /** What a call ends with: a value, or an exception thrown out of it. */
  datatype Outcome<T> = Done(value: T) | Threw(error: string)

  const UndeclaredRotation: string := "ReferenceError: ccw_rotation is not defined"

  /**
   * `drawTextElements` as written: the object literal's shorthand property
   * reads the identifier `ccw_rotation`, which no scope declares, so the
   * first text that gets past the empty-text guard throws.
   */
  function TextsAsWritten(texts: seq<LegendText>, color: string, view: View, centers: map<string, Point>,
                          layout: TextElement -> TextGeoms): Outcome<seq<Command>>
  {
    if texts == [] then Done([])
    else
      match TextsAsWritten(texts[..|texts| - 1], color, view, centers, layout)
      case Threw(e) => Threw(e)
      case Done(cs) => if HasText(texts[|texts| - 1]) then Threw(UndeclaredRotation) else Done(cs)
  }

  /** `createSilkscreenTextureForLayer` as written. */
  function TextureAsWritten(inputs: Inputs, layout: TextElement -> TextGeoms): Outcome<Option<Texture>> {
    if NothingOnLayer(inputs) || !inputs.hasContext then Done(None)
    else
      var view := BoardView(inputs.board, inputs.resolution);
      var centers := ComponentCenters(inputs.components);
      var silkscreenTexts := TextsAsWritten(TextsOnLayer(inputs.silkscreenTexts, inputs.layer),
                                            inputs.silkscreenColor, view, centers, layout);
      var fabricationTexts := TextsAsWritten(TextsOnLayer(inputs.fabricationNoteTexts, inputs.layer),
                                             inputs.fabricationNoteColor, view, centers, layout);
      if silkscreenTexts.Threw? then Threw(silkscreenTexts.error)
      else if fabricationTexts.Threw? then Threw(fabricationTexts.error)
      else
        var canvasHeight := CanvasSize(inputs.board.height, inputs.resolution);
        var paths :=
          PathsCommands(PathsOnLayer(inputs.silkscreenPaths, inputs.layer), inputs.silkscreenColor,
                        SilkscreenPathStroke, view)
          + PathsCommands(PathsOnLayer(inputs.fabricationNotePaths, inputs.layer), inputs.fabricationNoteColor,
                          FabricationNotePathStroke, view);
        Done(Some(Texture(CanvasSize(inputs.board.width, inputs.resolution), canvasHeight,
                          FabricationNoteTexture.FlipCommands(inputs.layer, canvasHeight)
                          + paths + silkscreenTexts.value + fabricationTexts.value)))
  }

  // ---------------------------------------------------------------------
  // Properties

  /** Records whose layer is "bottom" are on the bottom side; every other value, absent included, is the top. */
  lemma OnLayerFilter(texts: seq<LegendText>, paths: seq<LegendPath>)
    ensures forall t :: t in TextsOnLayer(texts, Bottom) <==> t in texts && t.layer == Some("bottom")
    ensures forall t :: t in TextsOnLayer(texts, Top) <==> t in texts && t.layer != Some("bottom")
    ensures forall p :: p in PathsOnLayer(paths, Bottom) <==> p in paths && p.layer == Some("bottom")
    ensures forall p :: p in PathsOnLayer(paths, Top) <==> p in paths && p.layer != Some("bottom")
  {
  }

  /** There is no texture exactly when none of the four lists has a record on the side, or there is no 2D context. */
  lemma NullWhenNothingOnLayer(inputs: Inputs, layout: TextElement -> TextGeoms)
    ensures TextureOf(inputs, layout).None?
            <==> !inputs.hasContext
                 || ((forall t :: t in inputs.silkscreenTexts ==> NormalizeLayer(t.layer) != inputs.layer)
                     && (forall p :: p in inputs.silkscreenPaths ==> NormalizeLayer(p.layer) != inputs.layer)
                     && (forall t :: t in inputs.fabricationNoteTexts ==> NormalizeLayer(t.layer) != inputs.layer)
                     && (forall p :: p in inputs.fabricationNotePaths ==> NormalizeLayer(p.layer) != inputs.layer))
  {
    var layer := inputs.layer;
    var texts := TextsOnLayer(inputs.silkscreenTexts, layer);
    var paths := PathsOnLayer(inputs.silkscreenPaths, layer);
    var fabricationTexts := TextsOnLayer(inputs.fabricationNoteTexts, layer);
    var fabricationPaths := PathsOnLayer(inputs.fabricationNotePaths, layer);
    if texts != [] {
      assert texts[0] in texts;
    }
    if paths != [] {
      assert paths[0] in paths;
    }
    if fabricationTexts != [] {
      assert fabricationTexts[0] in fabricationTexts;
    }
    if fabricationPaths != [] {
      assert fabricationPaths[0] in fabricationPaths;
    }
  }

  /** The canvas is the board size times the resolution, floored, with no lower bound. */
  lemma CanvasSizeFloored(inputs: Inputs, layout: TextElement -> TextGeoms)
    requires TextureOf(inputs, layout).Some?
    ensures var t := TextureOf(inputs, layout).value;
            t.width == (inputs.board.width * inputs.resolution).Floor
            && t.height == (inputs.board.height * inputs.resolution).Floor
  {
  }

  /**
   * A board smaller than one pixel gets an empty canvas here, where the
   * fabrication-note rasteriser keeps one pixel.
   */
  lemma SubPixelBoardHasEmptyCanvas(size: real, resolution: real)
    requires 0.0 <= size * resolution < 1.0
    ensures CanvasSize(size, resolution) == 0
    ensures FabricationNoteTexture.CanvasSize(size, resolution) == 1
  {
  }

  /**
   * A component id is in the map exactly when some component registers it,
   * and it maps to the centre of the last component that does.
   */
  lemma ComponentCentersLastWins(components: seq<Component>, id: string)
    ensures id in ComponentCenters(components)
            <==> exists i :: 0 <= i < |components| && RegistersAs(components[i], id)
    ensures id in ComponentCenters(components) ==>
              exists j :: 0 <= j < |components| && RegistersAs(components[j], id)
                          && ComponentCenters(components)[id] == components[j].center.value
                          && forall k :: j < k < |components| ==> !RegistersAs(components[k], id)
  {
    ComponentCentersHas(components, id);
    if id in ComponentCenters(components) {
      ComponentCentersLast(components, id);
    }
  }

  lemma {:induction false} ComponentCentersHas(components: seq<Component>, id: string)
    ensures id in ComponentCenters(components)
            <==> exists i :: 0 <= i < |components| && RegistersAs(components[i], id)
  {
    if components != [] {
      var init := components[..|components| - 1];
      var last := components[|components| - 1];
      ComponentCentersHas(init, id);
      assert forall i :: 0 <= i < |init| ==> init[i] == components[i];
      if RegistersAs(last, id) {
        assert RegistersAs(components[|components| - 1], id);
      }
    }
  }

  lemma {:induction false} ComponentCentersLast(components: seq<Component>, id: string)
    requires id in ComponentCenters(components)
    ensures exists j :: 0 <= j < |components| && RegistersAs(components[j], id)
                        && ComponentCenters(components)[id] == components[j].center.value
                        && forall k :: j < k < |components| ==> !RegistersAs(components[k], id)
  {
    var init := components[..|components| - 1];
    var last := components[|components| - 1];
    if RegistersAs(last, id) {
      assert ComponentCenters(components)[id] == last.center.value;
    } else {
      assert id in ComponentCenters(init);
      ComponentCentersLast(init, id);
      var j :| 0 <= j < |init| && RegistersAs(init[j], id)
               && ComponentCenters(init)[id] == init[j].center.value
               && forall k :: j < k < |init| ==> !RegistersAs(init[k], id);
      assert forall i :: 0 <= i < |init| ==> init[i] == components[i];
      assert RegistersAs(components[j], id);
    }
  }

  /** The anchor: the text's own position first, then its component's centre, then the board centre. */
  lemma AnchorResolution(source: LegendText, centers: map<string, Point>, boardCenter: Point)
    ensures source.anchorPosition.Some?
            ==> ResolveAnchorPosition(source, centers, boardCenter) == source.anchorPosition.value
    ensures source.anchorPosition.None? && source.pcbComponentId.Some? && source.pcbComponentId.value in centers
            && source.pcbComponentId.value != ""
            ==> ResolveAnchorPosition(source, centers, boardCenter) == centers[source.pcbComponentId.value]
    ensures source.anchorPosition.None?
            && (source.pcbComponentId.None? || source.pcbComponentId.value !in centers)
            ==> ResolveAnchorPosition(source, centers, boardCenter) == boardCenter
  {
  }

  /**
   * A text without its own position that names a component is anchored at the
   * centre of the last component registered under that id.
   */
  lemma AnchorAtComponentCenter(source: LegendText, components: seq<Component>, boardCenter: Point, j: nat)
    requires source.anchorPosition.None? && source.pcbComponentId.Some?
    requires j < |components| && RegistersAs(components[j], source.pcbComponentId.value)
    requires forall k :: j < k < |components| ==> !RegistersAs(components[k], source.pcbComponentId.value)
    ensures ResolveAnchorPosition(source, ComponentCenters(components), boardCenter) == components[j].center.value
  {
    var id := source.pcbComponentId.value;
    ComponentCentersLastWins(components, id);
    var i :| 0 <= i < |components| && RegistersAs(components[i], id)
             && ComponentCenters(components)[id] == components[i].center.value
             && forall k :: i < k < |components| ==> !RegistersAs(components[k], id);
    assert i == j;
  }

  /** The board centre lands in the middle of the canvas; without a centre that is the board origin. */
  lemma BoardCenterInTheMiddle(board: Board, resolution: real)
    ensures ToCanvas(BoardView(board, resolution), BoardCenter(board))
            == Point(board.width * resolution / 2.0, board.height * resolution / 2.0)
    ensures board.center.None? ==>
              ToCanvas(BoardView(board, resolution), Point(0.0, 0.0))
              == Point(board.width * resolution / 2.0, board.height * resolution / 2.0)
  {
    CornersOfTheBoard(BoardView(board, resolution));
  }

  /**
   * A path without a route of at least two points draws nothing; any other is
   * stroked in the given colour, round-capped, through every one of its points.
   */
  lemma PathStroke(path: LegendPath, color: string, defaultStroke: real, view: View)
    ensures path.route.None? || |path.route.value| < 2 <==> PathCommands(path, color, defaultStroke, view) == []
    ensures path.route.Some? && |path.route.value| >= 2 ==>
              var cs := PathCommands(path, color, defaultStroke, view);
              cs[0] == BeginPath && cs[1] == SetStrokeStyle(color)
              && cs[2] == SetLineWidth(Pixels(view, NumberOrParsed(path.strokeWidth, defaultStroke)))
              && cs[3] == SetLineCap("round") && cs[4] == SetLineJoin("round")
              && cs[|cs| - 1] == Stroke && |cs| == |path.route.value| + 6
  {
  }

  /**
   * A stroke width or font size: a number as given (0 included), a string
   * parsed, with the default for an absent field, an unparseable string or a
   * string that parses to 0.
   */
  lemma ParsedWithDefault(value: Option<NumOrStr>, default: real)
    ensures value.None? ==> NumberOrParsed(value, default) == default
    ensures value.Some? && value.value.Num? ==> NumberOrParsed(value, default) == value.value.n
    ensures value.Some? && value.value.Str? && ParseFloat(value.value.s).Some? && ParseFloat(value.value.s).value != 0.0
            ==> NumberOrParsed(value, default) == ParseFloat(value.value.s).value
    ensures value.Some? && value.value.Str? && (ParseFloat(value.value.s).None? || ParseFloat(value.value.s) == Some(0.0))
            ==> NumberOrParsed(value, default) == default
  {
  }

  /**
   * A text with no text draws nothing; any other starts with its stroke
   * settings, the width taken from its font size (0.25 by default).
   */
  lemma TextStroke(t: LegendText, color: string, view: View, centers: map<string, Point>,
                   layout: TextElement -> TextGeoms)
    ensures !HasText(t) <==> TextCommands(t, color, view, centers, layout) == []
    ensures HasText(t) ==>
              var cs := TextCommands(t, color, view, centers, layout);
              cs[..5] == TextSettings(NumberOrParsed(t.fontSize, DefaultFontSize), color, view)
    ensures HasText(t) && t.fontSize.None? ==>
              TextCommands(t, color, view, centers, layout)[0] == SetLineWidth(Pixels(view, TextStrokeWidth(0.25)))
  {
  }

  /** The text stroke is never thinner than 0.01, and for a font size that is not negative it is the larger of that and f / 20. */
  lemma TextStrokeFloor(fontSize: real)
    ensures TextStrokeWidth(fontSize) >= 0.01
    ensures fontSize >= 0.0 ==> TextStrokeWidth(fontSize) == Max(0.01, fontSize * 0.05)
  {
  }

  /**
   * The two rasterisers stroke small text differently: below a font size of
   * 0.2 this one keeps the 0.01 floor while the fabrication-note one draws f / 20.
   */
  lemma StrokeFormulasDiffer(fontSize: real)
    requires 0.0 < fontSize < 0.2
    ensures TextStrokeWidth(fontSize) == 0.01
    ensures FabricationNoteTexture.TextStrokeWidth(fontSize) == fontSize * 0.05 < 0.01
  {
  }

  /**
   * `ccw_rotation` wins over `rotation` whenever it is present, even when it
   * does not parse (it then gives 0); with neither the rotation is 0.
   */
  lemma RotationPrecedence(t: LegendText)
    ensures t.ccwRotation.Some? ==> RotationOf(t) == NumberOrParsed(t.ccwRotation, 0.0)
    ensures t.ccwRotation.None? ==> RotationOf(t) == NumberOrParsed(t.rotation, 0.0)
    ensures t.ccwRotation.None? && t.rotation.None? ==> RotationOf(t) == 0.0
    ensures t.ccwRotation.Some? && t.ccwRotation.value.Str? && ParseFloat(t.ccwRotation.value.s).None?
            ==> RotationOf(t) == 0.0
  {
  }

  /**
   * The layout receives the text, the parsed font size, the resolved anchor,
   * the alignment ("center" by default), the normalised layer and the rotation.
   */
  lemma TextElementFields(t: LegendText, centers: map<string, Point>, boardCenter: Point)
    requires HasText(t)
    ensures var e := TextElementOf(t, centers, boardCenter);
            e.text == t.text.value && e.fontSize == NumberOrParsed(t.fontSize, DefaultFontSize)
            && e.anchorPosition == ResolveAnchorPosition(t, centers, boardCenter)
            && (t.anchorAlignment.None? ==> e.anchorAlignment == "center")
            && (e.layer == Bottom <==> t.layer == Some("bottom"))
            && e.ccwRotation == RotationOf(t)
  {
  }

  /** A glyph point is drawn where the layout's offsets and the anchor move it, mapped to the canvas. */
  lemma SegmentPointsPlaced(segment: seq<Point>, g: TextGeoms, anchor: Point, view: View, i: nat)
    requires i < |segment|
    ensures var cs := SegmentCommands(segment, g, anchor, view);
            var p := ToCanvas(view, Point(segment[i].x + g.xOffset + anchor.x, segment[i].y + g.yOffset + anchor.y));
            cs[i + 1] == (if i == 0 then MoveTo(p) else LineTo(p))
  {
    var placed := PlacedPoints(segment, g, anchor);
    var points := CanvasPoints(view, placed);
    var pen := PenCommands(points);
    assert SegmentCommands(segment, g, anchor, view)[i + 1] == pen[i] by {
      assert SegmentCommands(segment, g, anchor, view) == [BeginPath] + pen + [Stroke];
    }
    PenCommandAt(points, i);
    assert points[i] == ToCanvas(view, placed[i]);
  }

  /**
   * Paths are drawn before texts and silkscreen before fabrication: the
   * silkscreen paths' commands follow the flip directly and the fabrication
   * texts' commands end the log.
   */
  lemma DrawOrder(inputs: Inputs, layout: TextElement -> TextGeoms)
    requires TextureOf(inputs, layout).Some?
    ensures var t := TextureOf(inputs, layout).value;
            var flip := FabricationNoteTexture.FlipCommands(inputs.layer, t.height);
            var view := BoardView(inputs.board, inputs.resolution);
            var silkscreenPaths := PathsCommands(PathsOnLayer(inputs.silkscreenPaths, inputs.layer),
                                                 inputs.silkscreenColor, SilkscreenPathStroke, view);
            var fabricationTexts := TextsCommands(TextsOnLayer(inputs.fabricationNoteTexts, inputs.layer),
                                                  inputs.fabricationNoteColor, view,
                                                  ComponentCenters(inputs.components), layout);
            |flip| + |silkscreenPaths| + |fabricationTexts| <= |t.commands|
            && t.commands[..|flip|] == flip
            && t.commands[|flip|..|flip| + |silkscreenPaths|] == silkscreenPaths
            && t.commands[|t.commands| - |fabricationTexts|..] == fabricationTexts
  {
    var layer := inputs.layer;
    var view := BoardView(inputs.board, inputs.resolution);
    var centers := ComponentCenters(inputs.components);
    var canvasHeight := CanvasSize(inputs.board.height, inputs.resolution);
    DrawnInOrder(FabricationNoteTexture.FlipCommands(layer, canvasHeight),
                 PathsCommands(PathsOnLayer(inputs.silkscreenPaths, layer), inputs.silkscreenColor,
                               SilkscreenPathStroke, view),
                 PathsCommands(PathsOnLayer(inputs.fabricationNotePaths, layer), inputs.fabricationNoteColor,
                               FabricationNotePathStroke, view),
                 TextsCommands(TextsOnLayer(inputs.silkscreenTexts, layer), inputs.silkscreenColor,
                               view, centers, layout),
                 TextsCommands(TextsOnLayer(inputs.fabricationNoteTexts, layer), inputs.fabricationNoteColor,
                               view, centers, layout));
  }

  /** Five command lists drawn one after another can be read back from the log. */
  lemma DrawnInOrder(a: seq<Command>, b: seq<Command>, c: seq<Command>, d: seq<Command>, e: seq<Command>)
    ensures var log := a + b + c + d + e;
            |a| + |b| + |e| <= |log| && log[..|a|] == a && log[|a|..|a| + |b|] == b && log[|log| - |e|..] == e
  {
  }

  // ---------------------------------------------------------------------
  // Properties of the code as written

  /** As written, a list of texts throws exactly when one of them has text; otherwise it draws nothing. */
  lemma {:induction false} TextsAsWrittenThrows(texts: seq<LegendText>, color: string, view: View,
                                                centers: map<string, Point>, layout: TextElement -> TextGeoms)
    ensures TextsAsWritten(texts, color, view, centers, layout).Threw?
            <==> exists t :: t in texts && HasText(t)
    ensures TextsAsWritten(texts, color, view, centers, layout).Threw?
            ==> TextsAsWritten(texts, color, view, centers, layout).error == UndeclaredRotation
    ensures TextsAsWritten(texts, color, view, centers, layout).Done?
            ==> TextsAsWritten(texts, color, view, centers, layout).value == []
                == TextsCommands(texts, color, view, centers, layout)
  {
    if texts != [] {
      var init := texts[..|texts| - 1];
      var last := texts[|texts| - 1];
      TextsAsWrittenThrows(init, color, view, centers, layout);
      assert texts == init + [last];
    }
  }

  /**
   * As written, the function throws exactly when it gets as far as drawing
   * and one of the texts on the side has text; otherwise it returns what the
   * corrected function returns.
   */
  lemma AsWrittenThrowsOnAnyText(inputs: Inputs, layout: TextElement -> TextGeoms)
    ensures TextureAsWritten(inputs, layout).Threw?
            <==> !NothingOnLayer(inputs) && inputs.hasContext
                 && exists t :: (t in TextsOnLayer(inputs.silkscreenTexts, inputs.layer)
                                 || t in TextsOnLayer(inputs.fabricationNoteTexts, inputs.layer)) && HasText(t)
    ensures TextureAsWritten(inputs, layout).Threw? ==> TextureAsWritten(inputs, layout).error == UndeclaredRotation
    ensures TextureAsWritten(inputs, layout).Done? ==> TextureAsWritten(inputs, layout).value == TextureOf(inputs, layout)
  {
    AsWrittenThrows(inputs, layout);
    AsWrittenOtherwiseAgrees(inputs, layout);
  }

  lemma AsWrittenThrows(inputs: Inputs, layout: TextElement -> TextGeoms)
    ensures TextureAsWritten(inputs, layout).Threw?
            <==> !NothingOnLayer(inputs) && inputs.hasContext
                 && exists t :: (t in TextsOnLayer(inputs.silkscreenTexts, inputs.layer)
                                 || t in TextsOnLayer(inputs.fabricationNoteTexts, inputs.layer)) && HasText(t)
    ensures TextureAsWritten(inputs, layout).Threw? ==> TextureAsWritten(inputs, layout).error == UndeclaredRotation
  {
    var view := BoardView(inputs.board, inputs.resolution);
    var centers := ComponentCenters(inputs.components);
    TextsAsWrittenThrows(TextsOnLayer(inputs.silkscreenTexts, inputs.layer), inputs.silkscreenColor, view, centers, layout);
    TextsAsWrittenThrows(TextsOnLayer(inputs.fabricationNoteTexts, inputs.layer), inputs.fabricationNoteColor,
                         view, centers, layout);
  }

  lemma AsWrittenOtherwiseAgrees(inputs: Inputs, layout: TextElement -> TextGeoms)
    ensures TextureAsWritten(inputs, layout).Done? ==> TextureAsWritten(inputs, layout).value == TextureOf(inputs, layout)
  {
    var view := BoardView(inputs.board, inputs.resolution);
    var centers := ComponentCenters(inputs.components);
    TextsAsWrittenThrows(TextsOnLayer(inputs.silkscreenTexts, inputs.layer), inputs.silkscreenColor, view, centers, layout);
    TextsAsWrittenThrows(TextsOnLayer(inputs.fabricationNoteTexts, inputs.layer), inputs.fabricationNoteColor,
                         view, centers, layout);
    if TextureAsWritten(inputs, layout).Done? && !NothingOnLayer(inputs) && inputs.hasContext {
      var canvasHeight := CanvasSize(inputs.board.height, inputs.resolution);
      AppendAssociates(FabricationNoteTexture.FlipCommands(inputs.layer, canvasHeight),
                       PathsCommands(PathsOnLayer(inputs.silkscreenPaths, inputs.layer), inputs.silkscreenColor,
                                     SilkscreenPathStroke, view),
                       PathsCommands(PathsOnLayer(inputs.fabricationNotePaths, inputs.layer),
                                     inputs.fabricationNoteColor, FabricationNotePathStroke, view));
    }
  }

  /** A single top-side silkscreen label: the corrected function paints it, the code as written throws. */
  lemma LabelThrowsAsWritten(inputs: Inputs, layout: TextElement -> TextGeoms)
    requires inputs.layer == Top && inputs.hasContext
    requires inputs.silkscreenTexts == [LegendText(Some("R1"), None, None, None, None, None, None, None)]
    ensures TextureOf(inputs, layout).Some?
    ensures TextureAsWritten(inputs, layout) == Threw(UndeclaredRotation)
  {
    var r1 := inputs.silkscreenTexts[0];
    assert r1 in TextsOnLayer(inputs.silkscreenTexts, Top) && HasText(r1);
    assert !NothingOnLayer(inputs);
    AsWrittenThrows(inputs, layout);
  }
}
