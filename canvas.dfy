/**
 * The 2D canvas the legend textures are painted on, observed through the
 * commands issued to its drawing context: every property assignment and
 * every call the rasterisers make appends one command to the log.
 */
module Canvas {
  import opened JsValues

  datatype Command =
    | Translate(tx: real, ty: real)
    | Scale(sx: real, sy: real)
    | SetStrokeStyle(strokeStyle: string)
    | SetFillStyle(fillStyle: string)
    | SetLineWidth(lineWidth: real)
    | SetLineCap(lineCap: string)
    | SetLineJoin(lineJoin: string)
    | BeginPath
    | MoveTo(moveTarget: Point)
    | LineTo(lineTarget: Point)
    | Stroke

  /** The board side a texture is painted for. */
  datatype Side = Top | Bottom {
    /** The layer name records carry for this side. */
    function Name(): string {
      if this == Top then "top" else "bottom"
    }
  }

  /** What a rasteriser hands to the texture: the canvas size and everything drawn on it. */
  datatype Texture = Texture(width: int, height: int, commands: seq<Command>)

  /** A `CanvasRenderingContext2D`, reduced to the log of what was asked of it. */
  class Context2D {
    var log: seq<Command>

    constructor ()
      ensures log == []
    {
      log := [];
    }

    method Translate(tx: real, ty: real)
      modifies this
      ensures log == old(log) + [Command.Translate(tx, ty)]
    {
      log := log + [Command.Translate(tx, ty)];
    }

    method Scale(sx: real, sy: real)
      modifies this
      ensures log == old(log) + [Command.Scale(sx, sy)]
    {
      log := log + [Command.Scale(sx, sy)];
    }

    method SetStrokeStyle(style: string)
      modifies this
      ensures log == old(log) + [Command.SetStrokeStyle(style)]
    {
      log := log + [Command.SetStrokeStyle(style)];
    }

    method SetFillStyle(style: string)
      modifies this
      ensures log == old(log) + [Command.SetFillStyle(style)]
    {
      log := log + [Command.SetFillStyle(style)];
    }

    method SetLineWidth(width: real)
      modifies this
      ensures log == old(log) + [Command.SetLineWidth(width)]
    {
      log := log + [Command.SetLineWidth(width)];
    }

    method SetLineCap(cap: string)
      modifies this
      ensures log == old(log) + [Command.SetLineCap(cap)]
    {
      log := log + [Command.SetLineCap(cap)];
    }

    method SetLineJoin(join: string)
      modifies this
      ensures log == old(log) + [Command.SetLineJoin(join)]
    {
      log := log + [Command.SetLineJoin(join)];
    }

    method BeginPath()
      modifies this
      ensures log == old(log) + [Command.BeginPath]
    {
      log := log + [Command.BeginPath];
    }

    method MoveTo(p: Point)
      modifies this
      ensures log == old(log) + [Command.MoveTo(p)]
    {
      log := log + [Command.MoveTo(p)];
    }

    method LineTo(p: Point)
      modifies this
      ensures log == old(log) + [Command.LineTo(p)]
    {
      log := log + [Command.LineTo(p)];
    }

    method Stroke()
      modifies this
      ensures log == old(log) + [Command.Stroke]
    {
      log := log + [Command.Stroke];
    }
  }

  /** The part of the board a texture covers, and its pixels per millimetre. */
  datatype View = View(center: Point, width: real, height: real, resolution: real)

  /** A length on the board, in canvas pixels. */
  function Pixels(view: View, length: real): real {
    length * view.resolution
  }

  /**
   * Board millimetres to canvas pixels: the board's top-left corner goes to
   * the origin and y grows downwards.
   */
  function ToCanvas(view: View, p: Point): Point {
    Point((p.x - view.center.x + view.width / 2.0) * view.resolution,
          (-(p.y - view.center.y) + view.height / 2.0) * view.resolution)
  }

  /** Canvas pixels back to board millimetres, the inverse of `ToCanvas`. */
  function FromCanvas(view: View, q: Point): Point
    requires view.resolution != 0.0
  {
    Point(q.x / view.resolution + view.center.x - view.width / 2.0,
          view.center.y - (q.y / view.resolution - view.height / 2.0))
  }

  /** `moveTo` to the first point of a polyline and `lineTo` to each later one. */
  function PenCommands(points: seq<Point>): (cs: seq<Command>)
    ensures |cs| == |points|
  {
    if points == [] then []
    else
      var last := points[|points| - 1];
      PenCommands(points[..|points| - 1]) + [if |points| == 1 then MoveTo(last) else LineTo(last)]
  }

  /** The polyline's points on the canvas. */
  function CanvasPoints(view: View, points: seq<Point>): (r: seq<Point>)
    ensures |r| == |points|
    ensures forall i :: 0 <= i < |points| ==> r[i] == ToCanvas(view, points[i])
  {
    seq(|points|, i requires 0 <= i < |points| => ToCanvas(view, points[i]))
  }

  /** The `forEach((point, index) => index === 0 ? moveTo : lineTo)` over a polyline. */
  method TracePolyline(ctx: Context2D, view: View, points: seq<Point>)
    modifies ctx
    ensures ctx.log == old(ctx.log) + PenCommands(CanvasPoints(view, points))
  {
    ghost var start := ctx.log;
    for index := 0 to |points|
      invariant ctx.log == start + PenCommands(CanvasPoints(view, points[..index]))
    {
      var canvasPoint := ToCanvas(view, points[index]);
      if index == 0 {
        ctx.MoveTo(canvasPoint);
      } else {
        ctx.LineTo(canvasPoint);
      }
      assert CanvasPoints(view, points[..index + 1])[..index] == CanvasPoints(view, points[..index]);
    }
    assert points[..|points|] == points;
  }

  // ---------------------------------------------------------------------
  // Properties

  /** The pen moves to the first point and draws a line to every later one, in order. */
  lemma {:induction false} PenCommandsShape(points: seq<Point>)
    ensures forall i :: 0 <= i < |points| ==>
              PenCommands(points)[i] == (if i == 0 then MoveTo(points[i]) else LineTo(points[i]))
  {
    if points != [] {
      var init := points[..|points| - 1];
      PenCommandsShape(init);
      assert forall i :: 0 <= i < |init| ==> init[i] == points[i];
    }
  }

  /** The pen command for one point of a polyline. */
  lemma PenCommandAt(points: seq<Point>, i: nat)
    requires i < |points|
    ensures PenCommands(points)[i] == (if i == 0 then MoveTo(points[i]) else LineTo(points[i]))
  {
    PenCommandsShape(points);
  }

  /** The board's top-left corner is the canvas origin and its centre the canvas centre. */
  lemma CornersOfTheBoard(view: View)
    ensures ToCanvas(view, Point(view.center.x - view.width / 2.0, view.center.y + view.height / 2.0))
            == Point(0.0, 0.0)
    ensures ToCanvas(view, view.center)
            == Point(view.width * view.resolution / 2.0, view.height * view.resolution / 2.0)
    ensures ToCanvas(view, Point(view.center.x + view.width / 2.0, view.center.y - view.height / 2.0))
            == Point(view.width * view.resolution, view.height * view.resolution)
  {
  }

  /** At a non-zero resolution every pixel position maps back to the board point it came from. */
  lemma CanvasRoundTrip(view: View, p: Point)
    requires view.resolution != 0.0
    ensures FromCanvas(view, ToCanvas(view, p)) == p
  {
  }

  /** At a non-zero resolution distinct board points land on distinct pixels. */
  lemma ToCanvasInjective(view: View, p: Point, q: Point)
    requires view.resolution != 0.0
    requires ToCanvas(view, p) == ToCanvas(view, q)
    ensures p == q
  {
  }

  /** Moving up on the board moves up on the canvas (towards smaller y) at a positive resolution. */
  lemma ToCanvasFlipsY(view: View, p: Point, dy: real)
    requires view.resolution > 0.0 && dy > 0.0
    ensures ToCanvas(view, Point(p.x, p.y + dy)).y < ToCanvas(view, p).y
    ensures ToCanvas(view, Point(p.x, p.y + dy)).x == ToCanvas(view, p).x
  {
    assert ToCanvas(view, p).y - ToCanvas(view, Point(p.x, p.y + dy)).y == dy * view.resolution;
  }
}
