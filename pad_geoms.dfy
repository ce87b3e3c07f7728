/**
 * The copper solid of one SMT pad: a rounded-rectangle prism for `rect`
 * and `rotated_rect` pads, a cylinder for `circle` pads and an extruded
 * outline, wound counter-clockwise, for `polygon` pads.
 */
module PadGeoms {
  import opened JsValues
  import opened Polygon
  import opened Kernel
  import opened CircuitJson

  /** `RECT_PAD_SEGMENTS`: the facets of a rounded corner. */
  const RectPadSegments: nat := 64

  /** The straight boxes of a rounded rectangle: each only when its reduced side is positive. */
  function InnerBoxes(width: real, height: real, thickness: real, radius: real): seq<Solid> {
    (if width - 2.0 * radius > 0.0 then [Cube(width - 2.0 * radius, height, thickness)] else [])
    + (if height - 2.0 * radius > 0.0 then [Cube(width, height - 2.0 * radius, thickness)] else [])
  }

  /** The centres of the four corner arcs, in the order the source lists them. */
  function CornerOffsets(width: real, height: real, radius: real): seq<(real, real)> {
    [ (width / 2.0 - radius, height / 2.0 - radius),
      (-width / 2.0 + radius, height / 2.0 - radius),
      (-width / 2.0 + radius, -height / 2.0 + radius),
      (width / 2.0 - radius, -height / 2.0 + radius) ]
  }

  /** One corner cylinder moved to its place. */
  function CornerAt(thickness: real, radius: real, dx: real, dy: real): Solid {
    Translate(Cylinder(thickness, radius, radius, RectPadSegments), dx, dy, 0.0)
  }

  /** One corner cylinder per offset, in order. */
  function CornerCylinders(thickness: real, radius: real, offsets: seq<(real, real)>): seq<Solid> {
    seq(|offsets|, k requires 0 <= k < |offsets| => CornerAt(thickness, radius, offsets[k].0, offsets[k].1))
  }

  /**
   * The solid `createRoundedRectPrism` builds for an already clamped
   * radius: a plain centred cube when the radius is not positive,
   * otherwise the union of the straight boxes and the four corners.
   */
  function RoundedRectPrism(width: real, height: real, thickness: real, radius: real): Solid {
    if radius <= 0.0 then Cube(width, height, thickness)
    else Union(InnerBoxes(width, height, thickness, radius)
               + CornerCylinders(thickness, radius, CornerOffsets(width, height, radius)))
  }

  /**
   * `createRoundedRectPrism`: clamp the radius, then collect the boxes and,
   * corner by corner, the cylinders into `shapes`.
   */
  method CreateRoundedRectPrism(width: real, height: real, thickness: real, borderRadius: Option<real>,
                                helpers: RadiusHelpers)
    returns (prism: Solid)
    ensures prism == RoundedRectPrism(width, height, thickness, helpers.Clamp(width, height, borderRadius))
  {
    var radius := helpers.Clamp(width, height, borderRadius);
    if radius <= 0.0 {
      return Cube(width, height, thickness);
    }
    var shapes: seq<Solid> := [];
    var innerWidth := width - 2.0 * radius;
    var innerHeight := height - 2.0 * radius;
    if innerWidth > 0.0 {
      shapes := shapes + [Cube(innerWidth, height, thickness)];
    }
    if innerHeight > 0.0 {
      shapes := shapes + [Cube(width, innerHeight, thickness)];
    }
    var boxes := shapes;
    var offsets := CornerOffsets(width, height, radius);
    var i := 0;
    while i < |offsets|
      invariant 0 <= i <= |offsets|
      invariant shapes == boxes + CornerCylinders(thickness, radius, offsets[..i])
    {
      shapes := shapes + [CornerAt(thickness, radius, offsets[i].0, offsets[i].1)];
      i := i + 1;
      assert CornerCylinders(thickness, radius, offsets[..i])
          == CornerCylinders(thickness, radius, offsets[..i - 1]) + [CornerAt(thickness, radius, offsets[i - 1].0, offsets[i - 1].1)];
    }
    assert offsets[..i] == offsets;
    prism := Union(shapes);
  }

  /** Without a positive radius the prism is one cube of the full size. */
  lemma SquareCornersAreOneCube(width: real, height: real, thickness: real, radius: real)
    requires radius <= 0.0
    ensures RoundedRectPrism(width, height, thickness, radius) == Cube(width, height, thickness)
  {
  }

  /**
   * With a positive radius the width-reduced box is present exactly when
   * width − 2r > 0, and the height-reduced box exactly when height − 2r > 0.
   */
  lemma BoxesOnlyWhenPositive(width: real, height: real, thickness: real, radius: real)
    requires radius > 0.0
    ensures RoundedRectPrism(width, height, thickness, radius).Union?
    ensures Cube(width - 2.0 * radius, height, thickness) in RoundedRectPrism(width, height, thickness, radius).parts
            <==> width - 2.0 * radius > 0.0
    ensures Cube(width, height - 2.0 * radius, thickness) in RoundedRectPrism(width, height, thickness, radius).parts
            <==> height - 2.0 * radius > 0.0
  {
    var parts := RoundedRectPrism(width, height, thickness, radius).parts;
    var boxes := InnerBoxes(width, height, thickness, radius);
    var offsets := CornerOffsets(width, height, radius);
    var corners := CornerCylinders(thickness, radius, offsets);
    assert parts == boxes + corners;
    assert forall k :: 0 <= k < |corners| ==> corners[k].Translate?;
  }

  /**
   * With a positive radius the prism is the boxes followed by exactly four
   * corner cylinders of that radius, centred at (±(w/2 − r), ±(h/2 − r)).
   */
  lemma FourRoundCorners(width: real, height: real, thickness: real, radius: real)
    requires radius > 0.0
    ensures RoundedRectPrism(width, height, thickness, radius).Union?
    ensures var parts := RoundedRectPrism(width, height, thickness, radius).parts;
            var a, b := width / 2.0 - radius, height / 2.0 - radius;
            |parts| >= 4
            && parts[|parts| - 4..] == [ CornerAt(thickness, radius, a, b), CornerAt(thickness, radius, -a, b),
                                         CornerAt(thickness, radius, -a, -b), CornerAt(thickness, radius, a, -b) ]
            && forall k :: 0 <= k < |parts| - 4 ==> parts[k].Cube?
  {
    var parts := RoundedRectPrism(width, height, thickness, radius).parts;
    var boxes := InnerBoxes(width, height, thickness, radius);
    var offsets := CornerOffsets(width, height, radius);
    var corners := CornerCylinders(thickness, radius, offsets);
    assert parts == boxes + corners;
    assert parts[|parts| - 4..] == corners;
    assert forall k :: 0 <= k < |parts| - 4 ==> parts[k] == boxes[k];
  }

  /**
   * `arePointsClockwise` of pad-geoms: accumulate the shoelace sum edge by
   * edge, wrapping from the last vertex to the first, and call the polygon
   * clockwise when half of it is not positive.
   */
  method ArePointsClockwise(points: seq<Point>) returns (clockwise: bool)
    ensures clockwise <==> SignedArea(points) <= 0.0
  {
    var area := 0.0;
    var i := 0;
    while i < |points|
      invariant 0 <= i <= |points|
      invariant area == EdgeSum(points, i)
    {
      var j := (i + 1) % |points|;
      var current := points[i];
      var next := points[j];
      area := area + current.x * next.y;
      area := area - next.x * current.y;
      i := i + 1;
    }
    EdgeSumIsShoelace(points);
    clockwise := area / 2.0 <= 0.0;
  }

  /** What `createPadManifoldOp` hands back: the pad solid and what else to delete later. */
  datatype PadOp = PadOp(padOp: Solid, cleanup: seq<Instance>)

  /** The shape dispatch of `createPadManifoldOp`, as a value; None is the source's `null`. */
  function PadManifoldOp(pad: SmtPad, thickness: real, helpers: RadiusHelpers): Option<PadOp> {
    match pad.shape
    case RectPad =>
      Some(PadOp(RoundedRectPrism(pad.width, pad.height, thickness,
                                  helpers.Clamp(pad.width, pad.height, helpers.OfPad(pad))), []))
    case RotatedRectPad =>
      var prism := RoundedRectPrism(pad.width, pad.height, thickness,
                                    helpers.Clamp(pad.width, pad.height, helpers.OfPad(pad)));
      var rotation := OrElse(pad.ccwRotation, 0.0);
      Some(PadOp(if Truthy(rotation) then Rotate(prism, rotation) else prism, []))
    case CirclePad =>
      if pad.radius.Some? && Truthy(pad.radius.value) then
        Some(PadOp(Cylinder(thickness, pad.radius.value, -1.0, 32), []))
      else None
    case PolygonPad =>
      if pad.points.None? || |pad.points.value| < 3 then None
      else
        var section := OfPolygon(CounterClockwise(pad.points.value));
        Some(PadOp(Extrude(section, thickness), [SectionInstance(section)]))
    case OtherPadShape(_) => None
  }

  /** `createPadManifoldOp`. */
  method CreatePadManifoldOp(pad: SmtPad, thickness: real, helpers: RadiusHelpers) returns (result: Option<PadOp>)
    ensures result == PadManifoldOp(pad, thickness, helpers)
  {
    if pad.shape == RectPad {
      var padOp := CreateRoundedRectPrism(pad.width, pad.height, thickness, helpers.OfPad(pad), helpers);
      return Some(PadOp(padOp, []));
    } else if pad.shape == RotatedRectPad {
      var padOp := CreateRoundedRectPrism(pad.width, pad.height, thickness, helpers.OfPad(pad), helpers);
      var rotation := OrElse(pad.ccwRotation, 0.0);
      if Truthy(rotation) {
        padOp := Rotate(padOp, rotation);
      }
      return Some(PadOp(padOp, []));
    } else if pad.shape == CirclePad && pad.radius.Some? && Truthy(pad.radius.value) {
      return Some(PadOp(Cylinder(thickness, pad.radius.value, -1.0, 32), []));
    } else if pad.shape == PolygonPad {
      if pad.points.None? || |pad.points.value| < 3 {
        return None;
      }
      var points := pad.points.value;
      var clockwise := ArePointsClockwise(points);
      if clockwise {
        points := Reverse(points);
      }
      var section := OfPolygon(points);
      return Some(PadOp(Extrude(section, thickness), [SectionInstance(section)]));
    }
    return None;
  }

  /**
   * The pad is dropped exactly when it is a polygon with fewer than three
   * points (or none), a circle whose radius is missing or zero, or a shape
   * the dispatch does not know.
   */
  lemma WhenNoPadSolid(pad: SmtPad, thickness: real, helpers: RadiusHelpers)
    ensures PadManifoldOp(pad, thickness, helpers).None?
            <==> (pad.shape.PolygonPad? && (pad.points.None? || |pad.points.value| < 3))
                 || (pad.shape.CirclePad? && (pad.radius.None? || pad.radius.value == 0.0))
                 || pad.shape.OtherPadShape?
  {
  }

  /**
   * A `rect` pad is never rotated; a `rotated_rect` pad is turned about z by
   * its rotation exactly when that rotation is present and non-zero.
   */
  lemma RotationOnlyWhenNonZero(pad: SmtPad, thickness: real, helpers: RadiusHelpers)
    requires pad.shape.RectPad? || pad.shape.RotatedRectPad?
    ensures var r := PadManifoldOp(pad, thickness, helpers);
            r.Some?
            && var prism := RoundedRectPrism(pad.width, pad.height, thickness,
                                             helpers.Clamp(pad.width, pad.height, helpers.OfPad(pad)));
            (r.value.padOp.Rotate? <==>
               pad.shape.RotatedRectPad? && pad.ccwRotation.Some? && pad.ccwRotation.value != 0.0)
            && (r.value.padOp.Rotate? ==> r.value.padOp == Rotate(prism, pad.ccwRotation.value))
            && (!r.value.padOp.Rotate? ==> r.value.padOp == prism)
  {
  }

  /**
   * Only a polygon pad leaves something extra to delete: exactly its
   * cross-section, which is also what gets extruded.
   */
  lemma CleanupIsTheCrossSection(pad: SmtPad, thickness: real, helpers: RadiusHelpers)
    requires PadManifoldOp(pad, thickness, helpers).Some?
    ensures var r := PadManifoldOp(pad, thickness, helpers).value;
            (!pad.shape.PolygonPad? ==> r.cleanup == [])
            && (pad.shape.PolygonPad? ==> r.padOp.Extrude? && r.cleanup == [SectionInstance(r.padOp.section)])
  {
  }

  /**
   * The outline a polygon pad extrudes has the pad's points, possibly
   * reversed, and never a negative signed area.
   */
  lemma PolygonPadWinding(pad: SmtPad, thickness: real, helpers: RadiusHelpers)
    requires pad.shape.PolygonPad?
    requires PadManifoldOp(pad, thickness, helpers).Some?
    ensures var op := PadManifoldOp(pad, thickness, helpers).value.padOp;
            op.Extrude?
            && SignedArea(op.section.points) >= 0.0
            && (op.section.points == pad.points.value || op.section.points == Reverse(pad.points.value))
  {
    CounterClockwiseArea(pad.points.value);
  }
}
