/**
 * The circuit-json records the copper builders read. Each record keeps the
 * fields the builders look at; a field the schema makes optional, or that
 * the code tests with `typeof`, `??` or `||`, is an `Option`.
 */
module CircuitJson {
  import opened JsValues

  datatype PadShape = RectPad | RotatedRectPad | CirclePad | PolygonPad | OtherPadShape(name: string)

  /** A `pcb_smtpad`. */
  datatype SmtPad = SmtPad(
    id: string,
    shape: PadShape,
    layer: Option<string>,
    x: Option<real>,
    y: Option<real>,
    width: real,
    height: real,
    radius: Option<real>,
    points: Option<seq<Point>>,
    ccwRotation: Option<real>)

  /** A `pcb_plated_hole`, one constructor per `shape`. */
  datatype PlatedHole =
    | CircleHole(id: string, x: real, y: real, holeDiameter: real, outerDiameter: real)
    | PillHole(
        id: string, x: real, y: real, holeWidth: real, holeHeight: real,
        outerWidth: Option<real>, outerHeight: Option<real>, ccwRotation: Option<real>)
    | PillHoleWithRectPad(
        id: string, x: real, y: real, holeWidth: real, holeHeight: real,
        holeOffsetX: Option<real>, holeOffsetY: Option<real>,
        rectPadWidth: real, rectPadHeight: real)
    | CircularHoleWithRectPad(
        id: string, x: real, y: real, holeDiameter: real,
        holeOffsetX: Option<real>, holeOffsetY: Option<real>,
        padWidth: Option<real>, padHeight: Option<real>)
    | HoleWithPolygonPad(
        id: string, x: real, y: real, padOutline: Option<seq<Point>>, holeShape: Option<string>,
        polygonHoleDiameter: Option<real>, polygonHoleWidth: Option<real>, polygonHoleHeight: Option<real>,
        holeOffsetX: Option<real>, holeOffsetY: Option<real>, ccwRotation: Option<real>)
    | OtherHole(id: string, shape: string)

  /**
   * The two helpers of src/utils/rect-border-radius, which is not part of
   * this model: `clampRectBorderRadius(width, height, radius)` and
   * `extractRectBorderRadius(record)`, taken as given functions.
   */
  datatype RadiusHelpers = RadiusHelpers(
    clamp: (real, real, Option<real>) -> real,
    ofPad: SmtPad -> Option<real>,
    ofHole: PlatedHole -> Option<real>)
  {
    /** `clampRectBorderRadius(width, height, radius)` */
    function Clamp(width: real, height: real, radius: Option<real>): real {
      clamp(width, height, radius)
    }

    /** `extractRectBorderRadius(pad)` */
    function OfPad(pad: SmtPad): Option<real> {
      ofPad(pad)
    }

    /** `extractRectBorderRadius(hole)` */
    function OfHole(ph: PlatedHole): Option<real> {
      ofHole(ph)
    }
  }
}
