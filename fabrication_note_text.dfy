/**
 * `createFabricationNoteTextGeoms`: the layout of a fabrication-note text.
 * The glyph outlines come from the vector font; two-stroke glyphs (29 and
 * 17 points) are split into their strokes, the outlines' bounding box fixes
 * the offsets that realise the anchor alignment, and bottom-layer text is
 * mirrored about the box centre with its rotation negated.
 *
 * The vector font and the rotation matrix are foreign calls, passed in as
 * function values: `glyphs(height, text)` stands for `vectorText` and
 * `rotate(radians, p)` for applying `rotate(radians)` to a point.
 */
module FabricationNoteText {
  import opened JsValues

  /** `anchor_position` as it may arrive: either coordinate a number, a string or absent. */
  datatype AnchorInput = AnchorInput(x: Option<NumOrStr>, y: Option<NumOrStr>)

  /** The fields of a `pcb_fabrication_note_text` record that the layout reads. */
  datatype NoteText = NoteText(
    text: Option<string>,
    fontSize: Option<NumOrStr>,
    anchorPosition: Option<AnchorInput>,
    anchorAlignment: Option<string>,
    ccwRotation: Option<real>,
    layer: Option<string>)

  type Outline = seq<Point>

  /** The layout's result: the outlines and the offsets that place them at the anchor. */
  datatype TextGeoms = TextGeoms(
    textOutlines: seq<Outline>,
    xOffset: JsNumber,
    yOffset: JsNumber,
    anchorPosition: Point,
    fontSize: real)

  datatype Bounds = Bounds(minX: real, maxX: real, minY: real, maxY: real)

  /** A 2D affine map as the layout builds it. */
  datatype Matrix =
    | TranslateBy(dx: real, dy: real)
    | MirrorX                           // `{ a: -1, b: 0, c: 0, d: 1, e: 0, f: 0 }`
    | RotateBy(radians: real)

  const DefaultFontSize: real := 0.25

  // ---------------------------------------------------------------------
  // Anchor and font size

  /** One anchor coordinate: a string is parsed with 0 as the fallback, a missing value is 0. */
  function AnchorCoordinate(v: Option<NumOrStr>): real {
    NumberOrParsed(v, 0.0)
  }

  /** `getAnchorPosition` */
  function AnchorPosition(note: NoteText): Point {
    match note.anchorPosition
    case None => Point(0.0, 0.0)
    case Some(a) => Point(AnchorCoordinate(a.x), AnchorCoordinate(a.y))
  }

  /** The font size: missing, zero or unparseable all give 0.25. */
  function FontSize(note: NoteText): (size: real)
    ensures size != 0.0
  {
    var parsed := NumberOrParsed(note.fontSize, DefaultFontSize);
    if Truthy(parsed) then parsed else DefaultFontSize
  }

  /** The glyph height asked of the font: 0.45 times the font size. */
  function GlyphHeightFor(fontSize: real): real {
    fontSize * 0.45
  }

  function Alignment(note: NoteText): string {
    if note.anchorAlignment.Some? then note.anchorAlignment.value else "center"
  }

  // ---------------------------------------------------------------------
  // Outlines

  /**
   * A 29-point outline is two strokes of 15 points sharing the 15th point;
   * a 17-point outline two strokes of 10 and 8 points sharing the 10th.
   */
  function SplitOutline(o: Outline): (parts: seq<Outline>)
    ensures 1 <= |parts| <= 2
  {
    if |o| == 29 then [o[..15], o[14..29]]
    else if |o| == 17 then [o[..10], o[9..17]]
    else [o]
  }

  /** The outlines after splitting, in order. */
  function Normalized(outlines: seq<Outline>): (r: seq<Outline>)
    ensures |outlines| <= |r| <= 2 * |outlines|
  {
    if outlines == [] then []
    else Normalized(outlines[..|outlines| - 1]) + SplitOutline(outlines[|outlines| - 1])
  }

  /** The loop that pushes each outline, or its two strokes, onto `normalizedOutlines`. */
  method NormalizeOutlines(textOutlines: seq<Outline>) returns (normalizedOutlines: seq<Outline>)
    ensures normalizedOutlines == Normalized(textOutlines)
  {
    normalizedOutlines := [];
    for i := 0 to |textOutlines|
      invariant normalizedOutlines == Normalized(textOutlines[..i])
    {
      var outline := textOutlines[i];
      if |outline| == 29 {
        normalizedOutlines := normalizedOutlines + [outline[..15]];
        normalizedOutlines := normalizedOutlines + [outline[14..29]];
      } else if |outline| == 17 {
        normalizedOutlines := normalizedOutlines + [outline[..10]];
        normalizedOutlines := normalizedOutlines + [outline[9..17]];
      } else {
        normalizedOutlines := normalizedOutlines + [outline];
      }
      assert textOutlines[..i + 1][..i] == textOutlines[..i];
    }
    assert textOutlines[..|textOutlines|] == textOutlines;
  }

  /** `outlines.flat()` */
  function Flatten(outlines: seq<Outline>): seq<Point> {
    if outlines == [] then []
    else Flatten(outlines[..|outlines| - 1]) + outlines[|outlines| - 1]
  }

  // ---------------------------------------------------------------------
  // Bounds and offsets

  /** The bounding box of the points; `None` where the source takes min and max of nothing. */
  function BoundsOf(points: seq<Point>): (b: Option<Bounds>)
    ensures b.Some? <==> points != []
  {
    if points == [] then None
    else
      var p := points[|points| - 1];
      match BoundsOf(points[..|points| - 1])
      case None => Some(Bounds(p.x, p.x, p.y, p.y))
      case Some(r) => Some(Bounds(Min(r.minX, p.x), Max(r.maxX, p.x), Min(r.minY, p.y), Max(r.maxY, p.y)))
  }

  function Center(b: Bounds): Point {
    Point((b.minX + b.maxX) / 2.0, (b.minY + b.maxY) / 2.0)
  }

  /**
   * The x offset: right alignment puts the right edge at the anchor, left
   * alignment the left edge, anything else the centre. Without points the
   * source's `Math.min()` and `Math.max()` are infinite and the centre NaN.
   */
  function XOffset(bounds: Option<Bounds>, alignment: string): JsNumber {
    match bounds
    case Some(b) =>
      if Includes(alignment, "right") then Finite(-b.maxX)
      else if Includes(alignment, "left") then Finite(-b.minX)
      else Finite(-Center(b).x)
    case None =>
      if Includes(alignment, "right") then Infinity(false)
      else if Includes(alignment, "left") then Infinity(true)
      else NaN
  }

  /** The y offset, with "top" checked before "bottom". */
  function YOffset(bounds: Option<Bounds>, alignment: string): JsNumber {
    match bounds
    case Some(b) =>
      if Includes(alignment, "top") then Finite(-b.maxY)
      else if Includes(alignment, "bottom") then Finite(-b.minY)
      else Finite(-Center(b).y)
    case None =>
      if Includes(alignment, "top") then Infinity(false)
      else if Includes(alignment, "bottom") then Infinity(true)
      else NaN
  }

  // ---------------------------------------------------------------------
  // Transforms

  function ApplyMatrix(m: Matrix, p: Point, rotate: (real, Point) -> Point): Point {
    match m
    case TranslateBy(dx, dy) => Point(p.x + dx, p.y + dy)
    case MirrorX => Point(-p.x, p.y)
    case RotateBy(radians) => rotate(radians, p)
  }

  /** `applyToPoint(compose(...ms), p)`: the rightmost matrix acts first. */
  function Compose(ms: seq<Matrix>, p: Point, rotate: (real, Point) -> Point): Point {
    if ms == [] then p else ApplyMatrix(ms[0], Compose(ms[1..], p, rotate), rotate)
  }

  function MirrorAbout(c: Point): seq<Matrix> {
    [TranslateBy(c.x, c.y), MirrorX, TranslateBy(-c.x, -c.y)]
  }

  function RotationAbout(c: Point, radians: real): seq<Matrix> {
    [TranslateBy(c.x, c.y), RotateBy(radians), TranslateBy(-c.x, -c.y)]
  }

  /** The rotation in degrees after the bottom layer has negated it. */
  function RotationDegrees(note: NoteText): real {
    var degrees := OrElse(note.ccwRotation, 0.0);
    if note.layer == Some("bottom") then -degrees else degrees
  }

  /** The transforms pushed for a note whose outlines are centred at `c`. */
  function Transforms(note: NoteText, c: Point): seq<Matrix> {
    var rotationDegrees := RotationDegrees(note);
    (if note.layer == Some("bottom") then MirrorAbout(c) else [])
    + (if Truthy(rotationDegrees) then RotationAbout(c, rotationDegrees * Pi / 180.0) else [])
  }

  function TransformOutline(o: Outline, ms: seq<Matrix>, rotate: (real, Point) -> Point): (r: Outline)
    ensures |r| == |o|
  {
    seq(|o|, i requires 0 <= i < |o| => Compose(ms, o[i], rotate))
  }

  function TransformOutlines(outlines: seq<Outline>, ms: seq<Matrix>, rotate: (real, Point) -> Point): (r: seq<Outline>)
    ensures |r| == |outlines|
  {
    seq(|outlines|, i requires 0 <= i < |outlines| => TransformOutline(outlines[i], ms, rotate))
  }

  /**
   * The outlines as returned. With no points at all every outline is empty,
   * so mapping the (NaN-centred) transforms over them changes nothing.
   */
  function Transformed(normalized: seq<Outline>, note: NoteText, rotate: (real, Point) -> Point): seq<Outline> {
    var bounds := BoundsOf(Flatten(normalized));
    if bounds.None? then normalized
    else
      var ms := Transforms(note, Center(bounds.value));
      if ms == [] then normalized else TransformOutlines(normalized, ms, rotate)
  }

  /** The font's outlines for `text` at the given glyph height. */
  function GlyphOutlines(glyphs: (real, string) -> seq<Outline>, height: real, text: string): seq<Outline> {
    glyphs(height, text)
  }

  /** What `createFabricationNoteTextGeoms` returns. */
  function TextGeomsOf(note: NoteText, glyphs: (real, string) -> seq<Outline>,
                       rotate: (real, Point) -> Point): TextGeoms
  {
    var fontSize := FontSize(note);
    var anchorPosition := AnchorPosition(note);
    if note.text.None? || note.text.value == "" then
      TextGeoms([], Finite(0.0), Finite(0.0), anchorPosition, fontSize)
    else
      LaidOut(GlyphOutlines(glyphs, GlyphHeightFor(fontSize), note.text.value), note, rotate, anchorPosition, fontSize)
  }

  /** The result for non-empty text whose glyphs gave `textOutlines`. */
  function LaidOut(textOutlines: seq<Outline>, note: NoteText, rotate: (real, Point) -> Point,
                   anchorPosition: Point, fontSize: real): TextGeoms
  {
    if textOutlines == [] then TextGeoms(textOutlines, Finite(0.0), Finite(0.0), anchorPosition, fontSize)
    else
      var normalized := Normalized(textOutlines);
      var bounds := BoundsOf(Flatten(normalized));
      TextGeoms(Transformed(normalized, note, rotate),
                XOffset(bounds, Alignment(note)), YOffset(bounds, Alignment(note)),
                anchorPosition, fontSize)
  }

  /** The pushes onto `transforms`, with the bottom layer negating the rotation. */
  method BuildTransforms(note: NoteText, center: Point) returns (transforms: seq<Matrix>)
    ensures transforms == Transforms(note, center)
  {
    var rotationDegrees := OrElse(note.ccwRotation, 0.0);
    transforms := [];
    if note.layer == Some("bottom") {
      transforms := transforms + MirrorAbout(center);
      rotationDegrees := -rotationDegrees;
    }
    if Truthy(rotationDegrees) {
      transforms := transforms + RotationAbout(center, rotationDegrees * Pi / 180.0);
    }
  }

  /** `createFabricationNoteTextGeoms` */
  method CreateFabricationNoteTextGeoms(note: NoteText, glyphs: (real, string) -> seq<Outline>,
                                        rotate: (real, Point) -> Point)
    returns (geoms: TextGeoms)
    ensures geoms == TextGeomsOf(note, glyphs, rotate)
  {
    var fontSize := FontSize(note);
    var anchorPosition := AnchorPosition(note);
    if note.text.None? || note.text.value == "" {
      geoms := TextGeoms([], Finite(0.0), Finite(0.0), anchorPosition, fontSize);
    } else {
      var textOutlines := GlyphOutlines(glyphs, GlyphHeightFor(fontSize), note.text.value);
      geoms := LayOut(textOutlines, note, rotate, anchorPosition, fontSize);
    }
  }

  /** The rest of `createFabricationNoteTextGeoms` once the glyphs are known. */
  method LayOut(textOutlines: seq<Outline>, note: NoteText, rotate: (real, Point) -> Point,
                anchorPosition: Point, fontSize: real)
    returns (geoms: TextGeoms)
    ensures geoms == LaidOut(textOutlines, note, rotate, anchorPosition, fontSize)
  {
    if |textOutlines| == 0 {
      return TextGeoms(textOutlines, Finite(0.0), Finite(0.0), anchorPosition, fontSize);
    }
    var normalizedOutlines := NormalizeOutlines(textOutlines);
    var bounds := BoundsOf(Flatten(normalizedOutlines));
    var alignment := Alignment(note);
    var xOffset := XOffset(bounds, alignment);
    var yOffset := YOffset(bounds, alignment);
    var transformedOutlines := TransformIfNeeded(normalizedOutlines, bounds, note, rotate);
    return TextGeoms(transformedOutlines, xOffset, yOffset, anchorPosition, fontSize);
  }

  /** The transforms are built only when there are points, and applied only when there are some. */
  method TransformIfNeeded(normalized: seq<Outline>, bounds: Option<Bounds>, note: NoteText,
                           rotate: (real, Point) -> Point)
    returns (transformed: seq<Outline>)
    requires bounds == BoundsOf(Flatten(normalized))
    ensures transformed == Transformed(normalized, note, rotate)
  {
    transformed := normalized;
    if bounds.Some? {
      var transforms := BuildTransforms(note, Center(bounds.value));
      if |transforms| > 0 {
        transformed := TransformOutlines(normalized, transforms, rotate);
      }
    }
  }

  // ---------------------------------------------------------------------
  // Properties: anchor and font size

  /** No anchor gives (0, 0); a string coordinate that is NaN or 0 gives 0; a number is kept. */
  lemma AnchorDefaults(note: NoteText)
    ensures note.anchorPosition.None? ==> AnchorPosition(note) == Point(0.0, 0.0)
    ensures note.anchorPosition.Some? && note.anchorPosition.value.x.None? ==> AnchorPosition(note).x == 0.0
    ensures note.anchorPosition.Some? && note.anchorPosition.value.x.Some?
            && note.anchorPosition.value.x.value.Str?
            && (ParseFloat(note.anchorPosition.value.x.value.s).None?
                || ParseFloat(note.anchorPosition.value.x.value.s) == Some(0.0))
            ==> AnchorPosition(note).x == 0.0
    ensures note.anchorPosition.Some? && note.anchorPosition.value.y.Some? && note.anchorPosition.value.y.value.Num?
            ==> AnchorPosition(note).y == note.anchorPosition.value.y.value.n
  {
  }

  /**
   * The font size is 0.25 exactly when it is missing, the number 0, or a
   * string that parses to NaN or 0; otherwise it is the given or parsed value.
   */
  lemma FontSizeDefault(note: NoteText)
    ensures FontSize(note) == 0.25 || Truthy(FontSize(note))
    ensures note.fontSize.None? || note.fontSize == Some(Num(0.0)) ==> FontSize(note) == 0.25
    ensures note.fontSize.Some? && note.fontSize.value.Str?
            && (ParseFloat(note.fontSize.value.s).None? || ParseFloat(note.fontSize.value.s) == Some(0.0))
            ==> FontSize(note) == 0.25
    ensures note.fontSize.Some? && note.fontSize.value.Num? && note.fontSize.value.n != 0.0
            ==> FontSize(note) == note.fontSize.value.n
    ensures note.fontSize.Some? && note.fontSize.value.Str? && ParseFloat(note.fontSize.value.s).Some?
            && ParseFloat(note.fontSize.value.s).value != 0.0
            ==> FontSize(note) == ParseFloat(note.fontSize.value.s).value
  {
  }

  /** Empty or missing text lays out nothing, with zero offsets. */
  lemma EmptyTextLaysOutNothing(note: NoteText, glyphs: (real, string) -> seq<Outline>,
                                rotate: (real, Point) -> Point)
    requires note.text.None? || note.text == Some("")
    ensures var g := TextGeomsOf(note, glyphs, rotate);
            g.textOutlines == [] && g.xOffset == Finite(0.0) && g.yOffset == Finite(0.0)
            && g.anchorPosition == AnchorPosition(note) && g.fontSize == FontSize(note)
  {
  }

  /** The font is asked for glyphs 0.45 times the font size high. */
  lemma GlyphHeight(note: NoteText, glyphs: (real, string) -> seq<Outline>, rotate: (real, Point) -> Point)
    requires note.text.Some? && note.text.value != ""
    requires GlyphOutlines(glyphs, FontSize(note) * 0.45, note.text.value) == []
    ensures TextGeomsOf(note, glyphs, rotate).textOutlines == []
    ensures TextGeomsOf(note, glyphs, rotate).xOffset == Finite(0.0)
  {
    var outlines := GlyphOutlines(glyphs, GlyphHeightFor(FontSize(note)), note.text.value);
    assert outlines == [];
    LayoutOfText(note, glyphs, rotate);
    NothingToTransform(note, rotate);
  }

  lemma NothingToTransform(note: NoteText, rotate: (real, Point) -> Point)
    ensures Transformed(Normalized([]), note, rotate) == []
  {
    assert Normalized([]) == [];
  }

  // ---------------------------------------------------------------------
  // Properties: splitting

  /**
   * The two strokes of a split glyph share one point and together give back
   * the glyph; every other outline passes through unchanged.
   */
  lemma SplitSharesOnePoint(o: Outline)
    ensures |o| == 29 ==> var parts := SplitOutline(o);
              |parts| == 2 && |parts[0]| == 15 && |parts[1]| == 15
              && parts[0][14] == parts[1][0] && parts[0] + parts[1][1..] == o
    ensures |o| == 17 ==> var parts := SplitOutline(o);
              |parts| == 2 && |parts[0]| == 10 && |parts[1]| == 8
              && parts[0][9] == parts[1][0] && parts[0] + parts[1][1..] == o
    ensures |o| != 29 && |o| != 17 ==> SplitOutline(o) == [o]
  {
    if |o| == 29 {
      assert o[..15] + o[14..29][1..] == o;
    } else if |o| == 17 {
      assert o[..10] + o[9..17][1..] == o;
    }
  }

  lemma {:induction false} FlattenAppend(a: seq<Outline>, b: seq<Outline>)
    ensures Flatten(a + b) == Flatten(a) + Flatten(b)
    decreases |b|
  {
    if b == [] {
      assert a + b == a;
    } else {
      var c := b[..|b| - 1];
      assert (a + b)[..|a + b| - 1] == a + c;
      FlattenAppend(a, c);
    }
  }

  lemma FlattenSingle(o: Outline)
    ensures Flatten([o]) == o
  {
    assert [o][..0] == [];
  }

  /** The strokes of a split outline hold exactly the outline's points. */
  lemma SplitKeepsPoints(o: Outline)
    ensures forall p :: p in Flatten(SplitOutline(o)) <==> p in o
  {
    if |o| == 29 {
      assert o[14..29] == o[14..];
      TwoStrokesKeepPoints(o, 15);
    } else if |o| == 17 {
      assert o[9..17] == o[9..];
      TwoStrokesKeepPoints(o, 10);
    } else {
      FlattenSingle(o);
    }
  }

  /** Two strokes sharing the point at `k - 1` hold exactly the outline's points. */
  lemma TwoStrokesKeepPoints(o: Outline, k: nat)
    requires 0 < k <= |o|
    ensures forall p :: p in Flatten([o[..k], o[k - 1..]]) <==> p in o
  {
    FlattenAppend([o[..k]], [o[k - 1..]]);
    assert [o[..k], o[k - 1..]] == [o[..k]] + [o[k - 1..]];
    FlattenSingle(o[..k]);
    FlattenSingle(o[k - 1..]);
    assert o == o[..k] + o[k..];
  }

  /** A point lies on some normalised outline exactly when it lies on some glyph outline. */
  lemma {:induction false} NormalizedKeepsPoints(outlines: seq<Outline>)
    ensures forall p :: p in Flatten(Normalized(outlines)) <==> p in Flatten(outlines)
  {
    if outlines != [] {
      var init := outlines[..|outlines| - 1];
      var o := outlines[|outlines| - 1];
      NormalizedKeepsPoints(init);
      FlattenAppend(Normalized(init), SplitOutline(o));
      SplitKeepsPoints(o);
    }
  }

  // ---------------------------------------------------------------------
  // Properties: bounds

  /** Every point lies in the box, and every side of the box touches a point. */
  lemma {:induction false} BoundsTight(points: seq<Point>)
    requires points != []
    ensures var b := BoundsOf(points).value;
            (forall i :: 0 <= i < |points| ==>
               b.minX <= points[i].x <= b.maxX && b.minY <= points[i].y <= b.maxY)
            && (exists i :: 0 <= i < |points| && points[i].x == b.minX)
            && (exists i :: 0 <= i < |points| && points[i].x == b.maxX)
            && (exists i :: 0 <= i < |points| && points[i].y == b.minY)
            && (exists i :: 0 <= i < |points| && points[i].y == b.maxY)
  {
    var n := |points| - 1;
    var init := points[..n];
    if init != [] {
      BoundsTight(init);
      var r := BoundsOf(init).value;
      var b := BoundsOf(points).value;
      assert forall i :: 0 <= i < n ==> init[i] == points[i];
      if b.minX != points[n].x {
        var i :| 0 <= i < n && init[i].x == r.minX;
        assert points[i].x == b.minX;
      }
      if b.maxX != points[n].x {
        var i :| 0 <= i < n && init[i].x == r.maxX;
        assert points[i].x == b.maxX;
      }
      if b.minY != points[n].y {
        var i :| 0 <= i < n && init[i].y == r.minY;
        assert points[i].y == b.minY;
      }
      if b.maxY != points[n].y {
        var i :| 0 <= i < n && init[i].y == r.maxY;
        assert points[i].y == b.maxY;
      }
    }
  }

  /** A box that holds every point and touches a point on each side is the bounding box. */
  lemma BoundsCharacterised(points: seq<Point>, b: Bounds)
    requires points != []
    requires forall p :: p in points ==> b.minX <= p.x <= b.maxX && b.minY <= p.y <= b.maxY
    requires exists p :: p in points && p.x == b.minX
    requires exists p :: p in points && p.x == b.maxX
    requires exists p :: p in points && p.y == b.minY
    requires exists p :: p in points && p.y == b.maxY
    ensures BoundsOf(points) == Some(b)
  {
    BoundsTight(points);
    var r := BoundsOf(points).value;
    assert r.minX == b.minX by {
      var p :| p in points && p.x == b.minX;
      var i :| 0 <= i < |points| && points[i].x == r.minX;
      assert points[i] in points;
    }
    assert r.maxX == b.maxX by {
      var p :| p in points && p.x == b.maxX;
      var i :| 0 <= i < |points| && points[i].x == r.maxX;
      assert points[i] in points;
    }
    assert r.minY == b.minY by {
      var p :| p in points && p.y == b.minY;
      var i :| 0 <= i < |points| && points[i].y == r.minY;
      assert points[i] in points;
    }
    assert r.maxY == b.maxY by {
      var p :| p in points && p.y == b.maxY;
      var i :| 0 <= i < |points| && points[i].y == r.maxY;
      assert points[i] in points;
    }
  }

  /** Point lists with the same points have the same bounding box. */
  lemma SamePointsSameBounds(p: seq<Point>, q: seq<Point>)
    requires forall x :: x in p <==> x in q
    ensures BoundsOf(p) == BoundsOf(q)
  {
    assert forall i :: 0 <= i < |q| ==> q[i] in p;
    if p != [] {
      assert p[0] in q;
      BoundsTight(p);
      var b := BoundsOf(p).value;
      forall x | x in q
        ensures b.minX <= x.x <= b.maxX && b.minY <= x.y <= b.maxY
      {
        var i :| 0 <= i < |p| && p[i] == x;
      }
      var i1 :| 0 <= i1 < |p| && p[i1].x == b.minX;
      var i2 :| 0 <= i2 < |p| && p[i2].x == b.maxX;
      var i3 :| 0 <= i3 < |p| && p[i3].y == b.minY;
      var i4 :| 0 <= i4 < |p| && p[i4].y == b.maxY;
      assert p[i1] in q && p[i2] in q && p[i3] in q && p[i4] in q;
      BoundsCharacterised(q, b);
    }
  }

  /** Splitting the two-stroke glyphs does not change the bounding box. */
  lemma SplittingKeepsBounds(outlines: seq<Outline>)
    ensures BoundsOf(Flatten(Normalized(outlines))) == BoundsOf(Flatten(outlines))
  {
    NormalizedKeepsPoints(outlines);
    SamePointsSameBounds(Flatten(Normalized(outlines)), Flatten(outlines));
  }

  /**
   * The offsets place the aligned edge at the anchor: with "right" the box's
   * right edge, else with "left" its left edge, else its centre; likewise
   * "top" before "bottom" vertically.
   */
  lemma AlignmentPlacesEdge(b: Bounds, alignment: string)
    ensures var x := XOffset(Some(b), alignment).value;
            (Includes(alignment, "right") ==> b.maxX + x == 0.0)
            && (!Includes(alignment, "right") && Includes(alignment, "left") ==> b.minX + x == 0.0)
            && (!Includes(alignment, "right") && !Includes(alignment, "left") ==> Center(b).x + x == 0.0)
    ensures var y := YOffset(Some(b), alignment).value;
            (Includes(alignment, "top") ==> b.maxY + y == 0.0)
            && (!Includes(alignment, "top") && Includes(alignment, "bottom") ==> b.minY + y == 0.0)
            && (!Includes(alignment, "top") && !Includes(alignment, "bottom") ==> Center(b).y + y == 0.0)
  {
  }

  /** A missing alignment centres the text on the anchor. */
  lemma MissingAlignmentCentres(note: NoteText, b: Bounds)
    requires note.anchorAlignment.None?
    ensures XOffset(Some(b), Alignment(note)) == Finite(-Center(b).x)
    ensures YOffset(Some(b), Alignment(note)) == Finite(-Center(b).y)
  {
    CenterNamesNoSide(Alignment(note));
  }

  /** "center" includes none of the four side names. */
  lemma CenterNamesNoSide(center: string)
    requires center == "center"
    ensures !Includes(center, "right") && !Includes(center, "left")
    ensures !Includes(center, "top") && !Includes(center, "bottom")
  {
    var chars := {'c', 'e', 'n', 't', 'r'};
    assert forall i :: 0 <= i < |center| ==> center[i] in chars;
    MissingCharNotIncluded(center, "right", 2);   // no 'g'
    MissingCharNotIncluded(center, "left", 0);    // no 'l'
    MissingCharNotIncluded(center, "top", 1);     // no 'o'
    MissingCharNotIncluded(center, "bottom", 0);  // no 'b'
  }

  // ---------------------------------------------------------------------
  // Properties: transforms

  lemma {:induction false} ComposeAppend(a: seq<Matrix>, b: seq<Matrix>, p: Point, rotate: (real, Point) -> Point)
    ensures Compose(a + b, p, rotate) == Compose(a, Compose(b, p, rotate), rotate)
  {
    if a != [] {
      assert (a + b)[1..] == a[1..] + b;
      ComposeAppend(a[1..], b, p, rotate);
    } else {
      assert a + b == b;
    }
  }

  lemma Compose3(a: Matrix, b: Matrix, c: Matrix, p: Point, rotate: (real, Point) -> Point)
    ensures Compose([a, b, c], p, rotate)
            == ApplyMatrix(a, ApplyMatrix(b, ApplyMatrix(c, p, rotate), rotate), rotate)
  {
    assert [a, b, c][1..] == [b, c];
    assert [b, c][1..] == [c];
    assert [c][1..] == [];
    assert Compose([c], p, rotate) == ApplyMatrix(c, p, rotate);
    assert Compose([b, c], p, rotate) == ApplyMatrix(b, Compose([c], p, rotate), rotate);
  }

  /** The bottom-layer mirror sends x to 2 centreX - x and keeps y. */
  lemma MirrorReflectsAboutCenter(c: Point, p: Point, rotate: (real, Point) -> Point)
    ensures Compose(MirrorAbout(c), p, rotate) == Point(2.0 * c.x - p.x, p.y)
    ensures Compose(MirrorAbout(c), Compose(MirrorAbout(c), p, rotate), rotate) == p
  {
    Compose3(TranslateBy(c.x, c.y), MirrorX, TranslateBy(-c.x, -c.y), p, rotate);
    Compose3(TranslateBy(c.x, c.y), MirrorX, TranslateBy(-c.x, -c.y), Compose(MirrorAbout(c), p, rotate), rotate);
  }

  /**
   * Bottom-layer text is rotated about the centre by the negated angle
   * first and then mirrored; with a zero angle it is only mirrored.
   */
  lemma BottomMirrorsAndNegates(note: NoteText, c: Point, p: Point, rotate: (real, Point) -> Point)
    requires note.layer == Some("bottom")
    ensures RotationDegrees(note) == -OrElse(note.ccwRotation, 0.0)
    ensures var rotated := if Truthy(RotationDegrees(note))
                           then Compose(RotationAbout(c, RotationDegrees(note) * Pi / 180.0), p, rotate)
                           else p;
            Compose(Transforms(note, c), p, rotate) == Point(2.0 * c.x - rotated.x, rotated.y)
  {
    var rotationDegrees := RotationDegrees(note);
    if Truthy(rotationDegrees) {
      var r := RotationAbout(c, rotationDegrees * Pi / 180.0);
      ComposeAppend(MirrorAbout(c), r, p, rotate);
      MirrorReflectsAboutCenter(c, Compose(r, p, rotate), rotate);
    } else {
      MirrorReflectsAboutCenter(c, p, rotate);
      assert Transforms(note, c) == MirrorAbout(c) + [];
      assert MirrorAbout(c) + [] == MirrorAbout(c);
    }
  }

  /**
   * Non-empty text is laid out from the split glyph outlines, and its
   * offsets come from their bounding box unless the font gave no outline.
   */
  lemma LayoutOfText(note: NoteText, glyphs: (real, string) -> seq<Outline>, rotate: (real, Point) -> Point)
    requires note.text.Some? && note.text.value != ""
    ensures var textOutlines := GlyphOutlines(glyphs, GlyphHeightFor(FontSize(note)), note.text.value);
            var g := TextGeomsOf(note, glyphs, rotate);
            g.textOutlines == Transformed(Normalized(textOutlines), note, rotate)
            && (textOutlines == [] ==> g.xOffset == Finite(0.0) && g.yOffset == Finite(0.0))
            && (textOutlines != [] ==>
                  var bounds := BoundsOf(Flatten(Normalized(textOutlines)));
                  g.xOffset == XOffset(bounds, Alignment(note)) && g.yOffset == YOffset(bounds, Alignment(note)))
  {
    var textOutlines := GlyphOutlines(glyphs, GlyphHeightFor(FontSize(note)), note.text.value);
    assert TextGeomsOf(note, glyphs, rotate)
           == LaidOut(textOutlines, note, rotate, AnchorPosition(note), FontSize(note));
    LaidOutOffsets(textOutlines, note, rotate, AnchorPosition(note), FontSize(note));
  }

  lemma LaidOutOffsets(textOutlines: seq<Outline>, note: NoteText, rotate: (real, Point) -> Point,
                       anchorPosition: Point, fontSize: real)
    ensures var g := LaidOut(textOutlines, note, rotate, anchorPosition, fontSize);
            g.textOutlines == Transformed(Normalized(textOutlines), note, rotate)
            && (textOutlines == [] ==> g.xOffset == Finite(0.0) && g.yOffset == Finite(0.0))
            && (textOutlines != [] ==>
                  var bounds := BoundsOf(Flatten(Normalized(textOutlines)));
                  g.xOffset == XOffset(bounds, Alignment(note)) && g.yOffset == YOffset(bounds, Alignment(note)))
  {
    if textOutlines == [] {
      assert Normalized(textOutlines) == [];
      assert Transformed([], note, rotate) == [];
    }
  }

  lemma {:induction false} FlattenEmpty(outlines: seq<Outline>)
    ensures Flatten(outlines) == [] ==> forall i :: 0 <= i < |outlines| ==> outlines[i] == []
  {
    if outlines != [] {
      FlattenEmpty(outlines[..|outlines| - 1]);
    }
  }

  /**
   * The offsets are NaN or infinite only when no glyph has a point, so
   * every outline drawn with them is empty.
   */
  lemma UndefinedOffsetsDrawNothing(note: NoteText, glyphs: (real, string) -> seq<Outline>,
                                    rotate: (real, Point) -> Point)
    requires !TextGeomsOf(note, glyphs, rotate).xOffset.Finite? || !TextGeomsOf(note, glyphs, rotate).yOffset.Finite?
    ensures var outlines := TextGeomsOf(note, glyphs, rotate).textOutlines;
            forall i :: 0 <= i < |outlines| ==> outlines[i] == []
  {
    if note.text.Some? && note.text.value != "" {
      var normalized := Normalized(GlyphOutlines(glyphs, GlyphHeightFor(FontSize(note)), note.text.value));
      LayoutOfText(note, glyphs, rotate);
      FlattenEmpty(normalized);
    }
  }

  /** Top-layer text without a rotation comes back exactly as split. */
  lemma NoTransformsKeepOutlines(normalized: seq<Outline>, note: NoteText, rotate: (real, Point) -> Point)
    requires note.layer != Some("bottom")
    requires note.ccwRotation.None? || note.ccwRotation == Some(0.0)
    ensures Transformed(normalized, note, rotate) == normalized
  {
    var bounds := BoundsOf(Flatten(normalized));
    if bounds.Some? {
      assert Transforms(note, Center(bounds.value)) == [];
    }
  }

  lemma {:induction false} FlattenTransform(outlines: seq<Outline>, ms: seq<Matrix>, rotate: (real, Point) -> Point)
    ensures Flatten(TransformOutlines(outlines, ms, rotate)) == TransformOutline(Flatten(outlines), ms, rotate)
  {
    if outlines != [] {
      var n := |outlines| - 1;
      var t := TransformOutlines(outlines, ms, rotate);
      assert t[..n] == TransformOutlines(outlines[..n], ms, rotate);
      FlattenTransform(outlines[..n], ms, rotate);
      assert TransformOutline(Flatten(outlines), ms, rotate)
             == TransformOutline(Flatten(outlines[..n]), ms, rotate) + TransformOutline(outlines[n], ms, rotate);
    }
  }

  /** Mirroring points about their box centre keeps their box. */
  lemma MirrorKeepsBounds(points: seq<Point>, rotate: (real, Point) -> Point)
    requires points != []
    ensures var b := BoundsOf(points).value;
            BoundsOf(TransformOutline(points, MirrorAbout(Center(b)), rotate)) == Some(b)
  {
    var b := BoundsOf(points).value;
    var c := Center(b);
    var m := TransformOutline(points, MirrorAbout(c), rotate);
    BoundsTight(points);
    forall i | 0 <= i < |points|
      ensures m[i] == Point(2.0 * c.x - points[i].x, points[i].y)
    {
      MirrorReflectsAboutCenter(c, points[i], rotate);
    }
    var i1 :| 0 <= i1 < |points| && points[i1].x == b.minX;
    var i2 :| 0 <= i2 < |points| && points[i2].x == b.maxX;
    var i3 :| 0 <= i3 < |points| && points[i3].y == b.minY;
    var i4 :| 0 <= i4 < |points| && points[i4].y == b.maxY;
    assert m[i2] in m && m[i2].x == b.minX;
    assert m[i1] in m && m[i1].x == b.maxX;
    assert m[i3] in m && m[i4] in m;
    forall q | q in m
      ensures b.minX <= q.x <= b.maxX && b.minY <= q.y <= b.maxY
    {
      var i :| 0 <= i < |m| && m[i] == q;
    }
    BoundsCharacterised(m, b);
  }

  /**
   * Bottom-layer text with no rotation keeps the bounding box of its split
   * outlines, so the offsets computed before mirroring still align it.
   */
  lemma BottomMirrorKeepsBounds(normalized: seq<Outline>, note: NoteText, rotate: (real, Point) -> Point)
    requires note.layer == Some("bottom")
    requires note.ccwRotation.None? || note.ccwRotation == Some(0.0)
    ensures BoundsOf(Flatten(Transformed(normalized, note, rotate))) == BoundsOf(Flatten(normalized))
  {
    var points := Flatten(normalized);
    if points != [] {
      var c := Center(BoundsOf(points).value);
      assert Transforms(note, c) == MirrorAbout(c) + [];
      assert MirrorAbout(c) + [] == MirrorAbout(c);
      FlattenTransform(normalized, MirrorAbout(c), rotate);
      MirrorKeepsBounds(points, rotate);
    }
  }
}
