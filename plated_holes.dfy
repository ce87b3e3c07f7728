/**
 * `processPlatedHolesForManifold`: every plated hole gives a drill that is
 * later cut out of the board and, when its shape is understood, a copper
 * part (barrel, ring or pads) that is clipped to the board outline. All
 * copper parts are finally united into one solid that callers subtract
 * from other copper. Every solid the source registers for deletion is
 * appended, in the source's order, to the caller's cleanup list.
 */
module PlatedHoles {
  import opened JsValues
  import opened Polygon
  import opened Kernel
  import opened CircuitJson
  import opened PadGeoms

  /** `PLATED_HOLE_LIP_HEIGHT` */
  const LipHeight: real := 0.05

  /** The pad extension of a pill hole without outer dimensions: 0.2 per side. */
  const DefaultPadExtension: real := 0.4

  /** What every hole shares: the board thickness, the optional clip volume and the unshown helpers. */
  datatype Context = Context(pcbThickness: real, clip: Option<Solid>, consts: Constants, helpers: RadiusHelpers)

  /** The three `console.warn` messages, by the hole they name. */
  datatype Warning = MissingPadOutline(id: string) | MissingHoleDiameter(id: string) | UnsupportedHoleShape(id: string)

  /**
   * What one hole does: the solids it registers for cleanup, in order, the
   * board drills it adds, its copper part if any, and its warnings.
   */
  datatype Outcome = Outcome(created: seq<Instance>, drills: seq<Solid>, copper: Option<Solid>, warnings: seq<Warning>)

  /** What `processPlatedHolesForManifold` returns. */
  datatype PlatedHolesResult = PlatedHolesResult(drills: seq<Solid>, geoms: seq<CopperGeom>, subtractOp: Option<Solid>)

  /** `ph-${pcb_plated_hole_id || index}` */
  function HoleKey(id: string, index: nat): string {
    "ph-" + (if id != "" then id else NatToString(index))
  }

  /** The height of the copper of a barrel: the board plus a little on each side. */
  function CopperThickness(ctx: Context): real {
    ctx.pcbThickness + 2.0 * ctx.consts.manifoldZOffset
  }

  /** How deep a board drill cuts: a fifth more than the board, so it goes through. */
  function DrillDepth(ctx: Context): real {
    ctx.pcbThickness * 1.2
  }

  /** A stadium-shaped prism: a rounded rectangle whose radius is half its smaller side. */
  function Pill(width: real, height: real, depth: real, ctx: Context): Solid {
    RoundedRectPrism(width, height, depth, ctx.helpers.Clamp(width, height, Some(Min(width, height) / 2.0)))
  }

  /** The copper intersected with the clip volume, when one is given. */
  function Clipped(copper: Solid, ctx: Context): Solid {
    if ctx.clip.Some? then Intersect([copper, ctx.clip.value]) else copper
  }

  /** The intersection, registered only when it is made. */
  function ClipInstances(copper: Solid, ctx: Context): seq<Instance> {
    if ctx.clip.Some? then [SolidInstance(Intersect([copper, ctx.clip.value]))] else []
  }

  // ---------------------------------------------------------------- shared steps

  /** The `createPillOp` closure: build a pill and register it. */
  method CreatePillOp(width: real, height: real, depth: real, ctx: Context, cleanup: InstanceList)
    returns (pill: Solid)
    modifies cleanup
    ensures pill == Pill(width, height, depth, ctx)
    ensures cleanup.items == old(cleanup.items) + [SolidInstance(pill)]
  {
    pill := CreateRoundedRectPrism(width, height, depth, Some(Min(width, height) / 2.0), ctx.helpers);
    cleanup.PushSolid(pill);
  }

  /** The clip step every branch ends with. */
  method ClipCopper(copper: Solid, ctx: Context, cleanup: InstanceList) returns (final: Solid)
    modifies cleanup
    ensures final == Clipped(copper, ctx)
    ensures cleanup.items == old(cleanup.items) + ClipInstances(copper, ctx)
  {
    final := copper;
    if ctx.clip.Some? {
      var clipped := Intersect([copper, ctx.clip.value]);
      cleanup.PushSolid(clipped);
      final := clipped;
    }
  }

  // ---------------------------------------------------------------- shape "circle"

  function CircleOutcome(ph: PlatedHole, ctx: Context): Outcome
    requires ph.CircleHole?
  {
    var segments := ctx.consts.smoothCircleSegments;
    var drill := PlatedHoleDrill(ph.x, ph.y, ph.holeDiameter * 1.02, ctx.pcbThickness,
                                 ctx.consts.manifoldZOffset, segments);
    var thickness := CopperThickness(ctx);
    var platedPart := Cylinder(thickness, ph.outerDiameter / 2.0, ph.outerDiameter / 2.0, segments);
    var drillForCopper := Cylinder(thickness * 1.05, ph.holeDiameter / 2.0, ph.holeDiameter / 2.0, segments);
    var ring := Subtract(platedPart, drillForCopper);
    var placed := Translate(ring, ph.x, ph.y, 0.0);
    Outcome(
      [SolidInstance(drill), SolidInstance(platedPart), SolidInstance(drillForCopper),
       SolidInstance(ring), SolidInstance(placed)] + ClipInstances(placed, ctx),
      [drill], Some(Clipped(placed, ctx)), [])
  }

  method ProcessCircle(ph: PlatedHole, ctx: Context, cleanup: InstanceList)
    returns (drills: seq<Solid>, copper: Option<Solid>)
    requires ph.CircleHole?
    modifies cleanup
    ensures drills == CircleOutcome(ph, ctx).drills && copper == CircleOutcome(ph, ctx).copper
    ensures cleanup.items == old(cleanup.items) + CircleOutcome(ph, ctx).created
  {
    var segments := ctx.consts.smoothCircleSegments;
    var translatedDrill := PlatedHoleDrill(ph.x, ph.y, ph.holeDiameter * 1.02, ctx.pcbThickness,
                                           ctx.consts.manifoldZOffset, segments);
    cleanup.PushSolid(translatedDrill);
    drills := [translatedDrill];
    var copperPartThickness := ctx.pcbThickness + 2.0 * ctx.consts.manifoldZOffset;
    var platedPart := Cylinder(copperPartThickness, ph.outerDiameter / 2.0, ph.outerDiameter / 2.0, segments);
    cleanup.PushSolid(platedPart);
    var drillForCopper := Cylinder(copperPartThickness * 1.05, ph.holeDiameter / 2.0, ph.holeDiameter / 2.0, segments);
    cleanup.PushSolid(drillForCopper);
    var finalPlatedPartOp := Subtract(platedPart, drillForCopper);
    cleanup.PushSolid(finalPlatedPartOp);
    var translatedPlatedPart := Translate(finalPlatedPartOp, ph.x, ph.y, 0.0);
    cleanup.PushSolid(translatedPlatedPart);
    var finalCopperOp := ClipCopper(translatedPlatedPart, ctx, cleanup);
    copper := Some(finalCopperOp);
  }

  // ---------------------------------------------------------------- shape "pill"

  /** The solid turned by `ccw_rotation` when that is present and non-zero. */
  function RotatedIfSet(s: Solid, rotation: Option<real>): Solid {
    if rotation.Some? && Truthy(rotation.value) then Rotate(s, rotation.value) else s
  }

  /** The rotated solid, registered only when it is made. */
  function RotationInstances(s: Solid, rotation: Option<real>): seq<Instance> {
    if rotation.Some? && Truthy(rotation.value) then [SolidInstance(Rotate(s, rotation.value))] else []
  }

  /** The pill's board drill before it is placed: a pill the board's depth and a little wider. */
  function PillDrillShape(ph: PlatedHole, ctx: Context): Solid
    requires ph.PillHole?
  {
    var z := ctx.consts.manifoldZOffset;
    Pill(ph.holeWidth + 2.0 * z, ph.holeHeight + 2.0 * z, DrillDepth(ctx), ctx)
  }

  /** The pill's board drill, maybe turned, moved to the hole's position. */
  function PillDrill(ph: PlatedHole, ctx: Context): Solid
    requires ph.PillHole?
  {
    Translate(RotatedIfSet(PillDrillShape(ph, ctx), ph.ccwRotation), ph.x, ph.y, 0.0)
  }

  function PillDrillCreated(ph: PlatedHole, ctx: Context): seq<Instance>
    requires ph.PillHole?
  {
    [SolidInstance(PillDrillShape(ph, ctx))] + RotationInstances(PillDrillShape(ph, ctx), ph.ccwRotation)
    + [SolidInstance(PillDrill(ph, ctx))]
  }

  /** The pill's copper ring before it is placed: the outer pill less the inner one. */
  function PillRingShape(ph: PlatedHole, ctx: Context): Solid
    requires ph.PillHole?
  {
    var thickness := CopperThickness(ctx);
    Subtract(Pill(PillOuterWidth(ph), PillOuterHeight(ph), thickness, ctx),
             Pill(ph.holeWidth, ph.holeHeight, thickness * 1.05, ctx))
  }

  /** The pill's copper ring, maybe turned, moved to the hole's position. */
  function PillRing(ph: PlatedHole, ctx: Context): Solid
    requires ph.PillHole?
  {
    Translate(RotatedIfSet(PillRingShape(ph, ctx), ph.ccwRotation), ph.x, ph.y, 0.0)
  }

  function PillRingCreated(ph: PlatedHole, ctx: Context): seq<Instance>
    requires ph.PillHole?
  {
    var ring := PillRingShape(ph, ctx);
    [SolidInstance(ring.base), SolidInstance(ring.cut), SolidInstance(ring)]
    + RotationInstances(ring, ph.ccwRotation) + [SolidInstance(PillRing(ph, ctx))]
  }

  function PillOuterWidth(ph: PlatedHole): real
    requires ph.PillHole?
  {
    OrElse(ph.outerWidth, ph.holeWidth + DefaultPadExtension)
  }

  function PillOuterHeight(ph: PlatedHole): real
    requires ph.PillHole?
  {
    OrElse(ph.outerHeight, ph.holeHeight + DefaultPadExtension)
  }

  function PillOutcome(ph: PlatedHole, ctx: Context): Outcome
    requires ph.PillHole?
  {
    var placed := PillRing(ph, ctx);
    Outcome(PillDrillCreated(ph, ctx) + PillRingCreated(ph, ctx) + ClipInstances(placed, ctx),
            [PillDrill(ph, ctx)], Some(Clipped(placed, ctx)), [])
  }

  /** `if (ph.ccw_rotation)`: turn and register. */
  method RotateIfSet(s: Solid, rotation: Option<real>, cleanup: InstanceList) returns (r: Solid)
    modifies cleanup
    ensures r == RotatedIfSet(s, rotation)
    ensures cleanup.items == old(cleanup.items) + RotationInstances(s, rotation)
  {
    r := s;
    if rotation.Some? && Truthy(rotation.value) {
      var rotatedOp := Rotate(s, rotation.value);
      cleanup.PushSolid(rotatedOp);
      r := rotatedOp;
    }
  }

  /** The pill's board drill: the pill (registered), maybe turned (registered), placed (registered). */
  method CreatePillDrill(ph: PlatedHole, ctx: Context, cleanup: InstanceList) returns (drill: Solid)
    requires ph.PillHole?
    modifies cleanup
    ensures drill == PillDrill(ph, ctx)
    ensures cleanup.items == old(cleanup.items) + PillDrillCreated(ph, ctx)
  {
    var drillW := ph.holeWidth + 2.0 * ctx.consts.manifoldZOffset;
    var drillH := ph.holeHeight + 2.0 * ctx.consts.manifoldZOffset;
    var drillDepth := ctx.pcbThickness * 1.2;
    var boardPillDrillOp := CreatePillOp(drillW, drillH, drillDepth, ctx, cleanup);
    boardPillDrillOp := RotateIfSet(boardPillDrillOp, ph.ccwRotation, cleanup);
    drill := Translate(boardPillDrillOp, ph.x, ph.y, 0.0);
    cleanup.PushSolid(drill);
  }

  /** The pill's copper ring: outer and inner pills, their difference, maybe turned, placed. */
  method CreatePillRing(ph: PlatedHole, outerW: real, outerH: real, ctx: Context, cleanup: InstanceList)
    returns (placed: Solid)
    requires ph.PillHole? && outerW == PillOuterWidth(ph) && outerH == PillOuterHeight(ph)
    modifies cleanup
    ensures placed == PillRing(ph, ctx)
    ensures cleanup.items == old(cleanup.items) + PillRingCreated(ph, ctx)
  {
    var copperPartThickness := ctx.pcbThickness + 2.0 * ctx.consts.manifoldZOffset;
    var outerCopperOpUnrotated := CreatePillOp(outerW, outerH, copperPartThickness, ctx, cleanup);
    var innerDrillOpUnrotated := CreatePillOp(ph.holeWidth, ph.holeHeight, copperPartThickness * 1.05, ctx, cleanup);
    var finalPlatedPartOp := Subtract(outerCopperOpUnrotated, innerDrillOpUnrotated);
    cleanup.PushSolid(finalPlatedPartOp);
    finalPlatedPartOp := RotateIfSet(finalPlatedPartOp, ph.ccwRotation, cleanup);
    placed := Translate(finalPlatedPartOp, ph.x, ph.y, 0.0);
    cleanup.PushSolid(placed);
  }

  method ProcessPill(ph: PlatedHole, ctx: Context, cleanup: InstanceList)
    returns (drills: seq<Solid>, copper: Option<Solid>)
    requires ph.PillHole?
    modifies cleanup
    ensures drills == PillOutcome(ph, ctx).drills && copper == PillOutcome(ph, ctx).copper
    ensures cleanup.items == old(cleanup.items) + PillOutcome(ph, ctx).created
  {
    var outerW := OrElse(ph.outerWidth, ph.holeWidth + DefaultPadExtension);
    var outerH := OrElse(ph.outerHeight, ph.holeHeight + DefaultPadExtension);
    var translatedBoardPillDrill := CreatePillDrill(ph, ctx, cleanup);
    drills := [translatedBoardPillDrill];
    var translatedPlatedPart := CreatePillRing(ph, outerW, outerH, ctx, cleanup);
    var finalCopperOp := ClipCopper(translatedPlatedPart, ctx, cleanup);
    copper := Some(finalCopperOp);
    AppendAssociates(old(cleanup.items), PillDrillCreated(ph, ctx), PillRingCreated(ph, ctx));
    AppendAssociates(old(cleanup.items), PillDrillCreated(ph, ctx) + PillRingCreated(ph, ctx),
                     ClipInstances(translatedPlatedPart, ctx));
  }

  // ---------------------------------------------------------------- the two rect-pad shapes

  /**
   * The copper both rect-pad shapes share: the fill between the two copper
   * layers and the top and bottom pads, the pads a quarter of the board
   * thickness (plus the copper offset) away from the middle.
   */
  datatype RectPads = RectPads(mainFill: Solid, topPad: Solid, bottomPad: Solid)

  function RectPadsOf(width: real, height: real, radius: Option<real>, ctx: Context): RectPads {
    var t, padThickness, copper := ctx.pcbThickness, ctx.consts.smtPadThickness, ctx.consts.copperOffset;
    var clamped := ctx.helpers.Clamp(width, height, radius);
    var pad := RoundedRectPrism(width, height, padThickness, clamped);
    RectPads(
      RoundedRectPrism(width, height, t - 2.0 * padThickness - 2.0 * copper + 0.1, clamped),
      Translate(pad, 0.0, 0.0, t / 2.0 / 2.0 + copper),
      Translate(pad, 0.0, 0.0, -t / 2.0 / 2.0 - copper))
  }

  /** The three rect-pad solids in the order they are registered. */
  function RectPadsCreated(pads: RectPads): seq<Instance> {
    [SolidInstance(pads.mainFill), SolidInstance(pads.topPad), SolidInstance(pads.bottomPad)]
  }

  /** The pads and the barrel, united. */
  function PadsAndBarrel(pads: RectPads, barrel: Solid): Solid {
    Union([pads.mainFill, pads.topPad, pads.bottomPad, barrel])
  }

  /** The united copper with the hole cut out, moved to the hole's position. */
  function PlacedRectPadCopper(union: Solid, holeCut: Solid, x: real, y: real): Solid {
    Translate(Subtract(union, holeCut), x, y, 0.0)
  }

  /** What the finishing step registers: the cut copper, the placed copper and the clip. */
  function FinishCreated(union: Solid, holeCut: Solid, x: real, y: real, ctx: Context): seq<Instance> {
    [SolidInstance(Subtract(union, holeCut)), SolidInstance(PlacedRectPadCopper(union, holeCut, x, y))]
    + ClipInstances(PlacedRectPadCopper(union, holeCut, x, y), ctx)
  }

  /** The fill is registered on its own, then both pads together. */
  method CreateRectPads(width: real, height: real, radius: Option<real>, ctx: Context, cleanup: InstanceList)
    returns (pads: RectPads)
    modifies cleanup
    ensures pads == RectPadsOf(width, height, radius, ctx)
    ensures cleanup.items == old(cleanup.items) + RectPadsCreated(pads)
  {
    var t, padThickness, copper := ctx.pcbThickness, ctx.consts.smtPadThickness, ctx.consts.copperOffset;
    var mainFill := CreateRoundedRectPrism(width, height, t - 2.0 * padThickness - 2.0 * copper + 0.1, radius,
                                           ctx.helpers);
    cleanup.PushSolid(mainFill);
    var topPrism := CreateRoundedRectPrism(width, height, padThickness, radius, ctx.helpers);
    var topPad := Translate(topPrism, 0.0, 0.0, t / 2.0 / 2.0 + copper);
    var bottomPrism := CreateRoundedRectPrism(width, height, padThickness, radius, ctx.helpers);
    var bottomPad := Translate(bottomPrism, 0.0, 0.0, -t / 2.0 / 2.0 - copper);
    cleanup.PushSolid(topPad);
    cleanup.PushSolid(bottomPad);
    pads := RectPads(mainFill, topPad, bottomPad);
  }

  /** Register the barrel, then the union of the pads and the barrel. */
  method UniteRectPadCopper(pads: RectPads, barrel: Solid, cleanup: InstanceList) returns (union: Solid)
    modifies cleanup
    ensures union == PadsAndBarrel(pads, barrel)
    ensures cleanup.items == old(cleanup.items) + [SolidInstance(barrel), SolidInstance(union)]
  {
    cleanup.PushSolid(barrel);
    union := Union([pads.mainFill, pads.topPad, pads.bottomPad, barrel]);
    cleanup.PushSolid(union);
  }

  /** Cut the hole out of the united copper, move it to the hole's position and clip it. */
  method FinishRectPadCopper(union: Solid, holeCut: Solid, x: real, y: real, ctx: Context, cleanup: InstanceList)
    returns (copper: Solid)
    modifies cleanup
    ensures copper == Clipped(PlacedRectPadCopper(union, holeCut, x, y), ctx)
    ensures cleanup.items == old(cleanup.items) + FinishCreated(union, holeCut, x, y, ctx)
  {
    var finalCopper := Subtract(union, holeCut);
    cleanup.PushSolid(finalCopper);
    var translatedCopper := Translate(finalCopper, x, y, 0.0);
    cleanup.PushSolid(translatedCopper);
    copper := ClipCopper(translatedCopper, ctx, cleanup);
  }

  /** A lip-inset pill dimension, never below 0.01. */
  function LipInset(d: real): real {
    Max(d - 2.0 * LipHeight, 0.01)
  }

  /** The registered solids of a pill-with-rect-pad hole's copper, after its drill. */
  function PillRectCopperCreated(ph: PlatedHole, ctx: Context): seq<Instance>
    requires ph.PillHoleWithRectPad?
  {
    var ox, oy := OrIfFalsy(ph.holeOffsetX, 0.0), OrIfFalsy(ph.holeOffsetY, 0.0);
    var pads := RectPadsOf(ph.rectPadWidth, ph.rectPadHeight, ctx.helpers.OfHole(ph), ctx);
    var barrelPill := Pill(ph.holeWidth, ph.holeHeight, ctx.pcbThickness * 1.02, ctx);
    var barrel := Translate(barrelPill, ox, oy, 0.0);
    var union := PadsAndBarrel(pads, barrel);
    var cutPill := Pill(LipInset(ph.holeWidth), LipInset(ph.holeHeight), DrillDepth(ctx), ctx);
    var holeCut := Translate(cutPill, ox, oy, 0.0);
    RectPadsCreated(pads)
    + [SolidInstance(barrelPill), SolidInstance(barrel), SolidInstance(union)]
    + [SolidInstance(cutPill), SolidInstance(holeCut)] + FinishCreated(union, holeCut, ph.x, ph.y, ctx)
  }

  /** The finished copper of a pill-with-rect-pad hole. */
  function PillRectCopper(ph: PlatedHole, ctx: Context): Solid
    requires ph.PillHoleWithRectPad?
  {
    var ox, oy := OrIfFalsy(ph.holeOffsetX, 0.0), OrIfFalsy(ph.holeOffsetY, 0.0);
    var pads := RectPadsOf(ph.rectPadWidth, ph.rectPadHeight, ctx.helpers.OfHole(ph), ctx);
    var barrel := Translate(Pill(ph.holeWidth, ph.holeHeight, ctx.pcbThickness * 1.02, ctx), ox, oy, 0.0);
    var holeCut := Translate(Pill(LipInset(ph.holeWidth), LipInset(ph.holeHeight), DrillDepth(ctx), ctx), ox, oy, 0.0);
    Clipped(PlacedRectPadCopper(PadsAndBarrel(pads, barrel), holeCut, ph.x, ph.y), ctx)
  }

  function PillRectOutcome(ph: PlatedHole, ctx: Context): Outcome
    requires ph.PillHoleWithRectPad?
  {
    var ox, oy := OrIfFalsy(ph.holeOffsetX, 0.0), OrIfFalsy(ph.holeOffsetY, 0.0);
    var z := ctx.consts.manifoldZOffset;
    var drillPill := Pill(ph.holeWidth + 2.0 * z, ph.holeHeight + 2.0 * z, DrillDepth(ctx), ctx);
    var drill := Translate(Translate(drillPill, ox, oy, 0.0), ph.x, ph.y, 0.0);
    Outcome([SolidInstance(drillPill), SolidInstance(drill)] + PillRectCopperCreated(ph, ctx),
            [drill], Some(PillRectCopper(ph, ctx)), [])
  }

  /** The rect pads, the barrel, their union and the lip cut of a pill-with-rect-pad hole. */
  method BuildPillRectCopper(ph: PlatedHole, ctx: Context, cleanup: InstanceList) returns (copper: Solid)
    requires ph.PillHoleWithRectPad?
    modifies cleanup
    ensures copper == PillRectCopper(ph, ctx)
    ensures cleanup.items == old(cleanup.items) + PillRectCopperCreated(ph, ctx)
  {
    var holeW, holeH := ph.holeWidth, ph.holeHeight;
    var holeOffsetX := OrIfFalsy(ph.holeOffsetX, 0.0);
    var holeOffsetY := OrIfFalsy(ph.holeOffsetY, 0.0);
    var pads := CreateRectPads(ph.rectPadWidth, ph.rectPadHeight, ctx.helpers.OfHole(ph), ctx, cleanup);
    var barrelPill := CreatePillOp(holeW, holeH, ctx.pcbThickness * 1.02, ctx, cleanup);
    var copperUnion := UniteRectPadCopper(pads, Translate(barrelPill, holeOffsetX, holeOffsetY, 0.0), cleanup);
    var cutPill := CreatePillOp(LipInset(holeW), LipInset(holeH), ctx.pcbThickness * 1.2, ctx, cleanup);
    var holeCutOp := Translate(cutPill, holeOffsetX, holeOffsetY, 0.0);
    cleanup.PushSolid(holeCutOp);
    copper := FinishRectPadCopper(copperUnion, holeCutOp, ph.x, ph.y, ctx, cleanup);
    PillRectRegrouped(old(cleanup.items), RectPadsCreated(pads), SolidInstance(barrelPill),
                      SolidInstance(Translate(barrelPill, holeOffsetX, holeOffsetY, 0.0)), SolidInstance(copperUnion),
                      SolidInstance(cutPill), SolidInstance(holeCutOp),
                      FinishCreated(copperUnion, holeCutOp, ph.x, ph.y, ctx));
  }

  lemma PillRectRegrouped<T>(before: seq<T>, pads: seq<T>, barrelPill: T, barrel: T, union: T, cutPill: T, holeCut: T,
                             finish: seq<T>)
    ensures before + pads + [barrelPill] + [barrel, union] + [cutPill] + [holeCut] + finish
            == before + (pads + [barrelPill, barrel, union] + [cutPill, holeCut] + finish)
  {
  }

  method ProcessPillRect(ph: PlatedHole, ctx: Context, cleanup: InstanceList)
    returns (drills: seq<Solid>, copper: Option<Solid>)
    requires ph.PillHoleWithRectPad?
    modifies cleanup
    ensures drills == PillRectOutcome(ph, ctx).drills && copper == PillRectOutcome(ph, ctx).copper
    ensures cleanup.items == old(cleanup.items) + PillRectOutcome(ph, ctx).created
  {
    var holeOffsetX := OrIfFalsy(ph.holeOffsetX, 0.0);
    var holeOffsetY := OrIfFalsy(ph.holeOffsetY, 0.0);
    var drillW := ph.holeWidth + 2.0 * ctx.consts.manifoldZOffset;
    var drillH := ph.holeHeight + 2.0 * ctx.consts.manifoldZOffset;
    var drillDepth := ctx.pcbThickness * 1.2;
    var drillPill := CreatePillOp(drillW, drillH, drillDepth, ctx, cleanup);
    var boardPillDrillOp := Translate(drillPill, holeOffsetX, holeOffsetY, 0.0);
    var translatedBoardPillDrill := Translate(boardPillDrillOp, ph.x, ph.y, 0.0);
    cleanup.PushSolid(translatedBoardPillDrill);
    drills := [translatedBoardPillDrill];
    ghost var drillPart := [SolidInstance(drillPill), SolidInstance(translatedBoardPillDrill)];
    var finalCopperOp := BuildPillRectCopper(ph, ctx, cleanup);
    AppendAssociates(old(cleanup.items), drillPart, PillRectCopperCreated(ph, ctx));
    copper := Some(finalCopperOp);
  }

  function CircleRectOutcome(ph: PlatedHole, ctx: Context): Outcome
    requires ph.CircularHoleWithRectPad?
  {
    var ox, oy := OrIfFalsy(ph.holeOffsetX, 0.0), OrIfFalsy(ph.holeOffsetY, 0.0);
    var segments := ctx.consts.smoothCircleSegments;
    var drill := CircleHoleDrill(ph.x + ox, ph.y + oy, ph.holeDiameter, ctx.pcbThickness, segments);
    var pads := RectPadsOf(OrElse(ph.padWidth, ph.holeDiameter), OrElse(ph.padHeight, ph.holeDiameter),
                           ctx.helpers.OfHole(ph), ctx);
    var holeRadius := ph.holeDiameter / 2.0;
    var barrel := Translate(Cylinder(ctx.pcbThickness * 1.02, holeRadius, holeRadius, segments), ox, oy, 0.0);
    var union := PadsAndBarrel(pads, barrel);
    var cutRadius := Max(holeRadius - ctx.consts.m, 0.01);
    var holeDrill := Translate(Cylinder(DrillDepth(ctx), cutRadius, cutRadius, segments), ox, oy, 0.0);
    Outcome(
      [SolidInstance(drill)] + RectPadsCreated(pads)
      + [SolidInstance(barrel), SolidInstance(union)]
      + [SolidInstance(holeDrill)] + FinishCreated(union, holeDrill, ph.x, ph.y, ctx),
      [drill], Some(Clipped(PlacedRectPadCopper(union, holeDrill, ph.x, ph.y), ctx)), [])
  }

  method ProcessCircleRect(ph: PlatedHole, ctx: Context, cleanup: InstanceList)
    returns (drills: seq<Solid>, copper: Option<Solid>)
    requires ph.CircularHoleWithRectPad?
    modifies cleanup
    ensures drills == CircleRectOutcome(ph, ctx).drills && copper == CircleRectOutcome(ph, ctx).copper
    ensures cleanup.items == old(cleanup.items) + CircleRectOutcome(ph, ctx).created
  {
    var holeOffsetX := OrIfFalsy(ph.holeOffsetX, 0.0);
    var holeOffsetY := OrIfFalsy(ph.holeOffsetY, 0.0);
    var segments := ctx.consts.smoothCircleSegments;
    var translatedDrill := CircleHoleDrill(ph.x + holeOffsetX, ph.y + holeOffsetY, ph.holeDiameter,
                                           ctx.pcbThickness, segments);
    cleanup.PushSolid(translatedDrill);
    drills := [translatedDrill];
    var padWidth := OrElse(ph.padWidth, ph.holeDiameter);
    var padHeight := OrElse(ph.padHeight, ph.holeDiameter);
    var holeRadius := ph.holeDiameter / 2.0;
    var pads := CreateRectPads(padWidth, padHeight, ctx.helpers.OfHole(ph), ctx, cleanup);
    var barrelCylinder := Translate(Cylinder(ctx.pcbThickness * 1.02, holeRadius, holeRadius, segments),
                                    holeOffsetX, holeOffsetY, 0.0);
    var copperUnion := UniteRectPadCopper(pads, barrelCylinder, cleanup);
    var cutRadius := Max(holeRadius - ctx.consts.m, 0.01);
    var holeDrill := Translate(Cylinder(ctx.pcbThickness * 1.2, cutRadius, cutRadius, segments),
                               holeOffsetX, holeOffsetY, 0.0);
    cleanup.PushSolid(holeDrill);
    var finalCopperOp := FinishRectPadCopper(copperUnion, holeDrill, ph.x, ph.y, ctx, cleanup);
    copper := Some(finalCopperOp);
  }

  // ---------------------------------------------------------------- shape "hole_with_polygon_pad"

  /** The barrel of a polygon-pad hole: its board drill and the three solids the copper is made of. */
  datatype Barrel = Barrel(created: seq<Instance>, drill: Solid, outer: Solid, inner: Solid, cut: Solid)

  /** A polygon-pad hole's `hole_shape`; an empty or missing one is a circle. */
  function HoleShape(ph: PlatedHole): string
    requires ph.HoleWithPolygonPad?
  {
    StrOrIfEmpty(ph.holeShape, "circle")
  }

  /** The shapes drawn as pills. */
  predicate IsPillShape(shape: string) {
    shape == "oval" || shape == "pill" || shape == "rotated_pill"
  }

  /** The `translateToHole` closure's translation. */
  function ToHole(s: Solid, cx: real, cy: real): Solid {
    Translate(s, cx, cy, 0.0)
  }

  function CircleBarrel(diameter: real, cx: real, cy: real, ctx: Context): Barrel {
    var segments := ctx.consts.smoothCircleSegments;
    var m := ctx.consts.m;
    var thickness := CopperThickness(ctx);
    var drill := CircleHoleDrill(cx, cy, diameter, ctx.pcbThickness, segments);
    var outerCylinder := Cylinder(thickness, diameter / 2.0, diameter / 2.0, segments);
    var innerDiameter := Max(diameter - 2.0 * LipHeight, m);
    var innerCylinder := Cylinder(thickness * 1.05, innerDiameter / 2.0, innerDiameter / 2.0, segments);
    var cutRadius := Max(innerDiameter / 2.0, m / 2.0);
    var drillCut := Cylinder(DrillDepth(ctx), cutRadius, cutRadius, segments);
    Barrel(
      [SolidInstance(drill),
       SolidInstance(outerCylinder), SolidInstance(ToHole(outerCylinder, cx, cy)),
       SolidInstance(innerCylinder), SolidInstance(ToHole(innerCylinder, cx, cy)),
       SolidInstance(drillCut), SolidInstance(ToHole(drillCut, cx, cy))],
      drill, ToHole(outerCylinder, cx, cy), ToHole(innerCylinder, cx, cy), ToHole(drillCut, cx, cy))
  }

  /**
   * One pill part of a polygon-pad hole: the pill (registered), turned when
   * `rotation` is given (registered), moved to the hole (registered).
   */
  function PillPart(width: real, height: real, depth: real, rotation: Option<real>, cx: real, cy: real, ctx: Context)
    : (Solid, seq<Instance>)
  {
    var pill := Pill(width, height, depth, ctx);
    var turned := if rotation.Some? then Rotate(pill, rotation.value) else pill;
    (ToHole(turned, cx, cy),
     [SolidInstance(pill)] + (if rotation.Some? then [SolidInstance(turned)] else [])
     + [SolidInstance(ToHole(turned, cx, cy))])
  }

  function PillBarrel(width: real, height: real, rotation: Option<real>, cx: real, cy: real, ctx: Context): Barrel {
    var z, m := ctx.consts.manifoldZOffset, ctx.consts.m;
    var drill := PillPart(width + 2.0 * z, height + 2.0 * z, DrillDepth(ctx), rotation, cx, cy, ctx);
    var outer := PillPart(width, height, CopperThickness(ctx), rotation, cx, cy, ctx);
    var innerW, innerH := Max(width - 2.0 * LipHeight, m), Max(height - 2.0 * LipHeight, m);
    var inner := PillPart(innerW, innerH, CopperThickness(ctx) * 1.05, rotation, cx, cy, ctx);
    var cut := PillPart(innerW, innerH, DrillDepth(ctx), rotation, cx, cy, ctx);
    Assembled(drill, outer, inner, cut)
  }

  /** A barrel from its four parts, each with the instances it registered, in creation order. */
  function Assembled(drill: (Solid, seq<Instance>), outer: (Solid, seq<Instance>), inner: (Solid, seq<Instance>),
                     cut: (Solid, seq<Instance>)): Barrel {
    Barrel(drill.1 + outer.1 + inner.1 + cut.1, drill.0, outer.0, inner.0, cut.0)
  }

  /** The rotation a polygon-pad pill is turned by: only a `rotated_pill` with a numeric rotation. */
  function PillRotation(ph: PlatedHole): Option<real>
    requires ph.HoleWithPolygonPad?
  {
    if HoleShape(ph) == "rotated_pill" && ph.ccwRotation.Some? then ph.ccwRotation else None
  }

  /** The barrel of a polygon-pad hole, when its hole shape has the dimensions it needs. */
  function PolygonBarrel(ph: PlatedHole, ctx: Context): Option<Barrel>
    requires ph.HoleWithPolygonPad?
  {
    var cx := ph.x + OrIfFalsy(ph.holeOffsetX, 0.0);
    var cy := ph.y + OrIfFalsy(ph.holeOffsetY, 0.0);
    var shape := HoleShape(ph);
    if shape == "circle" then
      if ph.polygonHoleDiameter.Some? then Some(CircleBarrel(ph.polygonHoleDiameter.value, cx, cy, ctx)) else None
    else if IsPillShape(shape) && ph.polygonHoleWidth.Some? && ph.polygonHoleHeight.Some? then
      Some(PillBarrel(ph.polygonHoleWidth.value, ph.polygonHoleHeight.value, PillRotation(ph), cx, cy, ctx))
    else None
  }

  /** The pad outline, wound counter-clockwise, as a cross-section. */
  function PadSection(outline: seq<Point>): CrossSection {
    OfPolygon(CounterClockwise(outline))
  }

  /** The extruded pad outline moved to the hole's position. */
  function PlacedPadPrism(ph: PlatedHole, ctx: Context): Solid
    requires ph.HoleWithPolygonPad? && ph.padOutline.Some?
  {
    Translate(Extrude(PadSection(ph.padOutline.value), CopperThickness(ctx)), ph.x, ph.y, 0.0)
  }

  /** The cross-section, its extrusion and the placed extrusion, in the order they are registered. */
  function PadPrismCreated(ph: PlatedHole, ctx: Context): seq<Instance>
    requires ph.HoleWithPolygonPad? && ph.padOutline.Some?
  {
    var section := PadSection(ph.padOutline.value);
    [SectionInstance(section), SolidInstance(Extrude(section, CopperThickness(ctx))), SolidInstance(PlacedPadPrism(ph, ctx))]
  }

  /** The copper of a polygon-pad hole: the pad minus the hole cut, united with the barrel shell. */
  function PolygonCopper(placedPrism: Solid, b: Barrel): Solid {
    Union([Subtract(placedPrism, b.cut), Subtract(b.outer, b.inner)])
  }

  /** What the finishing step of a polygon-pad hole registers: shell, pad with hole, their union, the clip. */
  function PolygonFinishCreated(placedPrism: Solid, b: Barrel, ctx: Context): seq<Instance> {
    [SolidInstance(Subtract(b.outer, b.inner)), SolidInstance(Subtract(placedPrism, b.cut)),
     SolidInstance(PolygonCopper(placedPrism, b))]
    + ClipInstances(PolygonCopper(placedPrism, b), ctx)
  }

  function PolygonOutcome(ph: PlatedHole, ctx: Context): Outcome
    requires ph.HoleWithPolygonPad?
  {
    if ph.padOutline.None? || |ph.padOutline.value| < 3 then
      Outcome([], [], None, [MissingPadOutline(ph.id)])
    else
      var placedPrism := PlacedPadPrism(ph, ctx);
      var padCreated := PadPrismCreated(ph, ctx);
      var barrel := PolygonBarrel(ph, ctx);
      if barrel.None? then
        Outcome(padCreated, [], None,
                if HoleShape(ph) == "circle" then [MissingHoleDiameter(ph.id)] else [UnsupportedHoleShape(ph.id)])
      else
        var b := barrel.value;
        Outcome(padCreated + b.created + PolygonFinishCreated(placedPrism, b, ctx),
                [b.drill], Some(Clipped(PolygonCopper(placedPrism, b), ctx)), [])
  }

  /** The cross-section, its extrusion and the placed extrusion, each registered. */
  method CreatePadPrism(ph: PlatedHole, ctx: Context, cleanup: InstanceList) returns (placedPrism: Solid)
    requires ph.HoleWithPolygonPad? && ph.padOutline.Some?
    modifies cleanup
    ensures placedPrism == PlacedPadPrism(ph, ctx)
    ensures cleanup.items == old(cleanup.items) + PadPrismCreated(ph, ctx)
  {
    var outlinePoints := ph.padOutline.value;
    var clockwise := PlatedArePointsClockwise(outlinePoints);
    if clockwise {
      outlinePoints := Reverse(outlinePoints);
    }
    var padCrossSection := OfPolygon(outlinePoints);
    cleanup.Push(SectionInstance(padCrossSection));
    var copperPartThickness := ctx.pcbThickness + 2.0 * ctx.consts.manifoldZOffset;
    var padPrism := Extrude(padCrossSection, copperPartThickness);
    cleanup.PushSolid(padPrism);
    placedPrism := Translate(padPrism, ph.x, ph.y, 0.0);
    cleanup.PushSolid(placedPrism);
  }

  /** The `translateToHole` closure: move and register. */
  method TranslateToHole(s: Solid, cx: real, cy: real, cleanup: InstanceList) returns (moved: Solid)
    modifies cleanup
    ensures moved == ToHole(s, cx, cy)
    ensures cleanup.items == old(cleanup.items) + [SolidInstance(moved)]
  {
    moved := Translate(s, cx, cy, 0.0);
    cleanup.PushSolid(moved);
  }

  method CreateCircleBarrel(diameter: real, cx: real, cy: real, ctx: Context, cleanup: InstanceList)
    returns (b: Barrel)
    modifies cleanup
    ensures b == CircleBarrel(diameter, cx, cy, ctx)
    ensures cleanup.items == old(cleanup.items) + b.created
  {
    var segments := ctx.consts.smoothCircleSegments;
    var m := ctx.consts.m;
    var copperPartThickness := ctx.pcbThickness + 2.0 * ctx.consts.manifoldZOffset;
    var translatedDrill := CircleHoleDrill(cx, cy, diameter, ctx.pcbThickness, segments);
    cleanup.PushSolid(translatedDrill);
    var outerCylinder := Cylinder(copperPartThickness, diameter / 2.0, diameter / 2.0, segments);
    cleanup.PushSolid(outerCylinder);
    var barrelOuter := TranslateToHole(outerCylinder, cx, cy, cleanup);
    var innerDiameter := Max(diameter - 2.0 * LipHeight, m);
    var innerCylinder := Cylinder(copperPartThickness * 1.05, innerDiameter / 2.0, innerDiameter / 2.0, segments);
    cleanup.PushSolid(innerCylinder);
    var barrelInner := TranslateToHole(innerCylinder, cx, cy, cleanup);
    var cutRadius := Max(innerDiameter / 2.0, m / 2.0);
    var drillCut := Cylinder(ctx.pcbThickness * 1.2, cutRadius, cutRadius, segments);
    cleanup.PushSolid(drillCut);
    var holeCutOp := TranslateToHole(drillCut, cx, cy, cleanup);
    b := Barrel(
      [SolidInstance(translatedDrill),
       SolidInstance(outerCylinder), SolidInstance(barrelOuter),
       SolidInstance(innerCylinder), SolidInstance(barrelInner),
       SolidInstance(drillCut), SolidInstance(holeCutOp)],
      translatedDrill, barrelOuter, barrelInner, holeCutOp);
  }

  /** `createPillOp`, then the `maybeRotatePill` closure, then `translateToHole`. */
  method CreatePillPart(width: real, height: real, depth: real, rotation: Option<real>, cx: real, cy: real,
                        ctx: Context, cleanup: InstanceList)
    returns (part: Solid, created: seq<Instance>)
    modifies cleanup
    ensures (part, created) == PillPart(width, height, depth, rotation, cx, cy, ctx)
    ensures cleanup.items == old(cleanup.items) + created
  {
    var pill := CreatePillOp(width, height, depth, ctx, cleanup);
    created := [SolidInstance(pill)];
    if rotation.Some? {
      var rotated := Rotate(pill, rotation.value);
      cleanup.PushSolid(rotated);
      created := created + [SolidInstance(rotated)];
      pill := rotated;
    }
    part := TranslateToHole(pill, cx, cy, cleanup);
    created := created + [SolidInstance(part)];
    ghost var expected := PillPart(width, height, depth, rotation, cx, cy, ctx);
    assert part == expected.0 && created == expected.1;
  }

  method CreatePillBarrel(width: real, height: real, rotation: Option<real>, cx: real, cy: real,
                          ctx: Context, cleanup: InstanceList)
    returns (b: Barrel)
    modifies cleanup
    ensures b == PillBarrel(width, height, rotation, cx, cy, ctx)
    ensures cleanup.items == old(cleanup.items) + b.created
  {
    var z, m := ctx.consts.manifoldZOffset, ctx.consts.m;
    var copperPartThickness := CopperThickness(ctx);
    var drillDepth := DrillDepth(ctx);
    var drill, drillCreated := CreatePillPart(width + 2.0 * z, height + 2.0 * z, drillDepth, rotation, cx, cy, ctx, cleanup);
    var outer, outerCreated := CreatePillPart(width, height, copperPartThickness, rotation, cx, cy, ctx, cleanup);
    var innerWidth, innerHeight := Max(width - 2.0 * LipHeight, m), Max(height - 2.0 * LipHeight, m);
    var inner, innerCreated :=
      CreatePillPart(innerWidth, innerHeight, copperPartThickness * 1.05, rotation, cx, cy, ctx, cleanup);
    var cut, cutCreated := CreatePillPart(innerWidth, innerHeight, drillDepth, rotation, cx, cy, ctx, cleanup);
    b := Assembled((drill, drillCreated), (outer, outerCreated), (inner, innerCreated), (cut, cutCreated));
    PillBarrelOfParts(width, height, rotation, cx, cy, ctx, (drill, drillCreated), (outer, outerCreated),
                      (inner, innerCreated), (cut, cutCreated));
    FourParts(old(cleanup.items), drillCreated, outerCreated, innerCreated, cutCreated);
  }

  /** The four parts made in order assemble into the barrel `PillBarrel` describes. */
  lemma PillBarrelOfParts(width: real, height: real, rotation: Option<real>, cx: real, cy: real, ctx: Context,
                          drill: (Solid, seq<Instance>), outer: (Solid, seq<Instance>),
                          inner: (Solid, seq<Instance>), cut: (Solid, seq<Instance>))
    requires drill == PillPart(width + 2.0 * ctx.consts.manifoldZOffset, height + 2.0 * ctx.consts.manifoldZOffset,
                               DrillDepth(ctx), rotation, cx, cy, ctx)
    requires outer == PillPart(width, height, CopperThickness(ctx), rotation, cx, cy, ctx)
    requires inner == PillPart(Max(width - 2.0 * LipHeight, ctx.consts.m), Max(height - 2.0 * LipHeight, ctx.consts.m),
                               CopperThickness(ctx) * 1.05, rotation, cx, cy, ctx)
    requires cut == PillPart(Max(width - 2.0 * LipHeight, ctx.consts.m), Max(height - 2.0 * LipHeight, ctx.consts.m),
                             DrillDepth(ctx), rotation, cx, cy, ctx)
    ensures Assembled(drill, outer, inner, cut) == PillBarrel(width, height, rotation, cx, cy, ctx)
  {
  }

  lemma FourParts<T>(before: seq<T>, a: seq<T>, b: seq<T>, c: seq<T>, d: seq<T>)
    ensures before + a + b + c + d == before + (a + b + c + d)
  {
  }

  method ProcessPolygon(ph: PlatedHole, ctx: Context, cleanup: InstanceList)
    returns (drills: seq<Solid>, copper: Option<Solid>, warnings: seq<Warning>)
    requires ph.HoleWithPolygonPad?
    modifies cleanup
    ensures drills == PolygonOutcome(ph, ctx).drills && copper == PolygonOutcome(ph, ctx).copper
    ensures warnings == PolygonOutcome(ph, ctx).warnings
    ensures cleanup.items == old(cleanup.items) + PolygonOutcome(ph, ctx).created
  {
    if ph.padOutline.None? || |ph.padOutline.value| < 3 {
      return [], None, [MissingPadOutline(ph.id)];
    }
    var holeShape := StrOrIfEmpty(ph.holeShape, "circle");
    var translatedPadPrism := CreatePadPrism(ph, ctx, cleanup);
    var barrel := CreatePolygonBarrel(ph, ctx, cleanup);
    if barrel.None? {
      return [], None, if holeShape == "circle" then [MissingHoleDiameter(ph.id)] else [UnsupportedHoleShape(ph.id)];
    }
    drills := [barrel.value.drill];
    var combinedCopper := FinishPolygonCopper(translatedPadPrism, barrel.value, ctx, cleanup);
    copper := Some(combinedCopper);
    warnings := [];
    ghost var padCreated := PadPrismCreated(ph, ctx);
    AppendAssociates(old(cleanup.items), padCreated, barrel.value.created);
    AppendAssociates(old(cleanup.items), padCreated + barrel.value.created,
                     PolygonFinishCreated(translatedPadPrism, barrel.value, ctx));
  }

  /** The hole-shape dispatch of a polygon-pad hole; a shape without its dimensions makes no barrel. */
  method CreatePolygonBarrel(ph: PlatedHole, ctx: Context, cleanup: InstanceList) returns (barrel: Option<Barrel>)
    requires ph.HoleWithPolygonPad?
    modifies cleanup
    ensures barrel == PolygonBarrel(ph, ctx)
    ensures cleanup.items == old(cleanup.items) + (if barrel.Some? then barrel.value.created else [])
  {
    var holeShape := StrOrIfEmpty(ph.holeShape, "circle");
    var holeCenterX := ph.x + OrIfFalsy(ph.holeOffsetX, 0.0);
    var holeCenterY := ph.y + OrIfFalsy(ph.holeOffsetY, 0.0);
    if holeShape == "circle" {
      if ph.polygonHoleDiameter.None? {
        return None;
      }
      var b := CreateCircleBarrel(ph.polygonHoleDiameter.value, holeCenterX, holeCenterY, ctx, cleanup);
      barrel := Some(b);
    } else if IsPillShape(holeShape) && ph.polygonHoleWidth.Some? && ph.polygonHoleHeight.Some? {
      var b := CreatePillBarrel(ph.polygonHoleWidth.value, ph.polygonHoleHeight.value, PillRotation(ph),
                                holeCenterX, holeCenterY, ctx, cleanup);
      barrel := Some(b);
    } else {
      barrel := None;
    }
  }

  /** Shell, pad with hole, their union (each registered), then the clip. */
  method FinishPolygonCopper(placedPrism: Solid, barrel: Barrel, ctx: Context, cleanup: InstanceList)
    returns (copper: Solid)
    modifies cleanup
    ensures copper == Clipped(PolygonCopper(placedPrism, barrel), ctx)
    ensures cleanup.items == old(cleanup.items) + PolygonFinishCreated(placedPrism, barrel, ctx)
  {
    var barrelShell := Subtract(barrel.outer, barrel.inner);
    cleanup.PushSolid(barrelShell);
    var padWithHole := Subtract(placedPrism, barrel.cut);
    cleanup.PushSolid(padWithHole);
    var combinedCopper := Union([padWithHole, barrelShell]);
    cleanup.PushSolid(combinedCopper);
    copper := ClipCopper(combinedCopper, ctx, cleanup);
  }

  /**
   * `arePointsClockwise` of process-plated-holes, the same loop as the one
   * of pad-geoms without the guard against missing vertices.
   */
  method PlatedArePointsClockwise(points: seq<Point>) returns (clockwise: bool)
    ensures clockwise <==> SignedArea(points) <= 0.0
  {
    var area := 0.0;
    var i := 0;
    while i < |points|
      invariant 0 <= i <= |points|
      invariant area == EdgeSum(points, i)
    {
      var j := (i + 1) % |points|;
      area := area + points[i].x * points[j].y;
      area := area - points[j].x * points[i].y;
      i := i + 1;
    }
    EdgeSumIsShoelace(points);
    clockwise := area / 2.0 <= 0.0;
  }

  // ---------------------------------------------------------------- the loop over all holes

  /** The branch a hole takes; a shape no branch names does nothing at all. */
  function HoleOutcome(ph: PlatedHole, ctx: Context): Outcome {
    match ph
    case CircleHole(_, _, _, _, _) => CircleOutcome(ph, ctx)
    case PillHole(_, _, _, _, _, _, _, _) => PillOutcome(ph, ctx)
    case PillHoleWithRectPad(_, _, _, _, _, _, _, _, _) => PillRectOutcome(ph, ctx)
    case CircularHoleWithRectPad(_, _, _, _, _, _, _, _) => CircleRectOutcome(ph, ctx)
    case HoleWithPolygonPad(_, _, _, _, _, _, _, _, _, _, _) => PolygonOutcome(ph, ctx)
    case OtherHole(_, _) => Outcome([], [], None, [])
  }

  /** The body of the `forEach`: one hole. */
  method ProcessHole(ph: PlatedHole, ctx: Context, cleanup: InstanceList)
    returns (drills: seq<Solid>, copper: Option<Solid>, warnings: seq<Warning>)
    modifies cleanup
    ensures drills == HoleOutcome(ph, ctx).drills && copper == HoleOutcome(ph, ctx).copper
    ensures warnings == HoleOutcome(ph, ctx).warnings
    ensures cleanup.items == old(cleanup.items) + HoleOutcome(ph, ctx).created
  {
    warnings := [];
    match ph
    case CircleHole(_, _, _, _, _) =>
      drills, copper := ProcessCircle(ph, ctx, cleanup);
    case PillHole(_, _, _, _, _, _, _, _) =>
      drills, copper := ProcessPill(ph, ctx, cleanup);
    case PillHoleWithRectPad(_, _, _, _, _, _, _, _, _) =>
      drills, copper := ProcessPillRect(ph, ctx, cleanup);
    case CircularHoleWithRectPad(_, _, _, _, _, _, _, _) =>
      drills, copper := ProcessCircleRect(ph, ctx, cleanup);
    case HoleWithPolygonPad(_, _, _, _, _, _, _, _, _, _, _) =>
      drills, copper, warnings := ProcessPolygon(ph, ctx, cleanup);
    case OtherHole(_, _) =>
      drills, copper := [], None;
  }

  /** The four lists the `forEach` fills: board drills, copper geoms, copper ops and warnings. */
  datatype Progress = Progress(drills: seq<Solid>, geoms: seq<CopperGeom>, ops: seq<Solid>, warnings: seq<Warning>)

  /** The lists after one more hole, at position `index`, with outcome `o`. */
  function Advance(p: Progress, ph: PlatedHole, index: nat, o: Outcome): Progress {
    Progress(
      p.drills + o.drills,
      if o.copper.Some? then p.geoms + [CopperGeom(HoleKey(ph.id, index), o.copper.value)] else p.geoms,
      if o.copper.Some? then p.ops + [o.copper.value] else p.ops,
      p.warnings + o.warnings)
  }

  /** The lists after the first `n` holes. */
  function ProgressAfter(holes: seq<PlatedHole>, n: nat, ctx: Context): Progress
    requires n <= |holes|
  {
    if n == 0 then Progress([], [], [], [])
    else Advance(ProgressAfter(holes, n - 1, ctx), holes[n - 1], n - 1, HoleOutcome(holes[n - 1], ctx))
  }

  /** What the first `n` holes register for cleanup. */
  function HolesCreated(holes: seq<PlatedHole>, n: nat, ctx: Context): seq<Instance>
    requires n <= |holes|
  {
    if n == 0 then [] else HolesCreated(holes, n - 1, ctx) + HoleOutcome(holes[n - 1], ctx).created
  }

  /** The union every copper op is merged into, when there is at least one. */
  function SubtractOp(ops: seq<Solid>): Option<Solid> {
    if |ops| > 0 then Some(Union(ops)) else None
  }

  /**
   * One pass of the `forEach`: process the hole at `index` and push its
   * results onto the lists, extending both prefixes by that hole.
   */
  method ProcessHoleAt(holes: seq<PlatedHole>, index: nat, p: Progress, ctx: Context, cleanup: InstanceList,
                       ghost start: seq<Instance>)
    returns (next: Progress)
    requires index < |holes|
    requires p == ProgressAfter(holes, index, ctx)
    requires cleanup.items == start + HolesCreated(holes, index, ctx)
    modifies cleanup
    ensures next == ProgressAfter(holes, index + 1, ctx)
    ensures cleanup.items == start + HolesCreated(holes, index + 1, ctx)
  {
    PrefixStep(holes, index, ctx);
    next := PushHoleResults(holes[index], index, p, ctx, cleanup);
    AppendAssociates(start, HolesCreated(holes, index, ctx), HoleOutcome(holes[index], ctx).created);
  }

  /** Process one hole and push its drills, copper and warnings onto the lists. */
  method PushHoleResults(ph: PlatedHole, index: nat, p: Progress, ctx: Context, cleanup: InstanceList)
    returns (next: Progress)
    modifies cleanup
    ensures next == Advance(p, ph, index, HoleOutcome(ph, ctx))
    ensures cleanup.items == old(cleanup.items) + HoleOutcome(ph, ctx).created
  {
    var drills, copper, holeWarnings := ProcessHole(ph, ctx, cleanup);
    var platedHoleCopperGeoms, platedHoleCopperOpsForSubtract := p.geoms, p.ops;
    if copper.Some? {
      platedHoleCopperOpsForSubtract := platedHoleCopperOpsForSubtract + [copper.value];
      platedHoleCopperGeoms := platedHoleCopperGeoms + [CopperGeom(HoleKey(ph.id, index), copper.value)];
    }
    next := Progress(p.drills + drills, platedHoleCopperGeoms, platedHoleCopperOpsForSubtract, p.warnings + holeWarnings);
  }

  /** Both prefixes grow by exactly the next hole's outcome. */
  lemma PrefixStep(holes: seq<PlatedHole>, index: nat, ctx: Context)
    requires index < |holes|
    ensures ProgressAfter(holes, index + 1, ctx)
            == Advance(ProgressAfter(holes, index, ctx), holes[index], index, HoleOutcome(holes[index], ctx))
    ensures HolesCreated(holes, index + 1, ctx) == HolesCreated(holes, index, ctx) + HoleOutcome(holes[index], ctx).created
  {
  }

  /** The `forEach` over the holes. */
  method ProcessAllHoles(holes: seq<PlatedHole>, ctx: Context, cleanup: InstanceList) returns (progress: Progress)
    modifies cleanup
    ensures progress == ProgressAfter(holes, |holes|, ctx)
    ensures cleanup.items == old(cleanup.items) + HolesCreated(holes, |holes|, ctx)
  {
    progress := Progress([], [], [], []);
    var index := 0;
    while index < |holes|
      invariant 0 <= index <= |holes|
      invariant progress == ProgressAfter(holes, index, ctx)
      invariant cleanup.items == old(cleanup.items) + HolesCreated(holes, index, ctx)
    {
      progress := ProcessHoleAt(holes, index, progress, ctx, cleanup, old(cleanup.items));
      index := index + 1;
    }
  }

  /** `processPlatedHolesForManifold` */
  method ProcessPlatedHoles(holes: seq<PlatedHole>, ctx: Context, cleanup: InstanceList)
    returns (result: PlatedHolesResult, warnings: seq<Warning>)
    modifies cleanup
    ensures var p := ProgressAfter(holes, |holes|, ctx);
            result == PlatedHolesResult(p.drills, p.geoms, SubtractOp(p.ops)) && warnings == p.warnings
    ensures cleanup.items == old(cleanup.items) + HolesCreated(holes, |holes|, ctx)
              + (if result.subtractOp.Some? then [SolidInstance(result.subtractOp.value)] else [])
  {
    var progress := ProcessAllHoles(holes, ctx, cleanup);
    var platedHoleSubtractOp: Option<Solid> := None;
    if |progress.ops| > 0 {
      platedHoleSubtractOp := Some(Union(progress.ops));
      cleanup.PushSolid(platedHoleSubtractOp.value);
    }
    result := PlatedHolesResult(progress.drills, progress.geoms, platedHoleSubtractOp);
    warnings := progress.warnings;
  }

  // ---------------------------------------------------------------- properties

  /**
   * The geoms and the subtract ops are pushed together: the two lists have
   * the same length and the k-th geom carries the k-th op.
   */
  lemma {:induction false} GeomsMatchOps(holes: seq<PlatedHole>, n: nat, ctx: Context)
    requires n <= |holes|
    ensures var p := ProgressAfter(holes, n, ctx);
            |p.geoms| == |p.ops| && forall k :: 0 <= k < |p.ops| ==> p.geoms[k].solid == p.ops[k]
  {
    if n > 0 {
      GeomsMatchOps(holes, n - 1, ctx);
    }
  }

  /** Every hole adds at most one board drill. */
  lemma {:induction false} AtMostOneDrillPerHole(holes: seq<PlatedHole>, n: nat, ctx: Context)
    requires n <= |holes|
    ensures |ProgressAfter(holes, n, ctx).drills| <= n
  {
    if n > 0 {
      AtMostOneDrillPerHole(holes, n - 1, ctx);
      DrillsGrowByAtMostOne(holes, n, ctx);
    }
  }

  lemma DrillsGrowByAtMostOne(holes: seq<PlatedHole>, n: nat, ctx: Context)
    requires 0 < n <= |holes|
    ensures |ProgressAfter(holes, n, ctx).drills| <= |ProgressAfter(holes, n - 1, ctx).drills| + 1
  {
    var o := HoleOutcome(holes[n - 1], ctx);
    OneDrillAtMost(holes[n - 1], ctx);
    assert ProgressAfter(holes, n, ctx).drills == ProgressAfter(holes, n - 1, ctx).drills + o.drills;
  }

  lemma OneDrillAtMost(ph: PlatedHole, ctx: Context)
    ensures |HoleOutcome(ph, ctx).drills| <= 1
  {
  }

  /**
   * The subtract op exists exactly when at least one hole produced copper,
   * and it is then the union of all copper ops.
   */
  lemma {:induction false} SubtractOpIffSomeCopper(holes: seq<PlatedHole>, n: nat, ctx: Context)
    requires n <= |holes|
    ensures var ops := ProgressAfter(holes, n, ctx).ops;
            (SubtractOp(ops).Some? <==> exists i :: 0 <= i < n && HoleOutcome(holes[i], ctx).copper.Some?)
            && (SubtractOp(ops).Some? ==> SubtractOp(ops).value == Union(ops))
  {
    SomeOpIffSomeCopper(holes, n, ctx);
  }

  lemma SomeOpIffSomeCopper(holes: seq<PlatedHole>, n: nat, ctx: Context)
    requires n <= |holes|
    ensures |ProgressAfter(holes, n, ctx).ops| > 0 <==> exists i :: 0 <= i < n && HoleOutcome(holes[i], ctx).copper.Some?
  {
    var coppers := Coppers(holes, n, ctx);
    OpsAreTheCoppers(holes, n, ctx);
    SomeOpIffSome(coppers);
  }

  /** The copper each of the first `n` holes makes, if any. */
  function Coppers(holes: seq<PlatedHole>, n: nat, ctx: Context): (r: seq<Option<Solid>>)
    requires n <= |holes|
    ensures |r| == n && forall i :: 0 <= i < n ==> r[i] == HoleOutcome(holes[i], ctx).copper
  {
    if n == 0 then [] else Coppers(holes, n - 1, ctx) + [HoleOutcome(holes[n - 1], ctx).copper]
  }

  /** The coppers that were made, in order. */
  function Made(coppers: seq<Option<Solid>>): seq<Solid> {
    if coppers == [] then []
    else
      var last := coppers[|coppers| - 1];
      Made(coppers[..|coppers| - 1]) + (if last.Some? then [last.value] else [])
  }

  lemma {:induction false} OpsAreTheCoppers(holes: seq<PlatedHole>, n: nat, ctx: Context)
    requires n <= |holes|
    ensures ProgressAfter(holes, n, ctx).ops == Made(Coppers(holes, n, ctx))
  {
    if n > 0 {
      OpsAreTheCoppers(holes, n - 1, ctx);
      assert Coppers(holes, n, ctx)[..n - 1] == Coppers(holes, n - 1, ctx);
    }
  }

  lemma {:induction false} SomeOpIffSome(coppers: seq<Option<Solid>>)
    ensures |Made(coppers)| > 0 <==> exists i :: 0 <= i < |coppers| && coppers[i].Some?
  {
    if coppers != [] {
      var k := |coppers| - 1;
      var front := coppers[..k];
      SomeOpIffSome(front);
      if coppers[k].Some? {
        assert 0 <= k < |coppers| && coppers[k].Some?;
      } else {
        assert forall i :: 0 <= i < k ==> front[i] == coppers[i];
        assert forall i :: 0 <= i < |coppers| && coppers[i].Some? ==> i < k;
      }
    }
  }

  /** The copper is the intersection with the clip volume when one is given, and never an intersection otherwise. */
  predicate ClippedToBoard(copper: Solid, ctx: Context) {
    if ctx.clip.Some? then copper.Intersect? && |copper.parts| == 2 && copper.parts[1] == ctx.clip.value
    else !copper.Intersect?
  }

  /** Every shape branch that makes copper ends with the clip step. */
  lemma CopperIsClipped(ph: PlatedHole, ctx: Context)
    requires HoleOutcome(ph, ctx).copper.Some?
    ensures ClippedToBoard(HoleOutcome(ph, ctx).copper.value, ctx)
  {
  }

  /** So every collected copper op is clipped exactly when a clip volume is given. */
  lemma {:induction false} AllOpsClipped(holes: seq<PlatedHole>, n: nat, ctx: Context)
    requires n <= |holes|
    ensures forall k :: 0 <= k < |ProgressAfter(holes, n, ctx).ops| ==> ClippedToBoard(ProgressAfter(holes, n, ctx).ops[k], ctx)
  {
    if n > 0 {
      AllOpsClipped(holes, n - 1, ctx);
      if HoleOutcome(holes[n - 1], ctx).copper.Some? {
        CopperIsClipped(holes[n - 1], ctx);
      }
    }
  }

  /** A hole of an unknown shape adds nothing to any list and registers nothing. */
  lemma UnknownShapeIsDropped(holes: seq<PlatedHole>, n: nat, ctx: Context)
    requires n < |holes| && holes[n].OtherHole?
    ensures ProgressAfter(holes, n + 1, ctx) == ProgressAfter(holes, n, ctx)
    ensures HolesCreated(holes, n + 1, ctx) == HolesCreated(holes, n, ctx)
  {
    var p := ProgressAfter(holes, n, ctx);
    assert p.drills + [] == p.drills && p.warnings + [] == p.warnings;
  }

  /** A circle hole's drill is 2% wider than the hole, centred on the hole. */
  lemma CircleDrillIsWider(ph: PlatedHole, ctx: Context)
    requires ph.CircleHole?
    ensures var drills := HoleOutcome(ph, ctx).drills;
            |drills| == 1 && drills[0].PlatedHoleDrill?
            && drills[0].outerDiameter == 1.02 * ph.holeDiameter && drills[0].x == ph.x && drills[0].y == ph.y
  {
  }

  /**
   * A pill hole's drill is the pill grown by the z offset on each side,
   * turned only when `ccw_rotation` is a non-zero number, then placed on
   * the hole.
   */
  lemma PillDrillSizing(ph: PlatedHole, ctx: Context)
    requires ph.PillHole?
    ensures var z := ctx.consts.manifoldZOffset;
            var pill := Pill(ph.holeWidth + 2.0 * z, ph.holeHeight + 2.0 * z, DrillDepth(ctx), ctx);
            var drills := HoleOutcome(ph, ctx).drills;
            |drills| == 1 && drills[0].Translate? && drills[0].dx == ph.x && drills[0].dy == ph.y
            && (if ph.ccwRotation.Some? && ph.ccwRotation.value != 0.0
                then drills[0].solid == Rotate(pill, ph.ccwRotation.value)
                else drills[0].solid == pill)
  {
  }

  /** Without outer dimensions a pill's copper ring reaches 0.2 beyond the hole on each side. */
  lemma PillOuterDefault(ph: PlatedHole, ctx: Context)
    requires ph.PillHole? && ph.outerWidth.None? && ph.outerHeight.None?
    ensures var thickness := CopperThickness(ctx);
            var ring := Subtract(Pill(ph.holeWidth + 0.4, ph.holeHeight + 0.4, thickness, ctx),
                                 Pill(ph.holeWidth, ph.holeHeight, thickness * 1.05, ctx));
            SolidInstance(ring) in HoleOutcome(ph, ctx).created
  {
    var o := PillOutcome(ph, ctx);
    var r := RotationInstances(Pill(ph.holeWidth + 2.0 * ctx.consts.manifoldZOffset,
                                    ph.holeHeight + 2.0 * ctx.consts.manifoldZOffset, DrillDepth(ctx), ctx),
                               ph.ccwRotation);
    assert o.created[|r| + 4] == SolidInstance(Subtract(Pill(ph.holeWidth + 0.4, ph.holeHeight + 0.4, CopperThickness(ctx), ctx),
                                                        Pill(ph.holeWidth, ph.holeHeight, CopperThickness(ctx) * 1.05, ctx)));
  }

  /** A lip-inset dimension is the dimension less twice the lip height, but never below 0.01. */
  lemma LipInsetFloor(d: real)
    ensures LipInset(d) >= 0.01
    ensures d - 0.1 >= 0.01 ==> LipInset(d) == d - 0.1
    ensures d - 0.1 < 0.01 ==> LipInset(d) == 0.01
  {
  }

  /**
   * The inner cylinder and the hole cut of a circular polygon-pad barrel
   * never shrink below the diameter `M` and the radius `M / 2`.
   */
  lemma CircleBarrelFloors(diameter: real, cx: real, cy: real, ctx: Context)
    ensures var b := CircleBarrel(diameter, cx, cy, ctx);
            b.inner.Translate? && b.inner.solid.Cylinder? && b.inner.solid.radiusLow >= ctx.consts.m / 2.0
            && b.cut.Translate? && b.cut.solid.Cylinder? && b.cut.solid.radiusLow >= ctx.consts.m / 2.0
            && (diameter - 0.1 >= ctx.consts.m ==> b.inner.solid.radiusLow == diameter / 2.0 - 0.05)
  {
  }

  /**
   * The cut of a circular hole with a rect pad is the hole less `M` in
   * radius, but never below 0.01; the barrel keeps the full hole radius.
   */
  lemma CircleRectCutFloor(ph: PlatedHole, ctx: Context)
    requires ph.CircularHoleWithRectPad?
    ensures var created := HoleOutcome(ph, ctx).created;
            created[6].SolidInstance? && created[6].solid.Translate? && created[6].solid.solid.Cylinder?
            && created[6].solid.solid.radiusLow >= 0.01
            && created[6].solid.solid.radiusLow >= ph.holeDiameter / 2.0 - ctx.consts.m
            && created[4].solid.solid.radiusLow == ph.holeDiameter / 2.0
  {
  }

  /** Missing and zero hole offsets both leave the hole's drill on the hole's own position. */
  lemma OffsetsDefaultToZero(ph: PlatedHole, ctx: Context)
    requires ph.CircularHoleWithRectPad?
    requires ph.holeOffsetX.None? || ph.holeOffsetX == Some(0.0)
    requires ph.holeOffsetY.None? || ph.holeOffsetY == Some(0.0)
    ensures var drills := HoleOutcome(ph, ctx).drills;
            |drills| == 1 && drills[0].CircleHoleDrill? && drills[0].x == ph.x && drills[0].y == ph.y
  {
  }

  /**
   * The top and bottom pads of both rect-pad shapes are the same prism,
   * raised and lowered by a quarter of the board thickness plus the copper
   * offset.
   */
  lemma RectPadsAtQuarterThickness(width: real, height: real, radius: Option<real>, ctx: Context)
    ensures var pads := RectPadsOf(width, height, radius, ctx);
            var lift := ctx.pcbThickness / 4.0 + ctx.consts.copperOffset;
            pads.topPad.Translate? && pads.bottomPad.Translate? && pads.topPad.solid == pads.bottomPad.solid
            && pads.topPad.dz == lift && pads.bottomPad.dz == -lift
            && pads.topPad.dx == 0.0 && pads.topPad.dy == 0.0
  {
  }

  /** The polygon pad is extruded from an outline whose signed area is never negative. */
  lemma PolygonPadWinding(ph: PlatedHole, ctx: Context)
    requires ph.HoleWithPolygonPad? && ph.padOutline.Some?
    ensures var points := PadSection(ph.padOutline.value).points;
            SignedArea(points) >= 0.0 && (points == ph.padOutline.value || points == Reverse(ph.padOutline.value))
  {
    CounterClockwiseArea(ph.padOutline.value);
  }

  /**
   * A polygon-pad hole gives a drill exactly when it gives copper, and a
   * warning exactly when it gives neither: a short or missing outline, a
   * circle without a diameter, or a hole shape it cannot draw.
   */
  lemma PolygonFailures(ph: PlatedHole, ctx: Context)
    requires ph.HoleWithPolygonPad?
    ensures var o := HoleOutcome(ph, ctx);
            (o.copper.None? <==> o.drills == []) && (o.copper.None? <==> |o.warnings| == 1)
    ensures ph.padOutline.None? || |ph.padOutline.value| < 3 ==>
              HoleOutcome(ph, ctx) == Outcome([], [], None, [MissingPadOutline(ph.id)])
    ensures ph.padOutline.Some? && |ph.padOutline.value| >= 3 && HoleShape(ph) == "circle"
            && ph.polygonHoleDiameter.None? ==>
              HoleOutcome(ph, ctx).warnings == [MissingHoleDiameter(ph.id)]
    ensures ph.padOutline.Some? && |ph.padOutline.value| >= 3 && HoleShape(ph) != "circle"
            && !(IsPillShape(HoleShape(ph)) && ph.polygonHoleWidth.Some? && ph.polygonHoleHeight.Some?) ==>
              HoleOutcome(ph, ctx).warnings == [UnsupportedHoleShape(ph.id)]
  {
  }

  /** A polygon-pad pill is turned only for the `rotated_pill` shape with a numeric rotation. */
  lemma PolygonPillRotation(ph: PlatedHole)
    requires ph.HoleWithPolygonPad?
    ensures PillRotation(ph).Some? <==> HoleShape(ph) == "rotated_pill" && ph.ccwRotation.Some?
    ensures PillRotation(ph).Some? ==> PillRotation(ph) == ph.ccwRotation
  {
  }

  /** Two holes without ids get different keys at different indices. */
  lemma IndexKeysAreDistinct(i: nat, j: nat)
    requires i != j
    ensures HoleKey("", i) != HoleKey("", j)
  {
    if HoleKey("", i) == HoleKey("", j) {
      assert NatToString(i) == HoleKey("", i)[3..];
      assert NatToString(j) == HoleKey("", j)[3..];
      NatToStringInjective(i, j);
    }
  }
}
