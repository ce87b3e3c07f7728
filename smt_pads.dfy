/**
 * `processSmtPadsForManifold`: every SMT pad becomes a copper solid placed
 * on its side of the board, with the plated holes cut out and the board
 * outline clipped off, and every solid made on the way is registered in
 * the caller's cleanup list.
 */
module SmtPads {
  import opened JsValues
  import opened Kernel
  import opened CircuitJson
  import opened PadGeoms

  /** What every pad shares: the board thickness, the optional cutters and the unshown helpers. */
  datatype Context = Context(
    pcbThickness: real,
    holeUnion: Option<Solid>,
    clip: Option<Solid>,
    consts: Constants,
    helpers: RadiusHelpers)

  /** The pad's z: just above the top surface, or just below the bottom one. */
  function PadZ(layer: Option<string>, pcbThickness: real, consts: Constants): real {
    if layer == Some("bottom") then -pcbThickness / 2.0 - consts.copperOffset
    else pcbThickness / 2.0 + consts.copperOffset
  }

  /** `smt_pad-${layer || "top"}-${pcb_smtpad_id || index}` */
  function PadKey(pad: SmtPad, index: nat): string {
    "smt_pad-" + StrOrIfEmpty(pad.layer, "top") + "-" + (if pad.id != "" then pad.id else NatToString(index))
  }

  /** The pad solid moved into place; a coordinate that is not a number counts as 0. */
  function Placed(padOp: Solid, pad: SmtPad, ctx: Context): Solid {
    Translate(padOp, OrElse(pad.x, 0.0), OrElse(pad.y, 0.0), PadZ(pad.layer, ctx.pcbThickness, ctx.consts))
  }

  /** The hole union is cut out of the placed pad, when there is one. */
  function Drilled(placed: Solid, ctx: Context): Solid {
    if ctx.holeUnion.Some? then Subtract(placed, ctx.holeUnion.value) else placed
  }

  /** The drilled pad is intersected with the clip volume, when there is one. */
  function Clipped(drilled: Solid, ctx: Context): Solid {
    if ctx.clip.Some? then Intersect([drilled, ctx.clip.value]) else drilled
  }

  /** The copper of one pad whose dispatch produced a solid. */
  function FinalPadSolid(op: PadOp, pad: SmtPad, ctx: Context): Solid {
    Clipped(Drilled(Placed(op.padOp, pad, ctx), ctx), ctx)
  }

  /** What one produced pad appends to the cleanup list, in order. */
  function PadInstances(op: PadOp, pad: SmtPad, ctx: Context): seq<Instance> {
    var placed := Placed(op.padOp, pad, ctx);
    var drilled := Drilled(placed, ctx);
    op.cleanup + [SolidInstance(op.padOp), SolidInstance(placed)]
    + (if ctx.holeUnion.Some? then [SolidInstance(drilled)] else [])
    + (if ctx.clip.Some? then [SolidInstance(Clipped(drilled, ctx))] else [])
  }

  function PadOpOf(pad: SmtPad, ctx: Context): Option<PadOp> {
    PadManifoldOp(pad, ctx.consts.smtPadThickness, ctx.helpers)
  }

  /** The geoms of the first `n` pads. */
  function SmtPadGeoms(pads: seq<SmtPad>, n: nat, ctx: Context): seq<CopperGeom>
    requires n <= |pads|
  {
    if n == 0 then []
    else
      var geom := PadGeom(pads[n - 1], n - 1, ctx);
      SmtPadGeoms(pads, n - 1, ctx) + (if geom.Some? then [geom.value] else [])
  }

  /** What the first `n` pads append to the cleanup list. */
  function SmtPadCleanup(pads: seq<SmtPad>, n: nat, ctx: Context): seq<Instance>
    requires n <= |pads|
  {
    if n == 0 then []
    else
      SmtPadCleanup(pads, n - 1, ctx) + PadCleanup(pads[n - 1], ctx)
  }

  /** The geom one pad contributes, if its dispatch produced a solid. */
  function PadGeom(pad: SmtPad, index: nat, ctx: Context): Option<CopperGeom> {
    var op := PadOpOf(pad, ctx);
    if op.Some? then Some(CopperGeom(PadKey(pad, index), FinalPadSolid(op.value, pad, ctx))) else None
  }

  /** What one pad appends to the cleanup list. */
  function PadCleanup(pad: SmtPad, ctx: Context): seq<Instance> {
    var op := PadOpOf(pad, ctx);
    if op.Some? then PadInstances(op.value, pad, ctx) else []
  }

  /** The body of the `forEach` over the pads: one pad at position `index`. */
  method ProcessPad(pad: SmtPad, index: nat, ctx: Context, cleanup: InstanceList) returns (geom: Option<CopperGeom>)
    modifies cleanup
    ensures geom == PadGeom(pad, index, ctx)
    ensures cleanup.items == old(cleanup.items) + PadCleanup(pad, ctx)
  {
    var padOpResult := CreatePadManifoldOp(pad, ctx.consts.smtPadThickness, ctx.helpers);
    if padOpResult.None? {
      return None;
    }
    var copper := PlacePad(padOpResult.value, pad, index, ctx, cleanup);
    geom := Some(copper);
  }

  /** A pad whose dispatch produced a solid: register, place, drill, clip. */
  method PlacePad(op: PadOp, pad: SmtPad, index: nat, ctx: Context, cleanup: InstanceList) returns (geom: CopperGeom)
    modifies cleanup
    ensures geom == CopperGeom(PadKey(pad, index), FinalPadSolid(op, pad, ctx))
    ensures cleanup.items == old(cleanup.items) + PadInstances(op, pad, ctx)
  {
    var zPos := if pad.layer == Some("bottom") then -ctx.pcbThickness / 2.0 - ctx.consts.copperOffset
                else ctx.pcbThickness / 2.0 + ctx.consts.copperOffset;
    var padOp := op.padOp;
    cleanup.PushAll(op.cleanup);
    cleanup.PushSolid(padOp);
    var xTranslation := if pad.x.Some? then pad.x.value else 0.0;
    var yTranslation := if pad.y.Some? then pad.y.value else 0.0;
    var translatedPad := Translate(padOp, xTranslation, yTranslation, zPos);
    cleanup.PushSolid(translatedPad);
    var finalPadOp := translatedPad;
    if ctx.holeUnion.Some? {
      finalPadOp := Subtract(translatedPad, ctx.holeUnion.value);
      cleanup.PushSolid(finalPadOp);
    }
    if ctx.clip.Some? {
      var clipped := Intersect([finalPadOp, ctx.clip.value]);
      cleanup.PushSolid(clipped);
      finalPadOp := clipped;
    }
    geom := CopperGeom(PadKey(pad, index), finalPadOp);
  }

  /** `processSmtPadsForManifold` */
  method ProcessSmtPads(pads: seq<SmtPad>, ctx: Context, cleanup: InstanceList) returns (geoms: seq<CopperGeom>)
    modifies cleanup
    ensures geoms == SmtPadGeoms(pads, |pads|, ctx)
    ensures cleanup.items == old(cleanup.items) + SmtPadCleanup(pads, |pads|, ctx)
  {
    geoms := [];
    var index := 0;
    while index < |pads|
      invariant 0 <= index <= |pads|
      invariant geoms == SmtPadGeoms(pads, index, ctx)
      invariant cleanup.items == old(cleanup.items) + SmtPadCleanup(pads, index, ctx)
    {
      var geom := ProcessPad(pads[index], index, ctx, cleanup);
      AppendAssociates(old(cleanup.items), SmtPadCleanup(pads, index, ctx), PadCleanup(pads[index], ctx));
      if geom.Some? {
        geoms := geoms + [geom.value];
      }
      index := index + 1;
    }
  }

  /** A bottom pad sits at exactly the mirror height of the same pad on any other layer. */
  lemma BottomIsMirrored(layer: Option<string>, pcbThickness: real, consts: Constants)
    requires layer != Some("bottom")
    ensures PadZ(Some("bottom"), pcbThickness, consts) == -PadZ(layer, pcbThickness, consts)
    ensures consts.Valid() && pcbThickness >= 0.0 ==> PadZ(layer, pcbThickness, consts) > 0.0
  {
  }

  /**
   * The hole union is cut before the clip: with both present the copper is
   * the intersection of the drilled pad and the clip volume; the clip is
   * applied only when a clip volume is given.
   */
  lemma SubtractThenClip(op: PadOp, pad: SmtPad, ctx: Context)
    ensures ctx.holeUnion.Some? && ctx.clip.Some? ==>
              FinalPadSolid(op, pad, ctx)
              == Intersect([Subtract(Placed(op.padOp, pad, ctx), ctx.holeUnion.value), ctx.clip.value])
    ensures FinalPadSolid(op, pad, ctx).Intersect? <==> ctx.clip.Some?
  {
  }

  /** A coordinate that is not a number moves the pad by 0 on that axis. */
  lemma MissingCoordinateIsZero(op: PadOp, pad: SmtPad, ctx: Context)
    requires pad.x.None? && pad.y.None?
    ensures Placed(op.padOp, pad, ctx).dx == 0.0 && Placed(op.padOp, pad, ctx).dy == 0.0
  {
  }

  /** Two pads without ids on the same layer get different keys at different indices. */
  lemma IndexKeysAreDistinct(p: SmtPad, q: SmtPad, i: nat, j: nat)
    requires p.id == "" && q.id == "" && p.layer == q.layer
    requires i != j
    ensures PadKey(p, i) != PadKey(q, j)
  {
    if PadKey(p, i) == PadKey(q, j) {
      var prefix := "smt_pad-" + StrOrIfEmpty(p.layer, "top") + "-";
      assert PadKey(p, i) == prefix + NatToString(i);
      assert PadKey(q, j) == prefix + NatToString(j);
      assert NatToString(i) == PadKey(p, i)[|prefix|..];
      assert NatToString(j) == PadKey(q, j)[|prefix|..];
      NatToStringInjective(i, j);
    }
  }

  /** The pads that produce a solid, by index, in input order. */
  function ProducedIndices(pads: seq<SmtPad>, n: nat, ctx: Context): seq<nat>
    requires n <= |pads|
  {
    if n == 0 then []
    else ProducedIndices(pads, n - 1, ctx) + (if PadOpOf(pads[n - 1], ctx).Some? then [n - 1] else [])
  }

  /**
   * The geoms follow the input order, one per pad whose dispatch produced a
   * solid: the k-th geom belongs to the k-th such pad, and pads that give
   * no solid give no geom.
   */
  lemma {:induction false} GeomsFollowPadOrder(pads: seq<SmtPad>, n: nat, ctx: Context)
    requires n <= |pads|
    ensures var geoms, produced := SmtPadGeoms(pads, n, ctx), ProducedIndices(pads, n, ctx);
            |geoms| == |produced|
            && (forall k :: 0 <= k < |produced| ==>
                  produced[k] < n && PadOpOf(pads[produced[k]], ctx).Some?
                  && geoms[k] == CopperGeom(PadKey(pads[produced[k]], produced[k]),
                                            FinalPadSolid(PadOpOf(pads[produced[k]], ctx).value, pads[produced[k]], ctx)))
            && (forall k, l :: 0 <= k < l < |produced| ==> produced[k] < produced[l])
            && (forall i :: 0 <= i < n && PadOpOf(pads[i], ctx).Some? ==> i in produced)
  {
    if n > 0 {
      GeomsFollowPadOrder(pads, n - 1, ctx);
    }
  }

  /**
   * Each produced pad registers its own cleanup items, then the unplaced
   * solid, then the placed one, ahead of the drilled and clipped solids.
   */
  lemma PadRegistersItsSolids(op: PadOp, pad: SmtPad, ctx: Context)
    ensures var items := PadInstances(op, pad, ctx);
            items[..|op.cleanup|] == op.cleanup
            && items[|op.cleanup|] == SolidInstance(op.padOp)
            && items[|op.cleanup| + 1] == SolidInstance(Placed(op.padOp, pad, ctx))
            && |items| == |op.cleanup| + 2 + (if ctx.holeUnion.Some? then 1 else 0) + (if ctx.clip.Some? then 1 else 0)
            && (ctx.clip.Some? ==> items[|items| - 1] == SolidInstance(FinalPadSolid(op, pad, ctx)))
  {
  }
}
