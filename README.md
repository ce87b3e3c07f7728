# viewer3d board-geometry core, in Dafny

This project models the geometric core of the viewer3d PCB viewer: the code that turns circuit records into copper solids, legend geometry and legend textures.

- **Board anchor.** `src/utils/board-anchor.ts` resolves a board's anchor point and anchor alignment:
  - it takes the first finite candidate point;
  - it normalises and looks up alignment aliases in a 45-entry table;
  - failing that, it infers the alignment from the board's geometry.
- **Pad rotation.** `src/utils/get-pad-rotation.ts` gives an SMT pad's rotation, negated on the bottom layer.
- **Pad solids.** `src/utils/pad-geoms.ts` builds the solid of an SMT pad, by its shape:
  - a rounded rectangle made of boxes plus four corner cylinders;
  - a rotated rectangle;
  - a circle;
  - a polygon, whose outline is re-wound counter-clockwise.
- **SMT pads.** `src/utils/manifold/process-smt-pads.ts` places, drills and clips every SMT pad. It registers each intermediate solid for cleanup and keys the resulting meshes.
- **Plated holes.** `src/utils/manifold/process-plated-holes.ts` handles five plated-hole shapes: circle, pill, pill with rect pad, circle with rect pad, and hole with polygon pad. For each it builds the board drill and the copper barrel, clips the copper, registers every intermediate, and unites all copper into one subtract op.
- **Legend geometry.**
  - `src/geoms/create-geoms-for-silkscreen-path.ts` and `src/geoms/create-geoms-for-fabrication-note-path.ts` give the JSCAD slab of a silkscreen or fabrication path.
  - `src/geoms/create-geoms-for-fabrication-note-text.ts` lays out a fabrication note's text. It splits two-stroke glyphs, takes the bounding box, applies the alignment offsets, and mirrors bottom-layer text with its rotation negated.
- **Legend textures.** `src/utils/fabrication-note-texture.ts` and `src/utils/silkscreen-texture.ts` paint one board side's legend onto a canvas. The model observes that canvas as the log of commands issued to its 2D context.
- **Context menus.** `src/utils/menuPositioning.ts` clamps context-menu and submenu positions to the viewport.

How the source's constructs are represented:

- **Manifold and JSCAD values.** They are symbolic trees (`Kernel.Solid`, `Jscad.Geom3`) named by the call that built them. The caller-owned cleanup array is a class, `Kernel.InstanceList`, whose `items` the copper builders append to.
- **Code the model cannot see.** This covers the text renderers (`vectorText`, `createSilkscreenTextGeoms`), the trigonometric rotation, the unshown constants module and the rect-border-radius helpers. The model receives all of these as parameters.
- **Numbers.**
  - They are `real` where the source does plain arithmetic.
  - They are `JsNumber` (finite, NaN or ±Infinity) where the source tests finiteness or NaN, or where it produces infinities itself: the bounds of an empty text, menu clamping, board-anchor candidates.
  - `parseFloat` is modelled for decimal literals.

Two observations that are not defects:

- **The fabrication-note text stroke.** It is `min(max(0.01, 0.1 f), 0.05 f)`, and its 0.01 floor never takes effect for a non-negative font size: the stroke is always `0.05 f` (`FabricationNoteTexture.TextStrokeIsATwentieth`).
- **Rect-pad plated holes.** Their top and bottom pads sit a quarter of the board thickness from the middle, not half (`PlatedHoles.RectPadsAtQuarterThickness`).

## Model

| member | source | states |
|---|---|---|
| BoardAnchor.LookupFindsFirst | src/utils/board-anchor.ts:17-63 | a key found in the alias table maps to the alignment of its first entry |
| BoardAnchor.LookupMisses | src/utils/board-anchor.ts:17-63 | a string that is no entry's key is not found |
| BoardAnchor.TagIsAKey | src/utils/board-anchor.ts:17-63 | every alignment tag the resolver returns is itself a key that maps back to it |
| BoardAnchor.CollapseSeparators | src/utils/board-anchor.ts:105 | after replacing each run of `_`/white space by one hyphen no separator remains |
| BoardAnchor.StripTrailingModifier | src/utils/board-anchor.ts:113 | the result is the input or the input less its last seven characters (`-center`/`-middle`) |
| BoardAnchor.StripLeadingModifier | src/utils/board-anchor.ts:114 | the result is the input or the input less its first seven characters (`center-`/`middle-`) |
| BoardAnchor.ExtractAlignment | src/utils/board-anchor.ts:98-121 | missing or empty gives null; a string already in normal form that is a key gives that key's alignment; one that is no key and carries no `center`/`middle` modifier gives null |
| BoardAnchor.TagResolvesToItself | src/utils/board-anchor.ts:17-121 | every alignment's own name resolves to that alignment |
| BoardAnchor.Simplify | src/utils/board-anchor.ts:111-114 | the input, or the input less a seven-character modifier at its end, its start, or both |
| BoardAnchor.CaseDoesNotMatter | src/utils/board-anchor.ts:102-105 | two alignment strings equal up to letter case resolve to the same alignment |
| BoardAnchor.PaddingDoesNotMatter | src/utils/board-anchor.ts:102-103 | white space around an alignment string does not change what it resolves to |
| BoardAnchor.CollapseOneSeparator | src/utils/board-anchor.ts:105 | one `_` or white-space character between two plain words becomes a single hyphen |
| BoardAnchor.NormalizeJoined | src/utils/board-anchor.ts:102-105 | two lower-case words joined by `_` or a space normalise to the hyphenated pair |
| BoardAnchor.NormalizePlain | src/utils/board-anchor.ts:102-105 | a string of lower-case letters and hyphens is already normal: trimming, lower-casing and collapsing leave it as it is |
| BoardAnchor.SpellingsOfTopRight | tests/board-anchor.test.ts:35-48 | "top_right", "Top Right" and "top-right" all resolve to top-right |
| BoardAnchor.ResolvesPlain | src/utils/board-anchor.ts:107-118 | a string already in normal form is looked up as it is, then in simplified form |
| BoardAnchor.RunTogetherIsUnknown | src/utils/board-anchor.ts:107-120 | "topright" is neither a key nor simplifiable to one, so it gives null |
| BoardAnchor.TrailingModifierDropped | src/utils/board-anchor.ts:111-118 | "left-center-middle" loses its trailing modifier and resolves through "left-center" to left |
| BoardAnchor.ModifiersOnBothEnds | src/utils/board-anchor.ts:112-118 | "middle-top-left-center" loses both modifiers and resolves through "top-left" |
| BoardAnchor.ConstructorIsNotAnAlignment | src/utils/board-anchor.ts:107-108 | "constructor" yields the inherited `Object` function as written and null by own-property lookup |
| BoardAnchor.AsWrittenAgreesOffThePrototype | src/utils/board-anchor.ts:98-121 | for strings that are not inherited property names the as-written and the own-property resolvers agree |
| BoardAnchor.PickPoint | src/utils/board-anchor.ts:88-96 | a point exactly when the candidate exists and both coordinates are finite numbers, with those coordinates |
| BoardAnchor.AnchorCandidates | src/utils/board-anchor.ts:188-204 | no board gives no candidates; otherwise six, in this order: auto_size_config.board_anchor.position, auto_size_config.board_anchor_position, auto_size_config.anchor_position, board_anchor_position, anchor_position, center |
| BoardAnchor.AlignmentCandidates | src/utils/board-anchor.ts:206-220 | no board gives no candidates; otherwise five, in this order: auto_size_config.board_anchor.alignment, auto_size_config.board_anchor_alignment, auto_size_config.anchor_alignment, board_anchor_alignment, anchor_alignment |
| BoardAnchor.FirstPickedPoint | src/utils/board-anchor.ts:225-230 | null exactly when no candidate has a finite point; otherwise the point of some candidate |
| BoardAnchor.FirstPickedPointIs | src/utils/board-anchor.ts:225-230 | the search returns the point of the first candidate that has one |
| BoardAnchor.PositionDefaultsToOrigin | src/utils/board-anchor.ts:232 | with no usable candidate the anchor is (0, 0) |
| BoardAnchor.PositionFallsBackToCenter | src/utils/board-anchor.ts:196-203 | without explicit anchor fields the anchor is the board centre |
| BoardAnchor.PositionExamples | tests/board-anchor.test.ts:9-31 | the centre fallback (3, -2) and the auto-size anchor (5, 7) |
| BoardAnchor.FirstExtractedNone | src/utils/board-anchor.ts:238-243 | the search finds nothing exactly when no candidate resolves to an alignment |
| BoardAnchor.FirstExtractedFound | src/utils/board-anchor.ts:238-243 | what the search finds is the alignment of some candidate, and every candidate before it resolves to nothing |
| BoardAnchor.FirstExtractedIs | src/utils/board-anchor.ts:238-243 | the search returns the alignment of the first candidate that resolves |
| BoardAnchor.ExplicitAlignmentWins | src/utils/board-anchor.ts:235-243 | the first resolvable alignment field decides, before any geometric inference |
| BoardAnchor.InferenceFindsNamedAnchor | src/utils/board-anchor.ts:145-186 | an anchor exactly at the point an alignment names is inferred as that alignment when the half-sizes exceed the tolerance |
| BoardAnchor.InferredAnchorIsNear | src/utils/board-anchor.ts:145-186 | an inferred alignment places the anchor within the tolerance of the point it names |
| BoardAnchor.InferenceFailures | src/utils/board-anchor.ts:130-166 | inference fails without a centre, with a non-finite size, or with an anchor that is within the tolerance of none of centre, +half size and −half size on either axis |
| BoardAnchor.DefaultAlignmentIsCenter | src/utils/board-anchor.ts:245-251 | with no alignment field and no anchor field the alignment is "center" |
| BoardAnchor.NoAlignmentFields | src/utils/board-anchor.ts:206-220 | a board without alignment fields has no explicit alignment |
| BoardAnchor.LowerLeftExample | tests/board-anchor.test.ts:50-60 | centre (10, 5), size 20 x 10, anchor at the origin is bottom-left |
| BoardAnchor.UpperRightExample | tests/board-anchor.test.ts:62-72 | centre at the origin, size 20 x 10, anchor at (10, 5) is top-right |
| BoardAnchor.ExplicitExample | tests/board-anchor.test.ts:36-48 | any board whose auto-size config has no anchor and the alignment "top-right" is aligned top-right |
| BoardAnchor.BoardAnchorPosition | src/utils/board-anchor.ts:222-233 | the point of some candidate all of whose predecessors have no finite point, or (0, 0) when no candidate has one |
| BoardAnchor.PositionPrecedence | src/utils/board-anchor.ts:188-233 | the first finite point among auto_size_config.board_anchor.position, auto_size_config.board_anchor_position, auto_size_config.anchor_position, board_anchor_position, anchor_position, center; else (0, 0) |
| BoardAnchor.BoardAnchorAlignment | src/utils/board-anchor.ts:235-252 | the alignment of some field all of whose predecessors resolve to nothing; when none resolves, the inferred alignment, else center |
| BoardAnchor.AlignmentPrecedence | src/utils/board-anchor.ts:206-252 | the first resolvable among auto_size_config.board_anchor.alignment, auto_size_config.board_anchor_alignment, auto_size_config.anchor_alignment, board_anchor_alignment, anchor_alignment; else the alignment inferred from the resolved position; else center |
| BoardAnchor.FallsBackToCenter | src/utils/board-anchor.ts:245-251 | when no field resolves and inference fails the alignment is center |
| BoardAnchor.DeriveAlignmentFromBoard | src/utils/board-anchor.ts:126-186 | an alignment only for a board with a centre and finite width and height; center only for an anchor within the tolerance of the centre on both axes |
| BoardAnchor.ApproxEqualWindow | src/utils/board-anchor.ts:123-124 | a equals b within the tolerance exactly when b − 1e-6 ≤ a ≤ b + 1e-6, and the relation is symmetric |
| BoardAnchor.TopRightJoined | src/utils/board-anchor.ts:102-105 | "top_right" and "top right" normalise to "top-right" |
| BoardAnchor.ConstructorAsWritten | src/utils/board-anchor.ts:235-243 | as written, a board whose alignment field is "constructor" gets the `Object` function as its alignment |
| PadRotation.PadRotationDegrees | src/utils/get-pad-rotation.ts:9-13 | 0 without a rotation; the rotation negated on the bottom layer and kept on any other |
| PadRotation.PadRotationRadians | src/utils/get-pad-rotation.ts:15-16 | zero and positive exactly when the degrees are |
| PadRotation.RotationSignForLayer | src/utils/get-pad-rotation.ts:6-7 | -1 exactly for "bottom", +1 for every other layer value |
| PadRotation.TopLayerKeepsRotation | src/utils/get-pad-rotation.ts:9-13 | a pad not on the bottom layer keeps its rotation; a missing layer counts as the top |
| PadRotation.BottomLayerNegatesRotation | src/utils/get-pad-rotation.ts:9-13 | a bottom-layer pad's rotation is negated |
| PadRotation.MissingRotationIsZero | src/utils/get-pad-rotation.ts:10 | a pad without a rotation is unrotated on either layer |
| PadRotation.LayersAreOpposite | src/utils/get-pad-rotation.ts:9-13 | the same pad on the two layers gets exactly opposite rotations |
| PadRotation.RadiansKeepSign | src/utils/get-pad-rotation.ts:15-16 | radians keep the sign of degrees and convert back by 180/π |
| PadRotation.RotationExamples | tests/get-pad-rotation.test.ts:5-27 | 45° top stays 45°, 45° bottom is -45°, 90° bottom is -90π/180 radians |
| Polygon.ReverseNegatesArea | src/utils/pad-geoms.ts:140-142 | reversing a polygon negates its signed area |
| Polygon.EdgeSumIsShoelace | src/utils/pad-geoms.ts:63-75 | the winding loop visits every edge of the closed polygon exactly once |
| Polygon.CounterClockwiseArea | src/utils/pad-geoms.ts:140-142 | after the winding correction the signed area is never negative and the outline is the original or its reversal |
| PadGeoms.CreateRoundedRectPrism | src/utils/pad-geoms.ts:10-61 | the collected shapes are the clamped-radius prism: a cube, or boxes and four corner cylinders |
| PadGeoms.SquareCornersAreOneCube | src/utils/pad-geoms.ts:25-27 | without a positive radius the prism is one centred cube of the full size |
| PadGeoms.BoxesOnlyWhenPositive | src/utils/pad-geoms.ts:33-39 | each reduced box is present exactly when its reduced side is positive |
| PadGeoms.FourRoundCorners | src/utils/pad-geoms.ts:41-58 | with a positive radius exactly four corner cylinders of that radius at (±(w/2 − r), ±(h/2 − r)) |
| PadGeoms.ArePointsClockwise | src/utils/pad-geoms.ts:63-75 | true exactly when the polygon's signed area is not positive |
| PadGeoms.CreatePadManifoldOp | src/utils/pad-geoms.ts:82-157 | returns the shape dispatch's pad solid and cleanup list |
| PadGeoms.WhenNoPadSolid | src/utils/pad-geoms.ts:119-156 | null exactly for a short polygon, a circle without a non-zero radius, or an unknown shape |
| PadGeoms.RotationOnlyWhenNonZero | src/utils/pad-geoms.ts:93-118 | a rect pad is never rotated; a rotated_rect pad only by a present non-zero rotation |
| PadGeoms.CleanupIsTheCrossSection | src/utils/pad-geoms.ts:144-154 | only a polygon pad leaves an extra cleanup item: the cross-section it extrudes |
| PadGeoms.PolygonPadWinding | src/utils/pad-geoms.ts:136-145 | the extruded outline has the pad's points, maybe reversed, and a non-negative signed area |
| SmtPads.ProcessPad | src/utils/manifold/process-smt-pads.ts:40-82 | one pad's geom and the solids it registers, as the per-pad specification gives them |
| SmtPads.PlacePad | src/utils/manifold/process-smt-pads.ts:54-81 | register, place, drill and clip a produced pad; its key and final solid |
| SmtPads.ProcessSmtPads | src/utils/manifold/process-smt-pads.ts:24-85 | the geoms and the cleanup list after all pads |
| SmtPads.BottomIsMirrored | src/utils/manifold/process-smt-pads.ts:42-45 | a bottom pad sits at the mirror height of the same pad on any other layer, above the board on top |
| SmtPads.SubtractThenClip | src/utils/manifold/process-smt-pads.ts:66-75 | the hole union is cut before the clip, and the clip happens exactly when a clip volume is given |
| SmtPads.MissingCoordinateIsZero | src/utils/manifold/process-smt-pads.ts:61-64 | a coordinate that is not a number moves the pad by 0 |
| SmtPads.IndexKeysAreDistinct | src/utils/manifold/process-smt-pads.ts:78 | pads without ids on one layer get distinct keys at distinct indices |
| SmtPads.GeomsFollowPadOrder | src/utils/manifold/process-smt-pads.ts:40-83 | the k-th geom belongs to the k-th pad that produced a solid |
| SmtPads.PadRegistersItsSolids | src/utils/manifold/process-smt-pads.ts:55-75 | a produced pad registers its cleanup items, then the unplaced and placed solids, then drilled and clipped |
| PlatedHoles.CreatePillOp | src/utils/manifold/process-plated-holes.ts:62-72 | a rounded prism of radius min(w, h)/2, registered |
| PlatedHoles.ClipCopper | src/utils/manifold/process-plated-holes.ts:112-119 | the copper intersected with the clip volume, registered, only when one is given |
| PlatedHoles.ProcessCircle | src/utils/manifold/process-plated-holes.ts:75-129 | the circle branch's drill, copper and registered solids |
| PlatedHoles.RotateIfSet | src/utils/manifold/process-plated-holes.ts:145-149 | turned and registered only for a non-zero rotation |
| PlatedHoles.CreatePillDrill | src/utils/manifold/process-plated-holes.ts:139-157 | the pill drill grown by the z offset, maybe turned, placed, each registered |
| PlatedHoles.CreatePillRing | src/utils/manifold/process-plated-holes.ts:160-185 | outer pill minus inner pill, maybe turned, placed |
| PlatedHoles.ProcessPill | src/utils/manifold/process-plated-holes.ts:130-204 | the pill branch's drill, copper and registered solids |
| PlatedHoles.CreateRectPads | src/utils/manifold/process-plated-holes.ts:233-262 | the fill and the two pads, registered in that order |
| PlatedHoles.UniteRectPadCopper | src/utils/manifold/process-plated-holes.ts:265-279 | register the barrel, then the union of pads and barrel |
| PlatedHoles.FinishRectPadCopper | src/utils/manifold/process-plated-holes.ts:282-305 | cut the hole, place and clip the copper, registering each |
| PlatedHoles.BuildPillRectCopper | src/utils/manifold/process-plated-holes.ts:233-305 | the pads, the barrel, their union, the lip cut and the clip of a pill-with-rect-pad hole, registered in that order |
| PlatedHoles.ProcessPillRect | src/utils/manifold/process-plated-holes.ts:205-315 | the pill-with-rect-pad branch's drill, copper and registered solids |
| PlatedHoles.ProcessCircleRect | src/utils/manifold/process-plated-holes.ts:316-427 | the circle-with-rect-pad branch's drill, copper and registered solids |
| PlatedHoles.CreatePadPrism | src/utils/manifold/process-plated-holes.ts:446-468 | the wound outline's cross-section, its extrusion and its placement, each registered |
| PlatedHoles.TranslateToHole | src/utils/manifold/process-plated-holes.ts:470-474 | moved to the hole centre and registered |
| PlatedHoles.CreateCircleBarrel | src/utils/manifold/process-plated-holes.ts:493-543 | the circular barrel's drill, outer and inner cylinders and hole cut |
| PlatedHoles.CreatePillPart | src/utils/manifold/process-plated-holes.ts:476-578 | a pill, maybe turned, moved to the hole, each registered |
| PlatedHoles.CreatePillBarrel | src/utils/manifold/process-plated-holes.ts:544-578 | the pill barrel's drill, outer and inner pills and hole cut |
| PlatedHoles.CreatePolygonBarrel | src/utils/manifold/process-plated-holes.ts:488-583 | the hole-shape dispatch; no barrel for a shape without its dimensions |
| PlatedHoles.FinishPolygonCopper | src/utils/manifold/process-plated-holes.ts:593-604 | shell, pad with hole and their union, registered, then the clip |
| PlatedHoles.ProcessPolygon | src/utils/manifold/process-plated-holes.ts:428-612 | the polygon-pad branch's drill, copper, warnings and registered solids |
| PlatedHoles.PlatedArePointsClockwise | src/utils/manifold/process-plated-holes.ts:19-27 | true exactly when the signed area is not positive |
| PlatedHoles.ProcessHole | src/utils/manifold/process-plated-holes.ts:74-613 | one hole's outcome by shape; an unknown shape does nothing |
| PlatedHoles.ProcessHoleAt | src/utils/manifold/process-plated-holes.ts:74-613 | one pass of the loop extends the lists and the cleanup by that hole |
| PlatedHoles.PushHoleResults | src/utils/manifold/process-plated-holes.ts:87-129 | the hole's drills, copper op, geom and warnings are pushed |
| PlatedHoles.PrefixStep | src/utils/manifold/process-plated-holes.ts:74 | both prefixes grow by exactly the next hole's outcome |
| PlatedHoles.ProcessAllHoles | src/utils/manifold/process-plated-holes.ts:74-614 | the lists and the cleanup list after all holes |
| PlatedHoles.ProcessPlatedHoles | src/utils/manifold/process-plated-holes.ts:43-624 | drills, geoms and the subtract op, with the union registered when made |
| PlatedHoles.GeomsMatchOps | src/utils/manifold/process-plated-holes.ts:122-129 | geoms and subtract ops have the same length and the k-th geom carries the k-th op |
| PlatedHoles.AtMostOneDrillPerHole | src/utils/manifold/process-plated-holes.ts:87-587 | the holes add at most one board drill each |
| PlatedHoles.OneDrillAtMost | src/utils/manifold/process-plated-holes.ts:74-613 | one hole adds at most one drill |
| PlatedHoles.SubtractOpIffSomeCopper | src/utils/manifold/process-plated-holes.ts:617-621 | the subtract op exists exactly when some hole made copper, and is the union of all copper ops |
| PlatedHoles.OpsAreTheCoppers | src/utils/manifold/process-plated-holes.ts:74-613 | the collected copper ops are exactly the holes' copper, in hole order, skipping holes without copper |
| PlatedHoles.CopperIsClipped | src/utils/manifold/process-plated-holes.ts:112-604 | every branch's copper is clipped exactly when a clip volume is given |
| PlatedHoles.AllOpsClipped | src/utils/manifold/process-plated-holes.ts:122-606 | every collected copper op is clipped exactly when a clip volume is given |
| PlatedHoles.UnknownShapeIsDropped | src/utils/manifold/process-plated-holes.ts:74-613 | a hole of an unknown shape changes no list and registers nothing |
| PlatedHoles.CircleDrillIsWider | src/utils/manifold/process-plated-holes.ts:77-85 | a circle hole's drill is 2% wider than the hole, on the hole |
| PlatedHoles.PillDrillSizing | src/utils/manifold/process-plated-holes.ts:139-157 | the pill drill is grown by the z offset, turned only for a non-zero rotation, and placed |
| PlatedHoles.PillOuterDefault | src/utils/manifold/process-plated-holes.ts:134-136 | without outer dimensions the ring reaches 0.2 beyond the hole on each side |
| PlatedHoles.LipInsetFloor | src/utils/manifold/process-plated-holes.ts:283-284 | the lip-inset dimension is d − 0.1 but never below 0.01 |
| PlatedHoles.CircleBarrelFloors | src/utils/manifold/process-plated-holes.ts:521-543 | the inner cylinder and the cut never shrink below M and M/2 |
| PlatedHoles.CircleRectCutFloor | src/utils/manifold/process-plated-holes.ts:373-399 | the cut radius is the hole radius less M, floored at 0.01; the barrel keeps the full radius |
| PlatedHoles.OffsetsDefaultToZero | src/utils/manifold/process-plated-holes.ts:208-319 | a missing or zero hole offset leaves the drill on the hole's position |
| PlatedHoles.RectPadsAtQuarterThickness | src/utils/manifold/process-plated-holes.ts:247-369 | the pads are one prism raised and lowered by t/4 plus the copper offset |
| PlatedHoles.PolygonPadWinding | src/utils/manifold/process-plated-holes.ts:446-452 | the polygon pad is extruded from an outline with a non-negative signed area |
| PlatedHoles.PolygonFailures | src/utils/manifold/process-plated-holes.ts:430-591 | a drill exactly when copper; a warning exactly when neither, for each failure |
| PlatedHoles.PolygonPillRotation | src/utils/manifold/process-plated-holes.ts:476-486 | a polygon-pad pill turns only for rotated_pill with a numeric rotation |
| PlatedHoles.IndexKeysAreDistinct | src/utils/manifold/process-plated-holes.ts:126 | holes without ids get distinct keys at distinct indices |
| SilkscreenPath.SilkscreenPathGeom | src/geoms/create-geoms-for-silkscreen-path.ts:18-54 | a geom exactly when the route has two points or more: a coloured, translated slab |
| SilkscreenPath.ExpandsByHalfStroke | src/geoms/create-geoms-for-silkscreen-path.ts:29-40 | the route line is expanded by half the stroke width with round corners |
| SilkscreenPath.StrokeWidthDefault | src/geoms/create-geoms-for-silkscreen-path.ts:32-36 | a missing width, or a string that is not a non-zero number, gives 0.1 |
| SilkscreenPath.BottomMirrorsTop | src/geoms/create-geoms-for-silkscreen-path.ts:42-45 | the bottom slab sits at the exact negation of the top slab's height |
| SilkscreenPath.OptionsAreHonoured | src/geoms/create-geoms-for-silkscreen-path.ts:43-52 | for any options, the slab has the given colour (white when none), the given height (0.012 when none) and sits at the layer-signed z offset built from the given multiplier |
| SilkscreenPath.DefaultOptions | src/geoms/create-geoms-for-silkscreen-path.ts:43-52 | without options the slab is white, 0.012 high and lifted by 1.5 M |
| FabricationNotePath.RoutePoints | src/geoms/create-geoms-for-fabrication-note-path.ts:20-26 | each route point's coordinates parsed, in order |
| FabricationNotePath.FabricationNotePathGeom | src/geoms/create-geoms-for-fabrication-note-path.ts:14-49 | a geom exactly when the route has two points or more, in the note colour |
| FabricationNotePath.CoordinateFallback | src/geoms/create-geoms-for-fabrication-note-path.ts:21-24 | a string coordinate that is not a non-zero number is 0; a number is kept |
| FabricationNotePath.SlabShape | src/geoms/create-geoms-for-fabrication-note-path.ts:27-45 | the slab is the line expanded by half the stroke, extruded 0.012 high |
| FabricationNotePath.StrokeWidthDefault | src/geoms/create-geoms-for-fabrication-note-path.ts:29-33 | missing or unparseable width gives 0.1; a number is used as given |
| FabricationNotePath.LayerSignedZ | src/geoms/create-geoms-for-fabrication-note-path.ts:39-40 | z = sign (t/2 + 2.5 M), the bottom being the negation of the top |
| FabricationNoteText.FontSize | src/geoms/create-geoms-for-fabrication-note-text.ts:35-40 | the font size is never 0 |
| FabricationNoteText.SplitOutline | src/geoms/create-geoms-for-fabrication-note-text.ts:65-73 | one or two strokes per outline |
| FabricationNoteText.NormalizeOutlines | src/geoms/create-geoms-for-fabrication-note-text.ts:63-74 | the loop pushes exactly the split of every outline, in order |
| FabricationNoteText.BoundsOf | src/geoms/create-geoms-for-fabrication-note-text.ts:76-82 | a box exactly when there are points |
| FabricationNoteText.BuildTransforms | src/geoms/create-geoms-for-fabrication-note-text.ts:104-122 | the mirror (bottom layer) then the rotation by the possibly negated angle |
| FabricationNoteText.CreateFabricationNoteTextGeoms | src/geoms/create-geoms-for-fabrication-note-text.ts:32-143 | the layout's outlines, offsets, anchor and font size |
| FabricationNoteText.LayOut | src/geoms/create-geoms-for-fabrication-note-text.ts:57-142 | once the glyphs are known: the split, offset and transformed outlines the layout specifies |
| FabricationNoteText.TransformIfNeeded | src/geoms/create-geoms-for-fabrication-note-text.ts:104-134 | the outlines mirrored and rotated as the layer and angle ask, untouched when no transform applies |
| FabricationNoteText.AnchorDefaults | src/geoms/create-geoms-for-fabrication-note-text.ts:15-30 | no anchor gives (0, 0); a string coordinate that is NaN or 0 gives 0; a number is kept |
| FabricationNoteText.FontSizeDefault | src/geoms/create-geoms-for-fabrication-note-text.ts:35-40 | 0.25 exactly for missing, 0, or a string parsing to NaN or 0; the value otherwise |
| FabricationNoteText.EmptyTextLaysOutNothing | src/geoms/create-geoms-for-fabrication-note-text.ts:42-50 | empty or missing text gives no outlines and zero offsets |
| FabricationNoteText.GlyphHeight | src/geoms/create-geoms-for-fabrication-note-text.ts:52-59 | glyphs are asked 0.45 times the font size high; no glyphs gives zero offsets |
| FabricationNoteText.SplitSharesOnePoint | src/geoms/create-geoms-for-fabrication-note-text.ts:65-73 | 29 points give 15 + 15 sharing point 14; 17 give 10 + 8 sharing point 9; others pass through |
| FabricationNoteText.SplitKeepsPoints | src/geoms/create-geoms-for-fabrication-note-text.ts:65-73 | the strokes of a split outline hold exactly its points |
| FabricationNoteText.NormalizedKeepsPoints | src/geoms/create-geoms-for-fabrication-note-text.ts:63-76 | the normalised outlines hold exactly the glyph points |
| FabricationNoteText.BoundsTight | src/geoms/create-geoms-for-fabrication-note-text.ts:77-82 | every point lies in the box and each side touches a point |
| FabricationNoteText.BoundsCharacterised | src/geoms/create-geoms-for-fabrication-note-text.ts:77-82 | a box holding every point and touching one on each side is the bounding box |
| FabricationNoteText.SplittingKeepsBounds | src/geoms/create-geoms-for-fabrication-note-text.ts:63-82 | splitting two-stroke glyphs does not change the box |
| FabricationNoteText.AlignmentPlacesEdge | src/geoms/create-geoms-for-fabrication-note-text.ts:84-102 | right before left before centre horizontally, top before bottom before centre vertically |
| FabricationNoteText.MissingAlignmentCentres | src/geoms/create-geoms-for-fabrication-note-text.ts:90 | a missing alignment centres the text on the anchor |
| FabricationNoteText.MirrorReflectsAboutCenter | src/geoms/create-geoms-for-fabrication-note-text.ts:107-111 | the bottom mirror sends x to 2 cx − x, and is its own inverse |
| FabricationNoteText.BottomMirrorsAndNegates | src/geoms/create-geoms-for-fabrication-note-text.ts:106-127 | bottom text is rotated by the negated angle, then mirrored |
| FabricationNoteText.LayoutOfText | src/geoms/create-geoms-for-fabrication-note-text.ts:52-142 | non-empty text is laid out from the split glyphs, offsets from their box |
| FabricationNoteText.LaidOutOffsets | src/geoms/create-geoms-for-fabrication-note-text.ts:57-142 | the outlines are the transformed split glyphs; the offsets are 0 without glyphs and otherwise set by the box of the split glyphs and the alignment |
| FabricationNoteText.UndefinedOffsetsDrawNothing | src/geoms/create-geoms-for-fabrication-note-text.ts:76-88 | NaN or infinite offsets arise only when every outline is empty |
| FabricationNoteText.NoTransformsKeepOutlines | src/geoms/create-geoms-for-fabrication-note-text.ts:124-134 | top-layer text without rotation comes back exactly as split |
| FabricationNoteText.BottomMirrorKeepsBounds | src/geoms/create-geoms-for-fabrication-note-text.ts:104-134 | bottom text without rotation keeps its box, so the offsets still align it |
| Canvas.PenCommandsShape | src/utils/fabrication-note-texture.ts:77-86 | moveTo the first point and lineTo each later one, in order |
| Canvas.PenCommandAt | src/utils/fabrication-note-texture.ts:77-86 | the pen command for point i is moveTo when i is 0 and lineTo otherwise, at that point |
| Canvas.TracePolyline | src/utils/silkscreen-texture.ts:125-129 | the loop issues exactly the pen commands of the mapped points |
| Canvas.CornersOfTheBoard | src/utils/silkscreen-texture.ts:104-110 | the board's top-left corner maps to the origin and its centre to (w·res/2, h·res/2) |
| Canvas.CanvasRoundTrip | src/utils/silkscreen-texture.ts:104-110 | at a non-zero resolution the pixel maps back to the board point it came from |
| Canvas.ToCanvasInjective | src/utils/fabrication-note-texture.ts:78-83 | at a non-zero resolution distinct points land on distinct pixels |
| Canvas.ToCanvasFlipsY | src/utils/silkscreen-texture.ts:107-109 | moving up on the board moves up on the canvas |
| FabricationNoteTexture.CanvasSize | src/utils/fabrication-note-texture.ts:49-56 | at least one pixel, else the floored product |
| FabricationNoteTexture.DrawPath | src/utils/fabrication-note-texture.ts:70-88 | one path's commands |
| FabricationNoteTexture.DrawPaths | src/utils/fabrication-note-texture.ts:70-88 | every path's commands, in order |
| FabricationNoteTexture.DrawSegment | src/utils/fabrication-note-texture.ts:109-125 | one segment's commands; nothing for an empty segment |
| FabricationNoteTexture.DrawSegments | src/utils/fabrication-note-texture.ts:109-125 | every segment's commands, in order |
| FabricationNoteTexture.DrawTextGeoms | src/utils/fabrication-note-texture.ts:99-125 | nothing without outlines; otherwise the stroke settings then the segments |
| FabricationNoteTexture.DrawText | src/utils/fabrication-note-texture.ts:90-126 | the commands of the text as laid out |
| FabricationNoteTexture.DrawTexts | src/utils/fabrication-note-texture.ts:90-126 | every text's commands, in order |
| FabricationNoteTexture.CreateFabricationNoteTextureForLayer | src/utils/fabrication-note-texture.ts:18-135 | the texture specified by the flip, the style, the paths and then the texts |
| FabricationNoteTexture.ToNumberCases | src/utils/fabrication-note-texture.ts:9-16 | a number kept, a finite parse kept even when 0, otherwise the fallback |
| FabricationNoteTexture.NullWhenNothingOnLayer | src/utils/fabrication-note-texture.ts:34-60 | null exactly when no record is on the side or there is no context |
| FabricationNoteTexture.CanvasAtLeastOnePixel | src/utils/fabrication-note-texture.ts:49-56 | the canvas is at least 1 x 1 and otherwise the floored product |
| FabricationNoteTexture.DefaultCenter | src/utils/fabrication-note-texture.ts:43-46 | a board without a centre is centred on half its size |
| FabricationNoteTexture.FlipComesFirst | src/utils/fabrication-note-texture.ts:62-68 | bottom: translate(0, h), scale(1, −1) before the stroke style; top: no flip |
| FabricationNoteTexture.PathStroke | src/utils/fabrication-note-texture.ts:71-87 | nothing below two points; otherwise round-capped at its width (0.1 default) through every point |
| FabricationNoteTexture.TextStroke | src/utils/fabrication-note-texture.ts:99-105 | nothing without outlines; otherwise it starts with the text stroke width |
| FabricationNoteTexture.TextStrokeIsATwentieth | src/utils/fabrication-note-texture.ts:101-103 | for a non-negative font size the stroke is f/20 |
| FabricationNoteTexture.SegmentPointsPlaced | src/utils/fabrication-note-texture.ts:112-123 | a glyph point is drawn at its offsets plus the anchor, mapped to the canvas |
| SilkscreenTexture.BuildComponentCenters | src/utils/silkscreen-texture.ts:76-84 | the loop builds exactly the component-centre map |
| SilkscreenTexture.ComponentCentersLastWins | src/utils/silkscreen-texture.ts:76-84 | an id is in the map exactly when a component with a centre registers it, and maps to the last such centre |
| SilkscreenTexture.ComponentCentersHas | src/utils/silkscreen-texture.ts:76-84 | an id is in the map exactly when some component with a centre registers it |
| SilkscreenTexture.ComponentCentersLast | src/utils/silkscreen-texture.ts:76-84 | a mapped id holds the centre of a registering component that no later component overrides |
| SilkscreenTexture.ResolveAnchorPosition | src/utils/silkscreen-texture.ts:86-102 | a text's own anchor is kept; without one, the board centre or the mapped centre of the component it names |
| SilkscreenTexture.AnchorResolution | src/utils/silkscreen-texture.ts:86-102 | own anchor, else the named component's centre, else the board centre |
| SilkscreenTexture.AnchorAtComponentCenter | src/utils/silkscreen-texture.ts:76-102 | a text naming a component is anchored at the last centre registered for it |
| SilkscreenTexture.NormalizeLayer | src/utils/silkscreen-texture.ts:34-35 | the bottom side exactly for "bottom" |
| SilkscreenTexture.OnLayerFilter | src/utils/silkscreen-texture.ts:34-48 | "bottom" is the bottom side and every other value, absent included, the top |
| SilkscreenTexture.NullWhenNothingOnLayer | src/utils/silkscreen-texture.ts:50-65 | null exactly when none of the four lists has a record on the side, or there is no context |
| SilkscreenTexture.CanvasSizeFloored | src/utils/silkscreen-texture.ts:60-61 | the canvas is the floored board size times the resolution |
| SilkscreenTexture.SubPixelBoardHasEmptyCanvas | src/utils/silkscreen-texture.ts:60-61 | a sub-pixel board gives a zero-size canvas, where the fabrication rasteriser keeps one pixel |
| SilkscreenTexture.BoardCenterInTheMiddle | src/utils/silkscreen-texture.ts:72-110 | the board centre, (0, 0) when missing, maps to the middle of the canvas |
| SilkscreenTexture.DrawPath | src/utils/silkscreen-texture.ts:113-131 | one path's commands; nothing without a route of two points |
| SilkscreenTexture.DrawPaths | src/utils/silkscreen-texture.ts:112-132 | every path's commands, in order |
| SilkscreenTexture.PathStroke | src/utils/silkscreen-texture.ts:114-130 | nothing below two points; otherwise colour, width, round caps and every point |
| SilkscreenTexture.ParsedWithDefault | src/utils/silkscreen-texture.ts:117-146 | a number as given, a non-zero parse, else the default |
| SilkscreenTexture.PlacedPoints | src/utils/silkscreen-texture.ts:182-185 | one placed point per glyph point |
| SilkscreenTexture.DrawSegment | src/utils/silkscreen-texture.ts:178-191 | one segment's commands; nothing for an empty segment |
| SilkscreenTexture.DrawSegments | src/utils/silkscreen-texture.ts:178-191 | every segment's commands, in order |
| SilkscreenTexture.DrawTextElement | src/utils/silkscreen-texture.ts:139-192 | nothing for empty text; otherwise the five settings then the segments |
| SilkscreenTexture.DrawTextElements | src/utils/silkscreen-texture.ts:134-193 | every text's commands, in order |
| SilkscreenTexture.TextStroke | src/utils/silkscreen-texture.ts:140-176 | nothing exactly for empty text; otherwise the settings from the font size (0.25 default) |
| SilkscreenTexture.TextStrokeFloor | src/utils/silkscreen-texture.ts:168-170 | the text stroke is never below 0.01, and is max(0.01, f/20) for f ≥ 0 |
| SilkscreenTexture.StrokeFormulasDiffer | src/utils/silkscreen-texture.ts:168-170 | below font size 0.2 this rasteriser draws 0.01 where the fabrication one draws f/20 |
| SilkscreenTexture.RotationPrecedence | src/utils/silkscreen-texture.ts:149-154 | ccw_rotation wins whenever present, even unparseable (then 0); with neither, 0 |
| SilkscreenTexture.TextElementFields | src/utils/silkscreen-texture.ts:156-163 | the element carries text, parsed size, resolved anchor, alignment ("center" default), layer, rotation |
| SilkscreenTexture.SegmentPointsPlaced | src/utils/silkscreen-texture.ts:181-188 | a glyph point is drawn at its offsets plus the anchor, mapped to the canvas |
| SilkscreenTexture.DrawOrder | src/utils/silkscreen-texture.ts:195-198 | after the flip, silkscreen paths come first and fabrication texts last |
| SilkscreenTexture.CreateSilkscreenTextureForLayer | src/utils/silkscreen-texture.ts:9-206 | the texture specified by flip, both path passes, then both text passes |
| SilkscreenTexture.TextsAsWrittenThrows | src/utils/silkscreen-texture.ts:140-163 | as written, a text list throws exactly when one text has text, else draws nothing |
| SilkscreenTexture.AsWrittenThrowsOnAnyText | src/utils/silkscreen-texture.ts:50-162 | as written, the call throws exactly when it draws and some text on the side has text; otherwise it agrees |
| SilkscreenTexture.AsWrittenThrows | src/utils/silkscreen-texture.ts:50-162 | as written, the call throws exactly when it draws and some text on the side has text, and the error is the undeclared rotation |
| SilkscreenTexture.AsWrittenOtherwiseAgrees | src/utils/silkscreen-texture.ts:50-206 | as written, a call that does not throw paints the intended texture |
| SilkscreenTexture.LabelThrowsAsWritten | src/utils/silkscreen-texture.ts:151-162 | one top-side label "R1": painted by the corrected function, a ReferenceError as written |
| MenuPositioning.Clamp | src/utils/menuPositioning.ts:9-14 | NaN gives min; within min ≤ max the result is in range; an in-range value is kept |
| MenuPositioning.MaxOffset | src/utils/menuPositioning.ts:25-26 | at least the padding, and either the padding or the offset that leaves the padding on the far side |
| MenuPositioning.MenuPosition | src/utils/menuPositioning.ts:16-32 | both coordinates lie between the padding and the largest offset |
| MenuPositioning.SubmenuPosition | src/utils/menuPositioning.ts:34-59 | both coordinates lie between the padding and the largest offset |
| MenuPositioning.ClampIdempotent | src/utils/menuPositioning.ts:9-14 | clamping twice is clamping once |
| MenuPositioning.ClampOutside | src/utils/menuPositioning.ts:11-12 | below the range gives min, above gives max |
| MenuPositioning.AnchorInsideIsKept | src/utils/menuPositioning.ts:16-32 | a pointer inside the allowed area opens the menu right there |
| MenuPositioning.NaNAnchorGoesToPadding | src/utils/menuPositioning.ts:10-29 | a NaN coordinate puts the menu at the padding |
| MenuPositioning.SubmenuPreferredLeft | src/utils/menuPositioning.ts:43-49 | right of the trigger or flipped to its left; kept on the right when it fits; flipped when the right overflows and the left keeps the padding; flipped only to a left edge at or past the padding |
| MenuPositioning.SubmenuClearsTrigger | src/utils/menuPositioning.ts:43-49 | with a non-negative offset the unclamped submenu never overlaps its trigger, on either side |
| MenuPositioning.SubmenuFitsOnRight | src/utils/menuPositioning.ts:43-56 | a submenu that fits is placed offset past the trigger, at its top |
| MenuPositioning.DefaultPaddingBound | src/utils/menuPositioning.ts:1-32 | with the default padding every menu keeps 8 from the top-left corner |
| JsValues.TrimStart | src/utils/board-anchor.ts:103 | a suffix of the input that starts with no white space, everything removed being white space |
| JsValues.TrimEnd | src/utils/board-anchor.ts:103 | a prefix of the input that ends with no white space, everything removed being white space |
| JsValues.Trim | src/utils/board-anchor.ts:103 | the result neither starts nor ends with white space |
| JsValues.ToLowerCase | src/utils/board-anchor.ts:104 | the same length, each ASCII capital lower-cased, every other character kept |
| JsValues.ParseFloatNeedsDigit | src/utils/silkscreen-texture.ts:121 | a number only for text that holds a digit |
| JsValues.ParseFloatOfDigits | src/utils/silkscreen-texture.ts:146 | a run of decimal digits parses to its decimal value |
| JsValues.ParseFloatOfNatToString | src/utils/silkscreen-texture.ts:146 | the decimal text of a natural number parses back to that number |
| JsValues.ParseFloatWithoutDigits | src/utils/silkscreen-texture.ts:154 | text without any digit parses to NaN |

## Left out

- The Manifold and JSCAD kernels are symbolic. Solids are trees of the calls that built them, so nothing is said about meshes, volumes or boolean-operation results. `manifoldMeshToThreeGeometry`, `getMesh`, the THREE colours and the `CanvasTexture` settings are not modelled.
- `createPlatedHoleDrill` and `createCircleHoleDrill` are symbolic constructors. Their file, src/utils/hole-geoms, is not part of this model.
- `clampRectBorderRadius` and `extractRectBorderRadius` are given functions. Their file, src/utils/rect-border-radius, is not part of this model.
- The constants module is not part of this model: `M`, `MANIFOLD_Z_OFFSET`, `DEFAULT_SMT_PAD_THICKNESS`, `BOARD_SURFACE_OFFSET.copper`, `SMOOTH_CIRCLE_SEGMENTS` and the copper colour are parameters.
- `vectorText`, `createSilkscreenTextGeoms` and the trigonometric `rotate(rad)` matrix are function parameters, since their code is not available.
- Floating point is not modelled. Arithmetic is exact over the reals, so rounding in the shoelace sums, the 1e-6 tolerance comparisons and the affine maps is not captured.
- `parseFloat` is modelled for decimal literals only: optional white space and sign, digits, and an optional fraction. Exponents, "Infinity" and hexadecimal-looking prefixes are not parsed.
- Number fields other than those the source tests for finiteness are finite reals. NaN or Infinity arriving in a width, a thickness or a stroke width is not modelled.
- `console.warn` becomes a list of warning values returned by the plated-hole model; nothing is printed.
- `document.createElement("canvas")` and `getContext("2d")` are modelled as a `hasContext` flag and a fresh command log. Assigning a negative or fractional size to `canvas.width`/`canvas.height` is not modelled.
- The 2D context is a log of the commands the rasterisers issue. Pixels, anti-aliasing and the context's transform state are not modelled.
- `window.innerWidth`/`innerHeight` are a `viewport` parameter of the menu functions.
- `su(circuitJson).….list()` is not modelled: each model takes the already-listed records of each kind.
- Records are typed as the source reads them. Values of unexpected JavaScript types are limited to what the model's `Option`/`NumOrStr` fields express, for example a non-string layer.
- FabricationNoteText.Transformed: when no glyph has a point, the source still maps its NaN-centred transforms over the empty outlines, but the model skips building them. The result is the same.
- SilkscreenTexture.TextureOf: the silkscreen and fabrication colour defaults are constants (`DefaultSilkscreenColor`, `DefaultFabricationNoteColor`); the model takes the colours as plain arguments.
- JsValues.ToLowerCase: lowers the ASCII capitals only. JavaScript's `toLowerCase` also applies the Unicode mapping to other letters ("É" becomes "é") and can lengthen a string ("İ" becomes two code units). Alignment resolution does not depend on this: every key of the alias table is ASCII. The only non-ASCII letters whose lower case contains an ASCII letter are the Kelvin sign, which lowers to `k` (no key contains `k`), and "İ", which lowers to `i` followed by a combining dot (no key contains that dot). So no input holding a non-ASCII letter can lower onto a key, in JavaScript or in the model.
- Canvas.TracePolyline: for the silkscreen rasteriser the route points are numeric `{x, y}` records, so the `toCanvas({ x: rawPoint.x, y: rawPoint.y })` copy is the point itself.

## Findings

| source | as written | input that shows it | evidently intended | confidence | as-written member | corrected member |
|---|---|---|---|---|---|---|
| src/utils/board-anchor.ts:107-108 | `alignmentMap[normalized]` reads the plain object literal, so a name inherited from `Object.prototype` is found and returned | a board whose `anchor_alignment` is "constructor" gets the `Object` function as its alignment | only the table's own keys resolve; "constructor" gives null and resolution falls through to inference or "center" | high, not executed | BoardAnchor.ConstructorAsWritten | BoardAnchor.ExtractAlignment |
| src/utils/silkscreen-texture.ts:162 | the shorthand property `ccw_rotation` names an identifier that nothing declares; the local computed at line 151 is `ccwRotation` | any silkscreen or fabrication text on the side with non-empty text, e.g. one top-side label "R1", throws a ReferenceError | pass the computed rotation: `ccw_rotation: ccwRotation` | high, not executed | SilkscreenTexture.LabelThrowsAsWritten | SilkscreenTexture.CreateSilkscreenTextureForLayer |
