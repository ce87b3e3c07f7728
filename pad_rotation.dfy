/**
 * The rotation of an SMT pad as seen from above the board: a pad on the
 * bottom layer is viewed through the board, so its counter-clockwise
 * rotation turns the other way.
 */
module PadRotation {
  import opened JsValues
  import opened CircuitJson

  /** -1 for the bottom layer, +1 for every other layer value. */
  function RotationSignForLayer(layer: Option<string>): (sign: real)
    ensures sign == 1.0 || sign == -1.0
    ensures sign == -1.0 <==> layer == Some("bottom")
  {
    if layer == Some("bottom") then -1.0 else 1.0
  }

  /** The pad's rotation in degrees; a missing rotation is 0, a missing layer is the top. */
  function PadRotationDegrees(pad: SmtPad): (degrees: real)
    ensures pad.ccwRotation.None? ==> degrees == 0.0
    ensures pad.ccwRotation.Some? && pad.layer == Some("bottom") ==> degrees == -pad.ccwRotation.value
    ensures pad.ccwRotation.Some? && pad.layer != Some("bottom") ==> degrees == pad.ccwRotation.value
  {
    var rotation := OrElse(pad.ccwRotation, 0.0);
    var sign := RotationSignForLayer(if pad.layer.None? then Some("top") else pad.layer);
    rotation * sign
  }

  /** The same rotation in radians. */
  function PadRotationRadians(pad: SmtPad): (radians: real)
    ensures radians == 0.0 <==> PadRotationDegrees(pad) == 0.0
    ensures radians > 0.0 <==> PadRotationDegrees(pad) > 0.0
  {
    PadRotationDegrees(pad) * Pi / 180.0
  }

  /** A pad not on the bottom layer keeps its rotation, and a missing layer counts as the top. */
  lemma TopLayerKeepsRotation(pad: SmtPad, rotation: real)
    requires pad.layer != Some("bottom")
    requires pad.ccwRotation == Some(rotation)
    ensures PadRotationDegrees(pad) == rotation
  {
  }

  /** A bottom-layer pad turns the other way. */
  lemma BottomLayerNegatesRotation(pad: SmtPad, rotation: real)
    requires pad.layer == Some("bottom")
    requires pad.ccwRotation == Some(rotation)
    ensures PadRotationDegrees(pad) == -rotation
  {
  }

  /** A pad without a rotation is unrotated on either layer. */
  lemma MissingRotationIsZero(pad: SmtPad)
    requires pad.ccwRotation == None
    ensures PadRotationDegrees(pad) == 0.0 && PadRotationRadians(pad) == 0.0
  {
  }

  /** The same pad on the two layers gets exactly opposite rotations. */
  lemma LayersAreOpposite(pad: SmtPad)
    ensures PadRotationDegrees(pad.(layer := Some("bottom")))
         == -PadRotationDegrees(pad.(layer := Some("top")))
  {
  }

  /** Radians keep the sign of degrees, and vanish exactly when degrees do. */
  lemma RadiansKeepSign(pad: SmtPad)
    ensures PadRotationRadians(pad) > 0.0 <==> PadRotationDegrees(pad) > 0.0
    ensures PadRotationRadians(pad) < 0.0 <==> PadRotationDegrees(pad) < 0.0
    ensures PadRotationDegrees(pad) == PadRotationRadians(pad) * 180.0 / Pi
  {
  }

  /** 45° on the top stays 45°, on the bottom becomes -45°; 90° on the bottom is -90·π/180 radians. */
  lemma RotationExamples(top45: SmtPad, bottom45: SmtPad, bottom90: SmtPad)
    requires top45.ccwRotation == Some(45.0) && top45.layer == Some("top")
    requires bottom45.ccwRotation == Some(45.0) && bottom45.layer == Some("bottom")
    requires bottom90.ccwRotation == Some(90.0) && bottom90.layer == Some("bottom")
    ensures PadRotationDegrees(top45) == 45.0
    ensures PadRotationDegrees(bottom45) == -45.0
    ensures PadRotationRadians(bottom90) == -90.0 * Pi / 180.0
  {
  }
}
