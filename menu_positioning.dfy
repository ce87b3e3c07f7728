/**
 * Placement of the viewer's context menu and of its submenus: the menu is
 * put at the pointer and pushed back inside the viewport, and a submenu
 * opens to the right of its trigger unless it would overflow there and
 * fits on the left.
 *
 * The viewport size, read from the browser window in the viewer, is a
 * parameter here.
 */
module MenuPositioning {
  import opened JsValues

  const DefaultViewportPadding: real := 8.0
  const DefaultSubmenuOffset: real := 8.0

  datatype Size = Size(width: real, height: real)

  /** The part of a `DOMRect` the submenu placement reads. */
  datatype TriggerRect = TriggerRect(left: real, right: real, top: real)

  datatype Position = Position(left: real, top: real)

  /**
   * `clamp`: NaN goes to `min`, a value below `min` to `min`, a value
   * above `max` to `max`; anything else is returned as it is.
   */
  function Clamp(value: JsNumber, min: real, max: real): (r: real)
    ensures value.NaN? ==> r == min
    ensures min <= max ==> min <= r <= max
    ensures value.Finite? && min <= value.value <= max ==> r == value.value
  {
    match value
    case NaN => min
    case Infinity(negative) => if negative then min else max
    case Finite(v) => if v < min then min else if v > max then max else v
  }

  /** The largest offset that keeps an extent of `size` inside `viewport`. */
  function MaxOffset(viewport: real, size: real, padding: real): (r: real)
    ensures r >= padding
    ensures r == padding || r + size + padding == viewport
  {
    Max(padding, viewport - size - padding)
  }

  /** `calculateMenuPosition` */
  function MenuPosition(anchorX: JsNumber, anchorY: JsNumber, size: Size, padding: real,
                        viewport: Size): (p: Position)
    ensures padding <= p.left <= MaxOffset(viewport.width, size.width, padding)
    ensures padding <= p.top <= MaxOffset(viewport.height, size.height, padding)
  {
    var maxLeft := MaxOffset(viewport.width, size.width, padding);
    var maxTop := MaxOffset(viewport.height, size.height, padding);
    Position(Clamp(anchorX, padding, maxLeft), Clamp(anchorY, padding, maxTop))
  }

  /** The left edge before clamping: right of the trigger, or flipped to its left. */
  function SubmenuPreferredLeft(trigger: TriggerRect, size: Size, padding: real, offset: real,
                                viewport: Size): (left: real)
    ensures left == trigger.right + offset || left == trigger.left - size.width - offset
    ensures trigger.right + offset + size.width <= viewport.width - padding ==> left == trigger.right + offset
    ensures trigger.right + offset + size.width > viewport.width - padding
            && trigger.left - size.width - offset >= padding
            ==> left == trigger.left - size.width - offset
    ensures left != trigger.right + offset ==> left >= padding
  {
    var preferredLeft := trigger.right + offset;
    var alternativeLeft := trigger.left - size.width - offset;
    if preferredLeft + size.width > viewport.width - padding && alternativeLeft >= padding
    then alternativeLeft
    else preferredLeft
  }

  /** `calculateSubmenuPosition` */
  function SubmenuPosition(trigger: TriggerRect, size: Size, padding: real, offset: real,
                           viewport: Size): (p: Position)
    ensures padding <= p.left <= MaxOffset(viewport.width, size.width, padding)
    ensures padding <= p.top <= MaxOffset(viewport.height, size.height, padding)
  {
    var left := SubmenuPreferredLeft(trigger, size, padding, offset, viewport);
    var maxLeft := MaxOffset(viewport.width, size.width, padding);
    var maxTop := MaxOffset(viewport.height, size.height, padding);
    Position(Clamp(Finite(left), padding, maxLeft), Clamp(Finite(trigger.top), padding, maxTop))
  }

  // ---------------------------------------------------------------------
  // Properties

  /** Clamping twice is clamping once. */
  lemma ClampIdempotent(value: JsNumber, min: real, max: real)
    requires min <= max
    ensures Clamp(Finite(Clamp(value, min, max)), min, max) == Clamp(value, min, max)
  {
  }

  /** Below the range gives `min`, above gives `max`, whatever the order of the checks. */
  lemma ClampOutside(v: real, min: real, max: real)
    requires min <= max
    ensures v < min ==> Clamp(Finite(v), min, max) == min
    ensures v > max ==> Clamp(Finite(v), min, max) == max
  {
  }

  /** A pointer already inside the allowed area opens the menu right there. */
  lemma AnchorInsideIsKept(x: real, y: real, size: Size, padding: real, viewport: Size)
    requires padding <= x <= MaxOffset(viewport.width, size.width, padding)
    requires padding <= y <= MaxOffset(viewport.height, size.height, padding)
    ensures MenuPosition(Finite(x), Finite(y), size, padding, viewport) == Position(x, y)
  {
  }

  /** A NaN pointer coordinate puts the menu at the padding. */
  lemma NaNAnchorGoesToPadding(y: JsNumber, size: Size, padding: real, viewport: Size)
    ensures MenuPosition(NaN, y, size, padding, viewport).left == padding
  {
  }

  /**
   * With a non-negative offset the submenu, on whichever side it opens,
   * never covers its trigger: it starts at or past the trigger's right edge
   * or ends at or before its left edge.
   */
  lemma SubmenuClearsTrigger(trigger: TriggerRect, size: Size, padding: real, offset: real, viewport: Size)
    requires offset >= 0.0
    ensures var left := SubmenuPreferredLeft(trigger, size, padding, offset, viewport);
            left >= trigger.right || left + size.width <= trigger.left
  {
  }

  /** A submenu that fits on the right is placed `offset` past the trigger. */
  lemma SubmenuFitsOnRight(trigger: TriggerRect, size: Size, padding: real, offset: real,
                           viewport: Size)
    requires trigger.right + offset + size.width <= viewport.width - padding
    requires padding <= trigger.right + offset
    requires padding <= trigger.top <= MaxOffset(viewport.height, size.height, padding)
    ensures SubmenuPosition(trigger, size, padding, offset, viewport)
            == Position(trigger.right + offset, trigger.top)
  {
  }

  /** With the default padding, every menu keeps 8 units from the top-left corner. */
  lemma DefaultPaddingBound(anchorX: JsNumber, anchorY: JsNumber, size: Size, viewport: Size)
    ensures var p := MenuPosition(anchorX, anchorY, size, DefaultViewportPadding, viewport);
            p.left >= 8.0 && p.top >= 8.0
  {
  }
}
