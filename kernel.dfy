/**
 * The Manifold CSG kernel as an uninterpreted datatype: each value records
 * which kernel call built a solid and from what, never what the solid
 * looks like. The caller-owned `manifoldInstancesForCleanup` array is a
 * class whose list the builders append to in place.
 */
module Kernel {
  import opened JsValues

  /** A `CrossSection.ofPolygons([points])` value. */
  datatype CrossSection = OfPolygon(points: seq<Point>)

  /** A Manifold solid, by the call that built it. */
  datatype Solid =
    /** `Manifold.cube([width, height, depth], true)`: centred on the origin. */
    | Cube(width: real, height: real, depth: real)
    /**
     * `Manifold.cylinder(height, radiusLow, radiusHigh, segments, true)`:
     * centred on the origin; a negative `radiusHigh` means "same as radiusLow".
     */
    | Cylinder(height: real, radiusLow: real, radiusHigh: real, segments: nat)
    /** `Manifold.extrude(section, height, 0, 0, [1, 1], true)` */
    | Extrude(section: CrossSection, height: real)
    /** `solid.translate([dx, dy, dz])` */
    | Translate(solid: Solid, dx: real, dy: real, dz: real)
    /** `solid.rotate([0, 0, degrees])` */
    | Rotate(solid: Solid, degrees: real)
    /** `Manifold.union(parts)` */
    | Union(parts: seq<Solid>)
    /** `base.subtract(cut)` */
    | Subtract(base: Solid, cut: Solid)
    /** `Manifold.intersection(parts)` */
    | Intersect(parts: seq<Solid>)
    /** `createPlatedHoleDrill(...)` of hole-geoms, which is not part of this model. */
    | PlatedHoleDrill(x: real, y: real, outerDiameter: real, thickness: real, zOffset: real, segments: nat)
    /** `createCircleHoleDrill(...)` of hole-geoms, which is not part of this model. */
    | CircleHoleDrill(x: real, y: real, diameter: real, thickness: real, segments: nat)
    /** A solid handed in by the caller (the board clip volume, the hole union). */
    | Given(name: string)

  /** Something the caller must `delete()` later: a solid or a cross-section. */
  datatype Instance = SolidInstance(solid: Solid) | SectionInstance(section: CrossSection)

  /** The caller-owned `manifoldInstancesForCleanup` array. */
  class InstanceList {
    var items: seq<Instance>

    constructor ()
      ensures items == []
    {
      items := [];
    }

    /** `manifoldInstancesForCleanup.push(instance)` */
    method Push(x: Instance)
      modifies this
      ensures items == old(items) + [x]
    {
      items := items + [x];
    }

    /** `xs.forEach((x) => manifoldInstancesForCleanup.push(x))` */
    method PushAll(xs: seq<Instance>)
      modifies this
      ensures items == old(items) + xs
    {
      var k := 0;
      while k < |xs|
        invariant 0 <= k <= |xs|
        invariant items == old(items) + xs[..k]
      {
        Push(xs[k]);
        k := k + 1;
      }
      assert xs[..k] == xs;
    }

    /** `manifoldInstancesForCleanup.push(solid)`, for a solid. */
    method PushSolid(s: Solid)
      modifies this
      ensures items == old(items) + [SolidInstance(s)]
    {
      Push(SolidInstance(s));
    }
  }

  /** One entry of a copper mesh list: its React key and the solid the mesh is taken from. */
  datatype CopperGeom = CopperGeom(key: string, solid: Solid)

  /** Turn a list of solids into the instances that register them. */
  function Solids(s: seq<Solid>): (r: seq<Instance>)
    ensures |r| == |s|
    ensures forall i :: 0 <= i < |s| ==> r[i] == SolidInstance(s[i])
  {
    if s == [] then [] else [SolidInstance(s[0])] + Solids(s[1..])
  }

  /**
   * The constants of src/geoms/constants, which is not part of this model:
   * `MANIFOLD_Z_OFFSET`, `M`, `DEFAULT_SMT_PAD_THICKNESS`,
   * `BOARD_SURFACE_OFFSET.copper` and `SMOOTH_CIRCLE_SEGMENTS`.
   */
  datatype Constants = Constants(
    manifoldZOffset: real,
    m: real,
    smtPadThickness: real,
    copperOffset: real,
    smoothCircleSegments: nat)
  {
    /** All of them are positive. */
    predicate Valid() {
      manifoldZOffset > 0.0 && m > 0.0 && smtPadThickness > 0.0 && copperOffset > 0.0
      && smoothCircleSegments > 0
    }
  }
}
