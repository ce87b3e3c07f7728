/**
 * The shoelace signed area of a closed polygon, and the fact the winding
 * correction of the copper builders relies on: reversing the vertex order
 * negates the signed area.
 */
module Polygon {
  import opened JsValues

  /** The z component of the cross product of two plane vectors. */
  function Cross(a: Point, b: Point): real {
    a.x * b.y - b.x * a.y
  }

  /** The shoelace sum over the open chain p[0] → p[1] → … → p[n-1]. */
  function Chain(p: seq<Point>): real {
    if |p| <= 1 then 0.0 else Chain(p[..|p| - 1]) + Cross(p[|p| - 2], p[|p| - 1])
  }

  /** The full shoelace sum: the open chain plus the closing edge p[n-1] → p[0]. */
  function ShoelaceSum(p: seq<Point>): real {
    if p == [] then 0.0 else Chain(p) + Cross(p[|p| - 1], p[0])
  }

  /** Twice the area enclosed, positive for a counter-clockwise polygon. */
  function SignedArea(p: seq<Point>): real {
    ShoelaceSum(p) / 2.0
  }

  /** `Array.prototype.reverse`, as a value. */
  function Reverse<T>(s: seq<T>): (r: seq<T>)
    ensures |r| == |s|
    ensures forall i :: 0 <= i < |s| ==> r[i] == s[|s| - 1 - i]
  {
    if s == [] then [] else [s[|s| - 1]] + Reverse(s[..|s| - 1])
  }

  /**
   * The partial sum the winding loop holds after visiting `i` vertices:
   * the edges p[k] → p[(k + 1) % n] for k < i.
   */
  function EdgeSum(p: seq<Point>, i: nat): real
    requires i <= |p|
  {
    if i == 0 then 0.0 else EdgeSum(p, i - 1) + Cross(p[i - 1], p[i % |p|])
  }

  lemma Antisymmetric(a: Point, b: Point)
    ensures Cross(b, a) == -Cross(a, b)
  {
  }

  /** Prepending a vertex adds the edge from it to the old first vertex. */
  lemma {:induction false} ChainCons(x: Point, t: seq<Point>)
    requires t != []
    ensures Chain([x] + t) == Cross(x, t[0]) + Chain(t)
    decreases |t|
  {
    var s := [x] + t;
    if |t| == 1 {
      assert s[..|s| - 1] == [x];
    } else {
      assert s[..|s| - 1] == [x] + t[..|t| - 1];
      ChainCons(x, t[..|t| - 1]);
    }
  }

  /** Walking the chain backwards negates its shoelace sum. */
  lemma {:induction false} ChainReverse(p: seq<Point>)
    ensures Chain(Reverse(p)) == -Chain(p)
    decreases |p|
  {
    if |p| >= 2 {
      var init := p[..|p| - 1];
      ChainReverse(init);
      assert Reverse(p) == [p[|p| - 1]] + Reverse(init);
      ChainCons(p[|p| - 1], Reverse(init));
      Antisymmetric(p[|p| - 2], p[|p| - 1]);
    }
  }

  /** Reversing a polygon negates its signed area. */
  lemma ReverseNegatesArea(p: seq<Point>)
    ensures SignedArea(Reverse(p)) == -SignedArea(p)
  {
    if p != [] {
      ChainReverse(p);
      var r := Reverse(p);
      assert r[|r| - 1] == p[0] && r[0] == p[|p| - 1];
      Antisymmetric(p[|p| - 1], p[0]);
    }
  }

  /** Before the last step, the loop's partial sum is the shoelace sum of the open chain so far. */
  lemma {:induction false} EdgeSumIsChain(p: seq<Point>, i: nat)
    requires 1 <= i < |p|
    ensures EdgeSum(p, i) == Chain(p[..i + 1])
  {
    assert i % |p| == i;
    assert p[..i + 1][..i] == p[..i];
    if i > 1 {
      EdgeSumIsChain(p, i - 1);
    }
  }

  /**
   * The winding correction of the copper builders: a polygon whose signed
   * area is not positive (clockwise, or degenerate) is reversed.
   */
  function CounterClockwise(p: seq<Point>): seq<Point> {
    if SignedArea(p) <= 0.0 then Reverse(p) else p
  }

  /**
   * After the correction the signed area is never negative (it may be zero),
   * and the outline is the original one or its reversal.
   */
  lemma CounterClockwiseArea(p: seq<Point>)
    ensures SignedArea(CounterClockwise(p)) >= 0.0
    ensures CounterClockwise(p) == p || CounterClockwise(p) == Reverse(p)
  {
    if SignedArea(p) <= 0.0 {
      ReverseNegatesArea(p);
    }
  }

  /** The winding loop visits every edge of the closed polygon exactly once. */
  lemma EdgeSumIsShoelace(p: seq<Point>)
    ensures EdgeSum(p, |p|) == ShoelaceSum(p)
  {
    var n := |p|;
    if n == 1 {
      assert 1 % n == 0;
    } else if n > 1 {
      assert n % n == 0;
      EdgeSumIsChain(p, n - 1);
      assert p[..n] == p;
    }
  }
}
