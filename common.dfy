/**
 * Values shared by the two canvas effects: optional numbers, points, the
 * pointer record written by the move/leave handlers, squared distances, and
 * the order-preserving filter that prunes the transient entity lists.
 */
module Common {

  datatype Option<T> = None | Some(value: T)

  /** A position on the canvas, in CSS pixels. */
  datatype Point = Point(x: real, y: real)

  /** The `{ x, y }` pointer record: each coordinate is a number or `null`. */
  datatype Pointer = Pointer(x: Option<real>, y: Option<real>)

  /** The pointer a `mouseleave` or `touchend` leaves behind. */
  const NoPointer := Pointer(None, None)

  /** JavaScript truthiness of a coordinate: `null` and `0` are falsy (NaN is not modelled). */
  predicate Truthy(v: Option<real>) {
    v.Some? && v.value != 0.0
  }

  /** The `mouse.x && mouse.y` guard of both update rules. */
  predicate Present(m: Pointer) {
    Truthy(m.x) && Truthy(m.y)
  }

  /** A pointer standing on the left or top edge counts as absent. */
  lemma PointerOnEdgeIsAbsent(v: real)
    ensures !Present(Pointer(Some(0.0), Some(v)))
    ensures !Present(Pointer(Some(v), Some(0.0)))
    ensures !Present(NoPointer)
    ensures v != 0.0 ==> Present(Pointer(Some(v), Some(v)))
  {
  }

  function SqDist(p: Point, q: Point): (d: real)
    ensures d >= 0.0
  {
    (p.x - q.x) * (p.x - q.x) + (p.y - q.y) * (p.y - q.y)
  }

  /**
   * A distance `d` as `Math.sqrt` returns it for the squared distance `sq`
   * (exact arithmetic): comparing `d` with a threshold is the same as
   * comparing `sq` with the threshold squared.
   */
  predicate IsRoot(d: real, sq: real) {
    d >= 0.0 && d * d == sq
  }

  lemma RootBelowIff(d: real, sq: real, limit: real)
    requires IsRoot(d, sq) && limit >= 0.0
    ensures d < limit <==> sq < limit * limit
  {
    if d < limit {
      SquareLess(d, limit);
    } else if limit < d {
      SquareLess(limit, d);
    }
  }

  lemma ProductPositive(a: real, b: real)
    requires a > 0.0 && b > 0.0
    ensures a * b > 0.0
  {
  }

  lemma SquareLess(a: real, b: real)
    requires 0.0 <= a < b
    ensures a * a < b * b
  {
    ProductPositive(b - a, b + a);
  }

  /** The elements of `xs` whose flag in `keep` is set, in their original order (`Array.prototype.filter`). */
  function Select<T>(xs: seq<T>, keep: seq<bool>): (r: seq<T>)
    requires |keep| == |xs|
    ensures |r| <= |xs|
  {
    if xs == [] then []
    else Select(xs[..|xs| - 1], keep[..|xs| - 1]) + (if keep[|xs| - 1] then [xs[|xs| - 1]] else [])
  }

  /** `sub` can be obtained from `xs` by deleting elements, without reordering. */
  ghost predicate IsSubsequence<T>(sub: seq<T>, xs: seq<T>)
    decreases |xs|
  {
    if sub == [] then true
    else if xs == [] then false
    else (sub[|sub| - 1] == xs[|xs| - 1] && IsSubsequence(sub[..|sub| - 1], xs[..|xs| - 1]))
         || IsSubsequence(sub, xs[..|xs| - 1])
  }

  /** The filter keeps exactly the flagged elements and keeps them in order. */
  lemma {:induction false} SelectKeepsFlaggedInOrder<T>(xs: seq<T>, keep: seq<bool>)
    requires |keep| == |xs|
    ensures IsSubsequence(Select(xs, keep), xs)
    ensures forall x :: x in Select(xs, keep) <==> exists k :: 0 <= k < |xs| && xs[k] == x && keep[k]
    ensures |Select(xs, keep)| == |xs| <==> forall k :: 0 <= k < |xs| ==> keep[k]
  {
    if xs != [] {
      var n := |xs| - 1;
      SelectKeepsFlaggedInOrder(xs[..n], keep[..n]);
      var r := Select(xs[..n], keep[..n]);
      if keep[n] {
        assert Select(xs, keep) == r + [xs[n]];
        assert Select(xs, keep)[..|r|] == r;
      } else {
        assert Select(xs, keep) == r;
      }
      forall x
        ensures x in Select(xs, keep) <==> exists k :: 0 <= k < |xs| && xs[k] == x && keep[k]
      {
        if x in Select(xs, keep) {
          if x in r {
            var k :| 0 <= k < n && xs[..n][k] == x && keep[..n][k];
            assert xs[k] == x && keep[k];
          } else {
            assert xs[n] == x && keep[n];
          }
        } else {
          forall k | 0 <= k < |xs| && xs[k] == x
            ensures !keep[k]
          {
            if k < n {
              assert xs[..n][k] == x;
            }
          }
        }
      }
    }
  }

  /** No entity occurs twice in the list. */
  predicate Distinct<T(==)>(xs: seq<T>)
  {
    forall p, q :: 0 <= p < q < |xs| ==> xs[p] != xs[q]
  }

  /** Filtering a list without repetitions gives a list without repetitions. */
  lemma {:induction false} SelectKeepsDistinct<T>(xs: seq<T>, keep: seq<bool>)
    requires |keep| == |xs| && Distinct(xs)
    ensures Distinct(Select(xs, keep))
  {
    if xs != [] {
      var n := |xs| - 1;
      SelectKeepsDistinct(xs[..n], keep[..n]);
      SelectKeepsFlaggedInOrder(xs[..n], keep[..n]);
      var r := Select(xs[..n], keep[..n]);
      if keep[n] {
        assert xs[n] !in r;
        var s := Select(xs, keep);
        assert s == r + [xs[n]];
        forall p, q | 0 <= p < q < |s|
          ensures s[p] != s[q]
        {
          if q == |r| {
            assert s[p] in r;
          }
        }
      }
    }
  }

  /** A draw of `Math.random()`. */
  predicate IsRoll(r: real)
  {
    0.0 <= r < 1.0
  }

  /** `Math.random() * extent` lies in [0, extent]. */
  lemma ScaledRollWithin(roll: real, extent: real)
    requires IsRoll(roll) && extent >= 0.0
    ensures 0.0 <= roll * extent <= extent
  {
    assert (1.0 - roll) * extent >= 0.0;
  }

  /** The pointer's position, when both coordinates are truthy. */
  function PointerAt(m: Pointer): Point
    requires Present(m)
  {
    Point(m.x.value, m.y.value)
  }

  /** `d` is the distance from the present pointer to (x, y); anything when the pointer is absent. */
  predicate PointerDistance(m: Pointer, x: real, y: real, d: real)
  {
    Present(m) ==> IsRoot(d, SqDist(PointerAt(m), Point(x, y)))
  }

  function Max(a: real, b: real): real { if a >= b then a else b }
  function Min(a: real, b: real): real { if a <= b then a else b }

  /** The moving part of a particle or a star: position and velocity. */
  datatype Motion = Motion(x: real, y: real, vx: real, vy: real)

  /** A line between entities i and j of a list, i < j. */
  datatype Link = Link(i: nat, j: nat)

  /** `Math.random() * extent`: a coordinate drawn uniformly over the canvas. */
  function Scale(roll: real, extent: nat): (r: real)
    requires IsRoll(roll)
    ensures 0.0 <= r <= extent as real
  {
    ScaledRollWithin(roll, extent as real);
    roll * extent as real
  }
}
