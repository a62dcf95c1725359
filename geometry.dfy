/**
 * Planar arithmetic used by the gesture recogniser: points in page or
 * client coordinates, the taxicab distance it thresholds on, midpoints
 * and the mean of the tracked contacts.
 */
module Geometry {

  datatype Point = Point(x: real, y: real)

  const Origin := Point(0.0, 0.0)

  function Abs(v: real): (r: real)
    ensures r >= 0.0 && (r == v || r == -v)
  {
    if v < 0.0 then -v else v
  }

  function Add(p: Point, q: Point): Point {
    Point(p.x + q.x, p.y + q.y)
  }

  function Sub(p: Point, q: Point): Point {
    Point(p.x - q.x, p.y - q.y)
  }

  /** `|dx| + |dy|`: the length the source uses in place of the Euclidean one. */
  function Taxicab(v: Point): (r: real)
    ensures r >= 0.0
    ensures r == 0.0 <==> v == Origin
  {
    Abs(v.x) + Abs(v.y)
  }

  /** Two points are at taxicab distance zero exactly when they coincide. */
  lemma TaxicabZero(p: Point, q: Point)
    ensures Taxicab(Sub(p, q)) == 0.0 <==> p == q
  {
    assert Sub(p, q) == Origin <==> p.x == q.x && p.y == q.y;
  }

  lemma AbsOfMultiple(k: real, v: real)
    requires k > 0.0
    ensures Abs(k * v) == k * Abs(v)
  {
    if v < 0.0 {
      assert k * v < 0.0;
      assert -(k * v) == k * -v;
    } else {
      assert k * v >= 0.0;
    }
  }

  /** The image of `p` under scaling by `k` about the centre `c`. */
  function Dilate(c: Point, k: real, p: Point): Point {
    Point(c.x + k * (p.x - c.x), c.y + k * (p.y - c.y))
  }

  /** Scaling by `k > 0` about any centre multiplies taxicab distances by `k`. */
  lemma DilateGap(c: Point, k: real, p: Point, q: Point)
    requires k > 0.0
    ensures Taxicab(Sub(Dilate(c, k, p), Dilate(c, k, q))) == k * Taxicab(Sub(p, q))
  {
    DilateAxis(c.x, k, p.x, q.x);
    DilateAxis(c.y, k, p.y, q.y);
  }

  lemma DilateAxis(c: real, k: real, p: real, q: real)
    requires k > 0.0
    ensures Abs((c + k * (p - c)) - (c + k * (q - c))) == k * Abs(p - q)
  {
    assert (c + k * (p - c)) - (c + k * (q - c)) == k * (p - q);
    AbsOfMultiple(k, p - q);
  }

  function Midpoint(p: Point, q: Point): Point {
    Point((p.x + q.x) / 2.0, (p.y + q.y) / 2.0)
  }

  /** Sum of the abscissae, accumulated front to back as a `forEach` does. */
  function SumX(ps: seq<Point>): real {
    if ps == [] then 0.0 else SumX(ps[..|ps| - 1]) + ps[|ps| - 1].x
  }

  function SumY(ps: seq<Point>): real {
    if ps == [] then 0.0 else SumY(ps[..|ps| - 1]) + ps[|ps| - 1].y
  }

  /** The centroid: component-wise mean of a non-empty list of points. */
  function Mean(ps: seq<Point>): (m: Point)
    requires |ps| > 0
    ensures |ps| == 1 ==> m == ps[0]
  {
    assert |ps| == 1 ==> ps[..0] == [] && SumX(ps) == ps[0].x && SumY(ps) == ps[0].y;
    Point(SumX(ps) / |ps| as real, SumY(ps) / |ps| as real)
  }

  /** A sum of `n` abscissae lying in [lo, hi] lies in [n * lo, n * hi]. */
  lemma {:induction false} SumXBounds(ps: seq<Point>, lo: real, hi: real)
    requires forall i :: 0 <= i < |ps| ==> lo <= ps[i].x <= hi
    ensures |ps| as real * lo <= SumX(ps) <= |ps| as real * hi
  {
    if ps != [] {
      var n := |ps| - 1;
      SumXBounds(ps[..n], lo, hi);
      StepProduct(n as real, lo);
      StepProduct(n as real, hi);
    }
  }

  /** A sum of `n` ordinates lying in [lo, hi] lies in [n * lo, n * hi]. */
  lemma {:induction false} SumYBounds(ps: seq<Point>, lo: real, hi: real)
    requires forall i :: 0 <= i < |ps| ==> lo <= ps[i].y <= hi
    ensures |ps| as real * lo <= SumY(ps) <= |ps| as real * hi
  {
    if ps != [] {
      var n := |ps| - 1;
      SumYBounds(ps[..n], lo, hi);
      StepProduct(n as real, lo);
      StepProduct(n as real, hi);
    }
  }

  lemma StepProduct(n: real, v: real)
    ensures (n + 1.0) * v == n * v + v
  {
  }

  /**
   * The centroid lies inside every axis-aligned box that holds all the
   * points; in particular the centroid of a single contact is that contact.
   */
  lemma MeanWithinBox(ps: seq<Point>, lo: Point, hi: Point)
    requires |ps| > 0
    requires forall i :: 0 <= i < |ps| ==> lo.x <= ps[i].x <= hi.x && lo.y <= ps[i].y <= hi.y
    ensures lo.x <= Mean(ps).x <= hi.x && lo.y <= Mean(ps).y <= hi.y
  {
    MeanXBounds(ps, lo.x, hi.x);
    MeanYBounds(ps, lo.y, hi.y);
  }

  lemma MeanXBounds(ps: seq<Point>, lo: real, hi: real)
    requires |ps| > 0
    requires forall i :: 0 <= i < |ps| ==> lo <= ps[i].x <= hi
    ensures lo <= SumX(ps) / |ps| as real <= hi
  {
    SumXBounds(ps, lo, hi);
    DivideBounds(SumX(ps), |ps| as real, lo, hi);
  }

  lemma MeanYBounds(ps: seq<Point>, lo: real, hi: real)
    requires |ps| > 0
    requires forall i :: 0 <= i < |ps| ==> lo <= ps[i].y <= hi
    ensures lo <= SumY(ps) / |ps| as real <= hi
  {
    SumYBounds(ps, lo, hi);
    DivideBounds(SumY(ps), |ps| as real, lo, hi);
  }

  lemma DivideBounds(s: real, n: real, lo: real, hi: real)
    requires n > 0.0 && n * lo <= s <= n * hi
    ensures lo <= s / n <= hi
  {
    assert s / n * n == s;
  }
}
