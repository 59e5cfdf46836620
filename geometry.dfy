/** Planar points, the Euclidean-length collaborator, and the small numeric
    helpers (maximum, ceiling, sum and mean) that the measurement code uses. */
module Geometry {

  datatype Option<T> = None | Some(value: T)

  /** A point in pixel coordinates. */
  datatype Point = Point(x: real, y: real)

  /** The Euclidean length of a displacement (dx, dy), as numpy's `hypot`,
      `linalg.norm` and Qt's `QLineF.length` compute it. Square roots are not
      expressible over Dafny's reals, so the length is a collaborator. */
  type Hypot = (real, real) -> real

  /** The length collaborator never returns a negative length. */
  ghost predicate NonNegative(h: Hypot)
  {
    forall dx: real, dy: real :: 0.0 <= h(dx, dy)
  }

  /** The length collaborator is exactly the Euclidean norm. */
  ghost predicate IsHypot(h: Hypot)
  {
    forall dx: real, dy: real :: 0.0 <= h(dx, dy) && h(dx, dy) * h(dx, dy) == dx * dx + dy * dy
  }

  /** Distance between two points, `norm(p - q)`. */
  function Dist(h: Hypot, p: Point, q: Point): real
  {
    h(p.x - q.x, p.y - q.y)
  }

  function Max(a: real, b: real): (m: real)
    ensures a <= m && b <= m
    ensures m == a || m == b
  {
    if a >= b then a else b
  }

  /** `int(ceil(r))`: the least integer not below `r`. */
  function Ceil(r: real): (n: int)
    ensures r <= n as real < r + 1.0
  {
    if r.Floor as real == r then r.Floor else r.Floor + 1
  }

  function Sum(s: seq<real>): real
  {
    if s == [] then 0.0 else s[0] + Sum(s[1..])
  }

  /** `np.mean`: the arithmetic mean of a non-empty sequence. */
  function Mean(s: seq<real>): real
    requires |s| > 0
  {
    Sum(s) / (|s| as real)
  }

  lemma SumFour(a: real, b: real, c: real, d: real)
    ensures Sum([a, b, c, d]) == a + b + c + d
  {
    assert Sum([d]) == d + Sum([]);
    assert [c, d][1..] == [d];
    assert Sum([c, d]) == c + d;
    assert [b, c, d][1..] == [c, d];
    assert Sum([b, c, d]) == b + c + d;
    assert [a, b, c, d][1..] == [b, c, d];
  }

  /** Summing a sequence whose every entry is `c` gives `|s| * c`. */
  lemma {:induction false} SumConstant(s: seq<real>, c: real)
    requires forall i :: 0 <= i < |s| ==> s[i] == c
    ensures Sum(s) == (|s| as real) * c
  {
    if s != [] {
      SumConstant(s[1..], c);
    }
  }

  /** A non-empty sequence of positive entries has a positive sum. */
  lemma {:induction false} SumPositive(s: seq<real>)
    requires |s| > 0
    requires forall i :: 0 <= i < |s| ==> s[i] > 0.0
    ensures Sum(s) > 0.0
  {
    if |s| > 1 {
      SumPositive(s[1..]);
    }
  }

  /** A sequence of non-negative entries has a non-negative sum. */
  lemma {:induction false} SumNonNegative(s: seq<real>)
    requires forall i :: 0 <= i < |s| ==> s[i] >= 0.0
    ensures Sum(s) >= 0.0
  {
    if s != [] {
      SumNonNegative(s[1..]);
    }
  }

  /** The mean of a constant sequence is that constant. */
  lemma MeanConstant(s: seq<real>, c: real)
    requires |s| > 0
    requires forall i :: 0 <= i < |s| ==> s[i] == c
    ensures Mean(s) == c
  {
    SumConstant(s, c);
  }

  /** Two non-negative reals with equal squares are equal: the square root is unique. */
  lemma SquareRootUnique(a: real, b: real)
    requires 0.0 <= a && 0.0 <= b && a * a == b * b
    ensures a == b
  {
    assert (a - b) * (a + b) == 0.0;
    if a + b == 0.0 {
    } else {
      assert a - b == 0.0;
    }
  }
}
