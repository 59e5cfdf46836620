/** The marker geometry of the ArUco helpers: the pixels-per-millimetre
    estimate averaged over detected markers, the ordering of four marker
    centers into top-left, top-right, bottom-right, bottom-left, and the size
    and destination corners of the top-down rectification.

    Marker detection itself (an OpenCV detector over a 4x4, 50-symbol
    dictionary) is an input: a `Detection` holding the detected corners and
    identifiers. The homography and the warp are not interpreted; the
    rectifier's result is the `WarpPlan` that they are computed from. */
module ArucoUtils {
  import opened Geometry

  /** One detected marker: its four corners in detection order. */
  datatype Marker = Marker(c0: Point, c1: Point, c2: Point, c3: Point)

  /** What the detector returns: the corners of every detected marker and
      the identifiers, which are absent when nothing was detected. */
  datatype Detection = Detection(corners: seq<Marker>, ids: Option<seq<int>>)

  /** `(px_per_mm, corners, ids)`, or `(None, [], [])`. */
  datatype ScaleResult = ScaleResult(pxPerMm: Option<real>, corners: seq<Marker>, ids: seq<int>)

  /** The output of the rectifier short of the warp: the ordered source
      centers, the output size and the destination corners. */
  datatype WarpPlan = WarpPlan(src: seq<Point>, width: int, height: int, dst: seq<Point>)

  /** `(warped, H, px_per_mm)`: the plan the homography and warp are built
      from, and the scale re-detected on the warped image. */
  datatype Rectified = Rectified(plan: WarpPlan, pxPerMm: Option<real>)

  // ---------------------------------------------------------------------
  // Scale estimation
  // ---------------------------------------------------------------------

  /** The four side lengths of a marker, taken with wrap-around. */
  function Sides(h: Hypot, m: Marker): seq<real>
  {
    [Dist(h, m.c0, m.c1), Dist(h, m.c1, m.c2), Dist(h, m.c2, m.c3), Dist(h, m.c3, m.c0)]
  }

  /** One marker's estimate: its mean side length over the physical side. */
  function MarkerPxPerMm(h: Hypot, m: Marker, markerSizeMm: real): real
    requires markerSizeMm > 0.0
  {
    Mean(Sides(h, m)) / markerSizeMm
  }

  /** The estimate is the sum of the four sides over four times the
      physical side. */
  lemma MeanOfSides(h: Hypot, m: Marker, markerSizeMm: real)
    requires markerSizeMm > 0.0
    ensures MarkerPxPerMm(h, m, markerSizeMm)
            == (Dist(h, m.c0, m.c1) + Dist(h, m.c1, m.c2) + Dist(h, m.c2, m.c3) + Dist(h, m.c3, m.c0)) / 4.0 / markerSizeMm
  {
    SumFour(Dist(h, m.c0, m.c1), Dist(h, m.c1, m.c2), Dist(h, m.c2, m.c3), Dist(h, m.c3, m.c0));
  }

  function PerMarkerPxPerMm(h: Hypot, ms: seq<Marker>, markerSizeMm: real): seq<real>
    requires markerSizeMm > 0.0
  {
    seq(|ms|, i requires 0 <= i < |ms| => MarkerPxPerMm(h, ms[i], markerSizeMm))
  }

  /** The scale estimate: absent when nothing was detected, otherwise the
      mean of the per-marker estimates. */
  function ArucoScale(det: Detection, h: Hypot, markerSizeMm: real): (r: Option<real>)
    requires markerSizeMm > 0.0
    ensures r.None? <==> det.ids.None? || |det.corners| == 0
    ensures r.Some? ==> r.value * (|det.corners| as real) == Sum(PerMarkerPxPerMm(h, det.corners, markerSizeMm))
  {
    if det.ids.None? || |det.corners| == 0 then None
    else Some(Mean(PerMarkerPxPerMm(h, det.corners, markerSizeMm)))
  }

  /** `detect_aruco_scale`: accumulates one estimate per marker, then
      averages them. */
  method DetectArucoScale(det: Detection, h: Hypot, markerSizeMm: real) returns (r: ScaleResult)
    requires markerSizeMm > 0.0
    ensures det.ids.None? || |det.corners| == 0 ==> r == ScaleResult(None, [], [])
    ensures det.ids.Some? && |det.corners| > 0 ==>
              r.corners == det.corners && r.ids == det.ids.value && r.pxPerMm.Some?
    ensures r.pxPerMm == ArucoScale(det, h, markerSizeMm)
  {
    if det.ids.None? || |det.corners| == 0 {
      return ScaleResult(None, [], []);
    }
    var vals: seq<real> := [];
    var i := 0;
    while i < |det.corners|
      invariant 0 <= i <= |det.corners|
      invariant |vals| == i
      invariant forall k :: 0 <= k < i ==> vals[k] == MarkerPxPerMm(h, det.corners[k], markerSizeMm)
    {
      var m := det.corners[i];
      var s01, s12, s23, s30 := Dist(h, m.c0, m.c1), Dist(h, m.c1, m.c2), Dist(h, m.c2, m.c3), Dist(h, m.c3, m.c0);
      var meanSidePx := (s01 + s12 + s23 + s30) / 4.0;
      MeanOfSides(h, m, markerSizeMm);
      vals := vals + [meanSidePx / markerSizeMm];
      i := i + 1;
    }
    assert vals == PerMarkerPxPerMm(h, det.corners, markerSizeMm);
    r := ScaleResult(Some(Mean(vals)), det.corners, det.ids.value);
  }

  /** Markers whose four sides all measure `side` pixels give the estimate
      `side / markerSizeMm`, however many there are. */
  lemma UniformMarkersScale(det: Detection, h: Hypot, markerSizeMm: real, side: real)
    requires markerSizeMm > 0.0
    requires det.ids.Some? && |det.corners| > 0
    requires forall i :: 0 <= i < |det.corners| ==> Sides(h, det.corners[i]) == [side, side, side, side]
    ensures ArucoScale(det, h, markerSizeMm) == Some(side / markerSizeMm)
  {
    var vals := PerMarkerPxPerMm(h, det.corners, markerSizeMm);
    forall i | 0 <= i < |vals|
      ensures vals[i] == side / markerSizeMm
    {
      SumFour(side, side, side, side);
    }
    MeanConstant(vals, side / markerSizeMm);
  }

  /** Positive side lengths and a positive marker size give a positive scale. */
  lemma ScalePositive(det: Detection, h: Hypot, markerSizeMm: real)
    requires markerSizeMm > 0.0
    requires det.ids.Some? && |det.corners| > 0
    requires forall i, k :: 0 <= i < |det.corners| && 0 <= k < 4 ==> Sides(h, det.corners[i])[k] > 0.0
    ensures ArucoScale(det, h, markerSizeMm).Some?
    ensures ArucoScale(det, h, markerSizeMm).value > 0.0
  {
    var vals := PerMarkerPxPerMm(h, det.corners, markerSizeMm);
    forall i | 0 <= i < |vals|
      ensures vals[i] > 0.0
    {
      SumPositive(Sides(h, det.corners[i]));
    }
    SumPositive(vals);
  }

  /** With a non-negative length the scale estimate is never negative. */
  lemma ScaleNonNegative(det: Detection, h: Hypot, markerSizeMm: real)
    requires markerSizeMm > 0.0
    requires NonNegative(h)
    ensures ArucoScale(det, h, markerSizeMm).Some? ==> ArucoScale(det, h, markerSizeMm).value >= 0.0
  {
    if ArucoScale(det, h, markerSizeMm).Some? {
      var vals := PerMarkerPxPerMm(h, det.corners, markerSizeMm);
      forall i | 0 <= i < |vals|
        ensures vals[i] >= 0.0
      {
        var m := det.corners[i];
        assert Dist(h, m.c0, m.c1) >= 0.0 && Dist(h, m.c1, m.c2) >= 0.0;
        assert Dist(h, m.c2, m.c3) >= 0.0 && Dist(h, m.c3, m.c0) >= 0.0;
        SumNonNegative(Sides(h, m));
      }
      SumNonNegative(vals);
    }
  }

  /** One 60 mm marker whose detected side is 120 px gives 2 px/mm. */
  lemma SingleMarkerScenario(h: Hypot)
    requires IsHypot(h)
    ensures ArucoScale(Detection([Marker(Point(0.0, 0.0), Point(120.0, 0.0), Point(120.0, 120.0), Point(0.0, 120.0))], Some([7])), h, 60.0)
            == Some(2.0)
  {
    var m := Marker(Point(0.0, 0.0), Point(120.0, 0.0), Point(120.0, 120.0), Point(0.0, 120.0));
    var s := 120.0;
    assert h(-120.0, 0.0) * h(-120.0, 0.0) == s * s;
    SquareRootUnique(h(-120.0, 0.0), s);
    assert h(0.0, -120.0) * h(0.0, -120.0) == s * s;
    SquareRootUnique(h(0.0, -120.0), s);
    assert h(120.0, 0.0) * h(120.0, 0.0) == s * s;
    SquareRootUnique(h(120.0, 0.0), s);
    assert h(0.0, 120.0) * h(0.0, 120.0) == s * s;
    SquareRootUnique(h(0.0, 120.0), s);
    UniformMarkersScale(Detection([m], Some([7])), h, 60.0, s);
  }

  // ---------------------------------------------------------------------
  // Ordering four centers into TL, TR, BR, BL
  // ---------------------------------------------------------------------

  /** A marker's center: the mean of its four corners. */
  function Center(m: Marker): Point
  {
    Point((m.c0.x + m.c1.x + m.c2.x + m.c3.x) / 4.0, (m.c0.y + m.c1.y + m.c2.y + m.c3.y) / 4.0)
  }

  function Centers(ms: seq<Marker>): (cs: seq<Point>)
    ensures |cs| == |ms|
    ensures forall i :: 0 <= i < |ms| ==> cs[i] == Center(ms[i])
  {
    if ms == [] then [] else [Center(ms[0])] + Centers(ms[1..])
  }

  ghost predicate SortedByY(s: seq<Point>)
  {
    forall i, j :: 0 <= i < j < |s| ==> s[i].y <= s[j].y
  }

  /** Inserts `p` before the first element whose y is not below its own, so
      that among equal heights the earlier input stays first. */
  function InsertByY(p: Point, s: seq<Point>): (r: seq<Point>)
    ensures |r| == |s| + 1
    ensures r[0] == p || (|s| > 0 && r[0] == s[0])
  {
    if s == [] then [p]
    else if p.y <= s[0].y then [p] + s
    else
      assert s == [s[0]] + s[1..];
      [s[0]] + InsertByY(p, s[1..])
  }

  /** Insertion adds exactly `p`. */
  lemma {:induction false} InsertByYPermutation(p: Point, s: seq<Point>)
    ensures multiset(InsertByY(p, s)) == multiset(s) + multiset{p}
  {
    if s != [] && p.y > s[0].y {
      InsertByYPermutation(p, s[1..]);
      assert s == [s[0]] + s[1..];
    }
  }

  lemma {:induction false} InsertByYSorted(p: Point, s: seq<Point>)
    requires SortedByY(s)
    ensures SortedByY(InsertByY(p, s))
  {
    if s != [] && p.y > s[0].y {
      var s' := s[1..];
      assert SortedByY(s') by {
        forall i, j | 0 <= i < j < |s'| ensures s'[i].y <= s'[j].y {
          assert s'[i] == s[i + 1] && s'[j] == s[j + 1];
        }
      }
      InsertByYSorted(p, s');
      var r' := InsertByY(p, s');
      assert r'[0].y >= s[0].y by {
        if |s'| > 0 { assert s'[0] == s[1]; }
      }
      var r := [s[0]] + r';
      forall i, j | 0 <= i < j < |r| ensures r[i].y <= r[j].y {
        if i > 0 {
          assert r[i] == r'[i - 1] && r[j] == r'[j - 1];
        } else {
          assert r[j] == r'[j - 1];
          assert r'[0].y <= r'[j - 1].y;
        }
      }
    }
  }

  /** The stable ordering by y that `argsort` gives on the centers. */
  function SortByY(s: seq<Point>): (r: seq<Point>)
    ensures |r| == |s|
  {
    if s == [] then [] else InsertByY(s[0], SortByY(s[1..]))
  }

  /** The ordering is a sorted rearrangement of its input. */
  lemma {:induction false} SortByYSorts(s: seq<Point>)
    ensures multiset(SortByY(s)) == multiset(s)
    ensures SortedByY(SortByY(s))
  {
    if s != [] {
      SortByYSorts(s[1..]);
      InsertByYSorted(s[0], SortByY(s[1..]));
      InsertByYPermutation(s[0], SortByY(s[1..]));
      assert s == [s[0]] + s[1..];
    }
  }

  /** A pair ordered by ascending x; on a tie the pair keeps its order. */
  function OrderPairByX(p: Point, q: Point): (r: (Point, Point))
    ensures r == (p, q) || r == (q, p)
    ensures r.0.x <= r.1.x
  {
    if q.x < p.x then (q, p) else (p, q)
  }

  lemma SwapFirst(a: Point, b: Point, c: Point, d: Point)
    ensures multiset([b, a, c, d]) == multiset([a, b, c, d])
  {
  }

  lemma SwapLast(a: Point, b: Point, c: Point, d: Point)
    ensures multiset([a, b, d, c]) == multiset([a, b, c, d])
  {
  }

  /** Reassembling the two ordered pairs of a sorted quadruple keeps its
      points and puts the lower pair first. */
  lemma QuadPermutation(s: seq<Point>, top: (Point, Point), bottom: (Point, Point))
    requires |s| == 4 && SortedByY(s)
    requires top == (s[0], s[1]) || top == (s[1], s[0])
    requires bottom == (s[2], s[3]) || bottom == (s[3], s[2])
    ensures multiset([top.0, top.1, bottom.1, bottom.0]) == multiset(s)
    ensures top.0.y <= bottom.0.y && top.0.y <= bottom.1.y
    ensures top.1.y <= bottom.0.y && top.1.y <= bottom.1.y
  {
    var a, b, c, d := s[0], s[1], s[2], s[3];
    assert s == [a, b, c, d];
    assert a.y <= c.y && a.y <= d.y && b.y <= c.y && b.y <= d.y;
    SwapFirst(a, b, c, d);
    SwapFirst(a, b, d, c);
    SwapLast(a, b, c, d);
  }

  /** Orders four centers as TL, TR, BR, BL: the two with the smallest y
      form the top pair, each pair ordered by x. */
  function OrderCenters(cs: seq<Point>): (r: seq<Point>)
    requires |cs| == 4
    ensures |r| == 4
  {
    var s := SortByY(cs);
    var top := OrderPairByX(s[0], s[1]);
    var bottom := OrderPairByX(s[2], s[3]);
    [top.0, top.1, bottom.1, bottom.0]
  }

  /** The ordered centers are the input centers rearranged, the top pair
      lies above the bottom pair, and each pair runs left to right (TL
      before TR, BL before BR). */
  lemma OrderCentersArranges(cs: seq<Point>)
    requires |cs| == 4
    ensures var r := OrderCenters(cs);
            && multiset(r) == multiset(cs)
            && r[0].y <= r[2].y && r[0].y <= r[3].y && r[1].y <= r[2].y && r[1].y <= r[3].y
            && r[0].x <= r[1].x && r[3].x <= r[2].x
  {
    var s := SortByY(cs);
    SortByYSorts(cs);
    QuadPermutation(s, OrderPairByX(s[0], s[1]), OrderPairByX(s[2], s[3]));
  }

  /** `_order_centers_tl_tr_br_bl` over four markers. */
  function OrderCentersTlTrBrBl(ms: seq<Marker>): (r: seq<Point>)
    requires |ms| == 4
    ensures |r| == 4
  {
    OrderCenters(Centers(ms))
  }

  /** `OrderCentersArranges` for the centers of four markers, the form in
      which `_order_centers_tl_tr_br_bl` is called. */
  lemma OrderCentersTlTrBrBlArranges(ms: seq<Marker>)
    requires |ms| == 4
    ensures var r := OrderCentersTlTrBrBl(ms);
            && multiset(r) == multiset(Centers(ms))
            && r[0].y <= r[2].y && r[0].y <= r[3].y && r[1].y <= r[2].y && r[1].y <= r[3].y
            && r[0].x <= r[1].x && r[3].x <= r[2].x
  {
    OrderCentersArranges(Centers(ms));
  }

  /** Points of `s` that share a height are the same point. */
  ghost predicate DistinctHeights(s: seq<Point>)
  {
    forall i, j :: 0 <= i < |s| && 0 <= j < |s| && s[i].y == s[j].y ==> s[i] == s[j]
  }

  lemma DistinctHeightsPermutation(s: seq<Point>, t: seq<Point>)
    requires multiset(s) == multiset(t) && DistinctHeights(s)
    ensures DistinctHeights(t)
  {
    forall i, j | 0 <= i < |t| && 0 <= j < |t| && t[i].y == t[j].y
      ensures t[i] == t[j]
    {
      assert t[i] in multiset(s) && t[j] in multiset(s);
      var a :| 0 <= a < |s| && s[a] == t[i];
      var b :| 0 <= b < |s| && s[b] == t[j];
    }
  }

  /** Sorted sequences over the same points, none two of which share a
      height, start with the same point. */
  lemma SortedSameHead(s: seq<Point>, t: seq<Point>)
    requires |s| > 0 && SortedByY(s) && SortedByY(t)
    requires multiset(s) == multiset(t)
    requires DistinctHeights(s)
    ensures |t| > 0 && s[0] == t[0]
  {
    assert |t| == |multiset(t)| == |s|;
    assert s[0] in multiset(t);
    var i :| 0 <= i < |t| && t[i] == s[0];
    assert t[0].y <= s[0].y;
    assert t[0] in multiset(s);
    var j :| 0 <= j < |s| && s[j] == t[0];
    assert s[0].y <= t[0].y;
  }

  lemma DistinctHeightsTail(s: seq<Point>)
    requires |s| > 0 && DistinctHeights(s)
    ensures DistinctHeights(s[1..])
  {
    forall i, j | 0 <= i < |s| - 1 && 0 <= j < |s| - 1
      ensures s[1..][i] == s[i + 1] && s[1..][j] == s[j + 1]
    {
    }
  }

  lemma DropFirstOfMultiset<T>(t: seq<T>)
    requires |t| > 0
    ensures multiset(t[1..]) == multiset(t) - multiset{t[0]}
  {
    assert t == [t[0]] + t[1..];
  }

  lemma SortedTail(t: seq<Point>)
    requires |t| > 0 && SortedByY(t)
    ensures SortedByY(t[1..])
  {
    forall i, j | 0 <= i < j < |t| - 1
      ensures t[1..][i].y <= t[1..][j].y
    {
      assert t[1..][i] == t[i + 1] && t[1..][j] == t[j + 1];
    }
  }

  /** Two sequences sorted by y over the same points are equal when no two
      distinct points share a height. */
  lemma {:induction false} SortedUnique(s: seq<Point>, t: seq<Point>)
    requires SortedByY(s) && SortedByY(t)
    requires multiset(s) == multiset(t)
    requires DistinctHeights(s)
    ensures s == t
  {
    if s == [] {
      assert |t| == |multiset(t)| == 0;
    } else {
      SortedSameHead(s, t);
      DistinctHeightsTail(s);
      DropFirstOfMultiset(s);
      DropFirstOfMultiset(t);
      SortedTail(s);
      SortedTail(t);
      SortedUnique(s[1..], t[1..]);
      assert s == [s[0]] + s[1..] && t == [t[0]] + t[1..];
    }
  }

  /** The ordering is purely geometric: any rearrangement of the four
      centers, none of which share a height, gives the same TL, TR, BR, BL. */
  lemma OrderCentersIndependentOfInputOrder(cs: seq<Point>, cs': seq<Point>)
    requires |cs| == 4 && multiset(cs) == multiset(cs')
    requires DistinctHeights(cs)
    ensures |cs'| == 4
    ensures OrderCenters(cs) == OrderCenters(cs')
  {
    assert |cs'| == |multiset(cs')| == 4;
    SortByYSorts(cs);
    SortByYSorts(cs');
    DistinctHeightsPermutation(cs, SortByY(cs));
    SortedUnique(SortByY(cs), SortByY(cs'));
  }

  lemma MultisetSplice<T>(x: seq<T>, c: T, y: seq<T>)
    ensures multiset(x + [c] + y) == multiset(x + y) + multiset{c}
  {
  }

  lemma MultisetRemoveAt<T>(s: seq<T>, k: nat)
    requires k < |s|
    ensures multiset(s) == multiset(s[..k] + s[k + 1..]) + multiset{s[k]}
  {
    assert s == s[..k] + [s[k]] + s[k + 1..];
    MultisetSplice(s[..k], s[k], s[k + 1..]);
  }

  lemma CentersSkip(ns: seq<Marker>, k: nat)
    requires k < |ns|
    ensures Centers(ns[..k] + ns[k + 1..]) == Centers(ns)[..k] + Centers(ns)[k + 1..]
  {
    var rest := ns[..k] + ns[k + 1..];
    forall i | k <= i < |rest|
      ensures rest[i] == ns[i + 1]
    {
    }
  }

  lemma CentersRemoveAt(ns: seq<Marker>, k: nat)
    requires k < |ns|
    ensures multiset(Centers(ns)) == multiset(Centers(ns[..k] + ns[k + 1..])) + multiset{Center(ns[k])}
  {
    CentersSkip(ns, k);
    MultisetRemoveAt(Centers(ns), k);
  }

  /** Taking the same marker out of two rearrangements of each other
      leaves rearrangements of each other. */
  lemma RemoveMatching(ms: seq<Marker>, ns: seq<Marker>, k: nat)
    requires multiset(ms) == multiset(ns) && |ms| > 0
    requires k < |ns| && ns[k] == ms[0]
    ensures multiset(ms[1..]) == multiset(ns[..k] + ns[k + 1..])
  {
    MultisetRemoveAt(ns, k);
    DropFirstOfMultiset(ms);
  }

  lemma CentersDropFirst(ms: seq<Marker>)
    requires |ms| > 0
    ensures multiset(Centers(ms)) == multiset(Centers(ms[1..])) + multiset{Center(ms[0])}
  {
    CentersRemoveAt(ms, 0);
    assert ms[..0] + ms[1..] == ms[1..];
  }

  /** Rearranging the markers rearranges their centers. */
  lemma {:induction false} CentersPermutation(ms: seq<Marker>, ns: seq<Marker>)
    requires multiset(ms) == multiset(ns)
    ensures multiset(Centers(ms)) == multiset(Centers(ns))
    decreases |ms|
  {
    if ms == [] {
      assert |ns| == |multiset(ns)| == 0;
    } else {
      assert ms[0] in multiset(ns);
      var k :| 0 <= k < |ns| && ns[k] == ms[0];
      RemoveMatching(ms, ns, k);
      CentersPermutation(ms[1..], ns[..k] + ns[k + 1..]);
      CentersRemoveAt(ns, k);
      CentersDropFirst(ms);
    }
  }

  /** The markers' detection order does not change the ordered centers. */
  lemma MarkerOrderIrrelevant(ms: seq<Marker>, ns: seq<Marker>)
    requires |ms| == 4 && multiset(ms) == multiset(ns)
    requires DistinctHeights(Centers(ms))
    ensures |ns| == 4
    ensures OrderCentersTlTrBrBl(ms) == OrderCentersTlTrBrBl(ns)
  {
    assert |ns| == |multiset(ns)| == 4;
    CentersPermutation(ms, ns);
    OrderCentersIndependentOfInputOrder(Centers(ms), Centers(ns));
  }

  // ---------------------------------------------------------------------
  // Top-down rectification
  // ---------------------------------------------------------------------

  /** The output size: the ceiling of the longer of each pair of opposite
      sides of the ordered quadrilateral TL, TR, BR, BL. */
  function OutputSize(h: Hypot, src: seq<Point>): (wh: (int, int))
    requires |src| == 4
    ensures Dist(h, src[0], src[1]) <= wh.0 as real && Dist(h, src[3], src[2]) <= wh.0 as real
    ensures (wh.0 - 1) as real < Max(Dist(h, src[0], src[1]), Dist(h, src[3], src[2]))
    ensures Dist(h, src[0], src[3]) <= wh.1 as real && Dist(h, src[1], src[2]) <= wh.1 as real
    ensures (wh.1 - 1) as real < Max(Dist(h, src[0], src[3]), Dist(h, src[1], src[2]))
  {
    (Ceil(Max(Dist(h, src[0], src[1]), Dist(h, src[3], src[2]))),
     Ceil(Max(Dist(h, src[0], src[3]), Dist(h, src[1], src[2]))))
  }

  /** The destination corners, TL, TR, BR, BL of a `w` by `h` image. */
  function DestinationCorners(w: int, h: int): (r: seq<Point>)
    ensures |r| == 4
    ensures r[0] == Point(0.0, 0.0) && r[1] == Point((w - 1) as real, 0.0)
    ensures r[2] == Point((w - 1) as real, (h - 1) as real) && r[3] == Point(0.0, (h - 1) as real)
  {
    [Point(0.0, 0.0), Point((w - 1) as real, 0.0), Point((w - 1) as real, (h - 1) as real), Point(0.0, (h - 1) as real)]
  }

  /** The plan for four markers: their ordered centers, the output size and
      the destination corners (0,0), (w-1,0), (w-1,h-1), (0,h-1). */
  function WarpPlanFor(h: Hypot, four: seq<Marker>): (p: WarpPlan)
    requires |four| == 4
    ensures p.src == OrderCentersTlTrBrBl(four)
    ensures (p.width, p.height) == OutputSize(h, p.src)
    ensures p.dst == DestinationCorners(p.width, p.height)
  {
    var src := OrderCentersTlTrBrBl(four);
    var wh := OutputSize(h, src);
    WarpPlan(src, wh.0, wh.1, DestinationCorners(wh.0, wh.1))
  }

  /** `rectify_topdown_with_aruco`: absent with fewer than four markers;
      otherwise the plan built from the first four detected markers and the
      scale detected again on the warped image (`warped`). */
  function RectifyTopdownWithAruco(det: Detection, warped: Detection, h: Hypot, markerSizeMm: real): (r: Option<Rectified>)
    requires markerSizeMm > 0.0
    ensures r.None? <==> det.ids.None? || |det.corners| < 4
    ensures r.Some? ==> r.value.plan == WarpPlanFor(h, det.corners[..4])
    ensures r.Some? ==> r.value.pxPerMm == ArucoScale(warped, h, markerSizeMm)
  {
    if det.ids.None? || |det.corners| < 4 then None
    else Some(Rectified(WarpPlanFor(h, det.corners[..4]), ArucoScale(warped, h, markerSizeMm)))
  }

  /** Markers detected after the fourth play no part in the plan. */
  lemma RectifyUsesFirstFourMarkers(det: Detection, det': Detection, warped: Detection, h: Hypot, markerSizeMm: real)
    requires markerSizeMm > 0.0
    requires det.ids.Some? && det'.ids.Some? && |det.corners| >= 4 && |det'.corners| >= 4
    requires det.corners[..4] == det'.corners[..4]
    ensures RectifyTopdownWithAruco(det, warped, h, markerSizeMm) == RectifyTopdownWithAruco(det', warped, h, markerSizeMm)
  {
  }
}
