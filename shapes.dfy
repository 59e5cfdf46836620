/** The values the measurement session stores and the pure formulas it
    applies to them: the annotated shapes, the linear depth correction
    `mm * (alpha + beta * y)`, the bounded cache of reference lines, the
    two-line fit of `(alpha, beta)`, and the per-shape rewrites done by the
    two calibrations. */
module Shapes {
  import opened Geometry

  /** A user annotation: an axis-aligned box or a measurement line. A line
      keeps its millimetre length (`mmValue`), that length corrected for
      depth (`mmCorrected`) and the face height it was corrected for. */
  datatype Shape =
    | Box(labelName: string, x: real, y: real, w: real, h: real)
    | Line(labelName: string, x1: real, y1: real, x2: real, y2: real,
           mmValue: Option<real>, mmCorrected: Option<real>, depthMm: Option<real>)

  /** A cached reference line for the depth fit: `(y_mid, base_mm)`. */
  datatype RefLine = RefLine(yMid: real, baseMm: real)

  /** The smallest box side and line length, in pixels, that is kept. */
  const MinPx: real := 5.0

  /** Python truthiness of an optional number: present and non-zero. */
  predicate Truthy(v: Option<real>)
  {
    v.Some? && v.value != 0.0
  }

  /** `_correct_mm`: the linear vertical correction of a length `mm`
      measured at image row `y`. */
  function Corrected(alpha: real, beta: real, mm: real, y: real): (r: real)
    ensures alpha == 1.0 && beta == 0.0 ==> r == mm
    ensures mm == 0.0 ==> r == 0.0
  {
    mm * (alpha + beta * y)
  }

  function YMid(y1: real, y2: real): real
  {
    0.5 * (y1 + y2)
  }

  /** The pixel length of the segment from (x1, y1) to (x2, y2). */
  function LineLength(h: Hypot, x1: real, y1: real, x2: real, y2: real): real
  {
    h(x2 - x1, y2 - y1)
  }

  function ShapeLength(h: Hypot, s: Shape): real
    requires s.Line?
  {
    LineLength(h, s.x1, s.y1, s.x2, s.y2)
  }

  /** The millimetre length of a `lengthPx`-pixel line under the scale
      `pxPerMm`: present exactly when the scale is truthy, and then it is the
      length that the scale maps back to `lengthPx` pixels. */
  function BaseMm(lengthPx: real, pxPerMm: Option<real>): (r: Option<real>)
    ensures r.Some? <==> Truthy(pxPerMm)
    ensures r.Some? ==> r.value * pxPerMm.value == lengthPx
  {
    if Truthy(pxPerMm) then
      DivMul(lengthPx, pxPerMm.value);
      Some(lengthPx / pxPerMm.value)
    else None
  }

  /** The record a completed line drawing stores: its end points, its
      millimetre length under the current scale, that length corrected at
      the line's mid-height, and the current face height. */
  function NewLine(h: Hypot, labelName: string, x1: real, y1: real, x2: real, y2: real,
                   pxPerMm: Option<real>, alpha: real, beta: real, depthMm: Option<real>): (s: Shape)
    ensures s.Line? && s.labelName == labelName && (s.x1, s.y1, s.x2, s.y2) == (x1, y1, x2, y2)
    ensures s.mmValue.Some? <==> Truthy(pxPerMm)
    ensures s.mmValue.Some? ==> s.mmValue.value * pxPerMm.value == LineLength(h, x1, y1, x2, y2)
    ensures s.mmCorrected.Some? <==> s.mmValue.Some?
    ensures s.mmValue.Some? ==> s.mmCorrected.value == Corrected(alpha, beta, s.mmValue.value, YMid(y1, y2))
    ensures s.depthMm == depthMm
  {
    var base := BaseMm(LineLength(h, x1, y1, x2, y2), pxPerMm);
    var corr := if base.Some? then Some(Corrected(alpha, beta, base.value, YMid(y1, y2))) else None;
    Line(labelName, x1, y1, x2, y2, base, corr, depthMm)
  }

  /** What every stored shape satisfies: it passed its size threshold when
      it was drawn, and a line's corrected length is present exactly when its
      millimetre length is. */
  predicate Accepted(h: Hypot, s: Shape)
  {
    match s
    case Box(_, _, _, w, ht) => w > MinPx && ht > MinPx
    case Line(_, _, _, _, _, mm, corr, _) => ShapeLength(h, s) > MinPx && (mm.Some? <==> corr.Some?)
  }

  /** Truncation of the reference-line cache to its last two entries. */
  function KeepLastTwo(s: seq<RefLine>): (r: seq<RefLine>)
    ensures |r| == if |s| < 2 then |s| else 2
    ensures r == s[|s| - |r|..]
  {
    if |s| > 2 then s[|s| - 2..] else s
  }

  // ---------------------------------------------------------------------
  // The two-line depth fit
  // ---------------------------------------------------------------------

  /** The determinant of the system `m_i * a + m_i * y_i * b = t`. */
  function FitDeterminant(m1: real, y1: real, m2: real, y2: real): real
  {
    m1 * m2 * (y2 - y1)
  }

  /** `np.linalg.lstsq` on the 2x2 system with rows `(m_i, m_i * y_i)` and
      right-hand side `t`, in exact arithmetic: Cramer's rule when the
      determinant is non-zero; otherwise the minimum-norm least-squares
      solution, which for a rank-one matrix is `A^T t / |A|^2` and for the
      zero matrix is `(0, 0)`. */
  function FitDepthCorrection(m1: real, y1: real, m2: real, y2: real, t: real): (ab: (real, real))
    ensures FitDeterminant(m1, y1, m2, y2) != 0.0 ==>
              Corrected(ab.0, ab.1, m1, y1) == t && Corrected(ab.0, ab.1, m2, y2) == t
  {
    var d := FitDeterminant(m1, y1, m2, y2);
    if d != 0.0 then
      var a := (t * m2 * y2 - m1 * y1 * t) / d;
      var b := (m1 * t - m2 * t) / d;
      DivMul(t * m2 * y2 - m1 * y1 * t, d);
      DivMul(m1 * t - m2 * t, d);
      CramerSolves(m1, y1, m2, y2, t, a, b);
      (a, b)
    else
      var n := m1 * m1 + m1 * m1 * y1 * y1 + m2 * m2 + m2 * m2 * y2 * y2;
      if n == 0.0 then (0.0, 0.0)
      else ((m1 * t + m2 * t) / n, (m1 * y1 * t + m2 * y2 * t) / n)
  }

  lemma DivMul(x: real, d: real)
    requires d != 0.0
    ensures (x / d) * d == x
  {
  }

  lemma MulCancel(u: real, v: real, d: real)
    requires d != 0.0 && u * d == v * d
    ensures u == v
  {
    assert (u - v) * d == 0.0;
  }

  lemma ZeroProduct(u: real, v: real)
    requires u * v == 0.0 && u != 0.0
    ensures v == 0.0
  {
  }

  lemma CramerSolves(m1: real, y1: real, m2: real, y2: real, t: real, a: real, b: real)
    requires FitDeterminant(m1, y1, m2, y2) != 0.0
    requires a * FitDeterminant(m1, y1, m2, y2) == t * m2 * y2 - m1 * y1 * t
    requires b * FitDeterminant(m1, y1, m2, y2) == m1 * t - m2 * t
    ensures Corrected(a, b, m1, y1) == t && Corrected(a, b, m2, y2) == t
  {
    var d := FitDeterminant(m1, y1, m2, y2);
    assert m1 * (a + b * y1) * d == m1 * (a * d) + m1 * y1 * (b * d);
    assert m1 * (a * d) + m1 * y1 * (b * d) == t * d;
    assert m2 * (a + b * y2) * d == m2 * (a * d) + m2 * y2 * (b * d);
    assert m2 * (a * d) + m2 * y2 * (b * d) == t * d;
    MulCancel(m1 * (a + b * y1), t, d);
    MulCancel(m2 * (a + b * y2), t, d);
  }

  /** The corrected-length equations of two reference lines at different
      heights determine `(alpha, beta)`: two corrections that agree on both
      lines are the same correction. */
  lemma CorrectionDeterminedByTwoLines(a: real, b: real, alpha: real, beta: real, m1: real, y1: real, m2: real, y2: real)
    requires FitDeterminant(m1, y1, m2, y2) != 0.0
    requires Corrected(a, b, m1, y1) == Corrected(alpha, beta, m1, y1)
    requires Corrected(a, b, m2, y2) == Corrected(alpha, beta, m2, y2)
    ensures a == alpha && b == beta
  {
    assert m1 != 0.0 && m2 != 0.0 && y1 != y2;
    assert (a + b * y1) * m1 == (alpha + beta * y1) * m1;
    MulCancel(a + b * y1, alpha + beta * y1, m1);
    assert (a + b * y2) * m2 == (alpha + beta * y2) * m2;
    MulCancel(a + b * y2, alpha + beta * y2, m2);
    assert (y1 - y2) * (b - beta) == 0.0;
    ZeroProduct(y1 - y2, b - beta);
  }

  /** Two reference lines built from a known `(alpha, beta)` at different
      heights give back exactly that `(alpha, beta)`. */
  lemma FitRecoversModel(alpha: real, beta: real, m1: real, y1: real, m2: real, y2: real, t: real)
    requires FitDeterminant(m1, y1, m2, y2) != 0.0
    requires t == Corrected(alpha, beta, m1, y1) && t == Corrected(alpha, beta, m2, y2)
    ensures FitDepthCorrection(m1, y1, m2, y2, t) == (alpha, beta)
  {
    var ab := FitDepthCorrection(m1, y1, m2, y2, t);
    CorrectionDeterminedByTwoLines(ab.0, ab.1, alpha, beta, m1, y1, m2, y2);
  }

  // ---------------------------------------------------------------------
  // Per-shape rewrites of the two calibrations
  // ---------------------------------------------------------------------

  /** The single-line calibration's rewrite of one shape under the new scale
      `pxPerMm`: a line's millimetre length is recomputed from its own pixel
      length and corrected at its own mid-height; a box is left alone. */
  function Recalibrated(h: Hypot, alpha: real, beta: real, s: Shape, pxPerMm: real): (r: Shape)
    requires pxPerMm != 0.0
    ensures s.Box? ==> r == s
    ensures s.Line? ==> r.Line? && r.labelName == s.labelName && r.depthMm == s.depthMm
                        && (r.x1, r.y1, r.x2, r.y2) == (s.x1, s.y1, s.x2, s.y2)
                        && r.mmValue == Some(ShapeLength(h, s) / pxPerMm)
                        && r.mmCorrected == Some(Corrected(alpha, beta, r.mmValue.value, YMid(s.y1, s.y2)))
  {
    match s
    case Box(_, _, _, _, _) => s
    case Line(_, _, y1, _, y2, _, _, _) =>
      var baseMm := ShapeLength(h, s) / pxPerMm;
      s.(mmValue := Some(baseMm), mmCorrected := Some(Corrected(alpha, beta, baseMm, YMid(y1, y2))))
  }

  /** Calibrating on a line of `lastLinePx` pixels declared `knownMm` long
      makes every line of that pixel length measure exactly `knownMm`. */
  lemma RecalibratedMeasuresKnownLength(h: Hypot, alpha: real, beta: real, s: Shape, lastLinePx: real, knownMm: real)
    requires s.Line? && lastLinePx != 0.0 && knownMm > 0.0
    requires ShapeLength(h, s) == lastLinePx
    ensures Recalibrated(h, alpha, beta, s, lastLinePx / knownMm).mmValue == Some(knownMm)
  {
    var px := lastLinePx / knownMm;
    assert px * knownMm == lastLinePx;
    assert px != 0.0;
    assert lastLinePx / px * px == lastLinePx;
    MulCancel(lastLinePx / px, knownMm, px);
  }

  /** Recalibration keeps a stored shape acceptable. */
  lemma RecalibratedAccepted(h: Hypot, alpha: real, beta: real, s: Shape, pxPerMm: real)
    requires pxPerMm != 0.0 && Accepted(h, s)
    ensures Accepted(h, Recalibrated(h, alpha, beta, s, pxPerMm))
  {
  }

  /** The depth calibration's rewrite of one shape: a line with a
      millimetre length gets it corrected by the new `(alpha, beta)` at its
      own mid-height and is stamped with the face height; other shapes are
      left alone. */
  function Refitted(alpha: real, beta: real, depthMm: real, s: Shape): (r: Shape)
    ensures !(s.Line? && s.mmValue.Some?) ==> r == s
    ensures s.Line? && s.mmValue.Some? ==>
              r == s.(mmCorrected := Some(Corrected(alpha, beta, s.mmValue.value, YMid(s.y1, s.y2))), depthMm := Some(depthMm))
  {
    if s.Line? && s.mmValue.Some? then
      s.(mmCorrected := Some(Corrected(alpha, beta, s.mmValue.value, YMid(s.y1, s.y2))), depthMm := Some(depthMm))
    else s
  }

  /** After a depth fit on reference lines `(y1, m1)` and `(y2, m2)` with a
      non-zero determinant, a stored line at one of those heights with that
      millimetre length measures exactly the declared true width. */
  lemma RefittedReferenceLineMeasuresTrueWidth(m1: real, y1: real, m2: real, y2: real, t: real, depthMm: real, s: Shape)
    requires FitDeterminant(m1, y1, m2, y2) != 0.0
    requires s.Line? && ((s.mmValue == Some(m1) && YMid(s.y1, s.y2) == y1) || (s.mmValue == Some(m2) && YMid(s.y1, s.y2) == y2))
    ensures var ab := FitDepthCorrection(m1, y1, m2, y2, t);
            Refitted(ab.0, ab.1, depthMm, s).mmCorrected == Some(t)
  {
  }
}
