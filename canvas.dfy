/** The annotation canvas: the state of one measurement session over one
    image, and the operations that change it. */
module App {
  import opened Geometry
  import opened ArucoUtils
  import opened Shapes

  /** The image on the canvas. A loaded image is known by its path; a
      rectified image is the previous image warped by a plan. Pixels are not
      modelled. */
  datatype Image = Loaded(path: string) | Warped(source: Image, plan: WarpPlan)

  /** The scene items drawn for one accepted shape (its outline and, for a
      line, its measurement text). Only their identity matters here. */
  datatype Group = Group(id: nat)

  /** The session invariant on the values of the canvas's fields. */
  ghost predicate SessionInvariant(h: Hypot, shapes: seq<Shape>, graphicsStack: seq<Group>,
                                   lastLinePx: Option<real>, recentLines: seq<RefLine>)
  {
    && |shapes| == |graphicsStack|
    && |recentLines| <= 2
    && (lastLinePx.Some? ==> lastLinePx.value > MinPx)
    && (forall i :: 0 <= i < |shapes| ==> Accepted(h, shapes[i]))
  }

  class Canvas {
    /** The Euclidean length used for lines (Qt's `QLineF.length` and
        numpy's `hypot`). */
    const hypot: Hypot

    const labels: seq<string>
    var currentLabel: string
    var imagePath: Option<string>
    var image: Option<Image>
    var pxPerMm: Option<real>
    var shapes: seq<Shape>
    var graphicsStack: seq<Group>
    var lastLinePx: Option<real>
    var recentLines: seq<RefLine>
    var scaleAlpha: real
    var scaleBeta: real
    var depthMmCurrent: Option<real>

    /** The session invariant: one scene group per stored shape, at most two
        cached reference lines, a remembered line length that passed the
        threshold, and only shapes that passed their thresholds. */
    ghost predicate Valid()
      reads this
    {
      SessionInvariant(hypot, shapes, graphicsStack, lastLinePx, recentLines)
    }

    constructor(labels: seq<string>, hypot: Hypot)
      ensures Valid()
      ensures this.hypot == hypot && this.labels == labels
      ensures currentLabel == if |labels| > 0 then labels[0] else ""
      ensures image == None && imagePath == None && pxPerMm == None
      ensures shapes == [] && graphicsStack == []
      ensures lastLinePx == None && recentLines == []
      ensures scaleAlpha == 1.0 && scaleBeta == 0.0 && depthMmCurrent == None
    {
      this.hypot := hypot;
      this.labels := labels;
      currentLabel := if |labels| > 0 then labels[0] else "";
      imagePath := None;
      image := None;
      pxPerMm := None;
      shapes := [];
      graphicsStack := [];
      lastLinePx := None;
      recentLines := [];
      scaleAlpha := 1.0;
      scaleBeta := 0.0;
      depthMmCurrent := None;
    }

    /** `load`: a new image starts a new session. Every shape, scene group,
        scale, remembered line and depth setting is dropped. */
    method Load(path: string)
      modifies this
      ensures currentLabel == old(currentLabel)
      ensures Valid()
      ensures image == Some(Loaded(path)) && imagePath == Some(path)
      ensures shapes == [] && graphicsStack == [] && pxPerMm == None
      ensures lastLinePx == None && recentLines == []
      ensures scaleAlpha == 1.0 && scaleBeta == 0.0 && depthMmCurrent == None
    {
      shapes := [];
      graphicsStack := [];
      pxPerMm := None;
      lastLinePx := None;
      recentLines := [];
      scaleAlpha := 1.0;
      scaleBeta := 0.0;
      depthMmCurrent := None;
      imagePath := Some(path);
      image := Some(Loaded(path));
    }

    /** Releasing the box tool over the rectangle at (x, y) of size w by h:
        the box is stored, with its scene group, only when an image is shown
        and both sides exceed the threshold; otherwise nothing changes. */
    method AddBox(x: real, y: real, w: real, h: real, g: Group)
      requires Valid()
      modifies this
      ensures Valid()
      ensures old(image).None? || w <= MinPx || h <= MinPx ==> unchanged(this)
      ensures old(image).Some? && w > MinPx && h > MinPx ==>
                && shapes == old(shapes) + [Box(currentLabel, x, y, w, h)]
                && graphicsStack == old(graphicsStack) + [g]
      ensures unchanged(this`image, this`imagePath, this`currentLabel, this`pxPerMm)
      ensures unchanged(this`scaleAlpha, this`scaleBeta, this`depthMmCurrent, this`lastLinePx, this`recentLines)
    {
      if image.Some? && w > MinPx && h > MinPx {
        shapes := shapes + [Box(currentLabel, x, y, w, h)];
        graphicsStack := graphicsStack + [g];
      }
    }

    /** Releasing the line tool over the segment (x1, y1)-(x2, y2): a
        segment longer than the threshold is stored with its millimetre and
        corrected lengths and the current face height, its length is
        remembered, and when it has a millimetre length it joins the
        reference-line cache, which keeps only its last two entries. A
        shorter segment, or no image, changes nothing. */
    method AddLine(x1: real, y1: real, x2: real, y2: real, g: Group)
      requires Valid()
      modifies this
      ensures Valid()
      ensures old(image).None? || LineLength(hypot, x1, y1, x2, y2) <= MinPx ==> unchanged(this)
      ensures old(image).Some? && LineLength(hypot, x1, y1, x2, y2) > MinPx ==>
                var line := NewLine(hypot, currentLabel, x1, y1, x2, y2, pxPerMm, scaleAlpha, scaleBeta, depthMmCurrent);
                && lastLinePx == Some(LineLength(hypot, x1, y1, x2, y2))
                && shapes == old(shapes) + [line]
                && graphicsStack == old(graphicsStack) + [g]
                && (line.mmValue.None? ==> recentLines == old(recentLines))
                && (line.mmValue.Some? ==>
                      && recentLines == KeepLastTwo(old(recentLines) + [RefLine(YMid(y1, y2), line.mmValue.value)])
                      && recentLines[|recentLines| - 1] == RefLine(YMid(y1, y2), line.mmValue.value))
      ensures unchanged(this`image, this`imagePath, this`currentLabel, this`pxPerMm)
      ensures unchanged(this`scaleAlpha, this`scaleBeta, this`depthMmCurrent)
    {
      var len := LineLength(hypot, x1, y1, x2, y2);
      if image.Some? && len > MinPx {
        lastLinePx := Some(len);
        var line := NewLine(hypot, currentLabel, x1, y1, x2, y2, pxPerMm, scaleAlpha, scaleBeta, depthMmCurrent);
        if line.mmValue.Some? {
          var extended := recentLines + [RefLine(YMid(y1, y2), line.mmValue.value)];
          recentLines := KeepLastTwo(extended);
          assert recentLines[|recentLines| - 1] == extended[|extended| - 1];
        }
        shapes := shapes + [line];
        graphicsStack := graphicsStack + [g];
      }
    }

    /** `undo`: removes the most recent shape and its scene group; with
        nothing to remove, nothing changes. The remembered line length and
        the reference-line cache are not rolled back. */
    method Undo()
      requires Valid()
      modifies this
      ensures Valid()
      ensures old(shapes) == [] ==> unchanged(this)
      ensures old(shapes) != [] ==>
                && shapes == old(shapes)[..|old(shapes)| - 1]
                && graphicsStack == old(graphicsStack)[..|old(graphicsStack)| - 1]
      ensures unchanged(this`image, this`imagePath, this`currentLabel, this`pxPerMm)
      ensures unchanged(this`scaleAlpha, this`scaleBeta, this`depthMmCurrent, this`lastLinePx, this`recentLines)
    {
      if graphicsStack != [] && shapes != [] {
        graphicsStack := graphicsStack[..|graphicsStack| - 1];
        shapes := shapes[..|shapes| - 1];
      }
    }

    /** `detect_scale`: with an image shown, measures the scale from the
        markers detected in it (`det`) and adopts it only when it is
        truthy; the result is the adopted scale, or absent. */
    method DetectScale(markerMm: real, det: Detection) returns (r: Option<real>)
      requires Valid() && markerMm > 0.0
      modifies this
      ensures Valid()
      ensures old(image).None? ==> r == None && unchanged(this)
      ensures old(image).Some? ==>
                var v := ArucoScale(det, hypot, markerMm);
                && (Truthy(v) ==> r == v && pxPerMm == v)
                && (!Truthy(v) ==> r == None && pxPerMm == old(pxPerMm))
      ensures unchanged(this`image, this`imagePath, this`currentLabel, this`shapes, this`graphicsStack)
      ensures unchanged(this`scaleAlpha, this`scaleBeta, this`depthMmCurrent, this`lastLinePx, this`recentLines)
    {
      if image.None? {
        return None;
      }
      var res := DetectArucoScale(det, hypot, markerMm);
      if !Truthy(res.pxPerMm) {
        return None;
      }
      pxPerMm := res.pxPerMm;
      r := res.pxPerMm;
    }

    /** `rectify_topdown`: with an image shown and at least four markers
        detected in it (`det`), replaces the image by its warp under the
        plan of the first four markers and adopts the scale detected on the
        warped image (`warpedDet`), even when that scale is absent. The
        stored shapes keep their coordinates. */
    method RectifyTopdown(markerMm: real, det: Detection, warpedDet: Detection) returns (r: Option<real>)
      requires Valid() && markerMm > 0.0
      modifies this
      ensures Valid()
      ensures old(image).None? || det.ids.None? || |det.corners| < 4 ==> r == None && unchanged(this)
      ensures old(image).Some? && det.ids.Some? && |det.corners| >= 4 ==>
                && image == Some(Warped(old(image).value, WarpPlanFor(hypot, det.corners[..4])))
                && pxPerMm == ArucoScale(warpedDet, hypot, markerMm)
                && r == pxPerMm
      ensures unchanged(this`imagePath, this`currentLabel, this`shapes, this`graphicsStack)
      ensures unchanged(this`scaleAlpha, this`scaleBeta, this`depthMmCurrent, this`lastLinePx, this`recentLines)
    {
      if image.None? {
        return None;
      }
      var res := RectifyTopdownWithAruco(det, warpedDet, hypot, markerMm);
      if res.None? {
        return None;
      }
      image := Some(Warped(image.value, res.value.plan));
      pxPerMm := res.value.pxPerMm;
      r := pxPerMm;
    }

    /** `calibrate_from_last_line`: declares the last drawn line to be
        `knownMm` long. The scale becomes that line's pixels per declared
        millimetre and every stored line is re-measured under it; without a
        remembered line or with a non-positive length nothing changes. */
    method CalibrateFromLastLine(knownMm: real) returns (r: Option<real>)
      requires Valid()
      modifies this
      ensures Valid()
      ensures !Truthy(old(lastLinePx)) || knownMm <= 0.0 ==> r == None && unchanged(this)
      ensures Truthy(old(lastLinePx)) && knownMm > 0.0 ==>
                && r == Some(old(lastLinePx).value / knownMm)
                && pxPerMm == r
                && |shapes| == |old(shapes)|
                && (forall i :: 0 <= i < |shapes| ==>
                      shapes[i] == Recalibrated(hypot, scaleAlpha, scaleBeta, old(shapes[i]), r.value))
                && (forall i :: 0 <= i < |shapes| && shapes[i].Line? && ShapeLength(hypot, shapes[i]) == old(lastLinePx).value ==>
                      shapes[i].mmValue == Some(knownMm))
      ensures unchanged(this`image, this`imagePath, this`currentLabel, this`graphicsStack)
      ensures unchanged(this`scaleAlpha, this`scaleBeta, this`depthMmCurrent, this`lastLinePx, this`recentLines)
    {
      if !Truthy(lastLinePx) || knownMm <= 0.0 {
        return None;
      }
      var last := lastLinePx.value;
      var px := last / knownMm;
      var current := shapes;
      var updated: seq<Shape> := [];
      var i := 0;
      while i < |current|
        invariant 0 <= i <= |current|
        invariant |updated| == i
        invariant forall k :: 0 <= k < i ==> updated[k] == Recalibrated(hypot, scaleAlpha, scaleBeta, current[k], px)
        invariant forall k :: 0 <= k < i ==> Accepted(hypot, updated[k])
        modifies {}
      {
        RecalibratedAccepted(hypot, scaleAlpha, scaleBeta, current[i], px);
        updated := updated + [Recalibrated(hypot, scaleAlpha, scaleBeta, current[i], px)];
        i := i + 1;
      }
      forall k | 0 <= k < |updated| && updated[k].Line? && ShapeLength(hypot, updated[k]) == last
        ensures updated[k].mmValue == Some(knownMm)
      {
        RecalibratedMeasuresKnownLength(hypot, scaleAlpha, scaleBeta, current[k], last, knownMm);
      }
      pxPerMm := Some(px);
      shapes := updated;
      r := pxPerMm;
    }

    /** `calibrate_depth_two_lines`: the last two reference lines are taken
        to span the same face of true width `trueWidthMm` at face height
        `depthMm`. The correction `(alpha, beta)` is fitted to them, the
        face height recorded, and every line with a millimetre length is
        re-corrected and stamped with that height. With fewer than two
        reference lines or no truthy scale nothing changes. */
    method CalibrateDepthTwoLines(trueWidthMm: real, depthMm: real) returns (r: Option<(real, real)>)
      requires Valid()
      modifies this
      ensures Valid()
      ensures |old(recentLines)| < 2 || !Truthy(old(pxPerMm)) ==> r == None && unchanged(this)
      ensures |old(recentLines)| >= 2 && Truthy(old(pxPerMm)) ==>
                var l1, l2 := old(recentLines)[0], old(recentLines)[1];
                && r == Some(FitDepthCorrection(l1.baseMm, l1.yMid, l2.baseMm, l2.yMid, trueWidthMm))
                && (scaleAlpha, scaleBeta) == r.value
                && depthMmCurrent == Some(depthMm)
                && |shapes| == |old(shapes)|
                && (forall i :: 0 <= i < |shapes| ==> shapes[i] == Refitted(scaleAlpha, scaleBeta, depthMm, old(shapes[i])))
                && (FitDeterminant(l1.baseMm, l1.yMid, l2.baseMm, l2.yMid) != 0.0 ==>
                      && Corrected(scaleAlpha, scaleBeta, l1.baseMm, l1.yMid) == trueWidthMm
                      && Corrected(scaleAlpha, scaleBeta, l2.baseMm, l2.yMid) == trueWidthMm)
      ensures unchanged(this`image, this`imagePath, this`currentLabel, this`graphicsStack)
      ensures unchanged(this`pxPerMm, this`lastLinePx, this`recentLines)
    {
      if |recentLines| < 2 || !Truthy(pxPerMm) {
        return None;
      }
      var l1, l2 := recentLines[|recentLines| - 2], recentLines[|recentLines| - 1];
      var ab := FitDepthCorrection(l1.baseMm, l1.yMid, l2.baseMm, l2.yMid, trueWidthMm);
      scaleAlpha, scaleBeta := ab.0, ab.1;
      depthMmCurrent := Some(depthMm);
      var current := shapes;
      var updated: seq<Shape> := [];
      var i := 0;
      while i < |current|
        invariant 0 <= i <= |current|
        invariant |updated| == i
        invariant forall k :: 0 <= k < i ==> updated[k] == Refitted(scaleAlpha, scaleBeta, depthMm, current[k])
        invariant forall k :: 0 <= k < i ==> Accepted(hypot, updated[k])
        modifies {}
      {
        updated := updated + [Refitted(scaleAlpha, scaleBeta, depthMm, current[i])];
        i := i + 1;
      }
      shapes := updated;
      r := Some(ab);
    }
  }

  /** The records of the 300-pixel line used in the session below: drawn
      unscaled, re-measured at 2 px/mm, and drawn again at 2 px/mm. */
  lemma SessionLineRecords(h: Hypot)
    requires h(0.0, 300.0) == 300.0
    ensures NewLine(h, "part", 0.0, 100.0, 0.0, 400.0, None, 1.0, 0.0, None)
            == Line("part", 0.0, 100.0, 0.0, 400.0, None, None, None)
    ensures Recalibrated(h, 1.0, 0.0, Line("part", 0.0, 100.0, 0.0, 400.0, None, None, None), 2.0)
            == Line("part", 0.0, 100.0, 0.0, 400.0, Some(150.0), Some(150.0), None)
    ensures NewLine(h, "part", 0.0, 100.0, 0.0, 400.0, Some(2.0), 1.0, 0.0, None)
            == Line("part", 0.0, 100.0, 0.0, 400.0, Some(150.0), Some(150.0), None)
  {
    assert LineLength(h, 0.0, 100.0, 0.0, 400.0) == 300.0;
  }

  /** The first half of a session on one image: a 300-pixel vertical line
      drawn before any scale is known has no millimetre length; a 3 by 40
      box is discarded; declaring the line 150 mm long gives 2 pixels per
      millimetre and re-measures it as exactly 150 mm. The line has no
      millimetre length when drawn, so it never entered the reference-line
      cache. */
  method CalibratedSession(h: Hypot) returns (c: Canvas)
    requires h(0.0, 300.0) == 300.0
    ensures fresh(c) && c.Valid() && c.hypot == h
    ensures c.image.Some? && c.currentLabel == "part"
    ensures c.pxPerMm == Some(2.0) && c.scaleAlpha == 1.0 && c.scaleBeta == 0.0 && c.depthMmCurrent == None
    ensures c.shapes == [Line("part", 0.0, 100.0, 0.0, 400.0, Some(150.0), Some(150.0), None)]
    ensures c.lastLinePx == Some(300.0) && c.recentLines == []
  {
    SessionLineRecords(h);
    var first := Line("part", 0.0, 100.0, 0.0, 400.0, None, None, None);
    c := new Canvas(["part", "hole"], h);
    c.Load("bench.jpg");
    assert LineLength(h, 0.0, 100.0, 0.0, 400.0) == 300.0;
    c.AddLine(0.0, 100.0, 0.0, 400.0, Group(0));
    assert c.shapes == [first] && c.lastLinePx == Some(300.0) && c.recentLines == [];
    c.AddBox(10.0, 10.0, 3.0, 40.0, Group(1));
    var px := c.CalibrateFromLastLine(150.0);
    assert px == Some(2.0) && c.scaleAlpha == 1.0 && c.scaleBeta == 0.0;
  }

  /** A whole session: after the calibration above, the same line drawn
      again measures 150 mm and becomes a reference line. Undoing it removes
      the new shape but leaves its reference line in the cache. */
  method MeasurementSession(h: Hypot) returns (c: Canvas)
    requires h(0.0, 300.0) == 300.0
    ensures c.Valid() && c.hypot == h
    ensures c.pxPerMm == Some(2.0)
    ensures c.shapes == [Line("part", 0.0, 100.0, 0.0, 400.0, Some(150.0), Some(150.0), None)]
    ensures c.recentLines == [RefLine(250.0, 150.0)]
  {
    SessionLineRecords(h);
    var measured := Line("part", 0.0, 100.0, 0.0, 400.0, Some(150.0), Some(150.0), None);
    c := CalibratedSession(h);
    ghost var line := NewLine(c.hypot, c.currentLabel, 0.0, 100.0, 0.0, 400.0, c.pxPerMm, c.scaleAlpha, c.scaleBeta, c.depthMmCurrent);
    assert line == measured;
    assert LineLength(h, 0.0, 100.0, 0.0, 400.0) == 300.0;
    c.AddLine(0.0, 100.0, 0.0, 400.0, Group(2));
    assert c.shapes == [measured] + [line];
    assert YMid(100.0, 400.0) == 250.0;
    assert c.recentLines == KeepLastTwo([] + [RefLine(250.0, 150.0)]);
    c.Undo();
  }
}
