/**
 * The `ProcessingImage` object of the lane detector: its `img` field, the
 * region-of-interest masking that rewrites the vertex array in place, and
 * `detect_line`, which masks, extrapolates and chooses what to draw on a
 * fresh line canvas. Pixel contents are abstract: a picture records its
 * shape and how it was made (the mask polygon, the strokes drawn in
 * order). The Hough transform is a parameter.
 */
module LaneDetector {
  import opened Wrappers
  import opened LaneGeometry
  import opened LaneExtrapolation
  import opened RoiMask

  /** Shape of an image array: height, width and, for a three-dimensional
      array, its channel count (None for a two-dimensional one). */
  datatype Shape = Shape(height: nat, width: nat, depth: Option<nat>)

  datatype Color = Color(r: int, g: int, b: int)

  /** One `cv2.line` call. */
  datatype Stroke = Stroke(seg: Segment, color: Color, thickness: nat)

  /** The image held in `ProcessingImage.img`. */
  datatype Picture =
    | Pixels(shape: Shape)
      // an image whose pixel values are not modelled (e.g. the edge map)
    | Masked(base: Picture, polygon: seq<Point>, fill: seq<int>)
      // `bitwise_and` of base with the polygon filled in colour fill
    | Canvas(shape: Shape, strokes: seq<Stroke>)
      // a zero image with the strokes drawn in this order

  const ColorPre: Color := Color(0, 255, 0)
  const ColorFinal: Color := Color(255, 0, 0)
  const Thickness: nat := 4

  function ShapeOf(p: Picture): Shape
  {
    match p
    case Pixels(s) => s
    case Masked(base, _, _) => ShapeOf(base)
    case Canvas(s, _) => s
  }

  /** The mask fill: 255 in every channel of a 3-D image, a scalar 255 for
      a 2-D one. */
  function MaskFill(s: Shape): (fill: seq<int>)
    ensures |fill| == if s.depth.Some? then s.depth.value else 1
    ensures forall k :: 0 <= k < |fill| ==> fill[k] == 255
  {
    if s.depth.Some? then seq(s.depth.value, _ => 255) else [255]
  }

  /** The line canvas: the image's own shape if it is 3-D, otherwise
      height x width x 3. */
  function CanvasShape(s: Shape): (c: Shape)
    ensures c.height == s.height && c.width == s.width && c.depth.Some?
    ensures s.depth.None? ==> c.depth == Some(3)
    ensures s.depth.Some? ==> c == s
  {
    if s.depth.Some? then s else Shape(s.height, s.width, Some(3))
  }

  /** The strokes of a run of `cv2.line` calls with one colour. */
  function Strokes(segs: seq<Segment>, color: Color): (st: seq<Stroke>)
    ensures |st| == |segs|
    ensures forall i :: 0 <= i < |segs| ==> st[i] == Stroke(segs[i], color, Thickness)
  {
    seq(|segs|, i requires 0 <= i < |segs| => Stroke(segs[i], color, Thickness))
  }

  /** The extrapolated segments `detect_line` draws as written: the source
      iterates over `final_lines[0]`, which is the first lane only. */
  function FinalSegmentsAsWritten(lanes: seq<seq<Segment>>): seq<Segment>
    requires |lanes| > 0
  {
    lanes[0]
  }

  /** The extrapolated segments to draw: every lane's segment, in order. */
  function FinalSegments(lanes: seq<seq<Segment>>): seq<Segment>
  {
    Flatten(lanes)
  }

  /** What `detect_line` draws, as written: None when there is no Hough
      output (the image is left as the masked edges), otherwise the raw
      segments of `pre_lines[0]` followed by `final_lines[0]`. */
  function DrawSelectionAsWritten(pre: Option<seq<seq<Segment>>>, final: Option<seq<seq<Segment>>>)
    : (r: Option<seq<Stroke>>)
    requires pre.Some? ==> |pre.value| > 0
    requires final.Some? ==> |final.value| > 0
    ensures r.None? <==> pre.None?
    ensures r.Some? ==>
              var n := |pre.value[0]|;
              && |r.value| == n + (if final.Some? then |final.value[0]| else 0)
              && (forall i :: 0 <= i < n ==> r.value[i] == Stroke(pre.value[0][i], ColorPre, Thickness))
              && (final.Some? ==> forall i :: 0 <= i < |final.value[0]| ==>
                                    r.value[n + i] == Stroke(final.value[0][i], ColorFinal, Thickness))
  {
    match pre
    case None => None
    case Some(groups) =>
      Some(Strokes(groups[0], ColorPre)
           + if final.None? then [] else Strokes(FinalSegmentsAsWritten(final.value), ColorFinal))
  }

  /** What `detect_line` draws once every lane is drawn: the raw segments
      of `pre_lines[0]` followed by every extrapolated lane. */
  function DrawSelection(pre: Option<seq<seq<Segment>>>, final: Option<seq<seq<Segment>>>)
    : (r: Option<seq<Stroke>>)
    requires pre.Some? ==> |pre.value| > 0
    ensures r.None? <==> pre.None?
    ensures r.Some? ==>
              var n := |pre.value[0]|;
              && |r.value| == n + (if final.Some? then |Flatten(final.value)| else 0)
              && (forall i :: 0 <= i < n ==> r.value[i] == Stroke(pre.value[0][i], ColorPre, Thickness))
              && (final.Some? ==> forall i :: 0 <= i < |Flatten(final.value)| ==>
                                    r.value[n + i] == Stroke(Flatten(final.value)[i], ColorFinal, Thickness))
  {
    match pre
    case None => None
    case Some(groups) =>
      Some(Strokes(groups[0], ColorPre)
           + if final.None? then [] else Strokes(FinalSegments(final.value), ColorFinal))
  }

  /** Lanes of one segment each flatten to their segments, in order. */
  lemma {:induction false} FlattenLanes(lanes: seq<seq<Segment>>)
    requires forall k :: 0 <= k < |lanes| ==> |lanes[k]| == 1
    ensures |Flatten(lanes)| == |lanes|
    ensures forall k :: 0 <= k < |lanes| ==> Flatten(lanes)[k] == lanes[k][0]
  {
    if lanes != [] {
      var n := |lanes|;
      FlattenLanes(lanes[..n - 1]);
      assert Flatten(lanes) == Flatten(lanes[..n - 1]) + lanes[n - 1];
    }
  }

  /** As written, when both clusters are non-empty two lanes are emitted
      but only one extrapolated stroke, the RIGHT lane, is drawn. */
  lemma AsWrittenDrawsOneLane(groups: seq<seq<Segment>>)
    requires |groups| > 0
    requires var c := Classify(Flatten(groups)); |c.right| > 0 && |c.left| > 0
    ensures var c := Classify(Flatten(groups));
            var final := Extrapolate(Some(groups));
            var st := DrawSelectionAsWritten(Some(groups), final).value;
            && |final.value| == 2
            && |st| == |groups[0]| + 1
            && st[|groups[0]|] == Stroke(Fit(c.right), ColorFinal, Thickness)
  {
    ExtrapolateLanes(groups);
  }

  /** A concrete Hough output with one RIGHT (slope -2/3) and one LEFT
      (slope 2/3) segment: two lanes are emitted, one is drawn. */
  lemma AsWrittenDropsLeftLane()
    ensures var groups := [[Segment(0, 400, 150, 300), Segment(0, 300, 150, 400)]];
            && |Extrapolate(Some(groups)).value| == 2
            && |DrawSelectionAsWritten(Some(groups), Extrapolate(Some(groups))).value| == 3
  {
    var a, b := Segment(0, 400, 150, 300), Segment(0, 300, 150, 400);
    var groups := [[a, b]];
    assert groups[..0] == [];
    assert Flatten(groups) == [a, b];
    assert ToRow(a).line.m == -2.0 / 3.0 && SideOf(ToRow(a).line.m) == Right;
    assert ToRow(b).line.m == 2.0 / 3.0 && SideOf(ToRow(b).line.m) == Left;
    assert Classify([]) == Clusters([], []);
    ClassifySnoc([], a);
    assert [] + [a] == [a];
    ClassifySnoc([a], b);
    assert [a] + [b] == [a, b];
    assert Classify([a, b]) == Clusters([ToRow(a)], [ToRow(b)]);
    AsWrittenDrawsOneLane(groups);
  }

  /** The corrected draw for any lanes of one segment each: the raw
      strokes, then one final stroke per lane. */
  lemma DrawSelectionStrokes(groups: seq<seq<Segment>>, final: Option<seq<seq<Segment>>>)
    requires |groups| > 0
    requires final.Some? ==> forall k :: 0 <= k < |final.value| ==> |final.value[k]| == 1
    ensures var st := DrawSelection(Some(groups), final).value;
            var n := |groups[0]|;
            && (forall i :: 0 <= i < n ==> st[i] == Stroke(groups[0][i], ColorPre, Thickness))
            && |st| == n + (if final.Some? then |final.value| else 0)
            && (final.Some? ==> forall k :: 0 <= k < |final.value| ==>
                                  st[n + k] == Stroke(final.value[k][0], ColorFinal, Thickness))
  {
    var n := |groups[0]|;
    var pre := Strokes(groups[0], ColorPre);
    if final.Some? {
      var lanes := final.value;
      FlattenLanes(lanes);
      var fin := Strokes(FinalSegments(lanes), ColorFinal);
      var st := DrawSelection(Some(groups), final).value;
      assert st == pre + fin;
      forall k | 0 <= k < |lanes|
        ensures st[n + k] == Stroke(lanes[k][0], ColorFinal, Thickness)
      {
        assert st[n + k] == fin[k];
      }
    } else {
      assert DrawSelection(Some(groups), final).value == pre + [];
    }
  }

  /** With every lane drawn, the canvas holds the raw segments of
      `pre_lines[0]` in the pre colour followed by one final-colour stroke
      per emitted lane, in emission order (RIGHT before LEFT). */
  lemma DrawSelectionLanes(groups: seq<seq<Segment>>)
    requires |groups| > 0
    ensures var final := Extrapolate(Some(groups));
            var st := DrawSelection(Some(groups), final).value;
            var n := |groups[0]|;
            && (forall i :: 0 <= i < n ==> st[i] == Stroke(groups[0][i], ColorPre, Thickness))
            && |st| == n + (if final.Some? then |final.value| else 0)
            && (final.Some? ==> forall k :: 0 <= k < |final.value| ==>
                                  st[n + k] == Stroke(final.value[k][0], ColorFinal, Thickness))
  {
    DrawSelectionStrokes(groups, Extrapolate(Some(groups)));
  }

  /** Drawing two runs of segments draws their concatenation. */
  lemma StrokesAppend(a: seq<Segment>, b: seq<Segment>, color: Color)
    ensures Strokes(a + b, color) == Strokes(a, color) + Strokes(b, color)
  {
  }

  /** One `for x1, y1, x2, y2 in ...: cv2.line(...)` loop: the segments are
      drawn in order in one colour on top of what is already there. */
  method DrawLines(canvas: seq<Stroke>, segs: seq<Segment>, color: Color) returns (drawn: seq<Stroke>)
    ensures drawn == canvas + Strokes(segs, color)
  {
    drawn := canvas;
    var i := 0;
    while i < |segs|
      invariant 0 <= i <= |segs|
      invariant drawn == canvas + Strokes(segs[..i], color)
    {
      drawn := drawn + [Stroke(segs[i], color, Thickness)];
      assert segs[..i + 1] == segs[..i] + [segs[i]];
      StrokesAppend(segs[..i], [segs[i]], color);
      i := i + 1;
    }
    assert segs[..|segs|] == segs;
  }

  /** The image-processing object; `img` is replaced by every step. */
  class ProcessingImage {
    var img: Picture

    constructor (image: Picture)
      ensures img == image
    {
      img := image;
    }

    /** `__mask`: scales the vertex array in place (x by the width, y by
        the height), casts it to int32 and masks the image with it. */
    method Mask(vertices: array<Vertex>)
      requires ScalableTo(vertices[..], ShapeOf(img).height, ShapeOf(img).width)
      modifies this, vertices
      ensures forall i :: 0 <= i < vertices.Length ==>
                vertices[i] == ScaleToPixels(old(vertices[i]), ShapeOf(old(img)).height, ShapeOf(old(img)).width)
      ensures img == Masked(old(img),
                            ScalePolygon(old(vertices[..]), ShapeOf(old(img)).height, ShapeOf(old(img)).width),
                            MaskFill(ShapeOf(old(img))))
    {
      var shape := ShapeOf(img);
      ghost var normalised := vertices[..];
      forall i | 0 <= i < vertices.Length {
        vertices[i] := Vertex(vertices[i].x * shape.width as real, vertices[i].y * shape.height as real);
      }
      assert forall i :: 0 <= i < vertices.Length ==>
               vertices[i] == ScaleToPixels(normalised[i], shape.height, shape.width);
      var intVertices := CastVertices(vertices[..]);
      assert intVertices == ScalePolygon(normalised, shape.height, shape.width);
      img := Masked(img, intVertices, MaskFill(shape));
    }

    /** `detect_line`: masks with the default trapezoid, extrapolates the
        Hough output `preLines` and draws on a new canvas: nothing when
        there is no Hough output, else the raw segments of `preLines[0]`,
        then every extrapolated lane. */
    method DetectLine(preLines: Option<seq<seq<Segment>>>)
      requires preLines.Some? ==> |preLines.value| > 0
      requires ShapeOf(img).height <= Int32Max && ShapeOf(img).width <= Int32Max
      modifies this
      ensures var shape := ShapeOf(old(img));
              var masked := Masked(old(img), ScalePolygon(DefaultRoi, shape.height, shape.width), MaskFill(shape));
              img == match DrawSelection(preLines, Extrapolate(preLines))
                     case None => masked
                     case Some(strokes) => Canvas(CanvasShape(shape), strokes)
    {
      var shape := ShapeOf(img);
      DefaultRoiScalable(shape.height, shape.width);
      var vertices := new Vertex[4][DefaultRoi[0], DefaultRoi[1], DefaultRoi[2], DefaultRoi[3]];
      assert vertices[..] == DefaultRoi;
      Mask(vertices);
      var finalLines := ExtrapolationLines(preLines);
      DrawDetections(shape, preLines, finalLines);
    }

    /** The drawing half of `detect_line`: a new canvas with the raw
        segments of `preLines[0]`, then every extrapolated lane; the image
        is left alone when there is no Hough output. */
    method DrawDetections(shape: Shape, preLines: Option<seq<seq<Segment>>>, finalLines: Option<seq<seq<Segment>>>)
      requires preLines.Some? ==> |preLines.value| > 0
      modifies this
      ensures img == match DrawSelection(preLines, finalLines)
                     case None => old(img)
                     case Some(strokes) => Canvas(CanvasShape(shape), strokes)
    {
      var lineShape := CanvasShape(shape);
      if preLines.None? {
        return;
      }
      var raw := preLines.value[0];
      var strokes := DrawLines([], raw, ColorPre);
      img := Canvas(lineShape, strokes);
      if finalLines.None? {
        return;
      }
      var lanes := finalLines.value;
      var k := 0;
      while k < |lanes|
        invariant 0 <= k <= |lanes|
        invariant strokes == Strokes(raw, ColorPre) + Strokes(Flatten(lanes[..k]), ColorFinal)
      {
        strokes := DrawLines(strokes, lanes[k], ColorFinal);
        FlattenSnoc(lanes, k);
        StrokesAppend(Flatten(lanes[..k]), lanes[k], ColorFinal);
        k := k + 1;
      }
      assert lanes[..|lanes|] == lanes;
      img := Canvas(lineShape, strokes);
    }
  }
}
