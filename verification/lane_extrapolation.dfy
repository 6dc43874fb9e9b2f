/**
 * The segment classifier and extrapolator of the lane detector
 * (`ProcessingImage.__extrapolation_lines`). Raw segments from the
 * probabilistic Hough transform are reordered top-to-bottom, routed by slope
 * to a RIGHT or a LEFT cluster (or dropped), and each non-empty cluster is
 * replaced by one segment on its mean line spanning the cluster's vertical
 * extent.
 *
 * `Extrapolate` is the specification; `ExtrapolationLines` is the loop that
 * the source runs, proved equal to it.
 */
module LaneExtrapolation {
  import opened Wrappers
  import opened LaneGeometry

  /** Open slope ranges of the two clusters (image y grows downwards, so the
      right lane boundary has a negative slope). */
  const RightSlopeMin: real := -0.8
  const RightSlopeMax: real := -0.4
  const LeftSlopeMin: real := 0.4
  const LeftSlopeMax: real := 0.8

  /** One cluster row [x1, y1, x2, y2, m, b]: a reordered segment and its line. */
  datatype Row = Row(seg: Segment, line: Line)

  datatype Side = Right | Left | Dropped

  /** The two clusters, each in input order. */
  datatype Clusters = Clusters(right: seq<Row>, left: seq<Row>)

  /** The cluster a slope is routed to; RIGHT is tested first and both
      range tests are strict. */
  function SideOf(m: real): (side: Side)
    ensures side == Right <==> RightSlopeMin < m < RightSlopeMax
    ensures side == Left <==> LeftSlopeMin < m < LeftSlopeMax
  {
    if RightSlopeMin < m < RightSlopeMax then Right
    else if LeftSlopeMin < m < LeftSlopeMax then Left
    else Dropped
  }

  /** The row a raw segment contributes: reordered, with its slope and intercept. */
  function ToRow(s: Segment): Row
  {
    var n := Normalize(s);
    Row(n, GetSegment(n.x1, n.y1, n.x2, n.y2))
  }

  /** Every row's slope lies strictly between lo and hi. */
  predicate AllIn(rows: seq<Row>, lo: real, hi: real)
  {
    forall k :: 0 <= k < |rows| ==> lo < rows[k].line.m < hi
  }

  /** Every row has its top point first. */
  predicate AllUpright(rows: seq<Row>)
  {
    forall k :: 0 <= k < |rows| ==> rows[k].seg.y1 <= rows[k].seg.y2
  }

  /** The segments of the Hough output in iteration order
      (`for line in lines: for ... in line`). */
  function Flatten(groups: seq<seq<Segment>>): seq<Segment>
  {
    if groups == [] then [] else Flatten(groups[..|groups| - 1]) + groups[|groups| - 1]
  }

  /** Routes every segment to its cluster, appending in input order. */
  function Classify(segs: seq<Segment>): (c: Clusters)
    ensures AllIn(c.right, RightSlopeMin, RightSlopeMax) && AllUpright(c.right)
    ensures AllIn(c.left, LeftSlopeMin, LeftSlopeMax) && AllUpright(c.left)
    ensures |c.right| + |c.left| <= |segs|
  {
    if segs == [] then Clusters([], [])
    else
      var c := Classify(segs[..|segs| - 1]);
      var row := ToRow(segs[|segs| - 1]);
      match SideOf(row.line.m)
      case Right => Clusters(c.right + [row], c.left)
      case Left => Clusters(c.right, c.left + [row])
      case Dropped => c
  }

  /** Sum of a sequence of reals, accumulated left to right. */
  function Sum(xs: seq<real>): real
  {
    if xs == [] then 0.0 else Sum(xs[..|xs| - 1]) + xs[|xs| - 1]
  }

  /** Unweighted arithmetic mean (numpy's `mean`). */
  function Mean(xs: seq<real>): real
    requires |xs| > 0
  {
    Sum(xs) / |xs| as real
  }

  function Slopes(rows: seq<Row>): (ms: seq<real>)
    ensures |ms| == |rows| && forall k :: 0 <= k < |rows| ==> ms[k] == rows[k].line.m
  {
    seq(|rows|, k requires 0 <= k < |rows| => rows[k].line.m)
  }

  function Intercepts(rows: seq<Row>): (bs: seq<real>)
    ensures |bs| == |rows| && forall k :: 0 <= k < |rows| ==> bs[k] == rows[k].line.b
  {
    seq(|rows|, k requires 0 <= k < |rows| => rows[k].line.b)
  }

  /** The smallest top y of a cluster (`[:, 1].min()`). */
  function MinTop(rows: seq<Row>): (y: int)
    requires |rows| > 0
    ensures forall k :: 0 <= k < |rows| ==> y <= rows[k].seg.y1
    ensures exists k :: 0 <= k < |rows| && rows[k].seg.y1 == y
  {
    if |rows| == 1 then rows[0].seg.y1
    else
      var y := MinTop(rows[..|rows| - 1]);
      var last := rows[|rows| - 1].seg.y1;
      if last < y then last else y
  }

  /** The largest bottom y of a cluster (`[:, 3].max()`). */
  function MaxBottom(rows: seq<Row>): (y: int)
    requires |rows| > 0
    ensures forall k :: 0 <= k < |rows| ==> rows[k].seg.y2 <= y
    ensures exists k :: 0 <= k < |rows| && rows[k].seg.y2 == y
  {
    if |rows| == 1 then rows[0].seg.y2
    else
      var y := MaxBottom(rows[..|rows| - 1]);
      var last := rows[|rows| - 1].seg.y2;
      if last > y then last else y
  }

  /** n values strictly inside (lo, hi) sum to strictly between n*lo and n*hi. */
  lemma {:induction false} SumBetween(xs: seq<real>, lo: real, hi: real)
    requires |xs| > 0
    requires forall k :: 0 <= k < |xs| ==> lo < xs[k] < hi
    ensures |xs| as real * lo < Sum(xs) < |xs| as real * hi
  {
    var n := |xs|;
    if n > 1 {
      SumBetween(xs[..n - 1], lo, hi);
      assert Sum(xs) == Sum(xs[..n - 1]) + xs[n - 1];
    } else {
      assert xs[..0] == [];
    }
  }

  /** The mean of values in an open interval lies in that interval. */
  lemma MeanBetween(xs: seq<real>, lo: real, hi: real)
    requires |xs| > 0
    requires forall k :: 0 <= k < |xs| ==> lo < xs[k] < hi
    ensures lo < Mean(xs) < hi
  {
    var n := |xs| as real;
    SumBetween(xs, lo, hi);
    assert Mean(xs) * n == Sum(xs);
  }

  /** A cluster's mean slope stays in the cluster's slope range. */
  lemma MeanSlopeInRange(rows: seq<Row>, lo: real, hi: real)
    requires |rows| > 0 && AllIn(rows, lo, hi)
    ensures lo < Mean(Slopes(rows)) < hi
  {
    MeanBetween(Slopes(rows), lo, hi);
  }

  /** A cluster's mean slope is non-zero, so projecting on it is defined. */
  lemma MeanSlopeNonZero(rows: seq<Row>)
    requires |rows| > 0
    requires AllIn(rows, RightSlopeMin, RightSlopeMax) || AllIn(rows, LeftSlopeMin, LeftSlopeMax)
    ensures Mean(Slopes(rows)) != 0.0
  {
    if AllIn(rows, RightSlopeMin, RightSlopeMax) {
      MeanSlopeInRange(rows, RightSlopeMin, RightSlopeMax);
    } else {
      MeanSlopeInRange(rows, LeftSlopeMin, LeftSlopeMax);
    }
  }

  /** The extrapolated segment of one non-empty cluster: the mean line
      projected at the cluster's minimum top y and maximum bottom y, with
      every coordinate passed through `int()`. */
  function Fit(rows: seq<Row>): (s: Segment)
    requires |rows| > 0 && AllUpright(rows)
    requires AllIn(rows, RightSlopeMin, RightSlopeMax) || AllIn(rows, LeftSlopeMin, LeftSlopeMax)
    ensures s.y1 <= s.y2
    ensures forall k :: 0 <= k < |rows| ==> s.y1 <= rows[k].seg.y1 && rows[k].seg.y2 <= s.y2
    ensures exists k :: 0 <= k < |rows| && rows[k].seg.y1 == s.y1
    ensures exists k :: 0 <= k < |rows| && rows[k].seg.y2 == s.y2
  {
    MeanSlopeNonZero(rows);
    Project(rows, Mean(Slopes(rows)), Mean(Intercepts(rows)))
  }

  /** Projection of the line (m, b) at the cluster's vertical extent. */
  function Project(rows: seq<Row>, m: real, b: real): (s: Segment)
    requires |rows| > 0 && m != 0.0
    ensures s.y1 == MinTop(rows) && s.y2 == MaxBottom(rows)
  {
    var yMin := MinTop(rows);
    var yMax := MaxBottom(rows);
    TruncOfWhole(yMin);
    TruncOfWhole(yMax);
    Segment(TruncToInt(GetPointHorizontal(m, b, yMin as real)), TruncToInt(yMin as real),
            TruncToInt(GetPointHorizontal(m, b, yMax as real)), TruncToInt(yMax as real))
  }

  /** The emitted segment of one cluster, wrapped as `[[x1, y1, x2, y2]]`. */
  function Lane(rows: seq<Row>): (lane: seq<seq<Segment>>)
    requires AllUpright(rows)
    requires AllIn(rows, RightSlopeMin, RightSlopeMax) || AllIn(rows, LeftSlopeMin, LeftSlopeMax)
    ensures |lane| == if |rows| > 0 then 1 else 0
    ensures forall k :: 0 <= k < |lane| ==> |lane[k]| == 1 && lane[k][0].y1 <= lane[k][0].y2
    ensures |rows| > 0 ==> lane[0] == [Fit(rows)]
  {
    if |rows| > 0 then [[Fit(rows)]] else []
  }

  /** `__extrapolation_lines` as a function: `None` for no Hough output or
      when neither cluster received a segment, otherwise the RIGHT lane (if
      any) followed by the LEFT lane (if any). */
  function Extrapolate(lines: Option<seq<seq<Segment>>>): (r: Option<seq<seq<Segment>>>)
    ensures r.Some? ==> 1 <= |r.value| <= 2
    ensures r.Some? ==> forall k :: 0 <= k < |r.value| ==>
                          |r.value[k]| == 1 && r.value[k][0].y1 <= r.value[k][0].y2
  {
    match lines
    case None => None
    case Some(groups) =>
      var c := Classify(Flatten(groups));
      if |c.right| == 0 && |c.left| == 0 then None
      else
        var right, left := Lane(c.right), Lane(c.left);
        SingleUprightAppend(right, left);
        Some(right + left)
  }

  /** Every lane is a single segment with its top point first. */
  predicate SingleUpright(lanes: seq<seq<Segment>>)
  {
    forall k :: 0 <= k < |lanes| ==> |lanes[k]| == 1 && lanes[k][0].y1 <= lanes[k][0].y2
  }

  /** Lanes of single upright segments stay so when concatenated. */
  lemma SingleUprightAppend(a: seq<seq<Segment>>, b: seq<seq<Segment>>)
    requires SingleUpright(a) && SingleUpright(b)
    ensures SingleUpright(a + b)
  {
    forall k | 0 <= k < |a + b|
      ensures |(a + b)[k]| == 1 && (a + b)[k][0].y1 <= (a + b)[k][0].y2
    {
      if k < |a| {
        assert (a + b)[k] == a[k];
      } else {
        assert (a + b)[k] == b[k - |a|];
      }
    }
  }

  /** Appending one more group of the Hough output appends its segments. */
  lemma FlattenSnoc(groups: seq<seq<Segment>>, i: nat)
    requires i < |groups|
    ensures Flatten(groups[..i + 1]) == Flatten(groups[..i]) + groups[i]
  {
    assert groups[..i + 1][..i] == groups[..i];
  }

  /** Classifying one more segment appends it to its cluster, or drops it. */
  lemma ClassifySnoc(segs: seq<Segment>, s: Segment)
    ensures SideOf(ToRow(s).line.m) == Right ==>
              Classify(segs + [s]) == Clusters(Classify(segs).right + [ToRow(s)], Classify(segs).left)
    ensures SideOf(ToRow(s).line.m) == Left ==>
              Classify(segs + [s]) == Clusters(Classify(segs).right, Classify(segs).left + [ToRow(s)])
    ensures SideOf(ToRow(s).line.m) == Dropped ==> Classify(segs + [s]) == Classify(segs)
  {
    assert (segs + [s])[..|segs|] == segs;
  }

  /** The body of the inner loop: reorders one segment so its top point
      comes first and appends it to `right_line` or `left_line` by slope. */
  method ClassifySegment(right0: seq<Row>, left0: seq<Row>, ghost seen: seq<Segment>, t: Segment)
    returns (right: seq<Row>, left: seq<Row>)
    requires Clusters(right0, left0) == Classify(seen)
    ensures Clusters(right, left) == Classify(seen + [t])
  {
    var x1, y1, x2, y2;
    if t.y2 > t.y1 {
      x1, y1, x2, y2 := t.x1, t.y1, t.x2, t.y2;
    } else {
      x1, y1, x2, y2 := t.x2, t.y2, t.x1, t.y1;
    }
    var l := GetSegment(x1, y1, x2, y2);
    var row := Row(Segment(x1, y1, x2, y2), l);
    assert row == ToRow(t);
    ClassifySnoc(seen, t);
    right, left := right0, left0;
    if RightSlopeMin < l.m < RightSlopeMax {
      right := right + [row];
    } else if LeftSlopeMin < l.m < LeftSlopeMax {
      left := left + [row];
    }
  }

  /** The inner `for tx1, ty1, tx2, ty2 in line` loop over one Hough group. */
  method ClassifyGroup(right0: seq<Row>, left0: seq<Row>, ghost seen: seq<Segment>, line: seq<Segment>)
    returns (right: seq<Row>, left: seq<Row>)
    requires Clusters(right0, left0) == Classify(seen)
    ensures Clusters(right, left) == Classify(seen + line)
  {
    right, left := right0, left0;
    var j := 0;
    assert seen + line[..0] == seen;
    while j < |line|
      invariant 0 <= j <= |line|
      invariant Clusters(right, left) == Classify(seen + line[..j])
    {
      right, left := ClassifySegment(right, left, seen + line[..j], line[j]);
      assert seen + line[..j + 1] == (seen + line[..j]) + [line[j]];
      j := j + 1;
    }
    assert line[..|line|] == line;
  }

  /** The tail of the source: no lanes when both clusters are empty,
      otherwise the RIGHT lane (if any) and then the LEFT lane (if any). */
  method EmitLanes(right: seq<Row>, left: seq<Row>) returns (r: Option<seq<seq<Segment>>>)
    requires AllUpright(right) && AllIn(right, RightSlopeMin, RightSlopeMax)
    requires AllUpright(left) && AllIn(left, LeftSlopeMin, LeftSlopeMax)
    ensures r.None? <==> |right| == 0 && |left| == 0
    ensures r.Some? ==> r.value == Lane(right) + Lane(left)
  {
    if |right| == 0 && |left| == 0 {
      return None;
    }
    var result: seq<seq<Segment>> := [];
    if |right| > 0 {
      result := result + [[Fit(right)]];
    }
    assert result == Lane(right);
    if |left| > 0 {
      result := result + [[Fit(left)]];
    }
    return Some(result);
  }

  /** The classification loop of the source (the nested `for` over the
      Hough output, growing `right_line` / `left_line`), followed by the
      per-cluster averaging and projection. */
  method ExtrapolationLines(lines: Option<seq<seq<Segment>>>) returns (r: Option<seq<seq<Segment>>>)
    ensures r == Extrapolate(lines)
  {
    if lines.None? {
      return None;
    }
    var groups := lines.value;
    var right: seq<Row> := [];
    var left: seq<Row> := [];
    var i := 0;
    while i < |groups|
      invariant 0 <= i <= |groups|
      invariant Clusters(right, left) == Classify(Flatten(groups[..i]))
    {
      right, left := ClassifyGroup(right, left, Flatten(groups[..i]), groups[i]);
      FlattenSnoc(groups, i);
      i := i + 1;
    }
    assert groups[..|groups|] == groups;
    r := EmitLanes(right, left);
  }

  /** Every segment whose slope is in a cluster's range is in that cluster. */
  lemma {:induction false} ClassifyComplete(segs: seq<Segment>)
    ensures forall j :: 0 <= j < |segs| && SideOf(ToRow(segs[j]).line.m) == Right ==>
              ToRow(segs[j]) in Classify(segs).right
    ensures forall j :: 0 <= j < |segs| && SideOf(ToRow(segs[j]).line.m) == Left ==>
              ToRow(segs[j]) in Classify(segs).left
  {
    if segs != [] {
      var n := |segs|;
      var init := segs[..n - 1];
      ClassifyComplete(init);
      ClassifySnoc(init, segs[n - 1]);
      assert init + [segs[n - 1]] == segs;
      forall j | 0 <= j < n - 1
        ensures segs[j] == init[j]
      {
      }
    }
  }

  /** Some input segment yields this row. */
  predicate FromInput(segs: seq<Segment>, row: Row)
  {
    exists j :: 0 <= j < |segs| && ToRow(segs[j]) == row
  }

  /** A row that comes from some segment still does once more segments follow. */
  lemma FromInputGrows(init: seq<Segment>, s: Segment, row: Row)
    requires FromInput(init, row)
    ensures FromInput(init + [s], row)
  {
    var j :| 0 <= j < |init| && ToRow(init[j]) == row;
    assert (init + [s])[j] == init[j];
  }

  /** The row of the last segment comes from the input. */
  lemma FromInputLast(init: seq<Segment>, s: Segment)
    ensures FromInput(init + [s], ToRow(s))
  {
    assert (init + [s])[|init|] == s;
  }

  /** Every RIGHT row comes from some input segment. */
  lemma {:induction false} ClassifySoundRight(segs: seq<Segment>)
    ensures forall k :: 0 <= k < |Classify(segs).right| ==> FromInput(segs, Classify(segs).right[k])
  {
    if segs != [] {
      var n := |segs|;
      var init, s := segs[..n - 1], segs[n - 1];
      assert init + [s] == segs;
      ClassifySoundRight(init);
      ClassifySnoc(init, s);
      var c0, c := Classify(init), Classify(segs);
      forall k | 0 <= k < |c.right|
        ensures FromInput(segs, c.right[k])
      {
        if k < |c0.right| {
          assert c.right[k] == c0.right[k];
          FromInputGrows(init, s, c0.right[k]);
        } else {
          assert c.right[k] == ToRow(s);
          FromInputLast(init, s);
        }
      }
    }
  }

  /** Every LEFT row comes from some input segment. */
  lemma {:induction false} ClassifySoundLeft(segs: seq<Segment>)
    ensures forall k :: 0 <= k < |Classify(segs).left| ==> FromInput(segs, Classify(segs).left[k])
  {
    if segs != [] {
      var n := |segs|;
      var init, s := segs[..n - 1], segs[n - 1];
      assert init + [s] == segs;
      ClassifySoundLeft(init);
      ClassifySnoc(init, s);
      var c0, c := Classify(init), Classify(segs);
      forall k | 0 <= k < |c.left|
        ensures FromInput(segs, c.left[k])
      {
        if k < |c0.left| {
          assert c.left[k] == c0.left[k];
          FromInputGrows(init, s, c0.left[k]);
        } else {
          assert c.left[k] == ToRow(s);
          FromInputLast(init, s);
        }
      }
    }
  }

  /** The positions of the segments routed to `side`, in increasing order. */
  function SideIndices(segs: seq<Segment>, side: Side): (ix: seq<nat>)
    ensures forall k :: 0 <= k < |ix| ==> ix[k] < |segs| && SideOf(ToRow(segs[ix[k]]).line.m) == side
    ensures forall k, l :: 0 <= k < l < |ix| ==> ix[k] < ix[l]
    ensures forall j :: 0 <= j < |segs| && SideOf(ToRow(segs[j]).line.m) == side ==> j in ix
  {
    if segs == [] then []
    else
      var n := |segs| - 1;
      var init := segs[..n];
      var ix := SideIndices(init, side);
      assert forall j :: 0 <= j < n ==> segs[j] == init[j];
      if SideOf(ToRow(segs[n]).line.m) == side then ix + [n] else ix
  }

  /** The rows of the segments at the given positions, in that order. */
  function RowsAt(segs: seq<Segment>, ix: seq<nat>): (rows: seq<Row>)
    requires forall k :: 0 <= k < |ix| ==> ix[k] < |segs|
    ensures |rows| == |ix|
    ensures forall k :: 0 <= k < |ix| ==> rows[k] == ToRow(segs[ix[k]])
  {
    seq(|ix|, k requires 0 <= k < |ix| => ToRow(segs[ix[k]]))
  }

  /** Rows at positions of a prefix read the same in the whole sequence. */
  lemma RowsAtPrefix(segs: seq<Segment>, n: nat, ix: seq<nat>)
    requires n <= |segs|
    requires forall k :: 0 <= k < |ix| ==> ix[k] < n
    ensures RowsAt(segs[..n], ix) == RowsAt(segs, ix)
  {
    forall k | 0 <= k < |ix|
      ensures RowsAt(segs[..n], ix)[k] == RowsAt(segs, ix)[k]
    {
      assert segs[..n][ix[k]] == segs[ix[k]];
    }
  }

  /** Each cluster holds one row per segment routed to it, in input order:
      the RIGHT cluster is exactly the rows at the RIGHT positions, so a
      segment that occurs twice contributes two rows to the mean. */
  lemma {:induction false} ClassifyOccurrences(segs: seq<Segment>)
    ensures Classify(segs).right == RowsAt(segs, SideIndices(segs, Right))
    ensures Classify(segs).left == RowsAt(segs, SideIndices(segs, Left))
  {
    if segs != [] {
      var n := |segs| - 1;
      var init, s := segs[..n], segs[n];
      assert init + [s] == segs;
      ClassifyOccurrences(init);
      ClassifySnoc(init, s);
      var ixr, ixl := SideIndices(init, Right), SideIndices(init, Left);
      RowsAtPrefix(segs, n, ixr);
      RowsAtPrefix(segs, n, ixl);
      var side := SideOf(ToRow(s).line.m);
      if side == Right {
        assert SideIndices(segs, Right) == ixr + [n];
        assert RowsAt(segs, ixr + [n]) == RowsAt(segs, ixr) + [ToRow(s)];
      } else if side == Left {
        assert SideIndices(segs, Left) == ixl + [n];
        assert RowsAt(segs, ixl + [n]) == RowsAt(segs, ixl) + [ToRow(s)];
      }
    }
  }

  /** A repeated segment is counted once per occurrence: with a of slope
      -2/3 twice and b of slope -1/2 once, the RIGHT cluster is
      [a, a, b], so its mean slope is -11/18 and not the mean of the
      distinct slopes. */
  lemma ClassifyKeepsRepeats()
    ensures var a, b := Segment(0, 400, 150, 300), Segment(0, 400, 200, 300);
            && Classify([a, a, b]).right == [ToRow(a), ToRow(a), ToRow(b)]
            && Mean(Slopes(Classify([a, a, b]).right)) == -11.0 / 18.0
  {
    var a, b := Segment(0, 400, 150, 300), Segment(0, 400, 200, 300);
    var ra, rb := ToRow(a), ToRow(b);
    assert ra.line.m == -2.0 / 3.0 && SideOf(ra.line.m) == Right;
    assert rb.line.m == -1.0 / 2.0 && SideOf(rb.line.m) == Right;
    assert Classify([]) == Clusters([], []);
    ClassifySnoc([], a);
    assert [] + [a] == [a];
    ClassifySnoc([a], a);
    assert [a] + [a] == [a, a];
    ClassifySnoc([a, a], b);
    assert [a, a] + [b] == [a, a, b];
    assert Classify([a, a, b]).right == [ra, ra, rb];
    var ms := Slopes([ra, ra, rb]);
    assert ms == [-2.0 / 3.0, -2.0 / 3.0, -1.0 / 2.0];
    assert ms[..2] == [-2.0 / 3.0, -2.0 / 3.0] && ms[..1] == [-2.0 / 3.0];
    assert ms[..2][..1] == ms[..1] && ms[..1][..0] == [];
    assert Sum(ms[..1]) == -2.0 / 3.0;
    assert Sum(ms[..2]) == -4.0 / 3.0;
    assert Sum(ms) == -11.0 / 6.0;
  }

  /** Every cluster row comes from some input segment. */
  lemma ClassifySound(segs: seq<Segment>)
    ensures forall k :: 0 <= k < |Classify(segs).right| ==>
              exists j :: 0 <= j < |segs| && ToRow(segs[j]) == Classify(segs).right[k]
    ensures forall k :: 0 <= k < |Classify(segs).left| ==>
              exists j :: 0 <= j < |segs| && ToRow(segs[j]) == Classify(segs).left[k]
  {
    var c := Classify(segs);
    ClassifySoundRight(segs);
    ClassifySoundLeft(segs);
    forall k | 0 <= k < |c.right|
      ensures exists j :: 0 <= j < |segs| && ToRow(segs[j]) == c.right[k]
    {
      assert FromInput(segs, c.right[k]);
    }
    forall k | 0 <= k < |c.left|
      ensures exists j :: 0 <= j < |segs| && ToRow(segs[j]) == c.left[k]
    {
      assert FromInput(segs, c.left[k]);
    }
  }

  /** No segment's slope falls in either cluster's range. */
  predicate AllDropped(segs: seq<Segment>)
  {
    forall j :: 0 <= j < |segs| ==> SideOf(ToRow(segs[j]).line.m) == Dropped
  }

  /** Both clusters are empty exactly when every segment is dropped. */
  lemma ClustersEmpty(segs: seq<Segment>)
    ensures |Classify(segs).right| == 0 && |Classify(segs).left| == 0 <==> AllDropped(segs)
  {
    var c := Classify(segs);
    ClassifyComplete(segs);
    ClassifySound(segs);
    if |c.right| > 0 {
      var j :| 0 <= j < |segs| && ToRow(segs[j]) == c.right[0];
      assert SideOf(ToRow(segs[j]).line.m) == Right;
    } else if |c.left| > 0 {
      var j :| 0 <= j < |segs| && ToRow(segs[j]) == c.left[0];
      assert SideOf(ToRow(segs[j]).line.m) == Left;
    } else {
      forall j | 0 <= j < |segs|
        ensures SideOf(ToRow(segs[j]).line.m) == Dropped
      {
        assert ToRow(segs[j]) !in c.right && ToRow(segs[j]) !in c.left;
      }
    }
  }

  /** The result is `None` exactly when there is no Hough output or no
      segment's slope falls in either cluster's range. */
  lemma ExtrapolateNone(lines: Option<seq<seq<Segment>>>)
    ensures Extrapolate(lines).None? <==> lines.None? || AllDropped(Flatten(lines.value))
  {
    if lines.Some? {
      ClustersEmpty(Flatten(lines.value));
    }
  }

  /** With Hough output, one lane is emitted per non-empty cluster, the
      RIGHT lane first. */
  lemma ExtrapolateLanes(groups: seq<seq<Segment>>)
    ensures var c := Classify(Flatten(groups));
            var r := Extrapolate(Some(groups));
            && (r.Some? <==> |c.right| > 0 || |c.left| > 0)
            && (r.Some? ==> (|r.value| == 2 <==> |c.right| > 0 && |c.left| > 0))
            && (|c.right| > 0 ==> r.Some? && r.value[0] == [Fit(c.right)])
            && (|c.left| > 0 ==> r.Some? && r.value[|r.value| - 1] == [Fit(c.left)])
  {
    var c := Classify(Flatten(groups));
    var r := Extrapolate(Some(groups));
    if |c.right| > 0 || |c.left| > 0 {
      var right, left := Lane(c.right), Lane(c.left);
      assert r.value == right + left;
      assert |c.left| > 0 ==> r.value[|r.value| - 1] == left[0];
    }
  }

  /** The emitted endpoints are the projections of the cluster's mean line
      at its minimum top y and maximum bottom y, truncated toward zero. */
  lemma FitOnMeanLine(rows: seq<Row>)
    requires |rows| > 0 && AllUpright(rows)
    requires AllIn(rows, RightSlopeMin, RightSlopeMax) || AllIn(rows, LeftSlopeMin, LeftSlopeMax)
    ensures var s := Fit(rows);
            var m := Mean(Slopes(rows));
            var b := Mean(Intercepts(rows));
            && m != 0.0
            && s.y1 == MinTop(rows) && s.y2 == MaxBottom(rows)
            && s.x1 == TruncToInt(GetPointHorizontal(m, b, s.y1 as real))
            && s.x2 == TruncToInt(GetPointHorizontal(m, b, s.y2 as real))
  {
    var m := Mean(Slopes(rows));
    var b := Mean(Intercepts(rows));
    MeanSlopeNonZero(rows);
    assert Fit(rows) == Project(rows, m, b);
  }

  /** A vertical segment gets slope 0 and is never classified. */
  lemma VerticalDropped(s: Segment)
    requires s.x1 == s.x2
    ensures ToRow(s).line.m == 0.0 && SideOf(ToRow(s).line.m) == Dropped
  {
  }

  /** The range boundaries themselves are outside both clusters. */
  lemma BoundariesDropped()
    ensures SideOf(-0.8) == Dropped && SideOf(-0.4) == Dropped
    ensures SideOf(0.4) == Dropped && SideOf(0.8) == Dropped
  {
  }

  /** Worked examples: slope -1 is dropped, slope -2/3 is RIGHT, and the
      mean of slopes -0.5 and -0.7 is -0.6. */
  lemma ClassifyExamples()
    ensures SideOf(ToRow(Segment(0, 400, 100, 300)).line.m) == Dropped
    ensures SideOf(ToRow(Segment(0, 400, 150, 300)).line.m) == Right
    ensures Mean([-0.5, -0.7]) == -0.6
  {
    assert [-0.5, -0.7][..1] == [-0.5];
    assert [-0.5][..0] == [];
  }
}
