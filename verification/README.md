# Lane detection, training records and the ramen timer, modelled in Dafny

This project models three pieces of the rc_with_tf robot-car code.

- **Lane-line extrapolation.** This is the `ProcessingImage` pipeline of the image-processing node.
  - `__mask` rescales a normalised region-of-interest polygon in place, x by the image width and y by the height. It casts the polygon to int32 and masks the image with it.
  - `__extrapolation_lines` reorders every Hough segment so its top point comes first. It computes each segment's slope and intercept and routes the segment by slope:
    - strictly inside (-0.8, -0.4): the RIGHT cluster;
    - strictly inside (0.4, 0.8): the LEFT cluster;
    - otherwise: dropped.
  - It then collapses each non-empty cluster to one segment. That segment lies on the mean line and spans the cluster's minimum top y to its maximum bottom y. Every coordinate is truncated by `int()`.
  - `detect_line` masks with a fixed trapezoid (calibrated on 640 x 480) and extrapolates. It then draws the raw segments of `pre_lines[0]` on a fresh canvas, followed by the segments of `final_lines[0]`. That is the first extrapolated lane only (see "## Findings"). The model's `ProcessingImage.DetectLine` draws every lane; the code's own selection is modelled separately as `DrawSelectionAsWritten`.
- **The training-record decoder (`RcImageRecord`, `RcImageReader`).** A record is 2 label bytes followed by a 60 x 160 x 1 image.
  - Each label byte becomes a one-hot vector of length 180.
  - The image bytes are read as signed int8, reshaped to [depth, height, width] and transposed to [height, width, depth].
- **The ramen-timer countdown (`CountDownWidget`).** A count of 10 ms ticks starts at 18000. A periodic timer decrements it, and start, stop and reset buttons control it.

The pure logic is modelled as functions with lemmas. The objects whose fields are updated are modelled as classes: `ProcessingImage.img`, `RcImageRecord`'s label arrays and image, and `CountDownWidget`'s count and timer state. Each class method is specified against those functions.

Notes on the code:

- `int()` truncates the extrapolated coordinates toward zero (rc_with_tf/05_image_process/oldver/image_process_04.py:174-177, :191-194).
- Both drawing passes use `thickness=4` (rc_with_tf/05_image_process/oldver/image_process_04.py:205, :229, :236).

Files:

- `wrappers.dfy`: Option and Result.
- `lane_geometry.dfy`: slope and intercept, horizontal projection, truncation, segment reordering.
- `lane_extrapolation.dfy`: the classification loop and its specification, the cluster fit, and the lemmas on `Extrapolate`.
- `roi_mask.dfy`: vertex scaling, the int32 cast and the default trapezoid.
- `lane_detector.dfy`: the `ProcessingImage` class, `Mask`, `DetectLine` and the draw selection.
- `record_reader.dfy`: the record decoder and the two reader classes.
- `countdown_timer.dfy`: the countdown state machine and the widget class.

## Model

| member | source | states |
|---|---|---|
| LaneGeometry.GetSegment | rc_with_tf/05_image_process/oldver/image_process_04.py:106-116 | a vertical segment gets slope 0 and intercept y1; otherwise both endpoints lie on y = m*x + b |
| LaneGeometry.GetPointHorizontal | rc_with_tf/05_image_process/oldver/image_process_04.py:118-120 | the returned x lies on the line at height y (m*x + b == y), for a non-zero slope |
| LaneGeometry.TruncToInt | rc_with_tf/05_image_process/oldver/image_process_04.py:174-177 | Python `int()`: the result is within 1 of the real, on the side of zero |
| LaneGeometry.Normalize | rc_with_tf/05_image_process/oldver/image_process_04.py:137-146 | the result has its top point first; it is the segment itself or its endpoints swapped; equal-y segments are swapped, and segments already ordered are unchanged |
| LaneExtrapolation.SideOf | rc_with_tf/05_image_process/oldver/image_process_04.py:149-154 | RIGHT iff the slope is strictly inside (-0.8, -0.4); LEFT iff it is strictly inside (0.4, 0.8) |
| LaneExtrapolation.Classify | rc_with_tf/05_image_process/oldver/image_process_04.py:135-154 | each cluster's slopes lie strictly in its range; every row has its top point first; no more rows than segments |
| LaneExtrapolation.SideIndices | rc_with_tf/05_image_process/oldver/image_process_04.py:135-154 | the positions routed to a side: strictly increasing, each routed to that side, and every position routed to that side included |
| LaneExtrapolation.RowsAt | rc_with_tf/05_image_process/oldver/image_process_04.py:151 | the rows of the segments at the given positions, one per position, in order |
| LaneExtrapolation.ClassifyOccurrences | rc_with_tf/05_image_process/oldver/image_process_04.py:135-154 | each cluster is exactly the rows at its side's positions, in input order and once per occurrence, as the appends at :151 and :154 build it |
| LaneExtrapolation.ClassifyKeepsRepeats | rc_with_tf/05_image_process/oldver/image_process_04.py:151-167 | a segment occurring twice gives two rows: [a, a, b] yields the RIGHT cluster [a, a, b] with mean slope -11/18 |
| LaneExtrapolation.ClassifyComplete | rc_with_tf/05_image_process/oldver/image_process_04.py:135-154 | every segment whose slope is in a cluster's range appears in that cluster |
| LaneExtrapolation.ClassifySound | rc_with_tf/05_image_process/oldver/image_process_04.py:135-154 | every row of a cluster comes from some input segment |
| LaneExtrapolation.ClassifySoundRight | rc_with_tf/05_image_process/oldver/image_process_04.py:149-151 | every RIGHT row comes from some input segment |
| LaneExtrapolation.ClassifySoundLeft | rc_with_tf/05_image_process/oldver/image_process_04.py:152-154 | every LEFT row comes from some input segment |
| LaneExtrapolation.ClustersEmpty | rc_with_tf/05_image_process/oldver/image_process_04.py:159-160 | both clusters are empty iff every segment is dropped |
| LaneExtrapolation.MinTop | rc_with_tf/05_image_process/oldver/image_process_04.py:169 | the minimum top y: no larger than any row's top y, and attained by some row |
| LaneExtrapolation.MaxBottom | rc_with_tf/05_image_process/oldver/image_process_04.py:168 | the maximum bottom y: no smaller than any row's bottom y, and attained by some row |
| LaneExtrapolation.MeanBetween | rc_with_tf/05_image_process/oldver/image_process_04.py:166-167 | the mean of values strictly inside (lo, hi) is strictly inside (lo, hi) |
| LaneExtrapolation.MeanSlopeInRange | rc_with_tf/05_image_process/oldver/image_process_04.py:166 | a cluster's mean slope stays in the cluster's slope range |
| LaneExtrapolation.MeanSlopeNonZero | rc_with_tf/05_image_process/oldver/image_process_04.py:171-172 | the mean slope of a cluster is non-zero, so the division in the projection is defined |
| LaneExtrapolation.Project | rc_with_tf/05_image_process/oldver/image_process_04.py:168-177 | the projected segment runs from the minimum top y to the maximum bottom y |
| LaneExtrapolation.Fit | rc_with_tf/05_image_process/oldver/image_process_04.py:164-179 | the fitted segment spans every row of the cluster vertically, with both ends attained by some row |
| LaneExtrapolation.FitOnMeanLine | rc_with_tf/05_image_process/oldver/image_process_04.py:166-177 | the fitted x ends are the mean line's projections at those y, truncated toward zero |
| LaneExtrapolation.Lane | rc_with_tf/05_image_process/oldver/image_process_04.py:164-196 | a non-empty cluster gives one `[[segment]]` entry holding its fitted segment, with the top point first; an empty one gives none |
| LaneExtrapolation.Extrapolate | rc_with_tf/05_image_process/oldver/image_process_04.py:122-198 | a result has one or two lanes, each a single segment with its top point first |
| LaneExtrapolation.ClassifySegment | rc_with_tf/05_image_process/oldver/image_process_04.py:137-154 | reordering one segment and appending it by slope gives the classification of the segments seen so far plus that one |
| LaneExtrapolation.ClassifyGroup | rc_with_tf/05_image_process/oldver/image_process_04.py:136-154 | the inner loop over one Hough group extends the clusters to the classification of every segment seen so far plus that group |
| LaneExtrapolation.EmitLanes | rc_with_tf/05_image_process/oldver/image_process_04.py:159-198 | no lanes iff both clusters are empty; otherwise the RIGHT lane (if any) followed by the LEFT lane (if any) |
| LaneExtrapolation.ExtrapolationLines | rc_with_tf/05_image_process/oldver/image_process_04.py:122-198 | the nested classification loop and the per-cluster fit compute exactly Extrapolate |
| LaneExtrapolation.ExtrapolateNone | rc_with_tf/05_image_process/oldver/image_process_04.py:129-160 | None iff there is no Hough output or no segment has a slope in either range |
| LaneExtrapolation.ExtrapolateLanes | rc_with_tf/05_image_process/oldver/image_process_04.py:159-198 | a lane is emitted per non-empty cluster, RIGHT before LEFT; two lanes iff both clusters are non-empty |
| LaneExtrapolation.VerticalDropped | rc_with_tf/05_image_process/oldver/image_process_04.py:110-111 | a vertical segment gets slope 0 and is dropped |
| LaneExtrapolation.BoundariesDropped | rc_with_tf/05_image_process/oldver/image_process_04.py:124-127 | the range limits -0.8, -0.4, 0.4 and 0.8 themselves are dropped |
| LaneExtrapolation.ClassifyExamples | rc_with_tf/05_image_process/oldver/image_process_04.py:149-167 | slope -1 is dropped, slope -2/3 is RIGHT, and the mean of -0.5 and -0.7 is -0.6 |
| RoiMask.AsInt32 | rc_with_tf/05_image_process/oldver/image_process_04.py:92 | the int32 cast of an in-range value truncates toward zero and stays within int32 |
| RoiMask.CastVertex | rc_with_tf/05_image_process/oldver/image_process_04.py:92 | the int32 cast of a non-negative vertex is its coordinates truncated down |
| RoiMask.CastVertices | rc_with_tf/05_image_process/oldver/image_process_04.py:92 | the cast array has one point per vertex, each vertex cast on its own |
| RoiMask.ScaleAll | rc_with_tf/05_image_process/oldver/image_process_04.py:89-90 | each vertex is scaled, x by the width and y by the height |
| RoiMask.ScalePolygon | rc_with_tf/05_image_process/oldver/image_process_04.py:89-92 | the pixel polygon is the scaled polygon cast to int32, one point per vertex |
| RoiMask.DefaultRoiCorner | rc_with_tf/05_image_process/oldver/image_process_04.py:206-213 | each corner of the default trapezoid can be cast and lands on its integer pixel corner |
| RoiMask.DefaultRoiScaled | rc_with_tf/05_image_process/oldver/image_process_04.py:206-213 | for any frame below 2^31 a side, the trapezoid becomes (0, 479h/480), (100w/640, 200h/480), (540w/640, 200h/480), (w, 479h/480) |
| RoiMask.DefaultRoiScalable | rc_with_tf/05_image_process/oldver/image_process_04.py:206-213 | the default trapezoid can be cast for any frame below 2^31 a side |
| RoiMask.DefaultRoiInsideFrame | rc_with_tf/05_image_process/oldver/image_process_04.py:206-213 | every point of the scaled trapezoid lies within [0, w] x [0, h): the right-hand corners land on x = w |
| RoiMask.DefaultRoiCalibration | rc_with_tf/05_image_process/oldver/image_process_04.py:206-209 | on a 640 x 480 frame the trapezoid is (0,479), (100,200), (540,200), (640,479) |
| LaneDetector.MaskFill | rc_with_tf/05_image_process/oldver/image_process_04.py:83-87 | the fill is 255 in each channel of a 3-D image, and a single 255 for a 2-D one |
| LaneDetector.CanvasShape | rc_with_tf/05_image_process/oldver/image_process_04.py:220-223 | the canvas keeps height and width; it has 3 channels for a 2-D image and the image's own shape for a 3-D one |
| LaneDetector.Strokes | rc_with_tf/05_image_process/oldver/image_process_04.py:228-229 | one stroke per segment, in order, with the given colour and thickness 4 |
| LaneDetector.DrawLines | rc_with_tf/05_image_process/oldver/image_process_04.py:228-229 | the drawing loop appends exactly the strokes of the segments, in order |
| LaneDetector.DrawSelectionAsWritten | rc_with_tf/05_image_process/oldver/image_process_04.py:225-237 | the code's selection: None iff there is no Hough output; otherwise the raw strokes of `pre_lines[0]`, then the strokes of `final_lines[0]` only |
| LaneDetector.DrawSelection | rc_with_tf/05_image_process/oldver/image_process_04.py:225-237 | the corrected selection: None iff there is no Hough output; otherwise the raw strokes of `pre_lines[0]`, then the strokes of every lane's segments in order |
| LaneDetector.AsWrittenDrawsOneLane | rc_with_tf/05_image_process/oldver/image_process_04.py:235-237 | as written, with both clusters non-empty, two lanes are emitted but only the RIGHT lane is drawn |
| LaneDetector.AsWrittenDropsLeftLane | rc_with_tf/05_image_process/oldver/image_process_04.py:235-237 | a concrete Hough output with one RIGHT and one LEFT segment gives two lanes but three strokes, not four |
| LaneDetector.DrawSelectionStrokes | rc_with_tf/05_image_process/oldver/image_process_04.py:225-237 | the corrected draw for any lanes of one segment each: the raw strokes, then one final stroke per lane |
| LaneDetector.DrawSelectionLanes | rc_with_tf/05_image_process/oldver/image_process_04.py:225-237 | the corrected draw: the raw strokes of `pre_lines[0]`, then one final stroke per emitted lane, in order |
| LaneDetector.ProcessingImage.constructor | rc_with_tf/05_image_process/oldver/image_process_04.py:51-52 | the object holds the given image |
| LaneDetector.ProcessingImage.Mask | rc_with_tf/05_image_process/oldver/image_process_04.py:78-98 | the vertex array is rescaled in place; the image becomes the old image masked by the scaled, cast polygon with the full-intensity fill |
| LaneDetector.ProcessingImage.DetectLine | rc_with_tf/05_image_process/oldver/image_process_04.py:205-237 | the image is the masked image when there is no Hough output; otherwise it is a new canvas with the corrected selection: the raw strokes, then every lane's stroke (the code draws only the first lane, see Findings) |
| LaneDetector.ProcessingImage.DrawDetections | rc_with_tf/05_image_process/oldver/image_process_04.py:219-237 | the corrected draw: the canvas holds the raw strokes, then every lane's stroke (the code's loop at :235 draws only `final_lines[0]`); the image is unchanged without Hough output |
| RecordReader.AsInt8 | rc_with_tf/08_tf_rc_ope/reader.py:27 | the signed reading of a byte is in [-128, 128) and congruent to the byte modulo 256 |
| RecordReader.Zeros | rc_with_tf/08_tf_rc_ope/reader.py:21 | a vector of 180 zeros |
| RecordReader.OneHot | rc_with_tf/08_tf_rc_ope/reader.py:21-24 | a vector of length 180 with a 1 at the class and 0 elsewhere |
| RecordReader.OneHotInjective | rc_with_tf/08_tf_rc_ope/reader.py:21-24 | distinct classes give distinct vectors |
| RecordReader.PyIndex | rc_with_tf/08_tf_rc_ope/reader.py:53-54 | Python indexing: a non-negative index is itself; a negative one counts from the end |
| RecordReader.Slice | rc_with_tf/08_tf_rc_ope/reader.py:53-54 | Python slicing clips both bounds to the sequence |
| RecordReader.SplitRecord | rc_with_tf/08_tf_rc_ope/reader.py:49-54 | for a long enough record, the label is bytes [0, 2) and the image is bytes [2, 9602); a short record gives a short image buffer |
| RecordReader.SplitIgnoresTail | rc_with_tf/08_tf_rc_ope/reader.py:54 | bytes after the first 9602 do not affect the split |
| RecordReader.DecodeImage | rc_with_tf/08_tf_rc_ope/reader.py:26-30 | succeeds iff there are exactly 9600 bytes, else ValueError; the image has shape (60,160,1) with image[h][w][d] = int8(bytes[d*9600 + h*160 + w]) |
| RecordReader.DecodeImageInjective | rc_with_tf/08_tf_rc_ope/reader.py:26-30 | decoding loses nothing: equal decoded images come from equal buffers |
| RecordReader.DecodeRecord | rc_with_tf/08_tf_rc_ope/reader.py:46-59 | a read succeeds iff the record has at least 9602 bytes and both label bytes are below 180; on success it gives the one-hot labels and the pixel formula |
| RecordReader.RcImageRecord.constructor | rc_with_tf/08_tf_rc_ope/reader.py:13-16 | a record with no label and no image set |
| RecordReader.RcImageRecord.SetLabel | rc_with_tf/08_tf_rc_ope/reader.py:18-24 | each label gets a fresh zero vector with a 1 at its byte; a missing or out-of-range byte raises IndexError after its zero vector is assigned |
| RecordReader.RcImageRecord.SetImage | rc_with_tf/08_tf_rc_ope/reader.py:26-30 | the image becomes the decoded tensor; on ValueError it is left unchanged |
| RecordReader.RcImageReader.constructor | rc_with_tf/08_tf_rc_ope/reader.py:35-41 | the reader holds the loaded record array |
| RecordReader.RcImageReader.Read | rc_with_tf/08_tf_rc_ope/reader.py:46-59 | an index outside [-n, n) raises IndexError; otherwise the new record holds exactly what DecodeRecord gives, or the same error |
| CountdownTimer.Tick | rc_with_tf/06_gui/sample/PyConJP2011/RamenTimer/RamenTimer.py:19-23 | a timeout takes exactly 1 off the count; the timer runs after it iff it ran before and the count is still positive; validity is kept |
| CountdownTimer.Start | rc_with_tf/06_gui/sample/PyConJP2011/RamenTimer/RamenTimer.py:26-28 | the timer runs iff it ran already or the count is positive; the count is unchanged |
| CountdownTimer.Stop | rc_with_tf/06_gui/sample/PyConJP2011/RamenTimer/RamenTimer.py:31-32 | the timer stops and the count is kept |
| CountdownTimer.Reset | rc_with_tf/06_gui/sample/PyConJP2011/RamenTimer/RamenTimer.py:35-37 | the count goes back to 18000; a running timer keeps running |
| CountdownTimer.Step | rc_with_tf/06_gui/sample/PyConJP2011/RamenTimer/RamenTimer.py:103-110 | every click and every timeout of a running timer keeps the state valid |
| CountdownTimer.Initial | rc_with_tf/06_gui/sample/PyConJP2011/RamenTimer/RamenTimer.py:58 | the constructed widget is valid, with count 18000 and the timer stopped |
| CountdownTimer.RunValid | rc_with_tf/06_gui/sample/PyConJP2011/RamenTimer/RamenTimer.py:19-37 | every sequence of clicks and timeouts keeps 0 <= count <= 18000 and "running implies count > 0" |
| CountdownTimer.CountsDown | rc_with_tf/06_gui/sample/PyConJP2011/RamenTimer/RamenTimer.py:19-23 | a running timer with c ticks left is still running after k < c timeouts, with c - k left |
| CountdownTimer.CountdownFinishes | rc_with_tf/06_gui/sample/PyConJP2011/RamenTimer/RamenTimer.py:19-23 | the c-th timeout brings the count to 0 and stops the timer |
| CountdownTimer.FullCountdown | rc_with_tf/06_gui/sample/PyConJP2011/RamenTimer/RamenTimer.py:26-37 | from the constructed widget, start followed by 18000 timeouts ends at count 0 with the timer stopped |
| CountdownTimer.StartAtZero | rc_with_tf/06_gui/sample/PyConJP2011/RamenTimer/RamenTimer.py:26-28 | with the count at zero, start has no effect |
| CountdownTimer.CountDownWidget.constructor | rc_with_tf/06_gui/sample/PyConJP2011/RamenTimer/RamenTimer.py:40-58 | the widget starts at count 18000 with the timer stopped |
| CountdownTimer.CountDownWidget.DoCountdown | rc_with_tf/06_gui/sample/PyConJP2011/RamenTimer/RamenTimer.py:19-23 | the new state is Tick of the old one |
| CountdownTimer.CountDownWidget.StartCountdown | rc_with_tf/06_gui/sample/PyConJP2011/RamenTimer/RamenTimer.py:26-28 | the new state is Start of the old one |
| CountdownTimer.CountDownWidget.StopCountdown | rc_with_tf/06_gui/sample/PyConJP2011/RamenTimer/RamenTimer.py:31-32 | the new state is Stop of the old one |
| CountdownTimer.CountDownWidget.ResetCount | rc_with_tf/06_gui/sample/PyConJP2011/RamenTimer/RamenTimer.py:35-37 | the new state is Reset of the old one |

## Left out

- OpenCV itself is not modelled: colour conversion, blur, Canny, `fillPoly`, `bitwise_and`, `line` and `HoughLinesP`. Pictures record their shape and how they were made. The Hough output is a parameter of `DetectLine`.
- `preprocess`, `get_img`, `overlay`, the `ImageShow` viewer and the `RosImage` node are not modelled. They are camera, ROS and matplotlib I/O around the core.
- The `print` statements of `__extrapolation_lines` are not modelled. They are console output only.
- Floating point is modelled with exact reals: slopes, intercepts, means and the scaled mask vertices. IEEE rounding is left out, so a slope or mean that lands on the far side of a range limit or of an integer only in floating point is not captured.
- LaneDetector.ProcessingImage.Mask: the (1, 4, 2) float array is modelled as an array of vertices. Both coordinate columns are rescaled in one parallel update, where numpy writes the x column and then the y column.
- LaneDetector.ProcessingImage.DetectLine: uses the corrected every-lane draw (`DrawSelection`). The code as written draws only `final_lines[0]`. That behaviour is modelled as `DrawSelectionAsWritten`, with `AsWrittenDrawsOneLane` and `AsWrittenDropsLeftLane`, but the class does not use it (see "## Findings").
- LaneDetector.ProcessingImage.DrawDetections: its loop draws every extrapolated lane (the corrected `DrawSelection`). The code's loop at :235 draws only `final_lines[0]`; that selection is `DrawSelectionAsWritten` (see "## Findings").
- LaneDetector.ProcessingImage.DetectLine: the default arguments `color_pre=[0, 255, 0]`, `color_final=[255, 0, 0]` and `thickness=4` are the constants `ColorPre`, `ColorFinal` and `Thickness`. The only caller uses the defaults, so overriding them is not modelled.
- LaneDetector.ProcessingImage.DetectLine: requires a present Hough output to hold at least one group. OpenCV returns None rather than an empty array. The frame must also be below 2^31 pixels a side so the int32 cast is defined.
- LaneDetector.ProcessingImage.DetectLine: draws `pre_lines[0]` as written, which is every segment only for the (1, N, 4) layout of older OpenCV. For the (N, 1, 4) layout it is the first segment only. The model keeps the source's indexing.
- The reader's file handling is not modelled: the existence check, `np.load`, and the missing `bytes_array` after a failed load. The constructor takes the loaded records.
- `RcImageReader.shuffle` and the `test` function are not modelled. They are randomness and console output.
- RecordReader.DecodeImage: the final `astype(np.float32)` is left out. Every value is an integer in [-128, 128), so the model keeps integers.
- RecordReader.OneHot: `np.zeros(180)` gives float64 label vectors; the model uses integer vectors, which is exact for the values 0.0 and 1.0 they hold.
- RecordReader: records are assumed to be uint8 arrays, so each element is one byte.
- RecordReader.RcImageRecord.constructor: the Python object has no label or image attributes before `set_label` and `set_image`. The model starts with empty arrays and an empty image.
- The Qt widgets, layout, signal wiring and `QApplication` event loop are not modelled. The timer's timeouts and the button clicks are the `Event` sequence of `CountdownTimer.Run`.
- `update_display` and the LCD text are not modelled. They only show the count.

## Findings

| source | as written | input that shows it | evidently intended | confidence | as-written member | corrected member |
|---|---|---|---|---|---|---|
| rc_with_tf/05_image_process/oldver/image_process_04.py:235-237 | `detect_line` loops over `final_lines[0]`, which is only the first emitted lane | one Hough group with segments (0,400,150,300) and (0,300,150,400): slopes -2/3 (RIGHT) and 2/3 (LEFT) give two lanes, but only the RIGHT lane is drawn | draw every extrapolated lane | not executed | LaneDetector.AsWrittenDropsLeftLane | LaneDetector.DrawSelectionLanes |
