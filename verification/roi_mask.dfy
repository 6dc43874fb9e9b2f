/**
 * The region-of-interest polygon of the lane detector: vertices given as
 * fractions of the frame, scaled to pixels (x by the width, y by the
 * height) and cast to int32, and the default trapezoid used by
 * `detect_line`. Rasterising and ANDing the mask stay abstract.
 */
module RoiMask {
  import opened LaneGeometry

  /** A vertex in normalised coordinates: x and y as fractions of width and height. */
  datatype Vertex = Vertex(x: real, y: real)

  /** A vertex in pixel coordinates after the int32 cast. */
  datatype Point = Point(x: int, y: int)

  const Int32Min: int := -0x8000_0000
  const Int32Max: int := 0x7FFF_FFFF

  /** A float whose truncation is representable as an int32. */
  predicate FitsInt32(r: real)
  {
    Int32Min as real - 1.0 < r < Int32Max as real + 1.0
  }

  /** numpy's `astype(np.int32)` on a float in range: truncation toward zero. */
  function AsInt32(r: real): (i: int)
    requires FitsInt32(r)
    ensures Int32Min <= i <= Int32Max
    ensures 0.0 <= r ==> 0 <= i && i as real <= r < i as real + 1.0
    ensures r < 0.0 ==> i <= 0 && i as real - 1.0 < r <= i as real
  {
    TruncToInt(r)
  }

  /** A normalised vertex in pixel units, before the cast: x times the
      width (`shape[1]`), y times the height (`shape[0]`). */
  function ScaleToPixels(v: Vertex, height: nat, width: nat): Vertex
  {
    Vertex(v.x * width as real, v.y * height as real)
  }

  /** Both coordinates of a pixel-unit vertex fit the int32 cast. */
  predicate Castable(v: Vertex)
  {
    FitsInt32(v.x) && FitsInt32(v.y)
  }

  /** `astype(np.int32)` on one vertex in pixel units. */
  function CastVertex(v: Vertex): (p: Point)
    requires Castable(v)
    ensures 0.0 <= v.x ==> 0 <= p.x && p.x as real <= v.x < p.x as real + 1.0
    ensures 0.0 <= v.y ==> 0 <= p.y && p.y as real <= v.y < p.y as real + 1.0
  {
    Point(AsInt32(v.x), AsInt32(v.y))
  }

  /** `astype(np.int32)` on a vertex array in pixel units, vertex by vertex. */
  function CastVertices(vs: seq<Vertex>): (ps: seq<Point>)
    requires forall i :: 0 <= i < |vs| ==> Castable(vs[i])
    ensures |ps| == |vs|
    ensures forall i :: 0 <= i < |vs| ==> ps[i] == CastVertex(vs[i])
  {
    seq(|vs|, i requires 0 <= i < |vs| => CastVertex(vs[i]))
  }

  /** Both scaled coordinates of a vertex fit the int32 cast. */
  predicate VertexScalable(v: Vertex, height: nat, width: nat)
  {
    Castable(ScaleToPixels(v, height, width))
  }

  /** Every vertex of the polygon is scalable. */
  predicate ScalableTo(vs: seq<Vertex>, height: nat, width: nat)
  {
    forall i :: 0 <= i < |vs| ==> VertexScalable(vs[i], height, width)
  }

  /** One pixel vertex: the scaled vertex cast to int32. */
  function ScaleVertex(v: Vertex, height: nat, width: nat): Point
    requires VertexScalable(v, height, width)
  {
    CastVertex(ScaleToPixels(v, height, width))
  }

  /** The polygon in pixel units, before the cast. */
  function ScaleAll(vs: seq<Vertex>, height: nat, width: nat): (ss: seq<Vertex>)
    ensures |ss| == |vs|
    ensures forall i :: 0 <= i < |vs| ==> ss[i] == ScaleToPixels(vs[i], height, width)
  {
    seq(|vs|, i requires 0 <= i < |vs| => ScaleToPixels(vs[i], height, width))
  }

  /** The pixel polygon: the scaled polygon cast to int32, one point per vertex. */
  function ScalePolygon(vs: seq<Vertex>, height: nat, width: nat): (ps: seq<Point>)
    requires ScalableTo(vs, height, width)
    ensures |ps| == |vs|
    ensures forall i :: 0 <= i < |vs| ==> ps[i] == ScaleVertex(vs[i], height, width)
  {
    CastVertices(ScaleAll(vs, height, width))
  }

  /** The default trapezoid of `detect_line`, calibrated on a 640 x 480
      frame: the full bottom row, narrowing to x in [100, 540] at y = 200. */
  const DefaultRoi: seq<Vertex> := [
    Vertex(0.0 / 640.0, 479.0 / 480.0),
    Vertex(100.0 / 640.0, 200.0 / 480.0),
    Vertex(540.0 / 640.0, 200.0 / 480.0),
    Vertex(640.0 / 640.0, 479.0 / 480.0)
  ]

  /** The truncation of an exact quotient of naturals is their integer quotient. */
  lemma FloorOfQuotient(a: nat, b: nat)
    requires b > 0
    ensures (a as real / b as real).Floor == a / b
  {
    var q, r := a / b, a % b;
    assert a == q * b + r && 0 <= r < b;
    assert a as real / b as real == q as real + r as real / b as real;
    assert 0.0 <= r as real / b as real < 1.0;
  }

  /** A normalised coordinate n / d scaled by a dimension of `size` pixels
      lands on pixel (n * size) / d. */
  lemma ScaledFraction(n: nat, d: nat, size: nat)
    requires d > 0
    ensures (n as real / d as real) * size as real == (n * size) as real / d as real
    ensures TruncToInt((n as real / d as real) * size as real) == (n * size) / d
  {
    FloorOfQuotient(n * size, d);
  }

  /** A quotient of naturals is at most c when the dividend is at most b * c. */
  lemma QuotientAtMost(a: nat, b: nat, c: nat)
    requires b > 0 && a <= b * c
    ensures 0.0 <= a as real / b as real <= c as real
  {
    var q := a as real / b as real;
    assert q * b as real == a as real;
    assert (c as real - q) * b as real == (b * c - a) as real;
  }

  /** A coordinate n / d <= 1 of a dimension below 2^31 fits the cast and
      lands on pixel (n * size) / d. */
  lemma ScaledCoordinate(n: nat, d: nat, size: nat)
    requires 0 < d && n <= d && size <= Int32Max
    ensures FitsInt32((n as real / d as real) * size as real)
    ensures AsInt32((n as real / d as real) * size as real) == (n * size) / d
  {
    ScaledFraction(n, d, size);
    assert (d - n) * size >= 0;
    QuotientAtMost(n * size, d, size);
  }

  /** A vertex (nx / dx, ny / dy) scales to pixel (nx * w / dx, ny * h / dy). */
  lemma ScaleFractionVertex(nx: nat, dx: nat, ny: nat, dy: nat, height: nat, width: nat)
    requires 0 < dx && 0 < dy && nx <= dx && ny <= dy
    requires height <= Int32Max && width <= Int32Max
    ensures VertexScalable(Vertex(nx as real / dx as real, ny as real / dy as real), height, width)
    ensures ScaleVertex(Vertex(nx as real / dx as real, ny as real / dy as real), height, width)
              == Point(nx * width / dx, ny * height / dy)
  {
    var v := Vertex(nx as real / dx as real, ny as real / dy as real);
    var scaled := ScaleToPixels(v, height, width);
    assert scaled.x == (nx as real / dx as real) * width as real;
    assert scaled.y == (ny as real / dy as real) * height as real;
    ScaledCoordinate(nx, dx, width);
    ScaledCoordinate(ny, dy, height);
    assert AsInt32(scaled.x) == nx * width / dx;
    assert AsInt32(scaled.y) == ny * height / dy;
  }

  /** The pixel corners of the default trapezoid on a height x width
      frame, in integer arithmetic. */
  function DefaultRoiPixels(height: nat, width: nat): (ps: seq<Point>)
    ensures |ps| == |DefaultRoi|
  {
    [ Point(0, 479 * height / 480),
      Point(100 * width / 640, 200 * height / 480),
      Point(540 * width / 640, 200 * height / 480),
      Point(640 * width / 640, 479 * height / 480) ]
  }

  /** Corner i of the default trapezoid can be cast and lands on pixel
      corner i. */
  lemma DefaultRoiCorner(i: nat, height: nat, width: nat)
    requires i < |DefaultRoi| && height <= Int32Max && width <= Int32Max
    ensures VertexScalable(DefaultRoi[i], height, width)
    ensures ScaleVertex(DefaultRoi[i], height, width) == DefaultRoiPixels(height, width)[i]
  {
    if i == 0 {
      assert DefaultRoi[0] == Vertex(0 as real / 640 as real, 479 as real / 480 as real);
      ScaleFractionVertex(0, 640, 479, 480, height, width);
    } else if i == 1 {
      assert DefaultRoi[1] == Vertex(100 as real / 640 as real, 200 as real / 480 as real);
      ScaleFractionVertex(100, 640, 200, 480, height, width);
    } else if i == 2 {
      assert DefaultRoi[2] == Vertex(540 as real / 640 as real, 200 as real / 480 as real);
      ScaleFractionVertex(540, 640, 200, 480, height, width);
    } else {
      assert DefaultRoi[3] == Vertex(640 as real / 640 as real, 479 as real / 480 as real);
      ScaleFractionVertex(640, 640, 479, 480, height, width);
    }
  }

  /** For any frame below 2^31 pixels a side, the default trapezoid scales
      to the bottom corners (0, 479h/480) and (w, 479h/480) and the top
      corners (100w/640, 200h/480) and (540w/640, 200h/480). */
  lemma DefaultRoiScaled(height: nat, width: nat)
    requires height <= Int32Max && width <= Int32Max
    ensures ScalableTo(DefaultRoi, height, width)
    ensures ScalePolygon(DefaultRoi, height, width) == [
              Point(0, 479 * height / 480),
              Point(100 * width / 640, 200 * height / 480),
              Point(540 * width / 640, 200 * height / 480),
              Point(width, 479 * height / 480)
            ]
  {
    forall i | 0 <= i < |DefaultRoi|
      ensures VertexScalable(DefaultRoi[i], height, width)
      ensures ScaleVertex(DefaultRoi[i], height, width) == DefaultRoiPixels(height, width)[i]
    {
      DefaultRoiCorner(i, height, width);
    }
    assert ScalePolygon(DefaultRoi, height, width) == DefaultRoiPixels(height, width);
    assert 640 * width / 640 == width;
  }

  /** The default trapezoid can be cast for any frame below 2^31 pixels a side. */
  lemma DefaultRoiScalable(height: nat, width: nat)
    requires height <= Int32Max && width <= Int32Max
    ensures ScalableTo(DefaultRoi, height, width)
  {
    DefaultRoiScaled(height, width);
  }

  /** The scaled default trapezoid lies inside the frame: 0 <= x <= w and
      0 <= y < h. */
  lemma DefaultRoiInsideFrame(height: nat, width: nat)
    requires 0 < height <= Int32Max && width <= Int32Max
    ensures ScalableTo(DefaultRoi, height, width)
    ensures forall p :: p in ScalePolygon(DefaultRoi, height, width) ==>
              0 <= p.x <= width && 0 <= p.y < height
  {
    DefaultRoiScaled(height, width);
    assert 479 * height / 480 < height;
    assert 200 * height / 480 < height;
    assert 100 * width / 640 <= width;
    assert 540 * width / 640 <= width;
  }

  /** On the 640 x 480 calibration frame the trapezoid is exactly
      (0, 479), (100, 200), (540, 200), (640, 479). */
  lemma DefaultRoiCalibration()
    ensures ScalableTo(DefaultRoi, 480, 640)
    ensures ScalePolygon(DefaultRoi, 480, 640) ==
              [Point(0, 479), Point(100, 200), Point(540, 200), Point(640, 479)]
  {
    DefaultRoiScaled(480, 640);
  }
}
