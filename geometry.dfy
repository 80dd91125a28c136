/** The integer arithmetic of the magnifier lens (tool/magnifiermap.py, `paint`):
    where the cursor may be, how large the lens is, where it is clipped and
    where the oversized raster is drawn. */
module Geometry {

  /** A pixel rectangle, as `QRect(x, y, width, height)`. */
  datatype Rect = Rect(x: int, y: int, width: int, height: int)

  function Min(a: int, b: int): (m: int)
    ensures m <= a && m <= b && (m == a || m == b)
  {
    if a <= b then a else b
  }

  /** Python's `int()` applied to an exact quotient: it rounds toward zero,
      unlike Dafny's `/`, which rounds down. */
  function TruncDiv(a: int, b: int): (q: int)
    requires b > 0
    ensures a >= 0 ==> 0 <= q && q * b <= a < q * b + b
    ensures a < 0 ==> q <= 0 && q * b - b < a <= q * b
  {
    if a >= 0 then
      DivBounds(a, b);
      a / b
    else
      DivBounds(-a, b);
      var k := (-a) / b;
      assert -k * b == -(k * b);
      -k
  }

  lemma DivBounds(a: int, b: int)
    requires a >= 0 && b > 0
    ensures 0 <= a / b && (a / b) * b <= a < (a / b) * b + b
  {
    assert a == (a / b) * b + a % b;
  }

  /** The cursor test of `paint`: the edges of the canvas are still inside. */
  predicate InCanvas(x: int, y: int, w: int, h: int)
    ensures InCanvas(x, y, w, h) <==> 0 <= x <= w && 0 <= y <= h
    ensures InCanvas(x, y, w, h) ==> 0 <= w && 0 <= h
  {
    !(x < 0 || x > w || y < 0 || y > h)
  }

  /** The lens diameter: a tenth of the smaller canvas side, times the
      magnifier factor, truncated. */
  function LensDiameter(w: int, h: int, magnifierFactor: int): (d: int)
    ensures 0 <= Min(w, h) * magnifierFactor ==>
              0 <= d && d * 10 <= Min(w, h) * magnifierFactor < d * 10 + 10
    ensures Min(w, h) * magnifierFactor < 0 ==>
              d <= 0 && d * 10 - 10 < Min(w, h) * magnifierFactor <= d * 10
  {
    TruncDiv(Min(w, h) * magnifierFactor, 10)
  }

  /** The lens radius `d // 2` (floor division). */
  function LensRadius(d: int): (r: int)
    ensures 2 * r <= d <= 2 * r + 1
  {
    d / 2
  }

  /** The square the lens circle is inscribed in: side `d`, placed so that the
      cursor is its centre up to the one pixel an odd diameter leaves over. */
  function LensRect(x: int, y: int, d: int): (c: Rect)
    ensures c.width == d && c.height == d
    ensures x - c.x == LensRadius(d) && y - c.y == LensRadius(d)
    ensures 0 <= (c.x + c.width - x) - (x - c.x) <= 1
    ensures 0 <= (c.y + c.height - y) - (y - c.y) <= 1
    ensures d >= 0 ==> c.x <= x <= c.x + c.width && c.y <= y <= c.y + c.height
  {
    var r := LensRadius(d);
    Rect(x - r, y - r, d, d)
  }

  /** Where the raster, rendered at `zoomFactor` times the canvas size, is
      drawn along one axis when the cursor is at `c`. The raster pixel
      `c * zoomFactor`, which shows the map point under the cursor, lands back
      on screen pixel `c`. */
  function DrawOffset(c: int, zoomFactor: int): (o: int)
    ensures o + c * zoomFactor == c
    ensures zoomFactor == 1 ==> o == 0
    ensures c == 0 ==> o == 0
  {
    assert c * (1 - zoomFactor) == c - c * zoomFactor;
    c * (1 - zoomFactor)
  }

  /** An 800 x 600 canvas with magnifier factor 3 gives a lens 180 pixels wide. */
  lemma DiameterExample()
    ensures LensDiameter(800, 600, 3) == 180
    ensures LensRadius(180) == 90
  {
  }

  /** Zoom 4 with the cursor at (100, 50) draws the raster at (-300, -150). */
  lemma OffsetExample()
    ensures DrawOffset(100, 4) == -300 && DrawOffset(50, 4) == -150
  {
  }
}
