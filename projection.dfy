/**
 * The perspective projection of renderer.js: a world point (lateral offset x,
 * depth z) is mapped to canvas coordinates and a scale factor. The horizon
 * sits at 40% of the canvas height, the road is 60% of the canvas wide at the
 * player's plane, and everything shrinks by 1 / (1 + 2z).
 */
module Projection {

  datatype Canvas = Canvas(width: real, height: real)

  datatype Point = Point(x: real, y: real)

  datatype Screen = Screen(x: real, y: real, scale: real)

  /** The point the road converges to (renderer.js:237-242). */
  function VanishingPoint(c: Canvas): (p: Point)
    ensures p.x + p.x == c.width
    ensures c.height > 0.0 ==> 0.0 < p.y < c.height
  {
    Point(c.width / 2.0, c.height * 0.4)
  }

  /** The road's width at the player's plane (renderer.js:244-246). */
  function RoadWidth(c: Canvas): (w: real)
    ensures c.width > 0.0 ==> 0.0 < w < c.width
  {
    c.width * 0.6
  }

  /** Perspective shrink factor at depth z; undefined where 1 + 2z is zero. */
  function Scale(z: real): (s: real)
    requires z != -0.5
    ensures z >= 0.0 ==> 0.0 < s <= 1.0
    ensures z == 0.0 ==> s == 1.0
  {
    1.0 / (1.0 + z * 2.0)
  }

  /** worldToScreen (renderer.js:248-257). */
  function WorldToScreen(c: Canvas, worldX: real, worldZ: real): (r: Screen)
    requires worldZ != -0.5
    ensures worldZ >= 0.0 ==> 0.0 < r.scale <= 1.0
    ensures worldZ == 0.0 ==> r.scale == 1.0 && r.y == c.height
    ensures worldZ >= 0.0 && c.height > 0.0 ==> VanishingPoint(c).y < r.y <= c.height
    ensures worldX == 0.0 ==> r.x + r.x == c.width
  {
    var scale := Scale(worldZ);
    var vanishing := VanishingPoint(c);
    var roadWidthAtZ := RoadWidth(c) * scale;
    var screenX := vanishing.x + worldX * roadWidthAtZ / 3.0;
    var screenY := vanishing.y + (c.height - vanishing.y) * scale;
    assert c.height > 0.0 && worldZ >= 0.0 ==> (c.height - vanishing.y) * scale <= c.height - vanishing.y by {
      if c.height > 0.0 && worldZ >= 0.0 { MulAtMost(c.height - vanishing.y, scale); }
    }
    Screen(screenX, screenY, scale)
  }

  lemma MulAtMost(a: real, s: real)
    requires a > 0.0 && 0.0 < s <= 1.0
    ensures 0.0 < a * s <= a
  {
  }

  /** Nearer points are drawn larger: the scale strictly decreases with depth. */
  lemma ScaleDecreasing(z1: real, z2: real)
    requires 0.0 <= z1 < z2
    ensures Scale(z2) < Scale(z1)
  {
    var d1, d2 := 1.0 + z1 * 2.0, 1.0 + z2 * 2.0;
    assert Scale(z1) * d1 == 1.0 && Scale(z2) * d2 == 1.0;
    ReciprocalDecreasing(d1, d2, Scale(z1), Scale(z2));
  }

  lemma ReciprocalDecreasing(d1: real, d2: real, s1: real, s2: real)
    requires 1.0 <= d1 < d2 && s1 * d1 == 1.0 && s2 * d2 == 1.0
    ensures s2 < s1
  {
    var p1, p2, q := s1 * d1, s2 * d2, s2 * d1;
    assert s2 > 0.0;
    assert q < p2;
    assert p1 - q == (s1 - s2) * d1;
    assert (s1 - s2) * d1 > 0.0;
  }

  /** Mirroring the lateral offset mirrors the screen point about the canvas centre. */
  lemma Mirror(c: Canvas, worldX: real, worldZ: real)
    requires worldZ != -0.5
    ensures WorldToScreen(c, worldX, worldZ).x + WorldToScreen(c, -worldX, worldZ).x == c.width
    ensures WorldToScreen(c, worldX, worldZ).y == WorldToScreen(c, -worldX, worldZ).y
  {
  }
}
