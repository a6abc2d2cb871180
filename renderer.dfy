/**
 * The pure part of the elevation renderer: real lengths to pixels,
 * canvas sizing, the fixture colour table, the rectangle a fixture
 * occupies (with Y flipped from floor-relative to screen-relative) and
 * the positions of the one-foot grid lines.
 */
module Renderer {
  import JsObjects
  import opened Types
  import JsText

  /** Pixels for `feet` feet of wall: feet -> drawing inches -> pixels. */
  function FeetToPixels(feet: real, pixelsPerInch: real): real {
    FeetToDrawingInches(feet) * pixelsPerInch
  }

  /** Pixels for `inches` real inches: inches -> drawing inches -> pixels. */
  function InchesToPixels(inches: real, pixelsPerInch: real): real {
    inches * ScaleInchesPerFoot / 12.0 * pixelsPerInch
  }

  /** Twelve inches and one foot give the same number of pixels. */
  lemma InchesAndFeetPixelsAgree(feet: real, p: real)
    ensures InchesToPixels(12.0 * feet, p) == FeetToPixels(feet, p)
  {
  }

  /** For a positive scale both conversions send 0 to 0, are additive and strictly increasing. */
  lemma PixelConversionsAreLinear(a: real, b: real, p: real)
    requires p > 0.0
    ensures InchesToPixels(0.0, p) == 0.0 && FeetToPixels(0.0, p) == 0.0
    ensures InchesToPixels(a + b, p) == InchesToPixels(a, p) + InchesToPixels(b, p)
    ensures FeetToPixels(a + b, p) == FeetToPixels(a, p) + FeetToPixels(b, p)
    ensures a < b ==> InchesToPixels(a, p) < InchesToPixels(b, p)
    ensures a < b ==> FeetToPixels(a, p) < FeetToPixels(b, p)
  {
    assert InchesToPixels(a + b, p) == (a + b) * (p / 24.0);
    assert InchesToPixels(a, p) == a * (p / 24.0) && InchesToPixels(b, p) == b * (p / 24.0);
    assert FeetToPixels(a + b, p) == (a + b) * (p / 2.0);
  }

  /** For a positive scale, `px * 24 / p` is the exact inverse of `InchesToPixels`. */
  lemma InchesToPixelsInverse(inches: real, px: real, p: real)
    requires p > 0.0
    ensures InchesToPixels(inches, p) * 24.0 / p == inches
    ensures InchesToPixels(px * 24.0 / p, p) == px
  {
    assert InchesToPixels(inches, p) == inches * p / 24.0;
    assert InchesToPixels(px * 24.0 / p, p) == (px * 24.0 / p) * p / 24.0;
  }

  /** `Math.round`: the nearest integer, halves rounded up. */
  function Round(x: real): (r: int)
    ensures x - 0.5 < r as real <= x + 0.5
  {
    (x + 0.5).Floor
  }

  /** Canvas size in pixels and the scale from drawing inches to pixels. */
  datatype DrawingDimensions = DrawingDimensions(width: real, height: real, pixelsPerInch: real)

  /**
   * Fits a wall's drawing to `targetWidth` pixels: the width becomes the
   * rounded target and the height keeps the wall's aspect ratio. The source
   * divides by the drawing width, so the wall must have a positive width.
   */
  function CalculateCanvasDimensions(wall: WallWithFixtures, targetWidth: real := 800.0): (d: DrawingDimensions)
    requires wall.widthFeet > 0.0
    ensures d.pixelsPerInch == targetWidth / (wall.widthFeet * 0.5)
    ensures d.width == Round(targetWidth) as real
    ensures d.height == Round(targetWidth * wall.heightFeet / wall.widthFeet) as real
  {
    var drawingWidthInches := FeetToDrawingInches(wall.widthFeet);
    var drawingHeightInches := FeetToDrawingInches(wall.heightFeet);
    var pixelsPerInch := targetWidth / drawingWidthInches;
    assert drawingWidthInches * pixelsPerInch == targetWidth;
    assert drawingHeightInches * pixelsPerInch == targetWidth * wall.heightFeet / wall.widthFeet;
    DrawingDimensions(
      Round(drawingWidthInches * pixelsPerInch) as real,
      Round(drawingHeightInches * pixelsPerInch) as real,
      pixelsPerInch)
  }

  /** Rounding leaves whole numbers alone. */
  lemma RoundWhole(n: int)
    ensures Round(n as real) == n
  {
  }

  /** With a whole target width, the canvas is exactly that wide and its height is within half a pixel of the wall's proportion. */
  lemma AspectFidelity(wall: WallWithFixtures, targetWidth: int)
    requires wall.widthFeet > 0.0
    ensures CalculateCanvasDimensions(wall, targetWidth as real).width == targetWidth as real
    ensures -0.5 < CalculateCanvasDimensions(wall, targetWidth as real).height
                   - targetWidth as real * wall.heightFeet / wall.widthFeet <= 0.5
  {
    RoundWhole(targetWidth);
  }

  /** The sample 8' x 8' wall at the default width is 800 x 800 pixels, 200 pixels per drawing inch. */
  lemma SampleWallDimensions(wall: WallWithFixtures)
    requires wall.widthFeet == 8.0 && wall.heightFeet == 8.0
    ensures CalculateCanvasDimensions(wall) == DrawingDimensions(800.0, 800.0, 200.0)
  {
    assert Round(800.0) == 800;
  }

  /** The colour table; "default" is the colour of every other type. */
  const FixtureColors: map<string, string> := map[
    "sink" := "#4A90E2",
    "mirror" := "#50E3C2",
    "light" := "#F5A623",
    "outlet" := "#D0021B",
    "window" := "#7ED321",
    "cabinet" := "#8B572A",
    "door" := "#BD10E0",
    "default" := "#9B9B9B"]

  const DefaultColor := "#9B9B9B"

  /**
   * `FIXTURE_COLORS[type.toLowerCase()] || FIXTURE_COLORS.default`, looking
   * only at the table's own entries (see the findings for what the object
   * literal does with inherited names).
   */
  function ColorFor(kind: string): string {
    var key := JsText.ToLower(kind);
    if key in FixtureColors && FixtureColors[key] != "" then FixtureColors[key] else FixtureColors["default"]
  }

  /** A listed type (in any case) gets its own colour; every other type gets the default grey. */
  lemma ColorForTable(kind: string)
    ensures ColorFor(kind) in FixtureColors.Values
    ensures JsText.ToLower(kind) in FixtureColors ==> ColorFor(kind) == FixtureColors[JsText.ToLower(kind)]
    ensures JsText.ToLower(kind) !in FixtureColors ==> ColorFor(kind) == DefaultColor
  {
  }

  /** `FIXTURE_COLORS[type.toLowerCase()] || FIXTURE_COLORS.default` as written, prototype lookup included. */
  function ColorForAsWritten(kind: string): JsObjects.Value {
    JsObjects.Or(JsObjects.Get(FixtureColors, JsText.ToLower(kind)), JsObjects.Get(FixtureColors, "default"))
  }

  /** Unless the lower-cased type names a prototype member, the lookup as written gives `ColorFor`'s colour. */
  lemma ColorForAsWrittenAgrees(kind: string)
    ensures JsText.ToLower(kind) !in JsObjects.PrototypeMembers ==> ColorForAsWritten(kind) == JsObjects.Str(ColorFor(kind))
  {
    JsObjects.GetIsOwnExceptPrototype(FixtureColors, JsText.ToLower(kind));
  }

  /** A fixture of type "constructor" is given the `Object` constructor function instead of a colour. */
  lemma ColorForAsWrittenInherits()
    ensures ColorForAsWritten("constructor") == JsObjects.Inherited("constructor")
    ensures ColorFor("constructor") == DefaultColor
  {
    JsText.ToLowerLowers("constructor");
  }

  /** The colour does not depend on the case of the type tag. */
  lemma ColorForIgnoresCase(kind: string)
    ensures ColorFor(kind) == ColorFor(JsText.ToLower(kind))
  {
    JsText.ToLowerIdempotent(kind);
  }

  /** The fill colour: the outline colour with alpha `40` (hex) appended. */
  function FillFor(kind: string): string {
    ColorFor(kind) + "40"
  }

  /** A rectangle on the canvas: top-left corner, width and height, in pixels. */
  datatype Rect = Rect(x: real, y: real, width: real, height: real)

  /**
   * Where a fixture is drawn on a wall `wallHeightFeet` tall. Its bottom is
   * `positionY` inches above the wall's bottom, so its top-left corner is
   * that far plus its own height below the top of the wall.
   */
  function FixtureRect(f: Fixture, wallHeightFeet: real, pixelsPerInch: real): (r: Rect)
    ensures r.x == InchesToPixels(f.positionX, pixelsPerInch)
    ensures r.width == InchesToPixels(f.widthInches, pixelsPerInch)
    ensures r.height == InchesToPixels(f.heightInches, pixelsPerInch)
    ensures r.y + r.height == FeetToPixels(wallHeightFeet, pixelsPerInch) - InchesToPixels(f.positionY, pixelsPerInch)
  {
    var x := InchesToPixels(f.positionX, pixelsPerInch);
    var fixtureWidth := InchesToPixels(f.widthInches, pixelsPerInch);
    var fixtureHeight := InchesToPixels(f.heightInches, pixelsPerInch);
    var totalHeightPixels := FeetToPixels(wallHeightFeet, pixelsPerInch);
    var y := totalHeightPixels - InchesToPixels(f.positionY, pixelsPerInch) - fixtureHeight;
    Rect(x, y, fixtureWidth, fixtureHeight)
  }

  /**
   * The Y flip: a fixture at `positionY` 0 sits on the bottom of the wall,
   * and raising it moves its rectangle up the canvas by the same amount
   * converted to pixels; moving it sideways moves only X.
   */
  lemma FixtureRectFlipsY(f: Fixture, wallHeightFeet: real, p: real, dy: real)
    requires p > 0.0
    ensures f.positionY == 0.0 ==> FixtureRect(f, wallHeightFeet, p).y + FixtureRect(f, wallHeightFeet, p).height == FeetToPixels(wallHeightFeet, p)
    ensures FixtureRect(f.(positionY := f.positionY + dy), wallHeightFeet, p).y == FixtureRect(f, wallHeightFeet, p).y - InchesToPixels(dy, p)
    ensures dy > 0.0 ==> FixtureRect(f.(positionY := f.positionY + dy), wallHeightFeet, p).y < FixtureRect(f, wallHeightFeet, p).y
  {
    PixelConversionsAreLinear(f.positionY, dy, p);
    PixelConversionsAreLinear(0.0, dy, p);
  }

  /** The sample sink (24" x 8" at 24", 36") on the 8' wall at 200 pixels per inch: top-left (200, 433 1/3), 200 x 66 2/3. */
  lemma SampleSinkRect(f: Fixture)
    requires f.widthInches == 24.0 && f.heightInches == 8.0 && f.positionX == 24.0 && f.positionY == 36.0
    ensures FixtureRect(f, 8.0, 200.0) == Rect(200.0, 1300.0 / 3.0, 200.0, 200.0 / 3.0)
  {
  }

  /** `k` is a whole number of feet strictly between 0 and `length`. */
  predicate IsInteriorFoot(k: int, length: real) {
    1 <= k && (k as real) < length
  }

  /** The number of whole feet strictly between 0 and `length`: the interior grid lines. */
  function InteriorFeet(length: real): (n: nat)
    ensures forall k: int :: IsInteriorFoot(k, length) <==> 1 <= k <= n
  {
    if length <= 1.0 then 0
    else if length.Floor as real == length then length.Floor - 1
    else length.Floor
  }

  /** X of the vertical grid line `feet` feet from the left edge. */
  function VerticalLineX(feet: int, pixelsPerInch: real): real {
    FeetToPixels(feet as real, pixelsPerInch)
  }

  /** Y of the horizontal grid line `feet` feet above the bottom of a canvas `height` pixels tall. */
  function HorizontalLineY(feet: int, height: real, pixelsPerInch: real): real {
    height - FeetToPixels(feet as real, pixelsPerInch)
  }

  /** Interior grid lines lie strictly inside the wall: never on the border. */
  lemma GridLinesAreInterior(feet: int, length: real, p: real)
    requires p > 0.0 && 1 <= feet <= InteriorFeet(length)
    ensures 0.0 < VerticalLineX(feet, p) < FeetToPixels(length, p)
  {
    PixelConversionsAreLinear(feet as real, length, p);
    PixelConversionsAreLinear(0.0, feet as real, p);
  }

  /**
   * Grid lines are measured from the rounded canvas height, fixtures from
   * the exact wall height: a fixture whose bottom is a whole number of
   * feet up lies within half a pixel of that foot's grid line.
   */
  lemma FixtureBottomNearGridLine(f: Fixture, wall: WallWithFixtures, targetWidth: real, feet: int)
    requires wall.widthFeet > 0.0
    requires f.positionY == 12.0 * feet as real
    ensures var d := CalculateCanvasDimensions(wall, targetWidth);
            var r := FixtureRect(f, wall.heightFeet, d.pixelsPerInch);
            -0.5 < HorizontalLineY(feet, d.height, d.pixelsPerInch) - (r.y + r.height) <= 0.5
  {
    var d := CalculateCanvasDimensions(wall, targetWidth);
    InchesAndFeetPixelsAgree(feet as real, d.pixelsPerInch);
    assert FeetToPixels(wall.heightFeet, d.pixelsPerInch) == targetWidth * wall.heightFeet / wall.widthFeet;
  }

  /**
   * As written, horizontal grid lines are measured from the rounded canvas
   * height, so one can land on the border: an 8' x 7.001' wall at the
   * default width gives a 700-pixel canvas (700.1 rounded), and its 7-foot
   * line, an interior foot, is drawn at y = 0, on the top edge.
   */
  lemma TopGridLineOnCanvasEdge(wall: WallWithFixtures)
    requires wall.widthFeet == 8.0 && wall.heightFeet == 7.001
    ensures var d := CalculateCanvasDimensions(wall);
            d.height == 700.0 && d.pixelsPerInch == 200.0 && IsInteriorFoot(7, wall.heightFeet)
            && HorizontalLineY(7, d.height, d.pixelsPerInch) == 0.0
  {
    assert 800.0 * wall.heightFeet / wall.widthFeet == 700.1;
    assert Round(700.1) == 700;
  }

  /**
   * The grid line `feet` feet up measured from the wall's exact height,
   * the frame the fixtures are drawn in.
   */
  function WallLineY(feet: int, wallHeightFeet: real, pixelsPerInch: real): real {
    FeetToPixels(wallHeightFeet, pixelsPerInch) - FeetToPixels(feet as real, pixelsPerInch)
  }

  /**
   * Measured from the exact wall height, an interior line never reaches the
   * top edge of the canvas, stays above its bottom edge whenever a foot is
   * more than half a pixel, and a fixture whose bottom is that many feet up
   * sits exactly on it.
   */
  lemma WallGridLinesInsideCanvas(wall: WallWithFixtures, targetWidth: real, feet: int, f: Fixture)
    requires wall.widthFeet > 0.0 && targetWidth > 0.0 && IsInteriorFoot(feet, wall.heightFeet)
    ensures var d := CalculateCanvasDimensions(wall, targetWidth);
            0.0 < WallLineY(feet, wall.heightFeet, d.pixelsPerInch)
            && (FeetToPixels(1.0, d.pixelsPerInch) > 0.5 ==> WallLineY(feet, wall.heightFeet, d.pixelsPerInch) < d.height)
    ensures var d := CalculateCanvasDimensions(wall, targetWidth);
            var r := FixtureRect(f, wall.heightFeet, d.pixelsPerInch);
            f.positionY == 12.0 * feet as real ==> WallLineY(feet, wall.heightFeet, d.pixelsPerInch) == r.y + r.height
  {
    var d := CalculateCanvasDimensions(wall, targetWidth);
    var p := d.pixelsPerInch;
    assert p > 0.0;
    PixelConversionsAreLinear(feet as real, wall.heightFeet, p);
    assert FeetToPixels(1.0, p) <= FeetToPixels(feet as real, p);
    assert FeetToPixels(wall.heightFeet, p) == targetWidth * wall.heightFeet / wall.widthFeet;
    InchesAndFeetPixelsAgree(feet as real, p);
  }
}
