/**
 * `drawElevation` and its helpers: the procedures that paint a wall
 * elevation onto a canvas context, proved to paint exactly the marks the
 * specification functions below describe, followed by what those marks
 * say about the picture.
 */
module Elevation {
  import opened Types
  import opened Renderer
  import opened Canvas2D
  import opened Sequences

  const GridColor := "#E0E0E0"
  const LabelBackground := "rgba(255, 255, 255, 0.8)"
  const ScaleNote := "Scale: 1/2\" = 1'-0\""

  /** Clearing, the white background and the black two-pixel border. */
  function BackgroundMarks(d: DrawingDimensions, t: Transform): seq<Mark> {
    [Mark(Clear(0.0, 0.0, d.width, d.height), t),
     Mark(FilledRect("#FFFFFF", 0.0, 0.0, d.width, d.height), t),
     Mark(StrokedRect("#000000", 2.0, 0.0, 0.0, d.width, d.height), t)]
  }

  function VerticalGridPath(feet: int, d: DrawingDimensions): seq<PathStep> {
    var x := VerticalLineX(feet, d.pixelsPerInch);
    [PathStep.MoveTo(x, 0.0), PathStep.LineTo(x, d.height)]
  }

  function HorizontalGridPath(feet: int, d: DrawingDimensions): seq<PathStep> {
    var y := HorizontalLineY(feet, d.height, d.pixelsPerInch);
    [PathStep.MoveTo(0.0, y), PathStep.LineTo(d.width, y)]
  }

  /** The first `n` vertical grid lines, one per foot from the left. */
  function VerticalGridMarks(n: nat, d: DrawingDimensions, t: Transform): seq<Mark> {
    if n == 0 then [] else VerticalGridMarks(n - 1, d, t) + [Mark(StrokedPath(GridColor, 0.5, VerticalGridPath(n, d)), t)]
  }

  /** The first `n` horizontal grid lines, one per foot from the bottom. */
  function HorizontalGridMarks(n: nat, d: DrawingDimensions, t: Transform): seq<Mark> {
    if n == 0 then [] else HorizontalGridMarks(n - 1, d, t) + [Mark(StrokedPath(GridColor, 0.5, HorizontalGridPath(n, d)), t)]
  }

  /** The fixture's translucent fill and its two-pixel outline, in its type's colour. */
  function BoxMarks(f: Fixture, r: Rect, t: Transform): seq<Mark> {
    [Mark(FilledRect(FillFor(f.kind), r.x, r.y, r.width, r.height), t),
     Mark(StrokedRect(ColorFor(f.kind), 2.0, r.x, r.y, r.width, r.height), t)]
  }

  /** A white box as wide as the measured name plus 4 pixels and 16 pixels tall, then the name, centred on the fixture. */
  function NameMarks(f: Fixture, r: Rect, nameWidth: real, t: Transform): seq<Mark> {
    var labelX := r.x + r.width / 2.0;
    var labelY := r.y + r.height / 2.0;
    [Mark(FilledRect(LabelBackground, labelX - nameWidth / 2.0 - 2.0, labelY - 8.0, nameWidth + 4.0, 16.0), t),
     Mark(Text("#000000", "12px Arial", "center", "middle", Plain(f.name), labelX, labelY), t)]
  }

  /** The width in inches above the fixture and the height written upwards 5 pixels to its left. */
  function SizeMarks(f: Fixture, r: Rect, t: Transform): seq<Mark> {
    [Mark(Text("#666666", "10px Arial", "center", "middle", InchesMark(f.widthInches), r.x + r.width / 2.0, r.y - 5.0), t),
     Mark(Text("#666666", "10px Arial", "center", "middle", InchesMark(f.heightInches), 0.0, 0.0),
          RotatedBack(Translated(t, r.x - 5.0, r.y + r.height / 2.0)))]
  }

  /** The six marks of one fixture: box, name label, size labels. */
  function FixtureMarks(f: Fixture, wallHeightFeet: real, pixelsPerInch: real, nameWidth: real, t: Transform): seq<Mark> {
    var r := FixtureRect(f, wallHeightFeet, pixelsPerInch);
    BoxMarks(f, r, t) + NameMarks(f, r, nameWidth, t) + SizeMarks(f, r, t)
  }

  /** The marks of every fixture in list order; names are measured in the 12px label font. */
  function FixturesMarks(fs: seq<Fixture>, wallHeightFeet: real, pixelsPerInch: real,
                         measure: (string, string) -> real, t: Transform): seq<Mark>
  {
    FlatMap(fs, FixtureBlock(wallHeightFeet, pixelsPerInch, measure, t))
  }

  /** One fixture's marks, its name measured in the 12px label font. */
  function FixtureBlock(wallHeightFeet: real, pixelsPerInch: real, measure: (string, string) -> real, t: Transform)
    : Fixture -> seq<Mark>
  {
    (f: Fixture) => FixtureMarks(f, wallHeightFeet, pixelsPerInch, measure("12px Arial", f.name), t)
  }

  /**
   * The width caption under the wall, the height caption rotated at its
   * left and the scale note. `drawDimensions` never sets `textBaseline`,
   * so all three use whatever baseline was in force.
   */
  function DimensionMarks(wall: WallWithFixtures, d: DrawingDimensions, baseline: string, t: Transform): seq<Mark> {
    [Mark(Text("#000000", "bold 14px Arial", "center", baseline, FeetMark(wall.widthFeet), d.width / 2.0, d.height + 20.0), t),
     Mark(Text("#000000", "bold 14px Arial", "center", baseline, FeetMark(wall.heightFeet), 0.0, 0.0),
          RotatedBack(Translated(t, -20.0, d.height / 2.0))),
     Mark(Text("#000000", "12px Arial", "left", baseline, Plain(ScaleNote), 10.0, d.height + 20.0), t)]
  }

  /** The text baseline once the fixtures are drawn: each fixture sets it to `middle`. */
  function BaselineAfterFixtures(fs: seq<Fixture>, baseline: string): string {
    if fs == [] then baseline else "middle"
  }

  /** Everything `drawElevation` paints, in painting order. */
  function ElevationMarks(wall: WallWithFixtures, d: DrawingDimensions, measure: (string, string) -> real,
                          baseline: string, t: Transform): seq<Mark>
  {
    BackgroundMarks(d, t)
    + VerticalGridMarks(InteriorFeet(wall.widthFeet), d, t)
    + HorizontalGridMarks(InteriorFeet(wall.heightFeet), d, t)
    + FixturesMarks(wall.fixtures, wall.heightFeet, d.pixelsPerInch, measure, t)
    + DimensionMarks(wall, d, BaselineAfterFixtures(wall.fixtures, baseline), t)
  }

  /** The context's state after one fixture: the size-label style and the fixture's outline colour. */
  function FixtureStyle(kind: string, t: Transform): DrawingState {
    DrawingState("#666666", ColorFor(kind), 2.0, "10px Arial", "center", "middle", t)
  }

  /** The state after drawing `fs` from state `s`: that of the last fixture, or `s` itself when there are none. */
  function StyleAfterFixtures(fs: seq<Fixture>, s: DrawingState): DrawingState {
    if fs == [] then s else FixtureStyle(fs[|fs| - 1].kind, s.transform)
  }

  /** `drawDimensions` leaves black fill, the 12px font and left alignment. */
  function StyleAfterDimensions(s: DrawingState): DrawingState {
    s.(fillStyle := "#000000", font := "12px Arial", textAlign := "left")
  }

  /** The state `drawElevation` leaves behind. */
  function StyleAfterElevation(wall: WallWithFixtures, s: DrawingState): DrawingState {
    StyleAfterDimensions(StyleAfterFixtures(wall.fixtures, s.(fillStyle := "#FFFFFF", strokeStyle := GridColor, lineWidth := 0.5)))
  }

  /** The path left in the context: the last grid line drawn, if any. */
  function PathAfterGrid(wall: WallWithFixtures, d: DrawingDimensions, path: seq<PathStep>): seq<PathStep> {
    if InteriorFeet(wall.heightFeet) > 0 then HorizontalGridPath(InteriorFeet(wall.heightFeet), d)
    else if InteriorFeet(wall.widthFeet) > 0 then VerticalGridPath(InteriorFeet(wall.widthFeet), d)
    else path
  }

  /** One more fixture appends its six marks. */
  lemma FixturesMarksStep(fs: seq<Fixture>, i: int, wallHeightFeet: real, pixelsPerInch: real,
                          measure: (string, string) -> real, t: Transform)
    requires 0 <= i < |fs|
    ensures FixturesMarks(fs[..i + 1], wallHeightFeet, pixelsPerInch, measure, t)
         == FixturesMarks(fs[..i], wallHeightFeet, pixelsPerInch, measure, t)
            + FixtureMarks(fs[i], wallHeightFeet, pixelsPerInch, measure("12px Arial", fs[i].name), t)
  {
    FlatMapStep(fs, FixtureBlock(wallHeightFeet, pixelsPerInch, measure, t), i);
  }

  method DrawFixture(ctx: Canvas, fixture: Fixture, wallHeightFeet: real, pixelsPerInch: real)
    modifies ctx`log, ctx`state, ctx`stack
    ensures ctx.log == old(ctx.log) + FixtureMarks(fixture, wallHeightFeet, pixelsPerInch,
                                                   ctx.measureText("12px Arial", fixture.name), old(ctx.state.transform))
    ensures ctx.state == FixtureStyle(fixture.kind, old(ctx.state.transform))
    ensures ctx.stack == old(ctx.stack)
  {
    var r := FixtureRect(fixture, wallHeightFeet, pixelsPerInch);
    ghost var l0 := ctx.log;
    DrawFixtureBox(ctx, fixture, r);
    ghost var l1 := ctx.log;
    DrawFixtureName(ctx, fixture, r);
    ghost var l2 := ctx.log;
    DrawFixtureSizes(ctx, fixture, r);
    AppendThree(l0, l1[|l0|..], l2[|l1|..]);
    AppendThree(l0, l1[|l0|..] + l2[|l1|..], ctx.log[|l2|..]);
  }

  /** Fill and outline: `drawFixture` from the colour lookup to the border. */
  method DrawFixtureBox(ctx: Canvas, fixture: Fixture, r: Rect)
    modifies ctx`log, ctx`state
    ensures ctx.log == old(ctx.log) + BoxMarks(fixture, r, ctx.state.transform)
    ensures ctx.state == old(ctx.state).(fillStyle := FillFor(fixture.kind), strokeStyle := ColorFor(fixture.kind), lineWidth := 2.0)
  {
    var x, y, fixtureWidth, fixtureHeight := r.x, r.y, r.width, r.height;
    var color := ColorFor(fixture.kind);

    ctx.SetFillStyle(color + "40");
    ctx.FillRect(x, y, fixtureWidth, fixtureHeight);

    ctx.SetStrokeStyle(color);
    ctx.SetLineWidth(2.0);
    ctx.StrokeRect(x, y, fixtureWidth, fixtureHeight);
  }

  /** The name label and its background: `drawFixture` from the label style to the name. */
  method DrawFixtureName(ctx: Canvas, fixture: Fixture, r: Rect)
    modifies ctx`log, ctx`state
    ensures ctx.log == old(ctx.log) + NameMarks(fixture, r, ctx.measureText("12px Arial", fixture.name), ctx.state.transform)
    ensures ctx.state == old(ctx.state).(fillStyle := "#000000", font := "12px Arial", textAlign := "center", textBaseline := "middle")
  {
    var x, y, fixtureWidth, fixtureHeight := r.x, r.y, r.width, r.height;
    ctx.SetFillStyle("#000000");
    ctx.SetFont("12px Arial");
    ctx.SetTextAlign("center");
    ctx.SetTextBaseline("middle");

    var labelX := x + fixtureWidth / 2.0;
    var labelY := y + fixtureHeight / 2.0;
    var textWidth := ctx.measureText(ctx.state.font, fixture.name);
    var textHeight := 16.0;

    ctx.SetFillStyle(LabelBackground);
    ctx.FillRect(labelX - textWidth / 2.0 - 2.0, labelY - textHeight / 2.0, textWidth + 4.0, textHeight);

    ctx.SetFillStyle("#000000");
    ctx.FillText(Plain(fixture.name), labelX, labelY);
  }

  /** The width and (rotated) height labels: the end of `drawFixture`. */
  method DrawFixtureSizes(ctx: Canvas, fixture: Fixture, r: Rect)
    modifies ctx`log, ctx`state, ctx`stack
    requires ctx.state.textAlign == "center" && ctx.state.textBaseline == "middle"
    ensures ctx.log == old(ctx.log) + SizeMarks(fixture, r, old(ctx.state.transform))
    ensures ctx.state == old(ctx.state).(fillStyle := "#666666", font := "10px Arial")
    ensures ctx.stack == old(ctx.stack)
  {
    var x, y, fixtureWidth, fixtureHeight := r.x, r.y, r.width, r.height;
    ctx.SetFont("10px Arial");
    ctx.SetFillStyle("#666666");

    var widthText := InchesMark(fixture.widthInches);
    ctx.FillText(widthText, x + fixtureWidth / 2.0, y - 5.0);

    ghost var before := ctx.state;
    ghost var stack0 := ctx.stack;
    ctx.PushState();
    ctx.Translate(x - 5.0, y + fixtureHeight / 2.0);
    ctx.RotateQuarterTurnBack();
    ctx.FillText(InchesMark(fixture.heightInches), 0.0, 0.0);
    assert (stack0 + [before])[..|stack0|] == stack0;
    ctx.PopState();
  }

  method DrawDimensions(ctx: Canvas, wall: WallWithFixtures, d: DrawingDimensions)
    modifies ctx`log, ctx`state, ctx`stack
    ensures ctx.log == old(ctx.log) + DimensionMarks(wall, d, old(ctx.state.textBaseline), old(ctx.state.transform))
    ensures ctx.state == StyleAfterDimensions(old(ctx.state))
    ensures ctx.stack == old(ctx.stack)
  {
    ctx.SetFillStyle("#000000");
    ctx.SetFont("bold 14px Arial");
    ctx.SetTextAlign("center");

    ctx.FillText(FeetMark(wall.widthFeet), d.width / 2.0, d.height + 20.0);

    ghost var before := ctx.state;
    ghost var stack0 := ctx.stack;
    ctx.PushState();
    ctx.Translate(-20.0, d.height / 2.0);
    ctx.RotateQuarterTurnBack();
    ctx.FillText(FeetMark(wall.heightFeet), 0.0, 0.0);
    assert (stack0 + [before])[..|stack0|] == stack0;
    ctx.PopState();
    assert ctx.state == before;

    ctx.SetFont("12px Arial");
    ctx.SetTextAlign("left");
    ctx.FillText(Plain(ScaleNote), 10.0, d.height + 20.0);
  }

  method DrawElevation(ctx: Canvas, wall: WallWithFixtures, d: DrawingDimensions)
    modifies ctx`log, ctx`state, ctx`stack, ctx`path
    ensures ctx.log == old(ctx.log) + ElevationMarks(wall, d, ctx.measureText, old(ctx.state.textBaseline), old(ctx.state.transform))
    ensures ctx.state == StyleAfterElevation(wall, old(ctx.state))
    ensures ctx.stack == old(ctx.stack) && ctx.path == PathAfterGrid(wall, d, old(ctx.path))
  {
    ghost var l0 := ctx.log;
    DrawBackground(ctx, d);
    ghost var l1 := ctx.log;
    DrawVerticalGrid(ctx, wall.widthFeet, d);
    ghost var l2 := ctx.log;
    DrawHorizontalGrid(ctx, wall.heightFeet, d);
    ghost var l3 := ctx.log;
    DrawFixtures(ctx, wall.fixtures, wall.heightFeet, d.pixelsPerInch);
    ghost var l4 := ctx.log;
    DrawDimensions(ctx, wall, d);
    AppendFive(l0, l1[|l0|..], l2[|l1|..], l3[|l2|..], l4[|l3|..], ctx.log[|l4|..]);
  }

  /** Clear, white background, black border, then the grid's stroke style. */
  method DrawBackground(ctx: Canvas, d: DrawingDimensions)
    modifies ctx`log, ctx`state
    ensures ctx.log == old(ctx.log) + BackgroundMarks(d, ctx.state.transform)
    ensures ctx.state == old(ctx.state).(fillStyle := "#FFFFFF", strokeStyle := GridColor, lineWidth := 0.5)
  {
    var width, height := d.width, d.height;

    ctx.ClearRect(0.0, 0.0, width, height);

    ctx.SetFillStyle("#FFFFFF");
    ctx.FillRect(0.0, 0.0, width, height);

    ctx.SetStrokeStyle("#000000");
    ctx.SetLineWidth(2.0);
    ctx.StrokeRect(0.0, 0.0, width, height);

    ctx.SetStrokeStyle(GridColor);
    ctx.SetLineWidth(0.5);
  }

  /** The vertical grid loop: one grey line per whole foot strictly inside the wall's width. */
  method DrawVerticalGrid(ctx: Canvas, widthFeet: real, d: DrawingDimensions)
    modifies ctx`log, ctx`path
    requires ctx.state.strokeStyle == GridColor && ctx.state.lineWidth == 0.5
    ensures ctx.log == old(ctx.log) + VerticalGridMarks(InteriorFeet(widthFeet), d, ctx.state.transform)
    ensures ctx.path == if InteriorFeet(widthFeet) == 0 then old(ctx.path) else VerticalGridPath(InteriorFeet(widthFeet), d)
  {
    var columns := InteriorFeet(widthFeet);
    ghost var t, log0, path0 := ctx.state.transform, ctx.log, ctx.path;
    var feet := 1;
    while (feet as real) < widthFeet
      invariant 1 <= feet <= columns + 1
      invariant ctx.log == log0 + VerticalGridMarks(feet - 1, d, t)
      invariant ctx.path == if feet == 1 then path0 else VerticalGridPath(feet - 1, d)
      decreases columns + 1 - feet
    {
      assert IsInteriorFoot(feet, widthFeet);
      var x := VerticalLineX(feet, d.pixelsPerInch);
      ctx.BeginPath();
      ctx.MoveTo(x, 0.0);
      ctx.LineTo(x, d.height);
      assert ctx.path == VerticalGridPath(feet, d);
      ctx.Stroke();
      assert ctx.log == log0 + VerticalGridMarks(feet - 1, d, t) + [Mark(StrokedPath(GridColor, 0.5, VerticalGridPath(feet, d)), t)];
      feet := feet + 1;
    }
    assert !IsInteriorFoot(feet, widthFeet);
  }

  /** The horizontal grid loop: one grey line per whole foot strictly inside the wall's height, measured up from the bottom. */
  method DrawHorizontalGrid(ctx: Canvas, heightFeet: real, d: DrawingDimensions)
    modifies ctx`log, ctx`path
    requires ctx.state.strokeStyle == GridColor && ctx.state.lineWidth == 0.5
    ensures ctx.log == old(ctx.log) + HorizontalGridMarks(InteriorFeet(heightFeet), d, ctx.state.transform)
    ensures ctx.path == if InteriorFeet(heightFeet) == 0 then old(ctx.path) else HorizontalGridPath(InteriorFeet(heightFeet), d)
  {
    var rows := InteriorFeet(heightFeet);
    ghost var t, log0, path0 := ctx.state.transform, ctx.log, ctx.path;
    var feet := 1;
    while (feet as real) < heightFeet
      invariant 1 <= feet <= rows + 1
      invariant ctx.log == log0 + HorizontalGridMarks(feet - 1, d, t)
      invariant ctx.path == if feet == 1 then path0 else HorizontalGridPath(feet - 1, d)
      decreases rows + 1 - feet
    {
      assert IsInteriorFoot(feet, heightFeet);
      var y := HorizontalLineY(feet, d.height, d.pixelsPerInch);
      ctx.BeginPath();
      ctx.MoveTo(0.0, y);
      ctx.LineTo(d.width, y);
      assert ctx.path == HorizontalGridPath(feet, d);
      ctx.Stroke();
      assert ctx.log == log0 + HorizontalGridMarks(feet - 1, d, t) + [Mark(StrokedPath(GridColor, 0.5, HorizontalGridPath(feet, d)), t)];
      feet := feet + 1;
    }
    assert !IsInteriorFoot(feet, heightFeet);
  }

  /** `wall.fixtures.forEach(drawFixture)`. */
  method DrawFixtures(ctx: Canvas, fixtures: seq<Fixture>, wallHeightFeet: real, pixelsPerInch: real)
    modifies ctx`log, ctx`state, ctx`stack
    ensures ctx.log == old(ctx.log) + FixturesMarks(fixtures, wallHeightFeet, pixelsPerInch, ctx.measureText, old(ctx.state.transform))
    ensures ctx.state == StyleAfterFixtures(fixtures, old(ctx.state))
    ensures ctx.stack == old(ctx.stack)
  {
    var i := 0;
    while i < |fixtures|
      invariant 0 <= i <= |fixtures|
      invariant ctx.log == old(ctx.log) + FixturesMarks(fixtures[..i], wallHeightFeet, pixelsPerInch, ctx.measureText, old(ctx.state.transform))
      invariant ctx.state == StyleAfterFixtures(fixtures[..i], old(ctx.state))
      invariant ctx.stack == old(ctx.stack) && ctx.path == old(ctx.path)
    {
      ghost var done := ctx.log;
      DrawFixture(ctx, fixtures[i], wallHeightFeet, pixelsPerInch);
      FixturesMarksStep(fixtures, i, wallHeightFeet, pixelsPerInch, ctx.measureText, old(ctx.state.transform));
      AppendThree(old(ctx.log), done[|old(ctx.log)|..], ctx.log[|done|..]);
      i := i + 1;
    }
    assert fixtures[..i] == fixtures;
  }
}

/** What the marks painted by `drawElevation` say about the picture. */
module ElevationFacts {
  import opened Types
  import opened Renderer
  import opened Canvas2D
  import opened Sequences
  import opened Elevation

  /** One vertical grid line per interior foot. */
  lemma {:induction false} VerticalGridMarksLength(n: nat, d: DrawingDimensions, t: Transform)
    ensures |VerticalGridMarks(n, d, t)| == n
  {
    if n > 0 {
      VerticalGridMarksLength(n - 1, d, t);
    }
  }

  /** One horizontal grid line per interior foot. */
  lemma {:induction false} HorizontalGridMarksLength(n: nat, d: DrawingDimensions, t: Transform)
    ensures |HorizontalGridMarks(n, d, t)| == n
  {
    if n > 0 {
      HorizontalGridMarksLength(n - 1, d, t);
    }
  }

  /** Line `i` of the vertical grid is the one `i + 1` feet from the left edge. */
  lemma {:induction false} VerticalGridMarkAt(n: nat, d: DrawingDimensions, t: Transform, i: int)
    requires 0 <= i < n
    ensures |VerticalGridMarks(n, d, t)| == n
    ensures VerticalGridMarks(n, d, t)[i] == Mark(StrokedPath(GridColor, 0.5, VerticalGridPath(i + 1, d)), t)
  {
    VerticalGridMarksLength(n - 1, d, t);
    if i < n - 1 {
      VerticalGridMarkAt(n - 1, d, t, i);
    }
  }

  /** Line `i` of the horizontal grid is the one `i + 1` feet above the bottom edge. */
  lemma {:induction false} HorizontalGridMarkAt(n: nat, d: DrawingDimensions, t: Transform, i: int)
    requires 0 <= i < n
    ensures |HorizontalGridMarks(n, d, t)| == n
    ensures HorizontalGridMarks(n, d, t)[i] == Mark(StrokedPath(GridColor, 0.5, HorizontalGridPath(i + 1, d)), t)
  {
    HorizontalGridMarksLength(n - 1, d, t);
    if i < n - 1 {
      HorizontalGridMarkAt(n - 1, d, t, i);
    }
  }

  /** Every fixture block is six marks long. */
  lemma FixtureBlockLength(wallHeightFeet: real, pixelsPerInch: real, measure: (string, string) -> real, t: Transform)
    ensures forall f :: |FixtureBlock(wallHeightFeet, pixelsPerInch, measure, t)(f)| == 6
  {
    forall f: Fixture
      ensures |FixtureBlock(wallHeightFeet, pixelsPerInch, measure, t)(f)| == 6
    {
      var r := FixtureRect(f, wallHeightFeet, pixelsPerInch);
      var w := measure("12px Arial", f.name);
      assert |BoxMarks(f, r, t)| == 2 && |NameMarks(f, r, w, t)| == 2 && |SizeMarks(f, r, t)| == 2;
    }
  }

  /** Six marks per fixture. */
  lemma FixturesMarksLength(fs: seq<Fixture>, wallHeightFeet: real, pixelsPerInch: real,
                            measure: (string, string) -> real, t: Transform)
    ensures |FixturesMarks(fs, wallHeightFeet, pixelsPerInch, measure, t)| == 6 * |fs|
  {
    FixtureBlockLength(wallHeightFeet, pixelsPerInch, measure, t);
    FlatMapLength(fs, FixtureBlock(wallHeightFeet, pixelsPerInch, measure, t), 6);
  }

  /** Fixture `i` owns marks `6 i` to `6 i + 5` of the fixture layer. */
  lemma FixturesMarksAt(fs: seq<Fixture>, wallHeightFeet: real, pixelsPerInch: real,
                        measure: (string, string) -> real, t: Transform, i: int)
    requires 0 <= i < |fs|
    ensures |FixturesMarks(fs, wallHeightFeet, pixelsPerInch, measure, t)| == 6 * |fs|
    ensures FixturesMarks(fs, wallHeightFeet, pixelsPerInch, measure, t)[6 * i .. 6 * i + 6]
            == FixtureMarks(fs[i], wallHeightFeet, pixelsPerInch, measure("12px Arial", fs[i].name), t)
  {
    FixtureBlockLength(wallHeightFeet, pixelsPerInch, measure, t);
    FlatMapAt(fs, FixtureBlock(wallHeightFeet, pixelsPerInch, measure, t), 6, i);
  }

  /** Where the fixture layer starts: after the 3 background marks and every grid line. */
  function FixtureLayerStart(wall: WallWithFixtures): nat {
    3 + InteriorFeet(wall.widthFeet) + InteriorFeet(wall.heightFeet)
  }

  /** The picture is the background, one mark per interior foot of grid, six per fixture and three captions. */
  lemma ElevationMarksLength(wall: WallWithFixtures, d: DrawingDimensions, measure: (string, string) -> real,
                             baseline: string, t: Transform)
    ensures |ElevationMarks(wall, d, measure, baseline, t)| == FixtureLayerStart(wall) + 6 * |wall.fixtures| + 3
  {
    VerticalGridMarksLength(InteriorFeet(wall.widthFeet), d, t);
    HorizontalGridMarksLength(InteriorFeet(wall.heightFeet), d, t);
    FixturesMarksLength(wall.fixtures, wall.heightFeet, d.pixelsPerInch, measure, t);
  }

  /**
   * Fixture `i` is filled with its translucent colour and outlined in its
   * colour exactly over its rectangle, after (so on top of) every grid line.
   */
  lemma ElevationShowsFixture(wall: WallWithFixtures, d: DrawingDimensions, measure: (string, string) -> real,
                              baseline: string, t: Transform, i: int)
    requires 0 <= i < |wall.fixtures|
    ensures var all := ElevationMarks(wall, d, measure, baseline, t);
            var f := wall.fixtures[i];
            var r := FixtureRect(f, wall.heightFeet, d.pixelsPerInch);
            var k := FixtureLayerStart(wall) + 6 * i;
            k + 1 < |all|
            && all[k] == Mark(FilledRect(ColorFor(f.kind) + "40", r.x, r.y, r.width, r.height), t)
            && all[k + 1] == Mark(StrokedRect(ColorFor(f.kind), 2.0, r.x, r.y, r.width, r.height), t)
  {
    var nv, nh := InteriorFeet(wall.widthFeet), InteriorFeet(wall.heightFeet);
    VerticalGridMarksLength(nv, d, t);
    HorizontalGridMarksLength(nh, d, t);
    var fixtures := FixturesMarks(wall.fixtures, wall.heightFeet, d.pixelsPerInch, measure, t);
    FixturesMarksAt(wall.fixtures, wall.heightFeet, d.pixelsPerInch, measure, t, i);
    var before := BackgroundMarks(d, t) + VerticalGridMarks(nv, d, t) + HorizontalGridMarks(nh, d, t);
    var after := DimensionMarks(wall, d, BaselineAfterFixtures(wall.fixtures, baseline), t);
    var all := ElevationMarks(wall, d, measure, baseline, t);
    assert all == before + fixtures + after;
    var own := fixtures[6 * i .. 6 * i + 6];
    assert all[|before| + 6 * i] == own[0];
    assert all[|before| + 6 * i + 1] == own[1];
  }

  /** Every vertical grid line lies strictly between the wall's left and right edges and spans the canvas height. */
  lemma VerticalGridInsideWall(wall: WallWithFixtures, d: DrawingDimensions, t: Transform, i: int)
    requires d.pixelsPerInch > 0.0
    requires 0 <= i < InteriorFeet(wall.widthFeet)
    ensures |VerticalGridMarks(InteriorFeet(wall.widthFeet), d, t)| == InteriorFeet(wall.widthFeet)
    ensures var m := VerticalGridMarks(InteriorFeet(wall.widthFeet), d, t)[i];
            m.paint.StrokedPath? && |m.paint.path| == 2
            && 0.0 < m.paint.path[0].x == m.paint.path[1].x < FeetToPixels(wall.widthFeet, d.pixelsPerInch)
            && m.paint.path[0].y == 0.0 && m.paint.path[1].y == d.height
  {
    VerticalGridMarkAt(InteriorFeet(wall.widthFeet), d, t, i);
    GridLinesAreInterior(i + 1, wall.widthFeet, d.pixelsPerInch);
  }

  /**
   * Every horizontal grid line lies strictly between the top of the wall
   * and the bottom of the canvas and spans the canvas width.
   */
  lemma HorizontalGridInsideWall(wall: WallWithFixtures, d: DrawingDimensions, t: Transform, i: int)
    requires d.pixelsPerInch > 0.0
    requires 0 <= i < InteriorFeet(wall.heightFeet)
    ensures |HorizontalGridMarks(InteriorFeet(wall.heightFeet), d, t)| == InteriorFeet(wall.heightFeet)
    ensures var m := HorizontalGridMarks(InteriorFeet(wall.heightFeet), d, t)[i];
            m.paint.StrokedPath? && |m.paint.path| == 2
            && d.height - FeetToPixels(wall.heightFeet, d.pixelsPerInch) < m.paint.path[0].y == m.paint.path[1].y < d.height
            && m.paint.path[0].x == 0.0 && m.paint.path[1].x == d.width
  {
    HorizontalGridMarkAt(InteriorFeet(wall.heightFeet), d, t, i);
    GridLinesAreInterior(i + 1, wall.heightFeet, d.pixelsPerInch);
  }

  /**
   * On an untransformed canvas a fixture's height label is written
   * upwards (one quarter turn back) with its anchor 5 pixels left of the
   * fixture, half-way up it.
   */
  lemma HeightLabelPlacement(f: Fixture, wallHeightFeet: real, pixelsPerInch: real, nameWidth: real)
    ensures var m := FixtureMarks(f, wallHeightFeet, pixelsPerInch, nameWidth, Identity)[5];
            var r := FixtureRect(f, wallHeightFeet, pixelsPerInch);
            m.paint == Text("#666666", "10px Arial", "center", "middle", InchesMark(f.heightInches), 0.0, 0.0)
            && m.at.quarterTurnsBack == 1
            && DevicePoint(m.at, 0.0, 0.0) == (r.x - 5.0, r.y + r.height / 2.0)
  {
  }

  /**
   * `drawDimensions` never sets the text baseline. On a fresh canvas the
   * wall's captions therefore sit on the `alphabetic` baseline when the
   * wall has no fixtures and on the `middle` baseline left behind by the
   * last fixture otherwise.
   */
  lemma CaptionBaselineDependsOnFixtures(wall: WallWithFixtures, d: DrawingDimensions, measure: (string, string) -> real)
    ensures var all := ElevationMarks(wall, d, measure, "alphabetic", Identity);
            |all| >= 3
            && all[|all| - 3].paint == Text("#000000", "bold 14px Arial", "center",
                                            if wall.fixtures == [] then "alphabetic" else "middle",
                                            FeetMark(wall.widthFeet), d.width / 2.0, d.height + 20.0)
  {
    var all := ElevationMarks(wall, d, measure, "alphabetic", Identity);
    var captions := DimensionMarks(wall, d, BaselineAfterFixtures(wall.fixtures, "alphabetic"), Identity);
    assert all == all[..|all| - 3] + captions;
  }

  /**
   * On an untransformed canvas the wall-height caption is anchored 20
   * pixels to the left of the canvas's left edge (x = 0). The component
   * makes the canvas as wide as the drawing (and 40 pixels taller), so
   * the caption, which the rotation by -pi/2 turns to run along x = -20,
   * falls outside the canvas.
   */
  lemma HeightCaptionLeftOfCanvas(wall: WallWithFixtures, d: DrawingDimensions, baseline: string)
    ensures var m := DimensionMarks(wall, d, baseline, Identity)[1];
            m.paint.caption == FeetMark(wall.heightFeet)
            && DevicePoint(m.at, 0.0, 0.0) == (-20.0, d.height / 2.0)
            && DevicePoint(m.at, 0.0, 0.0).0 < 0.0
  {
  }
}
