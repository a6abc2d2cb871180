/**
 * The SVG rendering of a wall elevation (generateElevationSVG): the same
 * background, grid, fixture boxes and width caption as the canvas drawing,
 * written as one markup string. The elements are specified as data; the
 * method appends their markup in the order the program writes it.
 */
module ElevationSvg {
  import opened Types
  import opened Renderer
  import opened Canvas2D
  import opened Sequences
  import opened Elevation
  import ElevationFacts

  /** One element of the SVG document. */
  datatype Element =
    | Header(width: real, height: real)
    | Background(width: real, height: real)
    | VerticalLine(x: real, height: real)
    | HorizontalLine(y: real, width: real)
    | FixtureBox(x: real, y: real, width: real, height: real, color: string)
    | FixtureName(x: real, y: real, name: string)
    | WidthCaption(x: real, y: real, feet: real)
    | Close

  /**
   * The markup of one element. `num` is JavaScript's number-to-string
   * conversion used by template literals; names are inserted unescaped.
   */
  function Markup(e: Element, num: real -> string): string {
    match e
    case Header(w, h) =>
      "<svg width=\"" + num(w) + "\" height=\"" + num(h) + "\" xmlns=\"http://www.w3.org/2000/svg\">"
    case Background(w, h) =>
      "<rect width=\"" + num(w) + "\" height=\"" + num(h) + "\" fill=\"white\" stroke=\"black\" stroke-width=\"2\"/>"
    case VerticalLine(x, h) =>
      "<line x1=\"" + num(x) + "\" y1=\"0\" x2=\"" + num(x) + "\" y2=\"" + num(h)
      + "\" stroke=\"#E0E0E0\" stroke-width=\"0.5\"/>"
    case HorizontalLine(y, w) =>
      "<line x1=\"0\" y1=\"" + num(y) + "\" x2=\"" + num(w) + "\" y2=\"" + num(y)
      + "\" stroke=\"#E0E0E0\" stroke-width=\"0.5\"/>"
    case FixtureBox(x, y, w, h, color) =>
      "<rect x=\"" + num(x) + "\" y=\"" + num(y) + "\" width=\"" + num(w) + "\" height=\"" + num(h) + "\" "
      + "fill=\"" + color + "40\" stroke=\"" + color + "\" stroke-width=\"2\"/>"
    case FixtureName(x, y, name) =>
      "<text x=\"" + num(x) + "\" y=\"" + num(y) + "\" "
      + "text-anchor=\"middle\" dominant-baseline=\"middle\" font-size=\"12\" fill=\"black\">" + name + "</text>"
    case WidthCaption(x, y, feet) =>
      "<text x=\"" + num(x) + "\" y=\"" + num(y) + "\" text-anchor=\"middle\" font-size=\"14\" font-weight=\"bold\">"
      + num(feet) + "' - 0\"</text>"
    case Close => "</svg>"
  }

  function MarkupOf(num: real -> string): Element -> string {
    (e: Element) => Markup(e, num)
  }

  /** The markup of a sequence of elements, in order. */
  function Document(es: seq<Element>, num: real -> string): string {
    FlatMap(es, MarkupOf(num))
  }

  /** The first `n` vertical grid lines, one per foot from the left. */
  function VerticalLines(n: nat, d: DrawingDimensions): seq<Element> {
    if n == 0 then [] else VerticalLines(n - 1, d) + [VerticalLine(FeetToPixels(n as real, d.pixelsPerInch), d.height)]
  }

  /** The first `n` horizontal grid lines, one per foot up from the bottom. */
  function HorizontalLines(n: nat, d: DrawingDimensions): seq<Element> {
    if n == 0 then [] else HorizontalLines(n - 1, d) + [HorizontalLine(d.height - FeetToPixels(n as real, d.pixelsPerInch), d.width)]
  }

  /** A fixture's box, coloured by its kind, and its name at the centre of the box. */
  function SvgFixture(f: Fixture, wallHeightFeet: real, pixelsPerInch: real): seq<Element> {
    var x := InchesToPixels(f.positionX, pixelsPerInch);
    var fixtureWidth := InchesToPixels(f.widthInches, pixelsPerInch);
    var fixtureHeight := InchesToPixels(f.heightInches, pixelsPerInch);
    var y := FeetToPixels(wallHeightFeet, pixelsPerInch) - InchesToPixels(f.positionY, pixelsPerInch) - fixtureHeight;
    [FixtureBox(x, y, fixtureWidth, fixtureHeight, ColorFor(f.kind)),
     FixtureName(x + fixtureWidth / 2.0, y + fixtureHeight / 2.0, f.name)]
  }

  function SvgFixtureBlock(wallHeightFeet: real, pixelsPerInch: real): Fixture -> seq<Element> {
    (f: Fixture) => SvgFixture(f, wallHeightFeet, pixelsPerInch)
  }

  /** Every element of the document, in the order they are written. */
  function SvgElements(wall: WallWithFixtures, d: DrawingDimensions): seq<Element> {
    [Header(d.width, d.height), Background(d.width, d.height)]
    + VerticalLines(InteriorFeet(wall.widthFeet), d)
    + HorizontalLines(InteriorFeet(wall.heightFeet), d)
    + FlatMap(wall.fixtures, SvgFixtureBlock(wall.heightFeet, d.pixelsPerInch))
    + [WidthCaption(d.width / 2.0, d.height + 20.0, wall.widthFeet), Close]
  }

  lemma MarkupSnoc(es: seq<Element>, e: Element, markup: Element -> string)
    ensures FlatMap(es + [e], markup) == FlatMap(es, markup) + markup(e)
  {
    assert (es + [e])[..|es|] == es;
  }

  lemma MarkupPair(a: Element, b: Element, markup: Element -> string)
    ensures FlatMap([a, b], markup) == markup(a) + markup(b)
  {
    MarkupSnoc([], a, markup);
    assert [] + [a] == [a];
    MarkupSnoc([a], b, markup);
    assert [a] + [b] == [a, b];
  }

  /** The document is the markup of each part of the drawing, in order. */
  lemma SvgDocumentParts(wall: WallWithFixtures, d: DrawingDimensions, markup: Element -> string)
    ensures FlatMap(SvgElements(wall, d), markup)
            == markup(Header(d.width, d.height)) + markup(Background(d.width, d.height))
               + FlatMap(VerticalLines(InteriorFeet(wall.widthFeet), d), markup)
               + FlatMap(HorizontalLines(InteriorFeet(wall.heightFeet), d), markup)
               + FlatMap(FlatMap(wall.fixtures, SvgFixtureBlock(wall.heightFeet, d.pixelsPerInch)), markup)
               + markup(WidthCaption(d.width / 2.0, d.height + 20.0, wall.widthFeet)) + markup(Close)
  {
    var head := [Header(d.width, d.height), Background(d.width, d.height)];
    var vs := VerticalLines(InteriorFeet(wall.widthFeet), d);
    var hs := HorizontalLines(InteriorFeet(wall.heightFeet), d);
    var fs := FlatMap(wall.fixtures, SvgFixtureBlock(wall.heightFeet, d.pixelsPerInch));
    var tail := [WidthCaption(d.width / 2.0, d.height + 20.0, wall.widthFeet), Close];
    assert SvgElements(wall, d) == head + vs + hs + fs + tail;
    MarkupPair(head[0], head[1], markup);
    MarkupPair(tail[0], tail[1], markup);
    FlatMapAppend(head, vs, markup);
    FlatMapAppend(head + vs, hs, markup);
    FlatMapAppend(head + vs + hs, fs, markup);
    FlatMapAppend(head + vs + hs + fs, tail, markup);
  }

  /** generateElevationSVG: the header, the background, the grid, the fixtures and the width caption, in that order. */
  method GenerateElevationSvg(wall: WallWithFixtures, d: DrawingDimensions, num: real -> string) returns (svg: string)
    ensures svg == Document(SvgElements(wall, d), num)
  {
    var markup := MarkupOf(num);
    var caption := WidthCaption(d.width / 2.0, d.height + 20.0, wall.widthFeet);
    svg := markup(Header(d.width, d.height));
    svg := svg + markup(Background(d.width, d.height));
    var columns := VerticalGridSvg(wall.widthFeet, d, markup);
    var rows := HorizontalGridSvg(wall.heightFeet, d, markup);
    var fixtures := FixturesSvg(wall.fixtures, wall.heightFeet, d.pixelsPerInch, markup);
    svg := svg + columns + rows + fixtures + markup(caption) + markup(Close);

    SvgDocumentParts(wall, d, markup);
  }

  /** The vertical grid loop: one line per whole foot strictly inside the wall's width. */
  method VerticalGridSvg(widthFeet: real, d: DrawingDimensions, markup: Element -> string) returns (svg: string)
    ensures svg == FlatMap(VerticalLines(InteriorFeet(widthFeet), d), markup)
  {
    svg := "";
    ghost var lines: seq<Element> := [];
    var feet := 1;
    while (feet as real) < widthFeet
      invariant 1 <= feet <= InteriorFeet(widthFeet) + 1
      invariant lines == VerticalLines(feet - 1, d)
      invariant svg == FlatMap(lines, markup)
      decreases InteriorFeet(widthFeet) + 1 - feet
    {
      assert IsInteriorFoot(feet, widthFeet);
      var x := FeetToPixels(feet as real, d.pixelsPerInch);
      MarkupSnoc(lines, VerticalLine(x, d.height), markup);
      svg := svg + markup(VerticalLine(x, d.height));
      lines := lines + [VerticalLine(x, d.height)];
      feet := feet + 1;
    }
    assert !IsInteriorFoot(feet, widthFeet);
  }

  /** The horizontal grid loop: one line per whole foot strictly inside the wall's height, measured up from the bottom. */
  method HorizontalGridSvg(heightFeet: real, d: DrawingDimensions, markup: Element -> string) returns (svg: string)
    ensures svg == FlatMap(HorizontalLines(InteriorFeet(heightFeet), d), markup)
  {
    svg := "";
    ghost var lines: seq<Element> := [];
    var feet := 1;
    while (feet as real) < heightFeet
      invariant 1 <= feet <= InteriorFeet(heightFeet) + 1
      invariant lines == HorizontalLines(feet - 1, d)
      invariant svg == FlatMap(lines, markup)
      decreases InteriorFeet(heightFeet) + 1 - feet
    {
      assert IsInteriorFoot(feet, heightFeet);
      var y := d.height - FeetToPixels(feet as real, d.pixelsPerInch);
      MarkupSnoc(lines, HorizontalLine(y, d.width), markup);
      svg := svg + markup(HorizontalLine(y, d.width));
      lines := lines + [HorizontalLine(y, d.width)];
      feet := feet + 1;
    }
    assert !IsInteriorFoot(feet, heightFeet);
  }

  /** `wall.fixtures.forEach(...)`: each fixture's box and name. */
  method FixturesSvg(fixtures: seq<Fixture>, wallHeightFeet: real, pixelsPerInch: real, markup: Element -> string)
    returns (svg: string)
    ensures svg == FlatMap(FlatMap(fixtures, SvgFixtureBlock(wallHeightFeet, pixelsPerInch)), markup)
  {
    ghost var block := SvgFixtureBlock(wallHeightFeet, pixelsPerInch);
    svg := "";
    ghost var elements: seq<Element> := [];
    var i := 0;
    while i < |fixtures|
      invariant 0 <= i <= |fixtures|
      invariant elements == FlatMap(fixtures[..i], block)
      invariant svg == FlatMap(elements, markup)
    {
      var fixture := fixtures[i];
      var x := InchesToPixels(fixture.positionX, pixelsPerInch);
      var fixtureWidth := InchesToPixels(fixture.widthInches, pixelsPerInch);
      var fixtureHeight := InchesToPixels(fixture.heightInches, pixelsPerInch);
      var totalHeightPixels := FeetToPixels(wallHeightFeet, pixelsPerInch);
      var y := totalHeightPixels - InchesToPixels(fixture.positionY, pixelsPerInch) - fixtureHeight;
      var color := ColorFor(fixture.kind);
      var box := FixtureBox(x, y, fixtureWidth, fixtureHeight, color);
      var name := FixtureName(x + fixtureWidth / 2.0, y + fixtureHeight / 2.0, fixture.name);
      svg := svg + markup(box) + markup(name);

      FlatMapStep(fixtures, block, i);
      assert block(fixture) == [box, name];
      MarkupSnoc(elements, box, markup);
      MarkupSnoc(elements + [box], name, markup);
      assert elements + [box] + [name] == elements + [box, name];
      elements := elements + [box, name];
      i := i + 1;
    }
    assert fixtures[..i] == fixtures;
  }
}

/** What the SVG document contains, and how it agrees with the canvas drawing. */
module ElevationSvgFacts {
  import opened Types
  import opened Renderer
  import opened Canvas2D
  import opened Sequences
  import opened Elevation
  import opened ElevationFacts
  import opened ElevationSvg

  lemma {:induction false} VerticalLinesLength(n: nat, d: DrawingDimensions)
    ensures |VerticalLines(n, d)| == n
  {
    if n > 0 {
      VerticalLinesLength(n - 1, d);
    }
  }

  lemma {:induction false} HorizontalLinesLength(n: nat, d: DrawingDimensions)
    ensures |HorizontalLines(n, d)| == n
  {
    if n > 0 {
      HorizontalLinesLength(n - 1, d);
    }
  }

  /** Vertical line `i` is the one `i + 1` feet from the left edge, spanning the full canvas height. */
  lemma {:induction false} VerticalLineAt(n: nat, d: DrawingDimensions, i: int)
    requires 0 <= i < n
    ensures |VerticalLines(n, d)| == n
    ensures VerticalLines(n, d)[i] == VerticalLine(VerticalLineX(i + 1, d.pixelsPerInch), d.height)
  {
    VerticalLinesLength(n - 1, d);
    if i < n - 1 {
      VerticalLineAt(n - 1, d, i);
    }
  }

  /** Horizontal line `i` is the one `i + 1` feet above the bottom edge, spanning the full canvas width. */
  lemma {:induction false} HorizontalLineAt(n: nat, d: DrawingDimensions, i: int)
    requires 0 <= i < n
    ensures |HorizontalLines(n, d)| == n
    ensures HorizontalLines(n, d)[i] == HorizontalLine(HorizontalLineY(i + 1, d.height, d.pixelsPerInch), d.width)
  {
    HorizontalLinesLength(n - 1, d);
    if i < n - 1 {
      HorizontalLineAt(n - 1, d, i);
    }
  }

  /** Each SVG vertical grid line has the endpoints of the canvas grid line with the same index. */
  lemma SvgVerticalGridMatchesCanvas(n: nat, d: DrawingDimensions, t: Transform, i: int)
    requires 0 <= i < n
    ensures |VerticalLines(n, d)| == n == |VerticalGridMarks(n, d, t)|
    ensures var line := VerticalLines(n, d)[i];
            line.VerticalLine?
            && VerticalGridMarks(n, d, t)[i].paint
               == StrokedPath(GridColor, 0.5, [PathStep.MoveTo(line.x, 0.0), PathStep.LineTo(line.x, line.height)])
  {
    VerticalLineAt(n, d, i);
    VerticalGridMarkAt(n, d, t, i);
  }

  /** Each SVG horizontal grid line has the endpoints of the canvas grid line with the same index. */
  lemma SvgHorizontalGridMatchesCanvas(n: nat, d: DrawingDimensions, t: Transform, i: int)
    requires 0 <= i < n
    ensures |HorizontalLines(n, d)| == n == |HorizontalGridMarks(n, d, t)|
    ensures var line := HorizontalLines(n, d)[i];
            line.HorizontalLine?
            && HorizontalGridMarks(n, d, t)[i].paint
               == StrokedPath(GridColor, 0.5, [PathStep.MoveTo(0.0, line.y), PathStep.LineTo(line.width, line.y)])
  {
    HorizontalLineAt(n, d, i);
    HorizontalGridMarkAt(n, d, t, i);
  }

  /** A fixture's SVG box is the canvas rectangle in the canvas stroke colour, with the name at its centre. */
  lemma SvgFixtureIsCanvasRect(f: Fixture, wallHeightFeet: real, pixelsPerInch: real)
    ensures var r := FixtureRect(f, wallHeightFeet, pixelsPerInch);
            SvgFixture(f, wallHeightFeet, pixelsPerInch)
            == [FixtureBox(r.x, r.y, r.width, r.height, ColorFor(f.kind)),
                FixtureName(r.x + r.width / 2.0, r.y + r.height / 2.0, f.name)]
  {
  }

  lemma SvgFixtureBlockLength(wallHeightFeet: real, pixelsPerInch: real)
    ensures forall f :: |SvgFixtureBlock(wallHeightFeet, pixelsPerInch)(f)| == 2
  {
  }

  /** Where the fixture elements start: after the header, the background and the grid. */
  function SvgFixtureStart(wall: WallWithFixtures): nat {
    2 + InteriorFeet(wall.widthFeet) + InteriorFeet(wall.heightFeet)
  }

  /** Two elements per fixture, between the grid and the width caption. */
  lemma SvgElementsLength(wall: WallWithFixtures, d: DrawingDimensions)
    ensures |SvgElements(wall, d)| == SvgFixtureStart(wall) + 2 * |wall.fixtures| + 2
  {
    VerticalLinesLength(InteriorFeet(wall.widthFeet), d);
    HorizontalLinesLength(InteriorFeet(wall.heightFeet), d);
    SvgFixtureBlockLength(wall.heightFeet, d.pixelsPerInch);
    FlatMapLength(wall.fixtures, SvgFixtureBlock(wall.heightFeet, d.pixelsPerInch), 2);
  }

  /** Fixture `i`'s block of two elements sits right after the grid, two elements per earlier fixture. */
  lemma SvgBlockAt(wall: WallWithFixtures, d: DrawingDimensions, i: int)
    requires 0 <= i < |wall.fixtures|
    ensures var es := SvgElements(wall, d);
            var j := SvgFixtureStart(wall) + 2 * i;
            var own := SvgFixtureBlock(wall.heightFeet, d.pixelsPerInch)(wall.fixtures[i]);
            j + 1 < |es| && |own| == 2 && es[j] == own[0] && es[j + 1] == own[1]
  {
    var nv, nh := InteriorFeet(wall.widthFeet), InteriorFeet(wall.heightFeet);
    var block := SvgFixtureBlock(wall.heightFeet, d.pixelsPerInch);
    VerticalLinesLength(nv, d);
    HorizontalLinesLength(nh, d);
    SvgFixtureBlockLength(wall.heightFeet, d.pixelsPerInch);
    FlatMapAt(wall.fixtures, block, 2, i);
    var before := [Header(d.width, d.height), Background(d.width, d.height)] + VerticalLines(nv, d) + HorizontalLines(nh, d);
    var fixtures := FlatMap(wall.fixtures, block);
    var after := [WidthCaption(d.width / 2.0, d.height + 20.0, wall.widthFeet), Close];
    assert SvgElements(wall, d) == before + fixtures + after;
    PairInMiddle(before, fixtures, after, 2 * i);
    assert fixtures[2 * i] == fixtures[2 * i .. 2 * i + 2][0];
    assert fixtures[2 * i + 1] == fixtures[2 * i .. 2 * i + 2][1];
  }

  /** Fixture `i` contributes its box and its name right after the grid, two elements per earlier fixture. */
  lemma SvgFixtureAt(wall: WallWithFixtures, d: DrawingDimensions, i: int)
    requires 0 <= i < |wall.fixtures|
    ensures var es := SvgElements(wall, d);
            var j := SvgFixtureStart(wall) + 2 * i;
            var f := wall.fixtures[i];
            var r := FixtureRect(f, wall.heightFeet, d.pixelsPerInch);
            j + 1 < |es|
            && es[j] == FixtureBox(r.x, r.y, r.width, r.height, ColorFor(f.kind))
            && es[j + 1] == FixtureName(r.x + r.width / 2.0, r.y + r.height / 2.0, f.name)
  {
    SvgBlockAt(wall, d, i);
    SvgFixtureIsCanvasRect(wall.fixtures[i], wall.heightFeet, d.pixelsPerInch);
  }

  /**
   * Fixture `i` appears in the SVG as the box the canvas fills and strokes for
   * it (same rectangle, same colours), followed by its name at the box centre.
   */
  lemma SvgMatchesCanvas(wall: WallWithFixtures, d: DrawingDimensions, measure: (string, string) -> real,
                         baseline: string, t: Transform, i: int)
    requires 0 <= i < |wall.fixtures|
    ensures var es := SvgElements(wall, d);
            var all := ElevationMarks(wall, d, measure, baseline, t);
            var j := SvgFixtureStart(wall) + 2 * i;
            var k := FixtureLayerStart(wall) + 6 * i;
            j + 1 < |es| && k + 1 < |all|
            && es[j].FixtureBox?
            && all[k].paint == FilledRect(es[j].color + "40", es[j].x, es[j].y, es[j].width, es[j].height)
            && all[k + 1].paint == StrokedRect(es[j].color, 2.0, es[j].x, es[j].y, es[j].width, es[j].height)
            && es[j + 1] == FixtureName(es[j].x + es[j].width / 2.0, es[j].y + es[j].height / 2.0, wall.fixtures[i].name)
  {
    SvgFixtureAt(wall, d, i);
    ElevationShowsFixture(wall, d, measure, baseline, t, i);
  }

  /** Whatever each element's markup, the document opens with the header's and closes with the closing tag's. */
  lemma SvgFraming(wall: WallWithFixtures, d: DrawingDimensions, markup: Element -> string)
    ensures var doc := FlatMap(SvgElements(wall, d), markup);
            var header := markup(Header(d.width, d.height));
            var close := markup(Close);
            |header| + |close| <= |doc| && doc[..|header|] == header && doc[|doc| - |close|..] == close
  {
    SvgDocumentParts(wall, d, markup);
    var header := markup(Header(d.width, d.height));
    var close := markup(Close);
    var middle := markup(Background(d.width, d.height))
                  + FlatMap(VerticalLines(InteriorFeet(wall.widthFeet), d), markup)
                  + FlatMap(HorizontalLines(InteriorFeet(wall.heightFeet), d), markup)
                  + FlatMap(FlatMap(wall.fixtures, SvgFixtureBlock(wall.heightFeet, d.pixelsPerInch)), markup)
                  + markup(WidthCaption(d.width / 2.0, d.height + 20.0, wall.widthFeet));
    var doc := FlatMap(SvgElements(wall, d), markup);
    assert doc == header + middle + close;
    Framed(header, middle, close);
  }

  /** The document opens with the `<svg>` header sized to the drawing and closes with `</svg>`. */
  lemma SvgDocumentFraming(wall: WallWithFixtures, d: DrawingDimensions, num: real -> string)
    ensures var doc := Document(SvgElements(wall, d), num);
            var header := Markup(Header(d.width, d.height), num);
            |header| + 6 <= |doc| && doc[..|header|] == header && doc[|doc| - 6..] == "</svg>"
  {
    SvgFraming(wall, d, MarkupOf(num));
    assert MarkupOf(num)(Close) == "</svg>";
  }
}
