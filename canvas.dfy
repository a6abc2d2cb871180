/**
 * The slice of the HTML canvas 2D context that the elevation renderer
 * drives: the style properties it assigns, the current path, the
 * save/restore stack and the transform (which only ever combines
 * translations with quarter turns here). Every painting call appends a
 * `Mark` to `log`, carrying the style and transform in force, so the log
 * is what ends up on screen in painting order.
 */
module Canvas2D {

  /** A translation followed by `quarterTurnsBack` rotations of -90 degrees (0 to 3). */
  datatype Transform = Transform(originX: real, originY: real, quarterTurnsBack: int)

  const Identity := Transform(0.0, 0.0, 0)

  /** The rotation `rotate(-turns * PI / 2)` applied to the vector (x, y). */
  function RotateVector(turns: int, x: real, y: real): (v: (real, real))
    ensures turns % 4 == 0 ==> v == (x, y)
    ensures turns % 4 == 1 ==> v == (y, -x)
  {
    match turns % 4
    case 0 => (x, y)
    case 1 => (y, -x)
    case 2 => (-x, -y)
    case _ => (-y, x)
  }

  /** `translate(dx, dy)`: the offset is taken in the current (possibly rotated) axes. */
  function Translated(t: Transform, dx: real, dy: real): Transform {
    var v := RotateVector(t.quarterTurnsBack, dx, dy);
    Transform(t.originX + v.0, t.originY + v.1, t.quarterTurnsBack)
  }

  /** `rotate(-Math.PI / 2)`. */
  function RotatedBack(t: Transform): Transform {
    Transform(t.originX, t.originY, (t.quarterTurnsBack + 1) % 4)
  }

  /** Where the user-space point (x, y) lands on the canvas under `t`. */
  function DevicePoint(t: Transform, x: real, y: real): (real, real) {
    var v := RotateVector(t.quarterTurnsBack, x, y);
    (t.originX + v.0, t.originY + v.1)
  }

  /** Translating and then drawing at (x, y) is drawing at (x + dx, y + dy). */
  lemma TranslatedMovesOrigin(t: Transform, dx: real, dy: real, x: real, y: real)
    requires t.quarterTurnsBack % 4 == 0
    ensures DevicePoint(Translated(t, dx, dy), x, y) == DevicePoint(t, x + dx, y + dy)
  {
  }

  /** Text of a label; the numeric ones are rendered with JavaScript's number-to-string conversion. */
  datatype Label =
    | Plain(text: string)
    | InchesMark(inches: real)  // `${inches}"`
    | FeetMark(feet: real)      // `${feet}' - 0"`

  /** One step of a path. */
  datatype PathStep = MoveTo(x: real, y: real) | LineTo(x: real, y: real)

  /** What a painting call puts on the canvas, with the style it used. */
  datatype Paint =
    | Clear(x: real, y: real, width: real, height: real)
    | FilledRect(fill: string, x: real, y: real, width: real, height: real)
    | StrokedRect(stroke: string, lineWidth: real, x: real, y: real, width: real, height: real)
    | StrokedPath(stroke: string, lineWidth: real, path: seq<PathStep>)
    | Text(fill: string, font: string, align: string, baseline: string, caption: Label, x: real, y: real)

  /** A painting call and the transform it was drawn under. */
  datatype Mark = Mark(paint: Paint, at: Transform)

  /** The drawing state: every property `save()` records and `restore()` puts back. */
  datatype DrawingState = DrawingState(
    fillStyle: string, strokeStyle: string, lineWidth: real,
    font: string, textAlign: string, textBaseline: string, transform: Transform)

  /** The state of a freshly sized canvas. */
  const DefaultState := DrawingState("#000000", "#000000", 1.0, "10px sans-serif", "start", "alphabetic", Identity)

  class Canvas {
    var state: DrawingState
    var path: seq<PathStep>
    var stack: seq<DrawingState>
    var log: seq<Mark>
    /** `measureText(text).width` for a font; font metrics are not modelled. */
    const measureText: (string, string) -> real

    /** A freshly sized canvas: every property at its default, nothing painted. */
    constructor (measureText: (string, string) -> real)
      ensures state == DefaultState && path == [] && stack == [] && log == []
      ensures this.measureText == measureText
    {
      state, path, stack, log := DefaultState, [], [], [];
      this.measureText := measureText;
    }

    /** `ctx.fillStyle = style`. */
    method SetFillStyle(style: string)
      modifies this`state
      ensures state == old(state).(fillStyle := style)
    {
      state := state.(fillStyle := style);
    }

    /** `ctx.strokeStyle = style`. */
    method SetStrokeStyle(style: string)
      modifies this`state
      ensures state == old(state).(strokeStyle := style)
    {
      state := state.(strokeStyle := style);
    }

    /** `ctx.lineWidth = width`. */
    method SetLineWidth(width: real)
      modifies this`state
      ensures state == old(state).(lineWidth := width)
    {
      state := state.(lineWidth := width);
    }

    /** `ctx.font = font`. */
    method SetFont(font: string)
      modifies this`state
      ensures state == old(state).(font := font)
    {
      state := state.(font := font);
    }

    /** `ctx.textAlign = align`. */
    method SetTextAlign(align: string)
      modifies this`state
      ensures state == old(state).(textAlign := align)
    {
      state := state.(textAlign := align);
    }

    /** `ctx.textBaseline = baseline`. */
    method SetTextBaseline(baseline: string)
      modifies this`state
      ensures state == old(state).(textBaseline := baseline)
    {
      state := state.(textBaseline := baseline);
    }

    method ClearRect(x: real, y: real, w: real, h: real)
      modifies this`log
      ensures log == old(log) + [Mark(Clear(x, y, w, h), state.transform)]
    {
      log := log + [Mark(Clear(x, y, w, h), state.transform)];
    }

    method FillRect(x: real, y: real, w: real, h: real)
      modifies this`log
      ensures log == old(log) + [Mark(FilledRect(state.fillStyle, x, y, w, h), state.transform)]
    {
      log := log + [Mark(FilledRect(state.fillStyle, x, y, w, h), state.transform)];
    }

    method StrokeRect(x: real, y: real, w: real, h: real)
      modifies this`log
      ensures log == old(log) + [Mark(StrokedRect(state.strokeStyle, state.lineWidth, x, y, w, h), state.transform)]
    {
      log := log + [Mark(StrokedRect(state.strokeStyle, state.lineWidth, x, y, w, h), state.transform)];
    }

    method BeginPath()
      modifies this`path
      ensures path == []
    {
      path := [];
    }

    method MoveTo(x: real, y: real)
      modifies this`path
      ensures path == old(path) + [PathStep.MoveTo(x, y)]
    {
      path := path + [PathStep.MoveTo(x, y)];
    }

    method LineTo(x: real, y: real)
      modifies this`path
      ensures path == old(path) + [PathStep.LineTo(x, y)]
    {
      path := path + [PathStep.LineTo(x, y)];
    }

    method Stroke()
      modifies this`log
      ensures log == old(log) + [Mark(StrokedPath(state.strokeStyle, state.lineWidth, path), state.transform)]
    {
      log := log + [Mark(StrokedPath(state.strokeStyle, state.lineWidth, path), state.transform)];
    }

    method FillText(caption: Label, x: real, y: real)
      modifies this`log
      ensures log == old(log) + [Mark(Text(state.fillStyle, state.font, state.textAlign, state.textBaseline, caption, x, y), state.transform)]
    {
      log := log + [Mark(Text(state.fillStyle, state.font, state.textAlign, state.textBaseline, caption, x, y), state.transform)];
    }

    /** `save()`. */
    method PushState()
      modifies this`stack
      ensures stack == old(stack) + [state]
    {
      stack := stack + [state];
    }

    /** `restore()`: pops the last saved state; with nothing saved it does nothing. */
    method PopState()
      modifies this`stack, this`state
      ensures old(stack) == [] ==> stack == [] && state == old(state)
      ensures old(stack) != [] ==> stack == old(stack[..|stack| - 1]) && state == old(stack[|stack| - 1])
    {
      if stack != [] {
        state := stack[|stack| - 1];
        stack := stack[..|stack| - 1];
      }
    }

    method Translate(dx: real, dy: real)
      modifies this`state
      ensures state == old(state).(transform := Translated(old(state.transform), dx, dy))
    {
      state := state.(transform := Translated(state.transform, dx, dy));
    }

    method RotateQuarterTurnBack()
      modifies this`state
      ensures state == old(state).(transform := RotatedBack(old(state.transform)))
    {
      state := state.(transform := RotatedBack(state.transform));
    }
  }
}
