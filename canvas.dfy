/**
 * The 2D drawing surface, seen as an opaque recorder of drawing commands.
 *
 * Nothing is rasterised: each drawing call appends the operation, together
 * with the full drawing state in force at that moment, to a log. The state
 * follows the canvas model: `save` pushes it, `restore` pops it (and does
 * nothing on an empty stack), `clip` intersects the clip with the current
 * path, and the current path is not part of the saved state.
 */
module Canvas {
  import opened Wrappers

  datatype Point = Point(x: real, y: real)

  /** The width and height an image is scaled to. */
  datatype Size = Size(w: real, h: real)

  /** A command of the current path. */
  datatype PathCmd =
    | MoveTo(p: Point)
    | ArcTo(corner: Point, toward: Point, radius: real)
    | ClosePath

  type Path = seq<PathCmd>

  /** A number as the source computes it: finite, or NaN (as for 0/0). */
  datatype Number = Num(value: real) | NaN

  /** A colour channel as `parseInt` yields it: a value, or None for NaN. */
  type Channel = Option<nat>

  datatype Colour =
    | Css(text: string)
    | Rgba(r: Channel, g: Channel, b: Channel, alpha: real)

  datatype ColourStop = ColourStop(offset: Number, colour: Colour)

  datatype Gradient =
    | Linear(start: Point, end: Point, stops: seq<ColourStop>)
    | Radial(centre: Point, innerRadius: real, outerRadius: real, stops: seq<ColourStop>)

  datatype Paint = Solid(colour: Colour) | Fill(gradient: Gradient)

  datatype CompositeOp = SourceOver | Lighten

  datatype TextAlign = AlignStart | AlignLeft

  datatype Shadow = Shadow(colour: string, blur: real, offsetY: real)

  /** The part of the context that `save` and `restore` preserve. */
  datatype DrawState = DrawState(
    fillStyle: Paint,
    composite: CompositeOp,
    font: string,
    align: TextAlign,
    shadow: Shadow,
    clips: seq<Path>)

  const NoShadow := Shadow("rgba(0, 0, 0, 0)", 0.0, 0.0)

  const InitialState := DrawState(Solid(Css("#000000")), SourceOver, "10px sans-serif", AlignStart, NoShadow, [])

  /** An image source: a decoded bitmap, or another canvas with what was drawn on it. */
  datatype Image =
    | Bitmap(url: string)
    | Surface(width: real, height: real, content: seq<Draw>)

  datatype DrawOp =
    | ClearRect(x: real, y: real, w: real, h: real)
    | FillRect(x: real, y: real, w: real, h: real)
    | FillText(text: string, x: real, y: real)
    | DrawImage(image: Image, x: real, y: real, size: Option<Size>)

  /** One logged drawing call with the state it was drawn under. */
  datatype Draw = Draw(op: DrawOp, state: DrawState)

  class Context2D {
    const width: real
    const height: real
    var log: seq<Draw>
    var state: DrawState
    var stack: seq<DrawState>
    var path: Path

    constructor (width: real, height: real)
      ensures this.width == width && this.height == height
      ensures log == [] && state == InitialState && stack == [] && path == []
    {
      this.width, this.height := width, height;
      log, state, stack, path := [], InitialState, [], [];
    }

    /** The content of this canvas as an image source for another canvas. */
    function AsImage(): (img: Image)
      reads this
      ensures img.Surface? && img.content == log
      ensures img.width == width && img.height == height
    {
      Surface(width, height, log)
    }

    method BeginPath()
      modifies this`path
      ensures path == []
    {
      path := [];
    }

    method MoveTo(x: real, y: real)
      modifies this`path
      ensures path == old(path) + [PathCmd.MoveTo(Point(x, y))]
    {
      path := path + [PathCmd.MoveTo(Point(x, y))];
    }

    method ArcTo(x1: real, y1: real, x2: real, y2: real, radius: real)
      modifies this`path
      ensures path == old(path) + [PathCmd.ArcTo(Point(x1, y1), Point(x2, y2), radius)]
    {
      path := path + [PathCmd.ArcTo(Point(x1, y1), Point(x2, y2), radius)];
    }

    method ClosePath()
      modifies this`path
      ensures path == old(path) + [PathCmd.ClosePath]
    {
      path := path + [PathCmd.ClosePath];
    }

    method Save()
      modifies this`stack
      ensures stack == old(stack) + [state]
    {
      stack := stack + [state];
    }

    /** Pops the saved state; on an empty stack nothing happens. */
    method Restore()
      modifies this`stack, this`state
      ensures old(stack) == [] ==> stack == [] && state == old(state)
      ensures old(stack) != [] ==> stack == old(stack)[..|old(stack)| - 1] && state == old(stack)[|old(stack)| - 1]
    {
      if stack != [] {
        state := stack[|stack| - 1];
        stack := stack[..|stack| - 1];
      }
    }

    method Clip()
      modifies this`state
      ensures state == old(state).(clips := old(state).clips + [path])
    {
      state := state.(clips := state.clips + [path]);
    }

    method SetFillStyle(p: Paint)
      modifies this`state
      ensures state == old(state).(fillStyle := p)
    {
      state := state.(fillStyle := p);
    }

    method SetFont(font: string)
      modifies this`state
      ensures state == old(state).(font := font)
    {
      state := state.(font := font);
    }

    method SetTextAlign(align: TextAlign)
      modifies this`state
      ensures state == old(state).(align := align)
    {
      state := state.(align := align);
    }

    method SetComposite(op: CompositeOp)
      modifies this`state
      ensures state == old(state).(composite := op)
    {
      state := state.(composite := op);
    }

    method SetShadowColour(colour: string)
      modifies this`state
      ensures state == old(state).(shadow := old(state).shadow.(colour := colour))
    {
      state := state.(shadow := state.shadow.(colour := colour));
    }

    method SetShadowBlur(blur: real)
      modifies this`state
      ensures state == old(state).(shadow := old(state).shadow.(blur := blur))
    {
      state := state.(shadow := state.shadow.(blur := blur));
    }

    method SetShadowOffsetY(dy: real)
      modifies this`state
      ensures state == old(state).(shadow := old(state).shadow.(offsetY := dy))
    {
      state := state.(shadow := state.shadow.(offsetY := dy));
    }

    method ClearRect(x: real, y: real, w: real, h: real)
      modifies this`log
      ensures log == old(log) + [Draw(DrawOp.ClearRect(x, y, w, h), state)]
    {
      log := log + [Draw(DrawOp.ClearRect(x, y, w, h), state)];
    }

    method FillRect(x: real, y: real, w: real, h: real)
      modifies this`log
      ensures log == old(log) + [Draw(DrawOp.FillRect(x, y, w, h), state)]
    {
      log := log + [Draw(DrawOp.FillRect(x, y, w, h), state)];
    }

    method FillText(text: string, x: real, y: real)
      modifies this`log
      ensures log == old(log) + [Draw(DrawOp.FillText(text, x, y), state)]
    {
      log := log + [Draw(DrawOp.FillText(text, x, y), state)];
    }

    /** drawImage(img, x, y) when `size` is None, drawImage(img, x, y, w, h) otherwise. */
    method DrawImage(img: Image, x: real, y: real, size: Option<Size>)
      modifies this`log
      ensures log == old(log) + [Draw(DrawOp.DrawImage(img, x, y, size), state)]
    {
      log := log + [Draw(DrawOp.DrawImage(img, x, y, size), state)];
    }
  }
}
