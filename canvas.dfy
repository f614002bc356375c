/**
 * An abstract 2-D canvas context: the calls the editor makes on it are
 * recorded, in order, in a command log, and the drawing state those calls
 * set (size, filter, fill style, compositing operation) is the replay of
 * that log. Pixels are not modelled.
 */
module Canvas2D {

  /** The CSS filter functions the editor uses. */
  datatype FilterFunction = Brightness | Contrast | Saturate | Grayscale | Sepia

  /** One `name(percent%)` entry of a CSS filter list. */
  datatype FilterToken = FilterToken(name: FilterFunction, percent: real)

  datatype Rgba = Rgba(red: int, green: int, blue: int, alpha: real)

  datatype CompositeOp = SourceOver | Overlay

  /** One call on the canvas or its context, in the order it was made. */
  datatype Command =
    | Resized(width: int, height: int)
    | FilterSet(filter: seq<FilterToken>)
    | TransformReset
    | Translated(dx: real, dy: real)
    | Rotated(degrees: real)
    | Scaled(sx: real, sy: real)
    | ImageDrawn(source: string, x: real, y: real, w: real, h: real)
    | FillStyleSet(color: Rgba)
    | CompositeSet(op: CompositeOp)
    | RectFilled(x: real, y: real, w: real, h: real)

  /** The drawing state of a canvas and its context. An empty filter list
      is the filter "none". */
  datatype CanvasState = CanvasState(
    width: int,
    height: int,
    filter: seq<FilterToken>,
    fillStyle: Rgba,
    composite: CompositeOp)

  const Black := Rgba(0, 0, 0, 1.0)

  /** A fresh canvas is 300 by 150 with the context's default state. */
  const Fresh := CanvasState(300, 150, [], Black, SourceOver)

  /** The effect of one call on the drawing state. Setting the canvas size
      resets the context to its default state. */
  function Step(st: CanvasState, c: Command): (next: CanvasState)
  {
    match c
    case Resized(w, h) => CanvasState(w, h, [], Black, SourceOver)
    case FilterSet(f) => st.(filter := f)
    case FillStyleSet(color) => st.(fillStyle := color)
    case CompositeSet(op) => st.(composite := op)
    case _ => st
  }

  /** The drawing state after the calls of `log`, made in order from `st`. */
  function Replay(st: CanvasState, log: seq<Command>): (final: CanvasState)
  {
    if log == [] then st else Step(Replay(st, log[..|log| - 1]), log[|log| - 1])
  }

  lemma ReplayPrefix(st: CanvasState, log: seq<Command>, k: nat)
    requires 0 < k <= |log|
    ensures Replay(st, log[..k]) == Step(Replay(st, log[..k - 1]), log[k - 1])
  {
    assert log[..k][..k - 1] == log[..k - 1];
  }

  /** Replaying two logs one after the other is replaying their concatenation. */
  lemma {:induction false} ReplayConcat(st: CanvasState, a: seq<Command>, b: seq<Command>)
    ensures Replay(st, a + b) == Replay(Replay(st, a), b)
  {
    if b == [] {
      assert a + b == a;
    } else {
      var b' := b[..|b| - 1];
      assert (a + b)[..|a + b| - 1] == a + b';
      ReplayConcat(st, a, b');
    }
  }

  /** A canvas whose calls are recorded in `log`. Each call changes the
      fields as `Step` says, the step that `Replay` folds over a log. */
  class Canvas {
    var width: int
    var height: int
    var filter: seq<FilterToken>
    var fillStyle: Rgba
    var composite: CompositeOp
    var log: seq<Command>

    /** The drawing state held in the fields. */
    function State(): (st: CanvasState)
      reads this
    {
      CanvasState(width, height, filter, fillStyle, composite)
    }

    constructor ()
      ensures log == [] && State() == Fresh
    {
      width, height := 300, 150;
      filter, fillStyle, composite := [], Black, SourceOver;
      log := [];
    }

    /** Records `c` and applies its effect to the drawing state. */
    method Perform(c: Command)
      modifies this
      ensures log == old(log) + [c]
      ensures State() == Step(old(State()), c)
    {
      var next := Step(State(), c);
      width, height, filter := next.width, next.height, next.filter;
      fillStyle, composite := next.fillStyle, next.composite;
      log := log + [c];
    }

    /** `canvas.width = w; canvas.height = h`. */
    method SetSize(w: int, h: int)
      modifies this
      ensures log == old(log) + [Resized(w, h)]
      ensures State() == CanvasState(w, h, [], Black, SourceOver)
    {
      Perform(Resized(w, h));
    }

    /** `ctx.filter = f`. */
    method SetFilter(f: seq<FilterToken>)
      modifies this
      ensures log == old(log) + [FilterSet(f)]
      ensures State() == old(State()).(filter := f)
    {
      Perform(FilterSet(f));
    }

    /** `ctx.resetTransform()`. */
    method ResetTransform()
      modifies this
      ensures log == old(log) + [TransformReset]
      ensures State() == old(State())
    {
      Perform(TransformReset);
    }

    /** `ctx.translate(dx, dy)`. */
    method Translate(dx: real, dy: real)
      modifies this
      ensures log == old(log) + [Translated(dx, dy)]
      ensures State() == old(State())
    {
      Perform(Translated(dx, dy));
    }

    /** `ctx.rotate(θ)`, with the angle given in degrees. */
    method Rotate(degrees: real)
      modifies this
      ensures log == old(log) + [Rotated(degrees)]
      ensures State() == old(State())
    {
      Perform(Rotated(degrees));
    }

    /** `ctx.scale(sx, sy)`. */
    method Scale(sx: real, sy: real)
      modifies this
      ensures log == old(log) + [Scaled(sx, sy)]
      ensures State() == old(State())
    {
      Perform(Scaled(sx, sy));
    }

    /** `ctx.drawImage(img, x, y, w, h)` for the image loaded from `source`. */
    method DrawImage(source: string, x: real, y: real, w: real, h: real)
      modifies this
      ensures log == old(log) + [ImageDrawn(source, x, y, w, h)]
      ensures State() == old(State())
    {
      Perform(ImageDrawn(source, x, y, w, h));
    }

    /** `ctx.fillStyle = color`. */
    method SetFillStyle(color: Rgba)
      modifies this
      ensures log == old(log) + [FillStyleSet(color)]
      ensures State() == old(State()).(fillStyle := color)
    {
      Perform(FillStyleSet(color));
    }

    /** `ctx.globalCompositeOperation = op`. */
    method SetComposite(op: CompositeOp)
      modifies this
      ensures log == old(log) + [CompositeSet(op)]
      ensures State() == old(State()).(composite := op)
    {
      Perform(CompositeSet(op));
    }

    /** `ctx.fillRect(x, y, w, h)`. */
    method FillRect(x: real, y: real, w: real, h: real)
      modifies this
      ensures log == old(log) + [RectFilled(x, y, w, h)]
      ensures State() == old(State())
    {
      Perform(RectFilled(x, y, w, h));
    }
  }
}
