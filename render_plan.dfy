/**
 * What the editor's draw routine does with its state, as a value: the CSS
 * filter list it builds, the temperature overlay it chooses and the
 * sequence of canvas calls it makes, with the properties of that plan.
 */
module RenderPlan {
  import opened Canvas2D
  import opened Affine

  datatype Option<T> = None | Some(value: T)

  /** A `string | null` in a JavaScript boolean context: null and the empty
      string are false. */
  predicate Truthy(s: Option<string>)
  {
    s.Some? && s.value != ""
  }

  /** JavaScript's `a || b` on two `string | null` values. */
  function Or(a: Option<string>, b: Option<string>): (r: Option<string>)
    ensures Truthy(r) <==> Truthy(a) || Truthy(b)
    ensures Truthy(a) ==> r == a
    ensures !Truthy(a) ==> r == b
  {
    if Truthy(a) then a else b
  }

  /** The editor's adjustment state. */
  datatype EditorState = EditorState(
    width: int,
    height: int,
    brightness: real,
    contrast: real,
    exposure: real,
    saturation: real,
    rotation: int,
    arbitraryRotation: real,
    filter: string,
    flipHorizontal: bool,
    flipVertical: bool,
    temperature: real,
    preview: Option<string>,
    modalOpen: bool)

  /** The state the editor starts in. */
  const Initial := EditorState(
    400, 400, 100.0, 100.0, 100.0, 100.0, 0, 0.0, "none",
    false, false, 6500.0, None, false)

  /** The image the crop dialog is given, and the image the canvas draws:
      the cropped preview if there is one, else the uploaded image. */
  function SourceImage(st: EditorState, image: Option<string>): (source: Option<string>)
  {
    Or(st.preview, image)
  }

  // ---------------------------------------------------------------------
  // Filter list

  /** The filter list a preset appends after the base adjustments. */
  function PresetFilter(preset: string): (r: seq<FilterToken>)
    ensures r == [] <==> preset != "grayscale" && preset != "sepia" && preset != "vintage"
    ensures forall t :: t in r ==> 0.0 < t.percent <= 120.0
  {
    if preset == "grayscale" then [FilterToken(Grayscale, 100.0)]
    else if preset == "sepia" then [FilterToken(Sepia, 100.0)]
    else if preset == "vintage" then
      [FilterToken(Sepia, 70.0), FilterToken(Contrast, 85.0), FilterToken(Saturate, 120.0)]
    else []
  }

  /** The percentage given to `brightness(...)`: the brightness slider scaled
      by the exposure slider read as a percentage. */
  function BrightnessPercent(st: EditorState): (percent: real)
  {
    st.brightness * (st.exposure / 100.0)
  }

  /** The filter list the draw routine sets: brightness, contrast and
      saturate from the sliders, then the preset's suffix. */
  function FilterChain(st: EditorState): (chain: seq<FilterToken>)
  {
    [FilterToken(Brightness, BrightnessPercent(st)),
     FilterToken(Contrast, st.contrast),
     FilterToken(Saturate, st.saturation)]
    + PresetFilter(st.filter)
  }

  /** The filter list always starts with brightness, contrast and saturate,
      in that order, and then carries exactly the preset's suffix. */
  lemma FilterChainShape(st: EditorState)
    ensures |FilterChain(st)| >= 3
    ensures FilterChain(st)[0] == FilterToken(Brightness, st.brightness * st.exposure / 100.0)
    ensures FilterChain(st)[1] == FilterToken(Contrast, st.contrast)
    ensures FilterChain(st)[2] == FilterToken(Saturate, st.saturation)
    ensures FilterChain(st)[3..] == PresetFilter(st.filter)
  {
  }

  /** At full exposure the brightness slider is passed on unchanged. */
  lemma NeutralExposure(st: EditorState)
    requires st.exposure == 100.0
    ensures BrightnessPercent(st) == st.brightness
  {
  }

  // ---------------------------------------------------------------------
  // Temperature overlay

  /** `Math.min` on two numbers. */
  function Min(a: real, b: real): (r: real)
    ensures r <= a && r <= b && (r == a || r == b)
  {
    if a <= b then a else b
  }

  /** Orange, more opaque the further the temperature is above 6500 K. */
  function WarmColor(temperature: real): (color: Rgba)
  {
    Rgba(255, 165, 0, Min((temperature - 6500.0) / 3500.0, 1.0))
  }

  /** Deep sky blue, more opaque the further the temperature is below 6500 K. */
  function CoolColor(temperature: real): (color: Rgba)
  {
    Rgba(0, 191, 255, Min((6500.0 - temperature) / 3500.0, 1.0))
  }

  /** The colour filled over the image, if any. */
  function OverlayColor(temperature: real): (c: Option<Rgba>)
    ensures c.None? <==> temperature == 6500.0
    ensures c.Some? ==> 0.0 < c.value.alpha <= 1.0
    ensures temperature > 6500.0 ==> c.Some? && c.value.red == 255 && c.value.green == 165 && c.value.blue == 0
    ensures temperature < 6500.0 ==> c.Some? && c.value.red == 0 && c.value.green == 191 && c.value.blue == 255
  {
    if temperature > 6500.0 then Some(WarmColor(temperature))
    else if temperature < 6500.0 then Some(CoolColor(temperature))
    else None
  }

  /** The overlay's opacity grows linearly with the distance from 6500 K and
      is capped at 1 from 3500 K away on. */
  lemma OverlayAlpha(temperature: real)
    requires temperature != 6500.0
    ensures var d := if temperature > 6500.0 then temperature - 6500.0 else 6500.0 - temperature;
      OverlayColor(temperature).value.alpha == if d >= 3500.0 then 1.0 else d / 3500.0
  {
  }

  /** Temperatures equally far above and below 6500 K get overlays of equal
      opacity. */
  lemma OverlaySymmetric(d: real)
    requires d > 0.0
    ensures OverlayColor(6500.0 + d).value.alpha == OverlayColor(6500.0 - d).value.alpha
  {
  }

  /** The calls of the temperature overlay: nothing at 6500 K; otherwise the
      colour is filled over the canvas with the "overlay" compositing
      operation, which is then set back to "source-over". */
  function TemperatureCommands(temperature: real, width: int, height: int): (calls: seq<Command>)
  {
    match OverlayColor(temperature)
    case None => []
    case Some(color) =>
      [FillStyleSet(color), CompositeSet(Overlay),
       RectFilled(0.0, 0.0, width as real, height as real),
       CompositeSet(SourceOver)]
  }

  /** Whatever compositing operation the context had, the overlay leaves it
      at "source-over" after filling, and fills only under "overlay" with
      the overlay colour; at 6500 K it makes no call at all. */
  lemma TemperatureCommandsComposite(temperature: real, width: int, height: int, st: CanvasState)
    ensures var log := TemperatureCommands(temperature, width, height);
      && (log == [] <==> temperature == 6500.0)
      && (log != [] ==> Replay(st, log) == st.(fillStyle := OverlayColor(temperature).value, composite := SourceOver))
      && (forall i :: 0 <= i < |log| && log[i].RectFilled? ==>
            Replay(st, log[..i]) == st.(fillStyle := OverlayColor(temperature).value, composite := Overlay))
  {
    var log := TemperatureCommands(temperature, width, height);
    if log != [] {
      var color := OverlayColor(temperature).value;
      assert log[..1] == [FillStyleSet(color)];
      assert log[..2] == log[..1] + [CompositeSet(Overlay)];
      assert log[..3] == log[..2] + [log[2]];
      assert log == log[..3] + [CompositeSet(SourceOver)];
      assert Replay(st, log[..1]) == st.(fillStyle := color);
      assert Replay(st, log[..2]) == st.(fillStyle := color, composite := Overlay);
      assert Replay(st, log[..3]) == Replay(st, log[..2]);
    }
  }

  // ---------------------------------------------------------------------
  // Draw plan

  /** The scale factor of one axis: -1 mirrors it. */
  function ScaleFactor(flipped: bool): (k: real)
    ensures k == -1.0 <==> flipped
    ensures k == 1.0 <==> !flipped
  {
    if flipped then -1.0 else 1.0
  }

  /** The rotation angle in degrees: the button rotation plus the typed angle. */
  function Angle(st: EditorState): (degrees: real)
  {
    st.rotation as real + st.arbitraryRotation
  }

  /** The calls that rotate and flip about the centre of the canvas. */
  function TransformCommands(st: EditorState): (calls: seq<Command>)
  {
    var w, h := st.width as real, st.height as real;
    [TransformReset,
     Translated(w / 2.0, h / 2.0),
     Rotated(Angle(st)),
     Scaled(ScaleFactor(st.flipHorizontal), ScaleFactor(st.flipVertical)),
     Translated(-w / 2.0, -h / 2.0)]
  }

  /** The calls before the image is drawn: resize, set the filter, then
      rotate and flip about the centre of the canvas. */
  function SetupCommands(st: EditorState): (calls: seq<Command>)
  {
    [Resized(st.width, st.height), FilterSet(FilterChain(st))] + TransformCommands(st)
  }

  /** The calls the draw routine makes on the canvas: none when neither a
      preview nor an image is set; otherwise the set-up calls, the image
      drawn over the whole canvas, then the temperature overlay. */
  function DrawPlan(st: EditorState, image: Option<string>): (plan: seq<Command>)
  {
    var source := SourceImage(st, image);
    if !Truthy(source) then []
    else
      SetupCommands(st)
      + [ImageDrawn(source.value, 0.0, 0.0, st.width as real, st.height as real)]
      + TemperatureCommands(st.temperature, st.width, st.height)
  }

  /** Whatever state the canvas was in, the set-up calls leave it at the
      editor's size with the editor's filter list and otherwise the
      context's default state. */
  lemma {:induction false} SetupCanvasState(st: EditorState, before: CanvasState)
    ensures Replay(before, SetupCommands(st))
      == CanvasState(st.width, st.height, FilterChain(st), Black, SourceOver)
  {
    var s := SetupCommands(st);
    assert s[..0] == [];
    ReplayPrefix(before, s, 1);
    ReplayPrefix(before, s, 2);
    ReplayPrefix(before, s, 3);
    ReplayPrefix(before, s, 4);
    ReplayPrefix(before, s, 5);
    ReplayPrefix(before, s, 6);
    ReplayPrefix(before, s, 7);
    assert s[..7] == s;
  }

  /** The transform the set-up calls leave in effect on a fresh context. */
  lemma {:induction false} SetupTransformFresh(st: EditorState, trig: real -> Point)
    ensures var cx, cy := st.width as real / 2.0, st.height as real / 2.0;
      TransformAfter(SetupCommands(st), trig)
        == Then(Then(Then(Then(Identity, Translation(cx, cy)), RotationMatrix(trig(Angle(st)))),
                     Scaling(ScaleFactor(st.flipHorizontal), ScaleFactor(st.flipVertical))),
                Translation(-cx, -cy))
  {
    var s := SetupCommands(st);
    assert s[..0] == [];
    TransformAfterPrefix(s, 1, trig);
    TransformAfterPrefix(s, 2, trig);
    TransformAfterPrefix(s, 3, trig);
    TransformAfterPrefix(s, 4, trig);
    TransformAfterPrefix(s, 5, trig);
    TransformAfterPrefix(s, 6, trig);
    TransformAfterPrefix(s, 7, trig);
    assert s[..7] == s;
  }

  /** The transform the set-up calls leave in effect, whatever calls were
      made on the canvas before them: the resize and `resetTransform()`
      discard any earlier transform. */
  lemma SetupTransform(st: EditorState, prior: seq<Command>, trig: real -> Point)
    ensures var cx, cy := st.width as real / 2.0, st.height as real / 2.0;
      TransformAfter(prior + SetupCommands(st), trig)
        == Then(Then(Then(Then(Identity, Translation(cx, cy)), RotationMatrix(trig(Angle(st)))),
                     Scaling(ScaleFactor(st.flipHorizontal), ScaleFactor(st.flipVertical))),
                Translation(-cx, -cy))
  {
    TransformAfterConcat(prior, SetupCommands(st), trig);
    SetupTransformFresh(st, trig);
  }

  /** The draw plan is empty exactly when `preview || image` is falsy, that
      is, when neither is a non-empty string. */
  lemma NothingDrawnWithoutSource(st: EditorState, image: Option<string>)
    ensures DrawPlan(st, image) == [] <==> !Truthy(st.preview) && !Truthy(image)
  {
  }

  /** The order of the calls, and the image drawn: the preview when it is
      set, else the uploaded image, which is also what the crop dialog is
      given. The second translation is the exact negation of the first. */
  lemma DrawPlanOrder(st: EditorState, image: Option<string>)
    requires Truthy(st.preview) || Truthy(image)
    ensures var plan := DrawPlan(st, image);
      var w, h := st.width as real, st.height as real;
      && |plan| >= 8
      && plan[0] == Resized(st.width, st.height)
      && plan[1] == FilterSet(FilterChain(st))
      && plan[2] == TransformReset
      && plan[3] == Translated(w / 2.0, h / 2.0)
      && plan[4] == Rotated(st.rotation as real + st.arbitraryRotation)
      && plan[5] == Scaled(ScaleFactor(st.flipHorizontal), ScaleFactor(st.flipVertical))
      && plan[6] == Translated(-plan[3].dx, -plan[3].dy)
      && plan[7] == ImageDrawn(if Truthy(st.preview) then st.preview.value else image.value, 0.0, 0.0, w, h)
      && Some(plan[7].source) == SourceImage(st, image)
      && plan[8..] == TemperatureCommands(st.temperature, st.width, st.height)
  {
  }

  /** The canvas state a draw leaves: the editor's size and filter list,
      "source-over" compositing, and the overlay colour as fill style, or
      the default black when no overlay was filled. */
  function AfterDraw(st: EditorState): (after: CanvasState)
    ensures after.composite == SourceOver && after.filter == FilterChain(st)
    ensures after.fillStyle == Black <==> st.temperature == 6500.0
  {
    CanvasState(st.width, st.height, FilterChain(st),
                if st.temperature == 6500.0 then Black else OverlayColor(st.temperature).value,
                SourceOver)
  }

  /** The canvas state each drawing call of the plan runs under, whatever
      state the canvas was in before: the image is drawn at the editor's
      size with the editor's filter list and "source-over" compositing; the
      overlay, if any, is filled with "overlay" compositing under the same
      filter list; and afterwards "source-over" is back. */
  lemma {:induction false} DrawPlanCanvasState(st: EditorState, image: Option<string>, before: CanvasState)
    requires Truthy(st.preview) || Truthy(image)
    ensures var plan := DrawPlan(st, image);
      var drawing := CanvasState(st.width, st.height, FilterChain(st), Black, SourceOver);
      && Replay(before, plan[..7]) == drawing
      && (forall i :: 8 <= i < |plan| && plan[i].RectFilled? ==>
            Replay(before, plan[..i]) == drawing.(fillStyle := OverlayColor(st.temperature).value, composite := Overlay))
      && Replay(before, plan) == AfterDraw(st)
  {
    var plan := DrawPlan(st, image);
    var drawing := CanvasState(st.width, st.height, FilterChain(st), Black, SourceOver);
    var head := plan[..8];
    var tail := TemperatureCommands(st.temperature, st.width, st.height);
    assert plan[..7] == SetupCommands(st);
    SetupCanvasState(st, before);
    ReplayPrefix(before, plan, 8);
    assert Replay(before, head) == drawing;
    assert plan == head + tail;
    ReplayConcat(before, head, tail);
    TemperatureCommandsComposite(st.temperature, st.width, st.height, drawing);
    forall i | 8 <= i < |plan| && plan[i].RectFilled?
      ensures Replay(before, plan[..i]) == drawing.(fillStyle := OverlayColor(st.temperature).value, composite := Overlay)
    {
      assert plan[..i] == head + tail[..i - 8];
      assert tail[i - 8] == plan[i];
      ReplayConcat(before, head, tail[..i - 8]);
    }
  }

  /** The transform the set-up calls leave in effect maps a point p to
      centre + R(S(p - centre)), whatever calls were made before them. */
  lemma SetupAboutCentre(st: EditorState, prior: seq<Command>, trig: real -> Point, p: Point)
    ensures var cx, cy := st.width as real / 2.0, st.height as real / 2.0;
      var sx, sy := ScaleFactor(st.flipHorizontal), ScaleFactor(st.flipVertical);
      var q := Apply(RotationMatrix(trig(Angle(st))), Point(sx * (p.x - cx), sy * (p.y - cy)));
      Apply(TransformAfter(prior + SetupCommands(st), trig), p) == Point(cx + q.x, cy + q.y)
  {
    SetupTransform(st, prior, trig);
    AboutPivot(st.width as real / 2.0, st.height as real / 2.0, RotationMatrix(trig(Angle(st))),
               ScaleFactor(st.flipHorizontal), ScaleFactor(st.flipVertical), p);
  }

  /** The set-up calls are the first seven calls of the plan, whatever calls
      the canvas has seen before. */
  lemma DrawPlanStartsWithSetup(st: EditorState, image: Option<string>, prior: seq<Command>)
    requires Truthy(st.preview) || Truthy(image)
    ensures |DrawPlan(st, image)| >= 8
    ensures (prior + DrawPlan(st, image))[..|prior| + 7] == prior + SetupCommands(st)
  {
    assert DrawPlan(st, image)[..7] == SetupCommands(st);
  }

  /** On a canvas whose log is `prior` before the draw, the transform under
      which the image is drawn maps a point p of the image to
      centre + R(S(p - centre)), where R rotates by the editor's angle and S
      mirrors the flipped axes: the image is rotated and flipped about the
      centre of the canvas, and no earlier transform survives. */
  lemma DrawTransformAboutCentre(st: EditorState, image: Option<string>, prior: seq<Command>,
                                 trig: real -> Point, p: Point)
    requires Truthy(st.preview) || Truthy(image)
    ensures var cx, cy := st.width as real / 2.0, st.height as real / 2.0;
      var sx, sy := ScaleFactor(st.flipHorizontal), ScaleFactor(st.flipVertical);
      var q := Apply(RotationMatrix(trig(Angle(st))), Point(sx * (p.x - cx), sy * (p.y - cy)));
      Apply(TransformAfter((prior + DrawPlan(st, image))[..|prior| + 7], trig), p) == Point(cx + q.x, cy + q.y)
  {
    DrawPlanStartsWithSetup(st, image, prior);
    SetupAboutCentre(st, prior, trig, p);
  }

  /** The centre of the canvas stays where it is, whatever the angle, the
      flips and the calls made before the draw. */
  lemma CentreIsFixed(st: EditorState, image: Option<string>, prior: seq<Command>, trig: real -> Point)
    requires Truthy(st.preview) || Truthy(image)
    ensures var centre := Point(st.width as real / 2.0, st.height as real / 2.0);
      Apply(TransformAfter((prior + DrawPlan(st, image))[..|prior| + 7], trig), centre) == centre
  {
    var centre := Point(st.width as real / 2.0, st.height as real / 2.0);
    DrawTransformAboutCentre(st, image, prior, trig, centre);
    var sx, sy := ScaleFactor(st.flipHorizontal), ScaleFactor(st.flipVertical);
    var origin := Point(sx * (centre.x - centre.x), sy * (centre.y - centre.y));
    assert origin == Point(0.0, 0.0);
    var q := Apply(RotationMatrix(trig(Angle(st))), origin);
    assert q == Point(0.0, 0.0);
    assert Apply(TransformAfter((prior + DrawPlan(st, image))[..|prior| + 7], trig), centre)
      == Point(centre.x + q.x, centre.y + q.y);
  }

  /** Without rotation, a horizontal flip mirrors the image about the
      vertical centre line of the canvas, and a vertical flip about the
      horizontal one, whatever calls were made before the draw. */
  lemma FlipMirrors(st: EditorState, image: Option<string>, prior: seq<Command>, trig: real -> Point, p: Point)
    requires Truthy(st.preview) || Truthy(image)
    requires trig(Angle(st)) == Point(1.0, 0.0)
    ensures var w, h := st.width as real, st.height as real;
      Apply(TransformAfter((prior + DrawPlan(st, image))[..|prior| + 7], trig), p)
        == Point(if st.flipHorizontal then w - p.x else p.x,
                 if st.flipVertical then h - p.y else p.y)
  {
    DrawTransformAboutCentre(st, image, prior, trig, p);
  }

  /** The overlay rectangle is filled under the same transform as the image
      and covers the same rectangle, so it follows the image's rotation and
      flips; `prior` is whatever the canvas's log held before the draw. */
  lemma {:induction false} OverlayFollowsImage(st: EditorState, image: Option<string>, prior: seq<Command>,
                                               trig: real -> Point)
    requires Truthy(st.preview) || Truthy(image)
    requires st.temperature != 6500.0
    ensures var plan, n := DrawPlan(st, image), |prior|;
      && |plan| == 12
      && plan[10] == RectFilled(plan[7].x, plan[7].y, plan[7].w, plan[7].h)
      && TransformAfter((prior + plan)[..n + 10], trig) == TransformAfter((prior + plan)[..n + 7], trig)
  {
    var plan, n := DrawPlan(st, image), |prior|;
    var w, h := st.width as real, st.height as real;
    var img := ImageDrawn(SourceImage(st, image).value, 0.0, 0.0, w, h);
    var overlay := TemperatureCommands(st.temperature, st.width, st.height);
    var color := OverlayColor(st.temperature).value;
    assert overlay == [FillStyleSet(color), CompositeSet(Overlay), RectFilled(0.0, 0.0, w, h), CompositeSet(SourceOver)];
    assert plan == SetupCommands(st) + [img] + overlay;
    var log := prior + plan;
    assert log[n + 7] == img && log[n + 8] == FillStyleSet(color) && log[n + 9] == CompositeSet(Overlay);
    var m := TransformAfter(log[..n + 7], trig);
    TransformAfterPrefix(log, n + 8, trig);
    assert TransformAfter(log[..n + 8], trig) == m;
    TransformAfterPrefix(log, n + 9, trig);
    assert TransformAfter(log[..n + 9], trig) == m;
    TransformAfterPrefix(log, n + 10, trig);
  }

  /** From the initial state the filter list is brightness(100%)
      contrast(100%) saturate(100%) and no overlay is drawn. */
  lemma InitialPlan(image: Option<string>)
    requires Truthy(image)
    ensures FilterChain(Initial) ==
      [FilterToken(Brightness, 100.0), FilterToken(Contrast, 100.0), FilterToken(Saturate, 100.0)]
    ensures OverlayColor(Initial.temperature) == None
    ensures |DrawPlan(Initial, image)| == 8
    ensures forall i :: 0 <= i < 8 ==> !DrawPlan(Initial, image)[i].RectFilled?
  {
  }
}
