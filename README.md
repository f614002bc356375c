# Image editor view, modelled in Dafny

This project models the editor view of a browser image editor
(`src/components/Editor/Editor.tsx`). The view keeps a set of adjustments:
size, brightness, contrast, exposure, saturation, rotation, typed angle,
filter preset, two flips, colour temperature, cropped preview and whether
the crop dialog is open. Its controls change these adjustments, and a draw
routine renders the uploaded or cropped image onto a 2-D canvas from them.

The model has five modules:

- `Rotation` (`rotation.dfy`) covers the two rotate buttons. Each press is
  `(prev + step) % 360` with JavaScript's truncating `%`. It proves that the
  rotation stays in [0, 360) on multiples of 45, and gives the exact period
  of each button.
- `Canvas2D` (`canvas.dfy`) is an abstract canvas. Every call is recorded
  in a command log. `Replay` computes the drawing state a log leaves behind:
  size, filter list, fill style and compositing operation. Setting the
  canvas size resets the context to its defaults. The `Canvas` class has
  one method per canvas call the editor makes; each records its call and
  changes the drawing state as `Step` says.
- `Affine` (`affine.dfy`) is the canvas's current transformation matrix as
  a function of the log. `translate`, `rotate` and `scale` each multiply on
  the right.
- `RenderPlan` (`render_plan.dfy`) holds what the draw routine does, as
  values:
  - the CSS filter list, as (function, percentage) tokens;
  - the temperature overlay colour;
  - the full sequence of canvas calls (`DrawPlan`).

  Its lemmas cover the order of the calls, the compositing state each
  drawing call runs under, and the geometry of the transform.
- `EditorComponent` (`editor.dfy`) is the component itself. The class
  `Editor` has the component's fields and one method per handler.
  - `Draw`/`OnLoad` model the draw effect and its image-load callback.
  - `ComposeFilter` models the filter string built by `+=`.
  - `ApplyTemperatureFilter` models the overlay routine.

  Each of these is proved against the `RenderPlan` functions.

Some behaviour the model follows from the code:

- **Truthiness.** `preview || image` is JavaScript truthiness. An empty
  preview string counts as no preview, and the image is used instead. An
  empty image string counts as no image.
- **Null canvas.** The canvas element is rendered only while `image` is
  truthy (`src/components/Editor/Editor.tsx:167-174`), and its 2-D context
  may also be missing. `Draw` takes the canvas as a possibly-null argument
  and requires it to be null unless `image` is truthy. With a preview but no
  image, the `preview || image` test passes but no canvas call is made.
- **Filter under the overlay.** The filter list is still set when the
  temperature overlay is filled, so the overlay colour is filtered too.
  For example, the grayscale preset turns the orange overlay grey.
  `DrawPlanCanvasState` states this.
- **Overlay under the transform.** The overlay rectangle is filled under
  the same rotation and flips as the image, so it covers exactly the
  image's rectangle (`OverlayFollowsImage`).

## Model

| member | source | states |
|---|---|---|
| `Rotation.JsRem360` | src/components/Editor/Editor.tsx:143-149 | JavaScript `% 360`: the result lies in (-360, 360), has the sign of the dividend, differs from it by a multiple of 360, and equals the mathematical remainder for a non-negative dividend |
| `Rotation.StepsStayReachable` | src/components/Editor/Editor.tsx:143-149 | from a rotation in [0, 360) that is a multiple of 45, both buttons lead to another such rotation |
| `Rotation.PressAllTurns` | src/components/Editor/Editor.tsx:143-149 | any sequence of button presses turns by 45 degrees per step (a 90-degree press is two steps), reduced modulo 360, and stays in [0, 360) on multiples of 45 |
| `Rotation.ReachableFromInitial` | src/components/Editor/Editor.tsx:25 | from the initial rotation 0, every sequence of presses leaves the rotation in [0, 360) and a multiple of 45 |
| `Rotation.Rotate45TimesTurns` | src/components/Editor/Editor.tsx:143-145 | n presses of "45°" from r in [0, 360) give (r + 45n) mod 360 |
| `Rotation.Rotate90TimesTurns` | src/components/Editor/Editor.tsx:147-149 | n presses of "90°" from r in [0, 360) give (r + 90n) mod 360 |
| `Rotation.Rotate45Period` | src/components/Editor/Editor.tsx:143-145 | n presses of "45°" return to the starting rotation exactly when n is a multiple of 8 |
| `Rotation.Rotate90Period` | src/components/Editor/Editor.tsx:147-149 | n presses of "90°" return to the starting rotation exactly when n is a multiple of 4 |
| `Rotation.Rotate90IsTwo45` | src/components/Editor/Editor.tsx:143-149 | one "90°" press equals two "45°" presses from any non-negative rotation |
| `Canvas2D.Canvas.SetSize` | src/components/Editor/Editor.tsx:44-45 | setting the canvas size records the call, sets width and height and resets filter, fill style and compositing to their defaults |
| `Canvas2D.Canvas.SetFilter` | src/components/Editor/Editor.tsx:67 | `ctx.filter = ...` records the call and replaces the filter list only |
| `Canvas2D.Canvas.ResetTransform` | src/components/Editor/Editor.tsx:69 | `ctx.resetTransform()` records the call and leaves the drawing state unchanged |
| `Canvas2D.Canvas.Translate` | src/components/Editor/Editor.tsx:70 | `ctx.translate(dx, dy)` records the call and leaves the drawing state unchanged |
| `Canvas2D.Canvas.Rotate` | src/components/Editor/Editor.tsx:71 | `ctx.rotate(...)` records the call, with the angle in degrees, and leaves the drawing state unchanged |
| `Canvas2D.Canvas.Scale` | src/components/Editor/Editor.tsx:75 | `ctx.scale(sx, sy)` records the call and leaves the drawing state unchanged |
| `Canvas2D.Canvas.DrawImage` | src/components/Editor/Editor.tsx:78 | `ctx.drawImage(img, x, y, w, h)` records the call and leaves the drawing state unchanged |
| `Canvas2D.Canvas.SetFillStyle` | src/components/Editor/Editor.tsx:116-121 | `ctx.fillStyle = ...` records the call and replaces the fill style only |
| `Canvas2D.Canvas.SetComposite` | src/components/Editor/Editor.tsx:124-126 | `ctx.globalCompositeOperation = ...` records the call and replaces the compositing operation only |
| `Canvas2D.Canvas.FillRect` | src/components/Editor/Editor.tsx:125 | `ctx.fillRect(x, y, w, h)` records the call and leaves the drawing state unchanged |
| `Canvas2D.ReplayConcat` | src/components/Editor/Editor.tsx:67-80 | replaying two call sequences one after the other equals replaying their concatenation |
| `Affine.AboutPivot` | src/components/Editor/Editor.tsx:69-77 | translating to a pivot, rotating, scaling and translating back maps p to pivot + R(S(p - pivot)) |
| `Affine.TransformAfterConcat` | src/components/Editor/Editor.tsx:44-69 | calls that begin with a resize or `resetTransform()` leave the same transform whatever calls came before them |
| `RenderPlan.Or` | src/components/Editor/Editor.tsx:36-40 | `a \|\| b` on nullable strings: truthy exactly when either operand is; the left operand when it is truthy, else the right |
| `RenderPlan.PresetFilter` | src/components/Editor/Editor.tsx:53-65 | the suffix is empty exactly for presets other than "grayscale", "sepia" and "vintage", and every suffix percentage lies in (0, 120] |
| `RenderPlan.FilterChainShape` | src/components/Editor/Editor.tsx:47-65 | the filter list starts with brightness(brightness·exposure/100), contrast(contrast), saturate(saturation), in that order, followed by exactly the preset suffix |
| `RenderPlan.NeutralExposure` | src/components/Editor/Editor.tsx:47-51 | at exposure 100 the brightness percentage is the brightness slider's value |
| `RenderPlan.OverlayColor` | src/components/Editor/Editor.tsx:101-122 | no overlay exactly at 6500 K; orange (255, 165, 0) above, deep sky blue (0, 191, 255) below; alpha always in (0, 1] |
| `RenderPlan.OverlayAlpha` | src/components/Editor/Editor.tsx:107-114 | the overlay alpha is the distance from 6500 K divided by 3500, capped at 1 |
| `RenderPlan.OverlaySymmetric` | src/components/Editor/Editor.tsx:107-114 | temperatures equally far above and below 6500 K get the same alpha |
| `RenderPlan.TemperatureCommandsComposite` | src/components/Editor/Editor.tsx:116-126 | the overlay makes no call exactly at 6500 K; otherwise it fills only under "overlay" compositing with the overlay colour, and leaves "source-over" afterwards, whatever the compositing was before |
| `RenderPlan.ScaleFactor` | src/components/Editor/Editor.tsx:73-75 | the scale on an axis is -1 exactly when that axis is flipped, else 1 |
| `RenderPlan.NothingDrawnWithoutSource` | src/components/Editor/Editor.tsx:36-40 | the draw plan is empty exactly when `preview \|\| image` is falsy, that is, when neither is a non-empty string |
| `RenderPlan.DrawPlanOrder` | src/components/Editor/Editor.tsx:35-80 | the calls run in order: resize, set filter, reset transform, translate to the centre, rotate by rotation + typed angle, scale, translate by the exact negation, draw the image at (0, 0, width, height), temperature overlay; the image drawn is the preview if set, else the uploaded image, the same one the crop dialog gets |
| `RenderPlan.SetupCanvasState` | src/components/Editor/Editor.tsx:44-67 | from any prior canvas state, the calls before the draw leave the editor's size, its filter list, and default fill and compositing |
| `RenderPlan.SetupTransform` | src/components/Editor/Editor.tsx:69-77 | after any earlier calls on the canvas, the calls before the draw leave translate(centre) · rotate · scale · translate(-centre) in effect: no earlier transform survives |
| `RenderPlan.DrawPlanCanvasState` | src/components/Editor/Editor.tsx:42-80 | from any prior canvas state: the image is drawn with the editor's size, filter list, black fill and "source-over"; the overlay is filled under "overlay" with the same filter list and the overlay colour; the draw ends in exactly `AfterDraw` of the editor state |
| `RenderPlan.AfterDraw` | src/components/Editor/Editor.tsx:116-126 | the state a draw leaves has "source-over" compositing and the editor's filter list, and its fill style is black exactly when the temperature is 6500 K |
| `RenderPlan.SetupAboutCentre` | src/components/Editor/Editor.tsx:69-77 | after any earlier calls on the canvas, the transform the set-up calls leave in effect maps p to centre + R(S(p - centre)) |
| `RenderPlan.DrawTransformAboutCentre` | src/components/Editor/Editor.tsx:69-78 | on a canvas with any earlier log, the image is drawn under the transform p ↦ centre + R(S(p - centre)): rotated and flipped about the canvas centre |
| `RenderPlan.CentreIsFixed` | src/components/Editor/Editor.tsx:69-77 | the canvas centre maps to itself under the image's transform, for every angle, flip and earlier log |
| `RenderPlan.FlipMirrors` | src/components/Editor/Editor.tsx:73-77 | without rotation and after any earlier log, a horizontal flip maps x to width - x and a vertical flip maps y to height - y |
| `RenderPlan.OverlayFollowsImage` | src/components/Editor/Editor.tsx:69-125 | the overlay rectangle is the image's rectangle and, after any earlier log, is filled under the same transform |
| `RenderPlan.InitialPlan` | src/components/Editor/Editor.tsx:21-30 | from the initial state the filter list is brightness(100%) contrast(100%) saturate(100%), there is no overlay, and the plan has no fill |
| `EditorComponent.ApplyTemperatureFilter` | src/components/Editor/Editor.tsx:101-127 | records exactly the overlay's calls; at 6500 K leaves the context untouched, otherwise leaves the overlay colour as fill style and "source-over" compositing |
| `EditorComponent.Editor.constructor` | src/components/Editor/Editor.tsx:19-32 | the initial state: 400 by 400, brightness, contrast, exposure and saturation 100, rotation 0, angle 0, filter "none", no flips, 6500 K, no preview, dialog closed |
| `EditorComponent.Editor.RotateBy45` | src/components/Editor/Editor.tsx:143-145 | rotation becomes (rotation + 45) % 360, nothing else changes, and the rotation invariant is kept |
| `EditorComponent.Editor.RotateBy90` | src/components/Editor/Editor.tsx:147-149 | rotation becomes (rotation + 90) % 360, nothing else changes, and the rotation invariant is kept |
| `EditorComponent.Editor.ToggleFlipHorizontal` | src/components/Editor/Editor.tsx:310 | negates the horizontal flip and changes nothing else |
| `EditorComponent.Editor.ToggleFlipVertical` | src/components/Editor/Editor.tsx:317 | negates the vertical flip and changes nothing else |
| `EditorComponent.Editor.OpenModal` | src/components/Editor/Editor.tsx:151-153 | opens the crop dialog and changes nothing else |
| `EditorComponent.Editor.CloseModal` | src/components/Editor/Editor.tsx:155-157 | closes the crop dialog and changes nothing else |
| `EditorComponent.Editor.SaveCroppedImage` | src/components/Editor/Editor.tsx:159-162 | the cropped image becomes the preview, the dialog closes, nothing else changes |
| `EditorComponent.Editor.ChangeWidth` | src/components/Editor/Editor.tsx:191 | sets the width only |
| `EditorComponent.Editor.ChangeHeight` | src/components/Editor/Editor.tsx:201 | sets the height only |
| `EditorComponent.Editor.ChangeFilter` | src/components/Editor/Editor.tsx:212 | sets the filter preset only |
| `EditorComponent.Editor.ChangeBrightness` | src/components/Editor/Editor.tsx:224 | sets the brightness only |
| `EditorComponent.Editor.ChangeContrast` | src/components/Editor/Editor.tsx:234 | sets the contrast only |
| `EditorComponent.Editor.ChangeSaturation` | src/components/Editor/Editor.tsx:244 | sets the saturation only |
| `EditorComponent.Editor.ChangeExposure` | src/components/Editor/Editor.tsx:254 | sets the exposure only |
| `EditorComponent.Editor.ChangeTemperature` | src/components/Editor/Editor.tsx:260-277 | sets the temperature only (from the field or the slider) |
| `EditorComponent.Editor.ChangeArbitraryRotation` | src/components/Editor/Editor.tsx:300 | sets the typed angle only |
| `EditorComponent.Editor.ComposeFilter` | src/components/Editor/Editor.tsx:47-65 | the filter list built step by step equals `FilterChain` of the current state |
| `EditorComponent.Editor.PrepareContext` | src/components/Editor/Editor.tsx:44-77 | the canvas log grows by exactly the set-up calls, and the canvas is left at the editor's size, with its filter list, black fill and "source-over" compositing |
| `EditorComponent.Editor.SetTransform` | src/components/Editor/Editor.tsx:69-77 | on a canvas already at the editor's size, records reset, translate to the centre, rotate, scale by the flips and translate back, and leaves the drawing state unchanged |
| `EditorComponent.Editor.Draw` | src/components/Editor/Editor.tsx:35-41 | on a canvas, which exists only while an image is set, the log grows by exactly `DrawPlan` of the state and the whole drawing state becomes `AfterDraw` (editor's size, filter list, "source-over", overlay colour or black fill); a null canvas is left alone |
| `EditorComponent.Editor.OnLoad` | src/components/Editor/Editor.tsx:42-82 | the canvas log grows by the set-up calls, the image draw and the overlay calls, in that order, and the canvas's drawing state becomes `AfterDraw` of the editor state |
| `EditorComponent.FlipTwiceRestores` | src/components/Editor/Editor.tsx:309-320 | pressing a flip button twice restores the whole editor state |
| `EditorComponent.FourQuarterTurnsRestore` | src/components/Editor/Editor.tsx:147-149 | four "90°" presses restore the whole editor state |
| `EditorComponent.EightEighthTurnsRestore` | src/components/Editor/Editor.tsx:143-145 | eight "45°" presses restore the whole editor state |
| `EditorComponent.SaveCropThenDraw` | src/components/Editor/Editor.tsx:159-162 | with an image uploaded (so the canvas exists), after a crop is saved the dialog is closed and the next draw draws the cropped image, not the upload |
| `EditorComponent.DrawKeepsCentre` | src/components/Editor/Editor.tsx:69-78 | with an image uploaded, whatever the canvas drew before, a draw places the image under a transform that keeps the canvas centre fixed |

## Left out

- Degrees are not converted to radians with `Math.PI`. The `Rotated`
  command keeps the angle in degrees. Its cosine and sine come from a
  caller-supplied `trig` function, because they are floating-point host
  arithmetic.
- Percentages, alpha, temperature and the typed angle are exact `real`s.
  The model does not capture IEEE rounding of `brightness * exposure / 100`
  or of the alpha division.
- The filter list is a sequence of (function, percentage) tokens. The model
  does not produce the JavaScript number-to-string formatting of the filter
  or `rgba(...)` strings.
- Width and height are taken as integers, and the canvas keeps them as
  given. The model does not capture how the canvas converts a fractional,
  negative or very large value assigned to `canvas.width`/`canvas.height`.
  `Number(e.target.value)` parsing (NaN, empty input) is not modelled: the
  handlers take numbers.
- The image loads asynchronously in the source. Here `Draw` calls `OnLoad`
  synchronously, and an image that fails to load (callback never run) is
  not modelled.
- React's re-render and effect scheduling is not modelled. `Draw` is a
  method called on the current state, and the effect's dependency list is
  not modelled.
- Pixel output is not modelled: CSS filter semantics, `drawImage`
  rendering and the "overlay" blend belong to the browser. Only the
  command log and the drawing state are kept.
- `Canvas2D.Canvas` has no invariant tying its fields to
  `Replay(Fresh, log)`. Each method states its effect as the same `Step`
  that `Replay` folds. The invariant made every multi-call proof too
  costly for the verifier.
- `handleSave` is not modelled. It is a browser download: `toBlob`, an
  object URL and a synthetic link.
- JSX and MUI layout, and slider ranges, are not modelled. They are UI
  hints and do not constrain the values the handlers accept.
- `src/App.tsx` is not part of this model. It holds the file input and drag
  and drop, `URL.createObjectURL`, and the switch between the drop zone and
  the editor.
- `src/components/Editor/ImageEditorModal.tsx` is not part of this model.
  It wraps the third-party cropping library, whose source is not
  available. The model keeps only the image it is given (`SourceImage`)
  and the save and close handlers it calls back.
