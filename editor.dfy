/**
 * The editor view: its adjustment state, the handlers the controls call,
 * and the draw routine that renders the state onto a canvas.
 */
module EditorComponent {
  import opened Canvas2D
  import opened RenderPlan
  import opened Affine
  import Rotation

  /** Fills the temperature overlay over a `width` by `height` rectangle:
      orange above 6500 K, blue below, nothing at exactly 6500 K. */
  method ApplyTemperatureFilter(ctx: Canvas, temperature: real, width: int, height: int)
    modifies ctx
    ensures ctx.log == old(ctx.log) + TemperatureCommands(temperature, width, height)
    ensures ctx.State() == if temperature == 6500.0 then old(ctx.State())
      else old(ctx.State()).(fillStyle := OverlayColor(temperature).value, composite := SourceOver)
  {
    var warmColor := Rgba(255, 165, 0, Min((temperature - 6500.0) / 3500.0, 1.0));
    var coolColor := Rgba(0, 191, 255, Min((6500.0 - temperature) / 3500.0, 1.0));
    if temperature > 6500.0 {
      ctx.SetFillStyle(warmColor);
    } else if temperature < 6500.0 {
      ctx.SetFillStyle(coolColor);
    } else {
      return;
    }
    ctx.SetComposite(Overlay);
    ctx.FillRect(0.0, 0.0, width as real, height as real);
    ctx.SetComposite(SourceOver);
  }

  /** The editor's state. The rotation only ever changes by the rotate
      buttons, starting from 0. */
  class Editor {
    var height: int
    var width: int
    var brightness: real
    var contrast: real
    var exposure: real
    var saturation: real
    var rotation: int
    var arbitraryRotation: real
    var filter: string
    var flipHorizontal: bool
    var flipVertical: bool
    var temperature: real
    var preview: Option<string>
    var modalOpen: bool

    /** The adjustment state held in the fields. */
    function State(): (st: EditorState)
      reads this
    {
      EditorState(width, height, brightness, contrast, exposure, saturation,
                  rotation, arbitraryRotation, filter, flipHorizontal, flipVertical,
                  temperature, preview, modalOpen)
    }

    /** The rotation is one the buttons can reach from 0. */
    ghost predicate Valid()
      reads this
    {
      Rotation.IsStep(rotation)
    }

    constructor ()
      ensures Valid() && State() == Initial
    {
      height, width := 400, 400;
      brightness, contrast, exposure, saturation := 100.0, 100.0, 100.0, 100.0;
      rotation, arbitraryRotation := 0, 0.0;
      filter := "none";
      flipHorizontal, flipVertical := false, false;
      temperature := 6500.0;
      preview := None;
      modalOpen := false;
    }

    /** The "45°" button. */
    method RotateBy45()
      requires Valid()
      modifies this
      ensures Valid()
      ensures State() == old(State()).(rotation := Rotation.Rotate45(old(rotation)))
    {
      Rotation.StepsStayReachable(rotation);
      rotation := Rotation.JsRem360(rotation + 45);
    }

    /** The "90°" button. */
    method RotateBy90()
      requires Valid()
      modifies this
      ensures Valid()
      ensures State() == old(State()).(rotation := Rotation.Rotate90(old(rotation)))
    {
      Rotation.StepsStayReachable(rotation);
      rotation := Rotation.JsRem360(rotation + 90);
    }

    /** The horizontal flip button. */
    method ToggleFlipHorizontal()
      modifies this
      ensures State() == old(State()).(flipHorizontal := !old(flipHorizontal))
    {
      flipHorizontal := !flipHorizontal;
    }

    /** The vertical flip button. */
    method ToggleFlipVertical()
      modifies this
      ensures State() == old(State()).(flipVertical := !old(flipVertical))
    {
      flipVertical := !flipVertical;
    }

    /** The "Crop image" button. */
    method OpenModal()
      modifies this
      ensures State() == old(State()).(modalOpen := true)
    {
      modalOpen := true;
    }

    /** The crop dialog's close and cancel. */
    method CloseModal()
      modifies this
      ensures State() == old(State()).(modalOpen := false)
    {
      modalOpen := false;
    }

    /** The crop dialog's save: the cropped image becomes the preview and the
        dialog closes. */
    method SaveCroppedImage(croppedImage: string)
      modifies this
      ensures State() == old(State()).(preview := Some(croppedImage), modalOpen := false)
    {
      preview := Some(croppedImage);
      CloseModal();
    }

    /** The width field. */
    method ChangeWidth(value: int)
      modifies this
      ensures State() == old(State()).(width := value)
    {
      width := value;
    }

    /** The height field. */
    method ChangeHeight(value: int)
      modifies this
      ensures State() == old(State()).(height := value)
    {
      height := value;
    }

    /** The filter preset menu. */
    method ChangeFilter(value: string)
      modifies this
      ensures State() == old(State()).(filter := value)
    {
      filter := value;
    }

    /** The brightness slider. */
    method ChangeBrightness(value: real)
      modifies this
      ensures State() == old(State()).(brightness := value)
    {
      brightness := value;
    }

    /** The contrast slider. */
    method ChangeContrast(value: real)
      modifies this
      ensures State() == old(State()).(contrast := value)
    {
      contrast := value;
    }

    /** The saturation slider. */
    method ChangeSaturation(value: real)
      modifies this
      ensures State() == old(State()).(saturation := value)
    {
      saturation := value;
    }

    /** The exposure slider. */
    method ChangeExposure(value: real)
      modifies this
      ensures State() == old(State()).(exposure := value)
    {
      exposure := value;
    }

    /** The temperature field and slider. */
    method ChangeTemperature(value: real)
      modifies this
      ensures State() == old(State()).(temperature := value)
    {
      temperature := value;
    }

    /** The angle field. */
    method ChangeArbitraryRotation(value: real)
      modifies this
      ensures State() == old(State()).(arbitraryRotation := value)
    {
      arbitraryRotation := value;
    }

    /** The filter list the draw routine builds: brightness scaled by
        exposure, contrast and saturate, then the preset's suffix. */
    method ComposeFilter() returns (filterString: seq<FilterToken>)
      ensures filterString == FilterChain(State())
    {
      var exposureFactor := exposure / 100.0;
      filterString := [FilterToken(Brightness, brightness * exposureFactor),
                       FilterToken(Contrast, contrast),
                       FilterToken(Saturate, saturation)];
      ghost var base := filterString;
      if filter == "grayscale" {
        filterString := filterString + [FilterToken(Grayscale, 100.0)];
      } else if filter == "sepia" {
        filterString := filterString + [FilterToken(Sepia, 100.0)];
      } else if filter == "vintage" {
        filterString := filterString
          + [FilterToken(Sepia, 70.0), FilterToken(Contrast, 85.0), FilterToken(Saturate, 120.0)];
      } else {
        assert filterString == base + [];
      }
      assert filterString == base + PresetFilter(filter);
      assert BrightnessPercent(State()) == brightness * exposureFactor;
    }

    /** The draw routine: when a preview or an image is set, the image is
        loaded from the preview, else from the image, and drawn once loaded.
        The canvas element is rendered only while an image is set, so
        `canvas` is null whenever `image` is falsy, and also when the 2-D
        context is missing. */
    method Draw(image: Option<string>, canvas: Canvas?)
      requires canvas != null ==> Truthy(image)
      modifies canvas
      ensures canvas != null ==> canvas.log == old(canvas.log) + DrawPlan(State(), image)
      ensures canvas != null ==> canvas.State() == AfterDraw(State())
    {
      if Truthy(preview) || Truthy(image) {
        var source := Or(preview, image).value;
        OnLoad(source, canvas);
      }
    }

    /** Runs once the image loaded from `source` is ready. `canvas` is null
        when the canvas element or its 2-D context is missing; then nothing
        is drawn. */
    method OnLoad(source: string, canvas: Canvas?)
      modifies canvas
      ensures canvas != null ==>
        canvas.log == old(canvas.log)
          + SetupCommands(State())
          + [ImageDrawn(source, 0.0, 0.0, width as real, height as real)]
          + TemperatureCommands(temperature, width, height)
      ensures canvas != null ==> canvas.State() == AfterDraw(State())
    {
      if canvas != null {
        PrepareContext(canvas);
        canvas.DrawImage(source, 0.0, 0.0, width as real, height as real);
        ApplyTemperatureFilter(canvas, temperature, width, height);
      }
    }

    /** Sizes the canvas, sets the filter list and sets up the transform that
        rotates and flips about the canvas centre. */
    method PrepareContext(canvas: Canvas)
      modifies canvas
      ensures canvas.log == old(canvas.log) + SetupCommands(State())
      ensures canvas.State() == CanvasState(width, height, FilterChain(State()), Black, SourceOver)
    {
      ghost var log0 := canvas.log;
      canvas.SetSize(width, height);
      var filterString := ComposeFilter();
      canvas.SetFilter(filterString);
      SetTransform(canvas);
      assert canvas.log == log0 + [Resized(width, height), FilterSet(filterString)] + TransformCommands(State());
    }

    /** Rotates by the button rotation plus the typed angle and flips, both
        about the centre of the canvas, whose size is already the editor's. */
    method SetTransform(canvas: Canvas)
      requires canvas.width == width && canvas.height == height
      modifies canvas
      ensures canvas.log == old(canvas.log) + TransformCommands(State())
      ensures canvas.State() == old(canvas.State())
    {
      canvas.ResetTransform();
      canvas.Translate(canvas.width as real / 2.0, canvas.height as real / 2.0);
      canvas.Rotate(rotation as real + arbitraryRotation);
      var scaleX := if flipHorizontal then -1.0 else 1.0;
      var scaleY := if flipVertical then -1.0 else 1.0;
      canvas.Scale(scaleX, scaleY);
      canvas.Translate(-canvas.width as real / 2.0, -canvas.height as real / 2.0);
    }
  }

  /** Pressing a flip button twice restores the editor's state. */
  method FlipTwiceRestores(e: Editor, horizontal: bool)
    modifies e
    ensures e.State() == old(e.State())
  {
    if horizontal {
      e.ToggleFlipHorizontal();
      e.ToggleFlipHorizontal();
    } else {
      e.ToggleFlipVertical();
      e.ToggleFlipVertical();
    }
  }

  /** Pressing "90°" four times restores the editor's state. */
  method FourQuarterTurnsRestore(e: Editor)
    requires e.Valid()
    modifies e
    ensures e.Valid() && e.State() == old(e.State())
  {
    ghost var r := e.rotation;
    e.RotateBy90();
    assert e.rotation == Rotation.Rotate90Times(r, 1);
    e.RotateBy90();
    assert e.rotation == Rotation.Rotate90Times(r, 2);
    e.RotateBy90();
    assert e.rotation == Rotation.Rotate90Times(r, 3);
    e.RotateBy90();
    assert e.rotation == Rotation.Rotate90Times(r, 4);
    Rotation.Rotate90Period(r, 4);
  }

  /** Pressing "45°" eight times restores the editor's state. */
  method EightEighthTurnsRestore(e: Editor)
    requires e.Valid()
    modifies e
    ensures e.Valid() && e.State() == old(e.State())
  {
    ghost var r := e.rotation;
    e.RotateBy45();
    assert e.rotation == Rotation.Rotate45Times(r, 1);
    e.RotateBy45();
    assert e.rotation == Rotation.Rotate45Times(r, 2);
    e.RotateBy45();
    assert e.rotation == Rotation.Rotate45Times(r, 3);
    e.RotateBy45();
    assert e.rotation == Rotation.Rotate45Times(r, 4);
    e.RotateBy45();
    assert e.rotation == Rotation.Rotate45Times(r, 5);
    e.RotateBy45();
    assert e.rotation == Rotation.Rotate45Times(r, 6);
    e.RotateBy45();
    assert e.rotation == Rotation.Rotate45Times(r, 7);
    e.RotateBy45();
    assert e.rotation == Rotation.Rotate45Times(r, 8);
    Rotation.Rotate45Period(r, 8);
  }

  /** With an image uploaded, so that the canvas exists, after a crop is
      saved the dialog is closed and the canvas draws the cropped image
      rather than the upload. */
  method SaveCropThenDraw(e: Editor, cropped: string, image: Option<string>, canvas: Canvas)
    requires cropped != "" && Truthy(image)
    modifies e, canvas
    ensures !e.modalOpen && e.preview == Some(cropped)
    ensures |canvas.log| >= |old(canvas.log)| + 8
    ensures canvas.log[|old(canvas.log)| + 7] == ImageDrawn(cropped, 0.0, 0.0, e.width as real, e.height as real)
  {
    e.SaveCroppedImage(cropped);
    e.Draw(image, canvas);
    DrawPlanOrder(e.State(), image);
  }

  /** Whatever the canvas drew before, the image of a draw is placed under a
      transform that keeps the canvas centre in place. */
  method DrawKeepsCentre(e: Editor, image: Option<string>, canvas: Canvas, trig: real -> Point)
    requires Truthy(image)
    modifies canvas
    ensures var centre := Point(e.width as real / 2.0, e.height as real / 2.0);
      && |canvas.log| >= |old(canvas.log)| + 8
      && canvas.log[|old(canvas.log)| + 7].ImageDrawn?
      && Apply(TransformAfter(canvas.log[..|old(canvas.log)| + 7], trig), centre) == centre
  {
    ghost var prior := canvas.log;
    e.Draw(image, canvas);
    DrawPlanOrder(e.State(), image);
    CentreIsFixed(e.State(), image, prior, trig);
  }
}
