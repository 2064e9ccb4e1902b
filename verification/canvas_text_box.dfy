/** The canvases of VRCanvasFactory.js: a base canvas that starts at
    2048 x 2048, the text box that wraps a message, sizes its canvas to the
    wrapped text plus a border and derives the vertical field of view of the
    sphere it is shown on, the spinner, and the factory singleton that makes
    them. Drawing on the canvas and uploading it as a WebGL texture are not
    part of this model; the text width measure (`measureText` under the
    current font) is a parameter. */
module CanvasTextBox {
  import opened Wrappers
  import opened TextWrap

  /** An `rgba` colour as the options give it. */
  datatype Color = Color(r: real, g: real, b: real, a: real)

  /** The options object: a key that is absent is `None`. */
  datatype TextBoxOptions = TextBoxOptions(
    fontface: Option<string>,
    fontsize: Option<real>,
    borderThickness: Option<real>,
    borderColor: Option<Color>,
    backgroundColor: Option<Color>)

  /** The options after defaults are filled in. */
  datatype TextStyle = TextStyle(
    fontface: string,
    fontsize: real,
    borderThickness: real,
    borderColor: Color,
    backgroundColor: Color)

  const DEFAULT_FONTFACE: string := "Arial"
  const DEFAULT_FONTSIZE: real := 12.0
  const DEFAULT_BORDER_THICKNESS: real := 1.0
  const DEFAULT_BORDER_COLOR: Color := Color(255.0, 255.0, 255.0, 1.0)
  const DEFAULT_BACKGROUND_COLOR: Color := Color(0.0, 0.0, 0.0, 0.7)

  /** The height of a text line as a multiple of the font size. */
  const HEIGHT_MULT: real := 1.4

  /** The side of the square canvas `initBase` creates. */
  const BASE_CANVAS_SIZE: real := 2048.0

  /** The default of every absent key; a present key is used as given. */
  function ResolveOptions(o: TextBoxOptions): (r: TextStyle)
    ensures o.fontface.None? ==> r.fontface == DEFAULT_FONTFACE
    ensures o.fontface.Some? ==> r.fontface == o.fontface.value
    ensures o.fontsize.None? ==> r.fontsize == DEFAULT_FONTSIZE
    ensures o.fontsize.Some? ==> r.fontsize == o.fontsize.value
    ensures o.borderThickness.None? ==> r.borderThickness == DEFAULT_BORDER_THICKNESS
    ensures o.borderThickness.Some? ==> r.borderThickness == o.borderThickness.value
    ensures o.borderColor.None? ==> r.borderColor == DEFAULT_BORDER_COLOR
    ensures o.borderColor.Some? ==> r.borderColor == o.borderColor.value
    ensures o.backgroundColor.None? ==> r.backgroundColor == DEFAULT_BACKGROUND_COLOR
    ensures o.backgroundColor.Some? ==> r.backgroundColor == o.backgroundColor.value
  {
    TextStyle(
      o.fontface.GetOr(DEFAULT_FONTFACE),
      o.fontsize.GetOr(DEFAULT_FONTSIZE),
      o.borderThickness.GetOr(DEFAULT_BORDER_THICKNESS),
      o.borderColor.GetOr(DEFAULT_BORDER_COLOR),
      o.backgroundColor.GetOr(DEFAULT_BACKGROUND_COLOR))
  }

  /** The options object that gives every key of a style. */
  function OptionsOf(s: TextStyle): TextBoxOptions {
    TextBoxOptions(Some(s.fontface), Some(s.fontsize), Some(s.borderThickness), Some(s.borderColor), Some(s.backgroundColor))
  }

  /** Options that give every key are used as given, and an empty options
      object gives the default style. */
  lemma ResolveOptionsGiven(s: TextStyle)
    ensures ResolveOptions(OptionsOf(s)) == s
    ensures ResolveOptions(TextBoxOptions(None, None, None, None, None))
            == TextStyle(DEFAULT_FONTFACE, DEFAULT_FONTSIZE, DEFAULT_BORDER_THICKNESS,
                         DEFAULT_BORDER_COLOR, DEFAULT_BACKGROUND_COLOR)
  {
  }

  /** A canvas font: `"Bold <size>px <face>"` or `"<size>px <face>"`. */
  datatype Font = Font(bold: bool, size: real, face: string)

  /** The width and height of a canvas. */
  datatype Canvas = Canvas(width: real, height: real)

  /** The text box canvas: the text width plus the border on both sides,
      and one line height per line plus the border above and below. */
  function TextBoxCanvas(textWidth: real, lineCount: nat, style: TextStyle): Canvas {
    Canvas(textWidth + 2.0 * style.borderThickness,
           lineCount as real * style.fontsize * HEIGHT_MULT + 2.0 * style.borderThickness)
  }

  /** The rectangle of the rounded border: inset by half the border
      thickness, the text width plus one border thickness wide. */
  datatype Box = Box(x: real, y: real, width: real, height: real)

  function BorderBox(textWidth: real, lineCount: nat, style: TextStyle): Box {
    Box(style.borderThickness / 2.0, style.borderThickness / 2.0,
        textWidth + style.borderThickness,
        lineCount as real * style.fontsize * HEIGHT_MULT + style.borderThickness)
  }

  /** The border, stroked with the border thickness centred on its path,
      reaches exactly to the four edges of the canvas. */
  lemma BorderFillsCanvas(textWidth: real, lineCount: nat, style: TextStyle)
    ensures var b, c, t := BorderBox(textWidth, lineCount, style), TextBoxCanvas(textWidth, lineCount, style), style.borderThickness;
            && b.x - t / 2.0 == 0.0 && b.y - t / 2.0 == 0.0
            && b.x + b.width + t / 2.0 == c.width
            && b.y + b.height + t / 2.0 == c.height
  {
    var t := style.borderThickness;
    var lines := lineCount as real * style.fontsize * HEIGHT_MULT;
    assert BorderBox(textWidth, lineCount, style) == Box(t / 2.0, t / 2.0, textWidth + t, lines + t);
    assert TextBoxCanvas(textWidth, lineCount, style) == Canvas(textWidth + 2.0 * t, lines + 2.0 * t);
  }

  /** The baseline of text line `n` (counting from 0). */
  function Baseline(n: nat, style: TextStyle): real {
    (n + 1) as real * style.fontsize * HEIGHT_MULT
  }

  /** With a font size and border that are not negative, the baselines go
      down the canvas one line height apart, and every line's baseline lies
      above the bottom border. */
  lemma BaselinesInsideBox(lineCount: nat, style: TextStyle, n: nat)
    requires style.fontsize >= 0.0 && style.borderThickness >= 0.0 && n < lineCount
    ensures Baseline(n + 1, style) - Baseline(n, style) == style.fontsize * HEIGHT_MULT
    ensures 0.0 <= Baseline(n, style)
            <= TextBoxCanvas(0.0, lineCount, style).height - 2.0 * style.borderThickness
  {
    var h := style.fontsize * HEIGHT_MULT;
    assert h >= 0.0;
    assert Baseline(n, style) == (n + 1) as real * h;
    assert Baseline(n + 1, style) == (n + 1) as real * h + h;
    assert TextBoxCanvas(0.0, lineCount, style).height - 2.0 * style.borderThickness == lineCount as real * h;
    MultiplyMonotone((n + 1) as real, lineCount as real, h);
  }

  lemma MultiplyMonotone(a: real, b: real, h: real)
    requires 0.0 <= a <= b && h >= 0.0
    ensures 0.0 <= a * h <= b * h
  {
  }

  /** The field of view of the sphere the texture is shown on: the
      horizontal one as given, the vertical one scaled by the canvas aspect.
      `None` stands for the non-finite number JavaScript computes when the
      canvas width is 0. */
  datatype SphereFov = SphereFov(horizontal: real, vertical: Option<real>)

  function SphereFovOf(hfov: real, canvas: Canvas): (r: SphereFov)
    ensures r.horizontal == hfov
    ensures r.vertical.Some? <==> canvas.width != 0.0
    ensures r.vertical.Some? ==> r.vertical.value * canvas.width == canvas.height * hfov
  {
    if canvas.width == 0.0 then SphereFov(hfov, None)
    else
      var v := canvas.height * hfov / canvas.width;
      assert v * canvas.width == canvas.height * hfov;
      SphereFov(hfov, Some(v))
  }

  /** The vertical field of view is to the horizontal one as the canvas
      height is to its width. */
  lemma SphereFovAspect(hfov: real, canvas: Canvas)
    requires canvas.width != 0.0 && hfov != 0.0
    ensures SphereFovOf(hfov, canvas).vertical.value / hfov == canvas.height / canvas.width
  {
    var v := SphereFovOf(hfov, canvas).vertical.value;
    DivideBoth(v, hfov, canvas.height, canvas.width);
  }

  lemma DivideBoth(v: real, hfov: real, h: real, w: real)
    requires w != 0.0 && hfov != 0.0 && v * w == h * hfov
    ensures v / hfov == h / w
  {
    calc {
      v / hfov;
      (v * w) / (hfov * w);
      (h * hfov) / (hfov * w);
      h / w;
    }
  }

  /** The fields of `VRCanvasBase` this model keeps: the canvas, absent
      until `initBase` creates it. */
  class CanvasSpinner {
    var canvas: Option<Canvas>

    constructor ()
      ensures canvas.None?
    {
      canvas := None;
    }

    /** `init` is `initBase`: a fresh 2048 x 2048 canvas. */
    method Init()
      modifies this
      ensures canvas == Some(Canvas(BASE_CANVAS_SIZE, BASE_CANVAS_SIZE))
    {
      canvas := Some(Canvas(BASE_CANVAS_SIZE, BASE_CANVAS_SIZE));
    }
  }

  class TextBox {
    var canvas: Option<Canvas>
    /** The context's font; None is the default font of a fresh context. */
    var font: Option<Font>
    var sphereFov: Option<SphereFov>
    /** The wrapped lines and the text width; local to `init` in the
        source, kept here to state what the canvas size is made of. */
    ghost var lines: seq<string>
    ghost var textWidth: real

    constructor ()
      ensures canvas.None? && font.None? && sphereFov.None?
    {
      canvas, font, sphereFov := None, None, None;
      lines, textWidth := [], 0.0;
    }

    /** `initBase`: a fresh 2048 x 2048 canvas whose new 2D context has
        the default font (`font` is None), and a new texture description
        with no field of view set yet (`sphereFov` is None). */
    method InitBase()
      modifies this
      ensures canvas == Some(Canvas(BASE_CANVAS_SIZE, BASE_CANVAS_SIZE))
      ensures sphereFov.None? && font.None?
      ensures lines == old(lines) && textWidth == old(textWidth)
    {
      canvas := Some(Canvas(BASE_CANVAS_SIZE, BASE_CANVAS_SIZE));
      font := None;
      sphereFov := None;
    }

    /** `init(gl, message, hfov, options)`: fills in the option defaults,
        wraps the message in the bold font at half the base canvas width,
        resizes the canvas to the wrapped text plus the border, switches to
        the regular font for the text and sets the sphere's field of view
        from the canvas aspect. `measure(font)(s)` is the width of `s` in
        `font`. */
    method Init(message: string, hfov: real, options: TextBoxOptions, measure: Font -> string -> real)
      modifies this
      ensures var style := ResolveOptions(options);
              && WrapsGreedily(Split(message), BASE_CANVAS_SIZE / 2.0,
                               measure(Font(true, style.fontsize, style.fontface)), lines, textWidth)
              && canvas == Some(TextBoxCanvas(textWidth, |lines|, style))
              && font == Some(Font(false, style.fontsize, style.fontface))
              && sphereFov == Some(SphereFovOf(hfov, canvas.value))
      ensures |lines| >= 1 && Concat(lines) == Spaced(Split(message))
    {
      InitBase();
      var style := ResolveOptions(options);
      var boldFont := Font(true, style.fontsize, style.fontface);
      font := Some(boldFont);
      var lineSet, width := WrapText(message, canvas.value.width / 2.0, measure(boldFont));
      lines, textWidth := lineSet, width;
      canvas := Some(TextBoxCanvas(width, |lineSet|, style));
      font := Some(Font(false, style.fontsize, style.fontface));
      sphereFov := Some(SphereFovOf(hfov, canvas.value));
    }
  }

  /** `VRCanvasFactoryCore`: makes new, uninitialised canvases. */
  class CanvasFactoryCore {
    constructor ()
    {
    }

    method CreateCanvasSpinner() returns (spinner: CanvasSpinner)
      ensures fresh(spinner) && spinner.canvas.None?
    {
      spinner := new CanvasSpinner();
    }

    method CreateCanvasTextBox() returns (box: TextBox)
      ensures fresh(box) && box.canvas.None? && box.font.None? && box.sphereFov.None?
    {
      box := new TextBox();
    }
  }

  /** `VRCanvasFactory`: the captured `instance`, created by the first
      `getInstance` call and returned by every call. */
  class CanvasFactory {
    var instance: CanvasFactoryCore?

    constructor ()
      ensures instance == null
    {
      instance := null;
    }

    method GetInstance() returns (core: CanvasFactoryCore)
      modifies this
      ensures old(instance) == null ==> fresh(core)
      ensures old(instance) != null ==> core == old(instance)
      ensures instance == core
    {
      if instance == null {
        instance := new CanvasFactoryCore();
      }
      core := instance;
    }
  }

  /** Two `getInstance` calls give the same object. */
  method GetInstanceTwice(factory: CanvasFactory) returns (first: CanvasFactoryCore, second: CanvasFactoryCore)
    modifies factory
    ensures first == second && factory.instance == first
    ensures old(factory.instance) != null ==> first == old(factory.instance)
  {
    first := factory.GetInstance();
    second := factory.GetInstance();
  }
}
