// gui/widgets.py: the state of ImageDisplayFrame and its fit-to-box arithmetic,
// and ValidatedEntry.is_valid. The Tk label is kept as its text and background;
// `ImageTk.PhotoImage` is an input saying whether it could be built, and the
// Lanczos resampling is represented by the size of the resized image.

module Widgets {
  import opened Python

  // ---------------------------------------------------------------------------
  // ValidatedEntry

  /** `ValidatedEntry.is_valid`: the callback's verdict on the text, or true when
      no callback was supplied (a function object is always truthy). */
  function EntryIsValid(callback: Option<string -> bool>, text: string): (r: bool)
    ensures callback.None? ==> r
    ensures callback.Some? ==> (r <==> callback.value(text))
  {
    match callback
    case None => true
    case Some(f) => f(text)
  }

  // ---------------------------------------------------------------------------
  // _resize_image

  const DivisionByZero: Exception := Exception(ZeroDivisionError, "division by zero")

  /** `int(x)` on a non-negative real. */
  function Truncate(x: real): (n: nat)
    requires x >= 0.0
    ensures n as real <= x < n as real + 1.0
  {
    x.Floor
  }

  function MinReal(a: real, b: real): (m: real)
    ensures m <= a && m <= b && (m == a || m == b)
  {
    if a <= b then a else b
  }

  /** `max_width / width`: the factor that scales `side` to exactly `bound`. */
  function Ratio(bound: nat, side: nat): (r: real)
    requires side > 0
    ensures r >= 0.0 && side as real * r == bound as real
    ensures bound < side ==> r < 1.0
  {
    bound as real / side as real
  }

  /** Pillow's `Image.resize` refuses a target size with a zero side. */
  const ResizeToZero: Exception := Exception(ValueError, "height and width must be > 0")

  predicate FitsBox(width: nat, height: nat, maxWidth: nat, maxHeight: nat) {
    width <= maxWidth && height <= maxHeight
  }

  /** `(int(width * scale), int(height * scale))`, `scale` being the smaller of the
      two ratios. */
  function ScaledDims(width: nat, height: nat, maxWidth: nat, maxHeight: nat): (nat, nat)
    requires width > 0 && height > 0
  {
    var scale := MinReal(Ratio(maxWidth, width), Ratio(maxHeight, height));
    (Truncate(width as real * scale), Truncate(height as real * scale))
  }

  /** The size `_resize_image` produces for a `width` x `height` image in a
      `maxWidth` x `maxHeight` box, in exact arithmetic. An image that fits is kept
      as it is. Otherwise a zero side makes one of the divisions raise, and a scaled
      side that truncates to zero makes `Image.resize` raise; any image it does
      produce is non-empty. */
  function ResizeDims(width: nat, height: nat, maxWidth: nat, maxHeight: nat): (r: Outcome<(nat, nat)>)
    ensures FitsBox(width, height, maxWidth, maxHeight) ==> r == Ok((width, height))
    ensures !FitsBox(width, height, maxWidth, maxHeight) && (width == 0 || height == 0) ==> r == Err(DivisionByZero)
    ensures !FitsBox(width, height, maxWidth, maxHeight) && width > 0 && height > 0 ==>
              (r.Ok? <==> ScaledDims(width, height, maxWidth, maxHeight).0 > 0
                          && ScaledDims(width, height, maxWidth, maxHeight).1 > 0)
    ensures !FitsBox(width, height, maxWidth, maxHeight) && r.Ok? ==> r.value.0 > 0 && r.value.1 > 0
    ensures r.Err? ==> r.exc == DivisionByZero || r.exc == ResizeToZero
  {
    if FitsBox(width, height, maxWidth, maxHeight) then Ok((width, height))
    else if width == 0 || height == 0 then Err(DivisionByZero)
    else
      var (w, h) := ScaledDims(width, height, maxWidth, maxHeight);
      if w == 0 || h == 0 then Err(ResizeToZero) else Ok((w, h))
  }

  /** A 10000 x 1 strip does not fit a 400 x 400 box; scaled by 0.04 its height
      truncates to zero, so it cannot be displayed. */
  lemma ThinStripCannotBeResized()
    ensures ResizeDims(10000, 1, 400, 400) == Err(ResizeToZero)
  {
  }

  /** Multiplying a non-negative side by a smaller non-negative factor gives a
      smaller result. */
  lemma ScaleBelow(x: real, s: real, t: real)
    requires x >= 0.0 && 0.0 <= s <= t
    ensures 0.0 <= x * s <= x * t
  {
  }

  /** Scaling by a factor of at most 1 does not enlarge. */
  lemma ScaleAtMostOne(x: real, s: real)
    requires x >= 0.0 && 0.0 <= s <= 1.0
    ensures 0.0 <= x * s <= x
  {
  }

  /** One side scaled by at most its own ratio `bound / side`, and by at most 1. */
  lemma ScaledSide(side: nat, bound: nat, scale: real)
    requires side > 0
    requires 0.0 <= scale <= Ratio(bound, side) && scale <= 1.0
    ensures Truncate(side as real * scale) <= bound && Truncate(side as real * scale) <= side
    ensures scale == Ratio(bound, side) ==> Truncate(side as real * scale) == bound
  {
    var x := side as real * scale;
    var r := Ratio(bound, side);
    ScaleBelow(side as real, scale, r);
    ScaleAtMostOne(side as real, scale);
    assert 0.0 <= x <= bound as real && x <= side as real;
    assert Truncate(x) as real <= x;
    if scale == r {
      assert x == bound as real;
    }
  }

  /** A resized image fits the box, is no larger than the original in either
      direction, and touches the box on the side that limited the scale. */
  lemma ResizedFitsBox(width: nat, height: nat, maxWidth: nat, maxHeight: nat)
    requires ResizeDims(width, height, maxWidth, maxHeight).Ok?
    ensures var (w, h) := ResizeDims(width, height, maxWidth, maxHeight).value;
            && w <= maxWidth && h <= maxHeight
            && w <= width && h <= height
            && (w == maxWidth || h == maxHeight || (w == width && h == height))
  {
    if !FitsBox(width, height, maxWidth, maxHeight) {
      var scale := MinReal(Ratio(maxWidth, width), Ratio(maxHeight, height));
      ScaledSide(width, maxWidth, scale);
      ScaledSide(height, maxHeight, scale);
    }
  }

  // ---------------------------------------------------------------------------
  // ImageDisplayFrame

  const NoImageText: string := "No image loaded"

  /** The label's text and background, and whether it shows the photo. */
  datatype Label = Label(text: string, background: string, showsPhoto: bool)

  const PlaceholderLabel: Label := Label(NoImageText, "lightgray", false)

  /** The fields `_current_image` and `_current_photo` (the photo kept as the size
      of the resized image it was built from), and the label. */
  datatype FrameState = FrameState(image: Option<Image>, photo: Option<(nat, nat)>, shown: Label)

  function ErrorLabel(message: string): Label {
    Label("Error: " + message, "lightcoral", false)
  }

  /** `_show_error` */
  function ShowErrorStep(s: FrameState, message: string): (s': FrameState)
    ensures s'.image == s.image && s'.photo == None && s'.shown == ErrorLabel(message)
  {
    FrameState(s.image, None, ErrorLabel(message))
  }

  /** `clear_image` */
  function ClearStep(s: FrameState): (s': FrameState)
    ensures s'.image == None && s'.photo == None && s'.shown == PlaceholderLabel
  {
    FrameState(None, None, PlaceholderLabel)
  }

  /** `display_image`: `render` is whether `ImageTk.PhotoImage` succeeded. */
  function DisplayStep(s: FrameState, maxWidth: nat, maxHeight: nat, image: Image, render: Outcome<()>)
    : (s': FrameState)
    ensures s'.image == Some(image)
    ensures ResizeDims(image.width, image.height, maxWidth, maxHeight).Err? ==>
              s'.photo == None
              && s'.shown == ErrorLabel("Failed to display image: " + ResizeDims(image.width, image.height, maxWidth, maxHeight).exc.msg)
    ensures ResizeDims(image.width, image.height, maxWidth, maxHeight).Ok? && render.Err? ==>
              s'.photo == None && s'.shown == ErrorLabel("Failed to display image: " + render.exc.msg)
    ensures s'.photo.Some? ==> s'.photo == Some(ResizeDims(image.width, image.height, maxWidth, maxHeight).value)
                               && s'.shown.showsPhoto && s'.shown.text == ""
  {
    var stored := FrameState(Some(image), s.photo, s.shown);
    match ResizeDims(image.width, image.height, maxWidth, maxHeight)
    case Err(e) => ShowErrorStep(stored, "Failed to display image: " + e.msg)
    case Ok(size) =>
      match render
      case Err(e) => ShowErrorStep(stored, "Failed to display image: " + e.msg)
      case Ok(_) => FrameState(Some(image), Some(size), Label("", "white", true))
  }

  /** The image is stored before anything can fail, so `get_current_image` returns
      it whether or not it could be shown; a photo is shown exactly when resizing
      and rendering succeed, and it fits the box. */
  lemma DisplayStoresOriginal(s: FrameState, maxWidth: nat, maxHeight: nat, image: Image, render: Outcome<()>)
    ensures var s' := DisplayStep(s, maxWidth, maxHeight, image, render);
            && s'.image == Some(image)
            && (s'.photo.Some? <==> ResizeDims(image.width, image.height, maxWidth, maxHeight).Ok? && render.Ok?)
            && (s'.photo.Some? ==> s'.photo.value.0 <= maxWidth && s'.photo.value.1 <= maxHeight && s'.shown.showsPhoto)
            && (s'.photo.None? ==> !s'.shown.showsPhoto && s'.shown.background == "lightcoral")
  {
    var r := ResizeDims(image.width, image.height, maxWidth, maxHeight);
    if r.Ok? {
      ResizedFitsBox(image.width, image.height, maxWidth, maxHeight);
    }
  }

  /** A photo is shown exactly when one is held, and any held photo fits the box. */
  ghost predicate Consistent(s: FrameState, maxWidth: nat, maxHeight: nat) {
    && (s.photo.Some? <==> s.shown.showsPhoto)
    && (s.photo.Some? ==> s.image.Some? && s.photo.value.0 <= maxWidth && s.photo.value.1 <= maxHeight)
  }

  /** Every operation of the frame keeps it consistent. */
  lemma FrameOperationsKeepConsistent(s: FrameState, maxWidth: nat, maxHeight: nat, image: Image,
                                      render: Outcome<()>, message: string)
    requires Consistent(s, maxWidth, maxHeight)
    ensures Consistent(DisplayStep(s, maxWidth, maxHeight, image, render), maxWidth, maxHeight)
    ensures Consistent(ShowErrorStep(s, message), maxWidth, maxHeight)
    ensures Consistent(ClearStep(s), maxWidth, maxHeight)
  {
    DisplayStoresOriginal(s, maxWidth, maxHeight, image, render);
  }

  class ImageDisplayFrame {
    const maxWidth: nat
    const maxHeight: nat
    var currentImage: Option<Image>
    var currentPhoto: Option<(nat, nat)>
    var imageLabel: Label

    function State(): FrameState
      reads this
    {
      FrameState(currentImage, currentPhoto, imageLabel)
    }

    ghost predicate Valid()
      reads this
    {
      Consistent(State(), maxWidth, maxHeight)
    }

    constructor (maxWidth: nat, maxHeight: nat)
      ensures this.maxWidth == maxWidth && this.maxHeight == maxHeight
      ensures State() == FrameState(None, None, PlaceholderLabel)
      ensures Valid()
    {
      this.maxWidth, this.maxHeight := maxWidth, maxHeight;
      currentImage, currentPhoto := None, None;
      imageLabel := PlaceholderLabel;
    }

    method ShowError(message: string)
      requires Valid()
      modifies this
      ensures State() == ShowErrorStep(old(State()), message)
      ensures Valid()
    {
      imageLabel := ErrorLabel(message);
      currentPhoto := None;
    }

    method ClearImage()
      requires Valid()
      modifies this
      ensures State() == ClearStep(old(State()))
      ensures Valid()
    {
      currentImage := None;
      currentPhoto := None;
      imageLabel := PlaceholderLabel;
    }

    method DisplayImage(image: Image, render: Outcome<()>)
      requires Valid()
      modifies this
      ensures State() == DisplayStep(old(State()), maxWidth, maxHeight, image, render)
      ensures Valid()
    {
      FrameOperationsKeepConsistent(State(), maxWidth, maxHeight, image, render, "");
      currentImage := Some(image);
      var resized := ResizeDims(image.width, image.height, maxWidth, maxHeight);
      if resized.Err? {
        ShowError("Failed to display image: " + resized.exc.msg);
        return;
      }
      if render.Err? {
        ShowError("Failed to display image: " + render.exc.msg);
        return;
      }
      currentPhoto := Some(resized.value);
      imageLabel := Label("", "white", true);
    }

    function GetCurrentImage(): (r: Option<Image>)
      reads this
      ensures r == State().image
    {
      currentImage
    }
  }
}
