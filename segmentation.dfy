// models/clothes_segmentation.py: ClothesSegmentationModel. The network's
// forward pass, the bilinear upsampling, the softmax and the palette generator
// are inputs (a Prediction); the float blend is a function parameter.

module Segmentation {
  import opened Python
  import opened Decorators
  import BaseModel

  const DefaultModelName: string := "mattmdjaga/segformer_b2_clothes"
  const ClassName: string := "ClothesSegmentationModel"

  /** `_clothing_ids_of_interest` */
  const ClothingIds: seq<int> := [2, 4, 6, 11, 14, 15]

  const FailureMessage: string := "Clothes segmentation failed"
  const NotADictWithImage: Exception :=
    Exception(ValueError, "Need a dict with key 'image' containing a PIL Image")
  const NotAnImage: Exception := Exception(TypeError, "'image' must be a PIL Image")
  /** What calling the `None` left in `_processor` raises. */
  const NoneNotCallable: Exception := Exception(TypeError, "'NoneType' object is not callable")

  /** The receiver as the first positional argument the decorators see. */
  const SelfValue: Value := ObjectValue(0)

  // ---------------------------------------------------------------------------
  // Pixel-level post-processing

  /** `pred[~confidence_mask] = 0`, for one pixel. */
  function EffectiveClass(c: u8, confident: bool): u8 {
    if confident then c else 0
  }

  /** `np.isin(pred, _clothing_ids_of_interest)`, for one pixel. */
  predicate IsClothing(c: u8) {
    c as int in ClothingIds
  }

  /** A low-confidence pixel is background and so never clothing. */
  lemma LowConfidenceNeverClothing(c: u8)
    ensures !IsClothing(EffectiveClass(c, false))
    ensures IsClothing(EffectiveClass(c, true)) <==> c in {2, 4, 6, 11, 14, 15}
  {
  }

  /** The colour map at one pixel: its palette colour on the mask, black elsewhere. */
  function ColoredPixel(c: u8, palette: seq<Rgb>): Rgb
    requires c as int < |palette|
  {
    if IsClothing(c) then palette[c] else Black
  }

  /** The overlay at one pixel: the blend of the original with the palette colour
      on the mask, the original elsewhere. */
  function OverlayPixel(o: Rgb, c: u8, palette: seq<Rgb>, blend: (Rgb, Rgb) -> Rgb): Rgb
    requires c as int < |palette|
  {
    if IsClothing(c) then blend(o, palette[c]) else o
  }

  /** What the network yields for one image, upsampled to its size: the argmax class
      and whether the softmax confidence is at least 0.5 for every pixel, and the
      palette with one colour per class. */
  datatype Prediction = Prediction(classes: seq<seq<u8>>, confident: seq<seq<bool>>, palette: seq<Rgb>)

  /** The grids have the image's height and width and every class has a colour. */
  predicate Fits(p: Prediction, img: Image) {
    && |p.classes| == img.height && |p.confident| == img.height
    && (forall i :: 0 <= i < img.height ==> |p.classes[i]| == img.width && |p.confident[i]| == img.width)
    && (forall i, j :: 0 <= i < img.height && 0 <= j < img.width ==> p.classes[i][j] as int < |p.palette|)
  }

  function ClassAt(img: Image, p: Prediction, i: nat, j: nat): (c: u8)
    requires Fits(p, img) && i < img.height && j < img.width
    ensures c as int < |p.palette|
  {
    EffectiveClass(p.classes[i][j], p.confident[i][j])
  }

  /** The colour map of the whole image. */
  function ColoredMap(img: Image, p: Prediction): (m: Image)
    requires Fits(p, img)
    ensures m.width == img.width && m.height == img.height
    ensures forall i, j :: 0 <= i < img.height && 0 <= j < img.width ==>
              m.pixels[i][j] == ColoredPixel(ClassAt(img, p, i, j), p.palette)
  {
    Picture(img.width, img.height,
      seq(img.height, i requires 0 <= i < img.height =>
        seq(img.width, j requires 0 <= j < img.width => ColoredPixel(ClassAt(img, p, i, j), p.palette))))
  }

  /** The overlay of the whole image. */
  function OverlayImage(img: Image, p: Prediction, blend: (Rgb, Rgb) -> Rgb): (m: Image)
    requires Fits(p, img)
    ensures m.width == img.width && m.height == img.height
    ensures forall i, j :: 0 <= i < img.height && 0 <= j < img.width ==>
              m.pixels[i][j] == OverlayPixel(img.pixels[i][j], ClassAt(img, p, i, j), p.palette, blend)
  {
    Picture(img.width, img.height,
      seq(img.height, i requires 0 <= i < img.height =>
        seq(img.width, j requires 0 <= j < img.width =>
          OverlayPixel(img.pixels[i][j], ClassAt(img, p, i, j), p.palette, blend))))
  }

  /** Off the clothing mask the colour map is black and the overlay is the original;
      on it the overlay is the blend of the original with the colour map. */
  lemma MaskSeparatesOutputs(img: Image, p: Prediction, blend: (Rgb, Rgb) -> Rgb, i: nat, j: nat)
    requires Fits(p, img) && i < img.height && j < img.width
    ensures var c := ClassAt(img, p, i, j);
            var colored := ColoredMap(img, p).pixels[i][j];
            var overlay := OverlayImage(img, p, blend).pixels[i][j];
            && (!IsClothing(c) ==> colored == Black && overlay == img.pixels[i][j])
            && (IsClothing(c) ==> colored == p.palette[c] && overlay == blend(img.pixels[i][j], colored))
            && (!p.confident[i][j] ==> colored == Black && overlay == img.pixels[i][j])
  {
  }

  /** A network that reports class 4 with full confidence everywhere paints the
      whole colour map in the palette's colour 4 and blends it into every pixel. */
  lemma UniformClothingPrediction(img: Image, p: Prediction, blend: (Rgb, Rgb) -> Rgb)
    requires Fits(p, img) && |p.palette| > 4
    requires forall i, j :: 0 <= i < img.height && 0 <= j < img.width ==>
               p.classes[i][j] == 4 && p.confident[i][j]
    ensures forall i, j :: 0 <= i < img.height && 0 <= j < img.width ==>
              ColoredMap(img, p).pixels[i][j] == p.palette[4] &&
              OverlayImage(img, p, blend).pixels[i][j] == blend(img.pixels[i][j], p.palette[4])
  {
    forall i, j | 0 <= i < img.height && 0 <= j < img.width
      ensures ColoredMap(img, p).pixels[i][j] == p.palette[4]
      ensures OverlayImage(img, p, blend).pixels[i][j] == blend(img.pixels[i][j], p.palette[4])
    {
      assert ClassAt(img, p, i, j) == 4;
      assert IsClothing(4) by { assert ClothingIds[1] == 4; }
    }
  }

  // ---------------------------------------------------------------------------
  // The in-place array steps of `process`

  /** `pred[~confidence_mask] = 0` */
  method DropLowConfidence(pred: array2<u8>, confident: array2<bool>)
    requires confident.Length0 == pred.Length0 && confident.Length1 == pred.Length1
    modifies pred
    ensures forall i, j :: 0 <= i < pred.Length0 && 0 <= j < pred.Length1 ==>
              pred[i, j] == EffectiveClass(old(pred[i, j]), confident[i, j])
  {
    var i := 0;
    while i < pred.Length0
      invariant 0 <= i <= pred.Length0
      invariant forall i', j :: 0 <= i' < i && 0 <= j < pred.Length1 ==>
                  pred[i', j] == EffectiveClass(old(pred[i', j]), confident[i', j])
      invariant forall i', j :: i <= i' < pred.Length0 && 0 <= j < pred.Length1 ==>
                  pred[i', j] == old(pred[i', j])
    {
      var j := 0;
      while j < pred.Length1
        invariant 0 <= j <= pred.Length1
        invariant forall i', j' :: 0 <= i' < i && 0 <= j' < pred.Length1 ==>
                    pred[i', j'] == EffectiveClass(old(pred[i', j']), confident[i', j'])
        invariant forall j' :: 0 <= j' < j ==>
                    pred[i, j'] == EffectiveClass(old(pred[i, j']), confident[i, j'])
        invariant forall j' :: j <= j' < pred.Length1 ==> pred[i, j'] == old(pred[i, j'])
        invariant forall i', j' :: i < i' < pred.Length0 && 0 <= j' < pred.Length1 ==>
                    pred[i', j'] == old(pred[i', j'])
      {
        if !confident[i, j] {
          pred[i, j] := 0;
        }
        j := j + 1;
      }
      i := i + 1;
    }
  }

  /** `clothing_mask = np.isin(pred, _clothing_ids_of_interest)` */
  method ClothingMask(pred: array2<u8>) returns (mask: array2<bool>)
    ensures mask.Length0 == pred.Length0 && mask.Length1 == pred.Length1
    ensures forall i, j :: 0 <= i < pred.Length0 && 0 <= j < pred.Length1 ==>
              mask[i, j] == IsClothing(pred[i, j])
  {
    mask := new bool[pred.Length0, pred.Length1];
    var i := 0;
    while i < pred.Length0
      invariant 0 <= i <= pred.Length0
      invariant forall i', j :: 0 <= i' < i && 0 <= j < pred.Length1 ==> mask[i', j] == IsClothing(pred[i', j])
    {
      var j := 0;
      while j < pred.Length1
        invariant 0 <= j <= pred.Length1
        invariant forall i', j' :: 0 <= i' < i && 0 <= j' < pred.Length1 ==> mask[i', j'] == IsClothing(pred[i', j'])
        invariant forall j' :: 0 <= j' < j ==> mask[i, j'] == IsClothing(pred[i, j'])
      {
        mask[i, j] := IsClothing(pred[i, j]);
        j := j + 1;
      }
      i := i + 1;
    }
  }

  /** `color_result[clothing_mask] = palette[pred[clothing_mask]]` */
  method PaintMask(color: array2<Rgb>, mask: array2<bool>, pred: array2<u8>, palette: seq<Rgb>)
    requires mask.Length0 == pred.Length0 == color.Length0 && mask.Length1 == pred.Length1 == color.Length1
    requires forall i, j :: 0 <= i < pred.Length0 && 0 <= j < pred.Length1 && mask[i, j] ==>
               pred[i, j] as int < |palette|
    modifies color
    ensures forall i, j :: 0 <= i < color.Length0 && 0 <= j < color.Length1 ==>
              color[i, j] == if mask[i, j] then palette[pred[i, j]] else old(color[i, j])
  {
    var i := 0;
    while i < color.Length0
      invariant 0 <= i <= color.Length0
      invariant forall i', j :: 0 <= i' < i && 0 <= j < color.Length1 ==>
                  color[i', j] == if mask[i', j] then palette[pred[i', j]] else old(color[i', j])
      invariant forall i', j :: i <= i' < color.Length0 && 0 <= j < color.Length1 ==>
                  color[i', j] == old(color[i', j])
    {
      var j := 0;
      while j < color.Length1
        invariant 0 <= j <= color.Length1
        invariant forall i', j' :: 0 <= i' < i && 0 <= j' < color.Length1 ==>
                    color[i', j'] == if mask[i', j'] then palette[pred[i', j']] else old(color[i', j'])
        invariant forall j' :: 0 <= j' < j ==>
                    color[i, j'] == if mask[i, j'] then palette[pred[i, j']] else old(color[i, j'])
        invariant forall j' :: j <= j' < color.Length1 ==> color[i, j'] == old(color[i, j'])
        invariant forall i', j' :: i < i' < color.Length0 && 0 <= j' < color.Length1 ==>
                    color[i', j'] == old(color[i', j'])
      {
        if mask[i, j] {
          color[i, j] := palette[pred[i, j]];
        }
        j := j + 1;
      }
      i := i + 1;
    }
  }

  /** `overlay_arr[clothing_mask] = blend(orig_arr[clothing_mask], color_result[clothing_mask])` */
  method BlendMask(overlay: array2<Rgb>, orig: array2<Rgb>, color: array2<Rgb>, mask: array2<bool>,
                   blend: (Rgb, Rgb) -> Rgb)
    requires overlay != orig && overlay != color
    requires orig.Length0 == color.Length0 == mask.Length0 == overlay.Length0
    requires orig.Length1 == color.Length1 == mask.Length1 == overlay.Length1
    modifies overlay
    ensures forall i, j :: 0 <= i < overlay.Length0 && 0 <= j < overlay.Length1 ==>
              overlay[i, j] == if mask[i, j] then blend(orig[i, j], color[i, j]) else old(overlay[i, j])
  {
    var i := 0;
    while i < overlay.Length0
      invariant 0 <= i <= overlay.Length0
      invariant forall i', j :: 0 <= i' < i && 0 <= j < overlay.Length1 ==>
                  overlay[i', j] == if mask[i', j] then blend(orig[i', j], color[i', j]) else old(overlay[i', j])
      invariant forall i', j :: i <= i' < overlay.Length0 && 0 <= j < overlay.Length1 ==>
                  overlay[i', j] == old(overlay[i', j])
    {
      var j := 0;
      while j < overlay.Length1
        invariant 0 <= j <= overlay.Length1
        invariant forall i', j' :: 0 <= i' < i && 0 <= j' < overlay.Length1 ==>
                    overlay[i', j'] == if mask[i', j'] then blend(orig[i', j'], color[i', j']) else old(overlay[i', j'])
        invariant forall j' :: 0 <= j' < j ==>
                    overlay[i, j'] == if mask[i, j'] then blend(orig[i, j'], color[i, j']) else old(overlay[i, j'])
        invariant forall j' :: j <= j' < overlay.Length1 ==> overlay[i, j'] == old(overlay[i, j'])
        invariant forall i', j' :: i < i' < overlay.Length0 && 0 <= j' < overlay.Length1 ==>
                    overlay[i', j'] == old(overlay[i', j'])
      {
        if mask[i, j] {
          overlay[i, j] := blend(orig[i, j], color[i, j]);
        }
        j := j + 1;
      }
      i := i + 1;
    }
  }

  /** The post-processing part of `process`, on the arrays it works with: threshold
      `pred` in place, build the mask, paint the colour map on black, copy the
      original and blend the mask pixels of the copy. */
  method PostProcess(pred: array2<u8>, confident: array2<bool>, palette: seq<Rgb>, orig: array2<Rgb>,
                     blend: (Rgb, Rgb) -> Rgb)
    returns (colored: array2<Rgb>, overlay: array2<Rgb>)
    requires confident.Length0 == pred.Length0 == orig.Length0
    requires confident.Length1 == pred.Length1 == orig.Length1
    requires forall i, j :: 0 <= i < pred.Length0 && 0 <= j < pred.Length1 ==> pred[i, j] as int < |palette|
    modifies pred
    ensures fresh(colored) && fresh(overlay)
    ensures colored.Length0 == overlay.Length0 == pred.Length0
    ensures colored.Length1 == overlay.Length1 == pred.Length1
    ensures forall i, j :: 0 <= i < pred.Length0 && 0 <= j < pred.Length1 ==>
              && pred[i, j] == EffectiveClass(old(pred[i, j]), confident[i, j])
              && colored[i, j] == ColoredPixel(pred[i, j], palette)
              && overlay[i, j] == OverlayPixel(orig[i, j], pred[i, j], palette, blend)
  {
    DropLowConfidence(pred, confident);
    var mask := ClothingMask(pred);
    colored := new Rgb[pred.Length0, pred.Length1]((i, j) => Black);
    PaintMask(colored, mask, pred, palette);
    overlay := new Rgb[orig.Length0, orig.Length1]((i, j) reads orig =>
      if 0 <= i < orig.Length0 && 0 <= j < orig.Length1 then orig[i, j] else Black);
    BlendMask(overlay, orig, colored, mask, blend);
  }

  // ---------------------------------------------------------------------------
  // The model object

  /** The image `process` expects: `data["image"]` of a dict holding a PIL image. */
  function InputImage(data: Value): (r: Outcome<Image>)
    ensures r.Ok? <==> data.DictValue? && "image" in data.entries && data.entries["image"].ImageValue?
    ensures r.Ok? ==> data.entries["image"] == ImageValue(r.value)
    ensures r.Err? ==> (r.exc.kind == ValueError <==> !(data.DictValue? && "image" in data.entries))
    ensures r.Err? ==> r.exc.kind == ValueError || r.exc.kind == TypeError
  {
    if !data.DictValue? || "image" !in data.entries then Err(NotADictWithImage)
    else if !data.entries["image"].ImageValue? then Err(NotAnImage)
    else Ok(data.entries["image"].image)
  }

  /** What the processor, the network, the upsampling, the softmax and
      `config.num_labels` give for the image: a prediction, or the exception one
      of those calls raises. */
  type Inference = Outcome<Prediction>

  /** An inference that, when it succeeds, fits the image. */
  predicate InferenceFits(net: Inference, img: Image) {
    net.Ok? ==> Fits(net.value, img)
  }

  /** An inference that fits whatever image the argument holds. */
  predicate PredictionFor(data: Value, net: Inference) {
    InputImage(data).Ok? ==> InferenceFits(net, InputImage(data).value)
  }

  /** The pair `process` returns: the overlay and the colour map. */
  function Segmented(img: Image, p: Prediction, blend: (Rgb, Rgb) -> Rgb): (v: Value)
    requires Fits(p, img)
    ensures v.TupleValue? && |v.items| == 2
    ensures v.items[0] == ImageValue(OverlayImage(img, p, blend)) && v.items[1] == ImageValue(ColoredMap(img, p))
  {
    TupleValue([ImageValue(OverlayImage(img, p, blend)), ImageValue(ColoredMap(img, p))])
  }

  /** The fields of a ClothesSegmentationModel: the base class's, and whether
      `_processor` and `_model` hold a loaded object. */
  datatype SegState = SegState(base: BaseModel.ModelState, hasProcessor: bool, hasNetwork: bool)

  function InitialState(name: string): (s: SegState)
    ensures s.base == BaseModel.Initial(name) && !s.hasProcessor && !s.hasNetwork
  {
    SegState(BaseModel.Initial(name), false, false)
  }

  /** `_ensure_loaded` with this class's `_load_model`, which sets both handles
      or raises (ImportError when the transformers classes are missing). */
  function EnsureLoadedSpec(s: SegState, load: Outcome<()>, elapsed: real): (r: (SegState, Outcome<()>))
    ensures r.0.base == BaseModel.EnsureLoadedStep(s.base, load, elapsed).state
    ensures r.1 == BaseModel.EnsureLoadedStep(s.base, load, elapsed).out
    ensures s.base.loaded || load.Err? ==> r.0.hasProcessor == s.hasProcessor && r.0.hasNetwork == s.hasNetwork
    ensures !s.base.loaded && load.Ok? ==> r.0.hasProcessor && r.0.hasNetwork
  {
    var step := BaseModel.EnsureLoadedStep(s.base, load, elapsed);
    if step.invoked && step.out.Ok? then (SegState(step.state, true, true), step.out)
    else (SegState(step.state, s.hasProcessor, s.hasNetwork), step.out)
  }

  /** The undecorated body of `process`: the new state and what it returns or raises. */
  function ProcessBody(s: SegState, data: Value, load: Outcome<()>, elapsed: real, net: Inference,
                       blend: (Rgb, Rgb) -> Rgb): (r: (SegState, Outcome<Value>))
    requires PredictionFor(data, net)
    ensures InputImage(data).Err? ==> r == (s, Err(InputImage(data).exc))
    ensures InputImage(data).Ok? && EnsureLoadedSpec(s, load, elapsed).1.Err? ==>
              r.0 == EnsureLoadedSpec(s, load, elapsed).0 && r.1 == Err(load.exc)
    ensures r.1.Ok? ==> InputImage(data).Ok? && net.Ok? && r.0.base.loaded && r.0.hasProcessor && r.0.hasNetwork
    ensures InputImage(data).Ok? && s.base.loaded && s.hasProcessor && s.hasNetwork && net.Ok? ==>
              r == (s, Ok(Segmented(InputImage(data).value, net.value, blend)))
    ensures InputImage(data).Ok? && s.base.loaded && s.hasProcessor && s.hasNetwork && net.Err? ==>
              r == (s, Err(net.exc))
    ensures InputImage(data).Ok? && s.base.loaded && !(s.hasProcessor && s.hasNetwork) ==>
              r == (s, Err(NoneNotCallable))
  {
    match InputImage(data)
    case Err(e) => (s, Err(e))
    case Ok(img) =>
      var (s', loaded) := EnsureLoadedSpec(s, load, elapsed);
      if loaded.Err? then (s', Err(loaded.exc))
      else if !s'.hasProcessor || !s'.hasNetwork then (s', Err(NoneNotCallable))
      else match net
        case Err(e) => (s', Err(e))
        case Ok(p) => (s', Ok(Segmented(img, p, blend)))
  }

  /** The decorated `process`: `@validate_input @log_operation @error_handler(...)`. */
  function ProcessSpec(s: SegState, data: Value, load: Outcome<()>, elapsed: real, net: Inference,
                       blend: (Rgb, Rgb) -> Rgb): (r: (SegState, Run))
    requires PredictionFor(data, net)
    ensures r.1.out.Err? <==> IsEmptyInput(data)
    ensures r.1.out.Err? ==> r == (s, Run(Err(EmptyInput), []))
    ensures r.0.base.name == s.base.name
  {
    var call := Call([SelfValue, data], map[]);
    if IsEmptyInput(data) then (s, ValidateInput(_ => Run(Ok(NoneValue), []), call))
    else
      var (s', out) := ProcessBody(s, data, load, elapsed, net, blend);
      (s', ValidatedLoggedGuarded("process", FailureMessage, _ => Run(out, []), call))
  }

  /** The model can run inference on the image: it loads now, or it is loaded
      with both handles. */
  predicate ReadyToInfer(s: SegState, load: Outcome<()>) {
    (!s.base.loaded && load.Ok?) || (s.base.loaded && s.hasProcessor && s.hasNetwork)
  }

  /** An empty argument (falsy, or a blank string) escapes as ValueError and loads
      nothing; anything else returns normally: a bad argument, a failed load, an
      unusable model or a failing inference yields `None` with its error line,
      otherwise the overlay and the colour map. */
  lemma ProcessOutcomes(s: SegState, data: Value, load: Outcome<()>, elapsed: real, net: Inference,
                        blend: (Rgb, Rgb) -> Rgb)
    requires PredictionFor(data, net)
    ensures var (s', r) := ProcessSpec(s, data, load, elapsed, net, blend);
            && (IsEmptyInput(data) ==> s' == s && r == Run(Err(EmptyInput), []))
            && (!IsEmptyInput(data) ==> r.out.Ok? && r.log[0] == Starting("process"))
            && (!IsEmptyInput(data) && InputImage(data).Err? ==>
                  s' == s && r.out == Ok(NoneValue) &&
                  r.log == [Starting("process"), ErrorReport(FailureMessage, InputImage(data).exc.msg),
                            Completed("process")])
            && (!IsEmptyInput(data) && InputImage(data).Ok? && !s.base.loaded && load.Ok? ==>
                  s'.base.loaded && s'.base.loadTime == Some(elapsed) && s'.hasProcessor && s'.hasNetwork)
            && (!IsEmptyInput(data) && InputImage(data).Ok? && s.base.loaded && s.hasProcessor && s.hasNetwork ==>
                  s' == s)
            && (!IsEmptyInput(data) && InputImage(data).Ok? && ReadyToInfer(s, load) && net.Ok? ==>
                  r == Run(Ok(Segmented(InputImage(data).value, net.value, blend)),
                           [Starting("process"), Completed("process")]))
            && (!IsEmptyInput(data) && InputImage(data).Ok? && ReadyToInfer(s, load) && net.Err? ==>
                  r == Run(Ok(NoneValue), [Starting("process"), ErrorReport(FailureMessage, net.exc.msg),
                                           Completed("process")]))
            && (!IsEmptyInput(data) && InputImage(data).Ok? && !s.base.loaded && load.Err? ==>
                  s' == s &&
                  r == Run(Ok(NoneValue), [Starting("process"), ErrorReport(FailureMessage, load.exc.msg),
                                           Completed("process")]))
  {
    if !IsEmptyInput(data) {
      var (s', out) := ProcessBody(s, data, load, elapsed, net, blend);
      ValidatedLoggedGuardedRun("process", FailureMessage, out, Call([SelfValue, data], map[]));
      if InputImage(data).Ok? && !s.base.loaded && load.Ok? {
        FirstLoadInfers(s, data, load, elapsed, net, blend);
      }
    }
  }

  /** On an unloaded model whose load succeeds, the body loads it and then runs
      the inference: the overlay and the colour map, or the inference's exception. */
  lemma FirstLoadInfers(s: SegState, data: Value, load: Outcome<()>, elapsed: real, net: Inference,
                        blend: (Rgb, Rgb) -> Rgb)
    requires PredictionFor(data, net) && InputImage(data).Ok? && !s.base.loaded && load.Ok?
    ensures var (s', out) := ProcessBody(s, data, load, elapsed, net, blend);
            && s'.base.loaded && s'.base.loadTime == Some(elapsed) && s'.hasProcessor && s'.hasNetwork
            && (net.Ok? ==> out == Ok(Segmented(InputImage(data).value, net.value, blend)))
            && (net.Err? ==> out == Err(net.exc))
  {
    var (s', loaded) := EnsureLoadedSpec(s, load, elapsed);
    assert loaded.Ok? && s'.hasProcessor && s'.hasNetwork;
  }

  /** `unload_model` as written: both handles are dropped but `_is_loaded` stays true. */
  function UnloadSpec(s: SegState): (s': SegState)
    ensures s'.base == s.base && !s'.hasProcessor && !s'.hasNetwork
  {
    SegState(s.base, false, false)
  }

  /** `unload_model` as evidently intended: the model is marked unloaded as well. */
  function UnloadAndResetSpec(s: SegState): (s': SegState)
    ensures !s'.base.loaded && s'.base.name == s.base.name && !s'.hasProcessor && !s'.hasNetwork
  {
    SegState(BaseModel.ModelState(s.base.name, false, s.base.loadTime), false, false)
  }

  /** After `unload_model` as written, `_ensure_loaded` never reloads, so every later
      `process` call on a good image fails inside the body and returns `None`,
      whatever the load routine and the network would do. */
  lemma UnloadedModelNeverProcesses(s: SegState, data: Value, load: Outcome<()>, elapsed: real,
                                    net: Inference, blend: (Rgb, Rgb) -> Rgb)
    requires s.base.loaded
    requires InputImage(data).Ok? && PredictionFor(data, net)
    ensures var (s', r) := ProcessSpec(UnloadSpec(s), data, load, elapsed, net, blend);
            r.out == Ok(NoneValue) && s' == UnloadSpec(s)
            && r.log == [Starting("process"), ErrorReport(FailureMessage, NoneNotCallable.msg),
                         Completed("process")]
  {
    assert Truthy(data) by { assert "image" in data.entries.Keys; }
    var (s', out) := ProcessBody(UnloadSpec(s), data, load, elapsed, net, blend);
    assert out == Err(NoneNotCallable);
    ProcessOutcomes(UnloadSpec(s), data, load, elapsed, net, blend);
    var call := Call([SelfValue, data], map[]);
    var body := (_: Call) => Run(out, []);
    assert ErrorHandler(FailureMessage, body, call) == Run(Ok(NoneValue), [ErrorReport(FailureMessage, NoneNotCallable.msg)]);
  }

  /** After the corrected unload, the next `process` call reloads the model and,
      when loading and inference succeed, returns the overlay and the colour map
      again. */
  lemma ResetModelReloads(s: SegState, data: Value, load: Outcome<()>, elapsed: real,
                          net: Inference, blend: (Rgb, Rgb) -> Rgb)
    requires InputImage(data).Ok? && PredictionFor(data, net) && load.Ok?
    ensures var (s', r) := ProcessSpec(UnloadAndResetSpec(s), data, load, elapsed, net, blend);
            && s'.base.loaded && s'.hasProcessor && s'.hasNetwork
            && (net.Ok? ==> r.out == Ok(Segmented(InputImage(data).value, net.value, blend)))
  {
    ProcessOutcomes(UnloadAndResetSpec(s), data, load, elapsed, net, blend);
  }

  /** `get_model_info` of this class: the base dictionary updated with five entries. */
  function SegModelInfo(s: SegState, device: string): (info: map<string, Value>)
    ensures info.Keys == BaseModel.InfoKeys + SegInfoKeys
    ensures BaseModel.StateFromInfo(info) == Some(s.base)
    ensures info["type"] == StrValue(ClassName) && info["device"] == StrValue(device)
  {
    var baseInfo := BaseModel.ModelInfo(s.base, ClassName);
    var extra := SegInfoEntries(device);
    var info := baseInfo + extra;
    BaseModel.ModelInfoReportsState(s.base, ClassName);
    BaseModel.StateFromSameEntries(baseInfo, info);
    info
  }

  /** The keys this class's `get_model_info` adds; none of them is a base key. */
  const SegInfoKeys: set<string> := {"model_type", "device", "input_type", "output_type", "description"}

  /** The entries this class's `get_model_info` adds to the base dictionary. */
  function SegInfoEntries(device: string): (m: map<string, Value>)
    ensures m.Keys == SegInfoKeys && m.Keys !! BaseModel.InfoKeys
    ensures m["device"] == StrValue(device)
  {
    map[
      "model_type" := StrValue("Clothes Segmentation (SegFormer)"),
      "device" := StrValue(device),
      "input_type" := StrValue("PIL Image"),
      "output_type" := StrValue("PIL Image (colored clothing mask)"),
      "description" := StrValue("Segments clothing items from an image and colors only those regions")]
  }

  /** The picture a numpy array becomes under `Image.fromarray`. */
  function FromArray(a: array2<Rgb>): (img: Image)
    reads a
    ensures img.height == a.Length0 && img.width == a.Length1
    ensures forall i, j :: 0 <= i < a.Length0 && 0 <= j < a.Length1 ==> img.pixels[i][j] == a[i, j]
  {
    Picture(a.Length1, a.Length0,
      seq(a.Length0, i requires 0 <= i < a.Length0 reads a =>
        seq(a.Length1, j requires 0 <= j < a.Length1 reads a => a[i, j])))
  }

  /** Two pictures of the same size that agree at every pixel are equal. */
  lemma SamePicture(a: Image, b: Image)
    requires a.width == b.width && a.height == b.height
    requires forall i, j :: 0 <= i < a.height && 0 <= j < a.width ==> a.pixels[i][j] == b.pixels[i][j]
    ensures a == b
  {
    forall i | 0 <= i < a.height ensures a.pixels[i] == b.pixels[i] {
      assert forall j :: 0 <= j < a.width ==> a.pixels[i][j] == b.pixels[i][j];
    }
  }

  /** Lines 196-228 of `process` on the numpy arrays built from the image and the
      network's output: the returned pictures are the whole-image overlay and
      colour map. */
  method SegmentImage(img: Image, net: Prediction, blend: (Rgb, Rgb) -> Rgb) returns (overlayImg: Image, coloredImg: Image)
    requires Fits(net, img)
    ensures overlayImg == OverlayImage(img, net, blend)
    ensures coloredImg == ColoredMap(img, net)
  {
    var pred, confident, orig := ToArrays(img, net);
    var colored, overlay := PostProcess(pred, confident, net.palette, orig, blend);
    overlayImg, coloredImg := FromArray(overlay), FromArray(colored);
    assert forall i, j :: 0 <= i < img.height && 0 <= j < img.width ==> pred[i, j] == ClassAt(img, net, i, j);
    SamePicture(overlayImg, OverlayImage(img, net, blend));
    SamePicture(coloredImg, ColoredMap(img, net));
  }

  /** The numpy arrays `process` works on: the network's class grid and
      confidence, and the image as an array. */
  method ToArrays(img: Image, net: Prediction) returns (pred: array2<u8>, confident: array2<bool>, orig: array2<Rgb>)
    requires Fits(net, img)
    ensures fresh(pred) && fresh(confident) && fresh(orig)
    ensures pred.Length0 == confident.Length0 == orig.Length0 == img.height
    ensures pred.Length1 == confident.Length1 == orig.Length1 == img.width
    ensures forall i, j :: 0 <= i < img.height && 0 <= j < img.width ==>
              && pred[i, j] == net.classes[i][j] && confident[i, j] == net.confident[i][j]
              && orig[i, j] == img.pixels[i][j]
  {
    var h, w := img.height, img.width;
    pred := new u8[h, w]((i, j) => if 0 <= i < h && 0 <= j < w then net.classes[i][j] else 0);
    confident := new bool[h, w]((i, j) => 0 <= i < h && 0 <= j < w && net.confident[i][j]);
    orig := new Rgb[h, w]((i, j) => if 0 <= i < h && 0 <= j < w then img.pixels[i][j] else Black);
  }

  class ClothesSegmentationModel {
    const base: BaseModel.AIModel
    const device: string
    var hasProcessor: bool
    var hasNetwork: bool

    function State(): SegState
      reads this, base
    {
      SegState(base.State(), hasProcessor, hasNetwork)
    }

    /** `__init__`; `cudaAvailable` is `torch.cuda.is_available()`. */
    constructor (name: string, cudaAvailable: bool)
      ensures State() == InitialState(name)
      ensures device == if cudaAvailable then "cuda" else "cpu"
      ensures fresh(base)
    {
      base := new BaseModel.AIModel(name);
      device := if cudaAvailable then "cuda" else "cpu";
      hasProcessor, hasNetwork := false, false;
    }

    method EnsureLoaded(load: Outcome<()>, elapsed: real) returns (r: Outcome<()>)
      modifies this, base
      ensures (State(), r) == EnsureLoadedSpec(old(State()), load, elapsed)
    {
      var invoked;
      r, invoked := base.EnsureLoaded(load, elapsed);
      if invoked && r.Ok? {
        hasProcessor, hasNetwork := true, true;
      }
    }

    /** The body of `process` on the arrays it builds. */
    method ProcessBodyImpl(data: Value, load: Outcome<()>, elapsed: real, net: Inference,
                           blend: (Rgb, Rgb) -> Rgb) returns (out: Outcome<Value>)
      requires PredictionFor(data, net)
      modifies this, base
      ensures (State(), out) == ProcessBody(old(State()), data, load, elapsed, net, blend)
    {
      var input := InputImage(data);
      if input.Err? {
        return Err(input.exc);
      }
      var img := input.value;
      var loaded := EnsureLoaded(load, elapsed);
      if loaded.Err? {
        return Err(loaded.exc);
      }
      if !hasProcessor || !hasNetwork {
        return Err(NoneNotCallable);
      }
      if net.Err? {
        return Err(net.exc);
      }
      var overlayImg, coloredImg := SegmentImage(img, net.value, blend);
      out := Ok(TupleValue([ImageValue(overlayImg), ImageValue(coloredImg)]));
    }

    /** The decorated `process`. */
    method Process(data: Value, load: Outcome<()>, elapsed: real, net: Inference,
                   blend: (Rgb, Rgb) -> Rgb) returns (r: Run)
      requires PredictionFor(data, net)
      modifies this, base
      ensures (State(), r) == ProcessSpec(old(State()), data, load, elapsed, net, blend)
    {
      var call := Call([SelfValue, data], map[]);
      if IsEmptyInput(data) {
        r := ValidateInput(_ => Run(Ok(NoneValue), []), call);
        return;
      }
      var out := ProcessBodyImpl(data, load, elapsed, net, blend);
      r := ValidatedLoggedGuarded("process", FailureMessage, _ => Run(out, []), call);
    }

    /** `unload_model` as written. */
    method UnloadModel()
      modifies this
      ensures State() == UnloadSpec(old(State()))
    {
      hasNetwork := false;
      hasProcessor := false;
    }

    /** `unload_model` as evidently intended. */
    method UnloadModelAndReset()
      modifies this, base
      ensures State() == UnloadAndResetSpec(old(State()))
    {
      hasNetwork := false;
      hasProcessor := false;
      base.isLoaded := false;
    }

    function GetModelInfo(): (info: map<string, Value>)
      reads this, base
      ensures BaseModel.StateFromInfo(info) == Some(State().base)
      ensures "device" in info && info["device"] == StrValue(device)
    {
      SegModelInfo(State(), device)
    }
  }
}
