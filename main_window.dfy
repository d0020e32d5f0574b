// gui/main_window.py: ModelManager and the control state of MainWindow. The
// window is kept as its mode, the enabled state and text of the process button,
// the enabled state of the three save buttons and the selected image path. The
// worker thread is reduced to the event it schedules on the UI thread.

module MainWindow {
  import opened Python
  import opened Decorators
  import Files
  import Segmentation

  // ---------------------------------------------------------------------------
  // Modes and the control state

  datatype Mode = ClothesSegmentation | ImageToCaption
  {
    /** The `_current_mode` string. */
    function Name(): string {
      match this
      case ClothesSegmentation => "clothes_segmentation"
      case ImageToCaption => "image_to_caption"
    }
  }

  const SegmentationChoice: string := "Clothes Segmentation"
  const CaptionChoice: string := "Image to Caption"
  const SegmentLabel: string := "Segment Clothes"
  const CaptionLabel: string := "Generate Caption"
  const GenerateLabel: string := "Generate"
  const ProcessingLabel: string := "Processing..."

  /** Raised when the worker unpacks the `None` an unsuccessful segmentation returns. */
  const UnpackNone: string := "cannot unpack non-iterable NoneType object"

  datatype ControlState = ControlState(
    mode: Mode,
    processEnabled: bool,
    processLabel: string,
    saveOverlay: bool,
    saveColored: bool,
    saveCaption: bool,
    selected: Option<string>)

  /** The widgets as `_create_widgets` builds them: segmentation mode, the process
      button enabled as "Segment Clothes", every save button disabled. */
  const Created: ControlState :=
    ControlState(ClothesSegmentation, true, SegmentLabel, false, false, false, None)

  /** `_clear_output`: all three save buttons are disabled. */
  function ClearStep(s: ControlState): (s': ControlState)
    ensures !s'.saveOverlay && !s'.saveColored && !s'.saveCaption
    ensures s'.mode == s.mode && s'.processEnabled == s.processEnabled && s'.processLabel == s.processLabel
    ensures s'.selected == s.selected
  {
    s.(saveOverlay := false, saveColored := false, saveCaption := false)
  }

  /** `_on_mode_change` with the combobox showing `choice`. The process button's
      enabled state is left as it is. */
  function ModeChangeStep(s: ControlState, choice: string): (s': ControlState)
    ensures !s'.saveOverlay && !s'.saveColored && !s'.saveCaption
    ensures choice == SegmentationChoice ==> s'.mode == ClothesSegmentation && s'.processLabel == SegmentLabel
    ensures choice == CaptionChoice ==> s'.mode == ImageToCaption && s'.processLabel == CaptionLabel
    ensures choice != SegmentationChoice && choice != CaptionChoice ==>
              s'.mode == s.mode && s'.processLabel == s.processLabel
    ensures s'.processEnabled == s.processEnabled && s'.selected == s.selected
  {
    var switched :=
      if choice == SegmentationChoice then s.(mode := ClothesSegmentation, processLabel := SegmentLabel)
      else if choice == CaptionChoice then s.(mode := ImageToCaption, processLabel := CaptionLabel)
      else s;
    ClearStep(switched)
  }

  /** `_browse_image`: `chosen` is the path the file handler returned (None when
      cancelled or refused) and `loaded` whether it could then be loaded. The path
      is recorded before loading, so it stays selected when loading fails; the
      segmentation save buttons are disabled only after a successful load. */
  function BrowseControlStep(s: ControlState, chosen: Option<string>, loaded: bool): (s': ControlState)
    ensures chosen.None? ==> s' == s
    ensures chosen.Some? ==> s'.selected == chosen
    ensures chosen.Some? && loaded ==> !s'.saveOverlay && !s'.saveColored
    ensures s'.mode == s.mode && s'.processEnabled == s.processEnabled && s'.processLabel == s.processLabel
    ensures s'.saveCaption == s.saveCaption
    ensures !(chosen.Some? && loaded) ==> s'.saveOverlay == s.saveOverlay && s'.saveColored == s.saveColored
  {
    match chosen
    case None => s
    case Some(p) =>
      var picked := s.(selected := Some(p));
      if loaded then picked.(saveOverlay := false, saveColored := false) else picked
  }

  /** The error box `_browse_image` shows for an exception. */
  function LoadFailure(e: Exception): string {
    "Failed to load image: " + e.msg
  }

  /** What `_browse_image` ends with: the path it selected, whether the image
      loaded, and the error box it showed. */
  datatype BrowseResult = BrowseResult(chosen: Option<string>, loaded: bool, error: Option<string>)

  /** `_browse_image` after `browse_image_file` returned `out`: a refused file and
      a file that fails to load are both reported as "Failed to load image: ...";
      the path is selected before loading, so it stays selected when loading fails. */
  function BrowseOutcome(out: Outcome<Option<Files.Path>>, fs: Files.FileSystem, pilOpen: Outcome<Image>)
    : (r: BrowseResult)
    ensures r.loaded ==> r.chosen.Some? && r.error.None?
    ensures r.error.None? <==> out == Ok(None) || r.loaded
    ensures r.chosen.Some? <==> out.Ok? && out.value.Some?
    ensures out.Err? ==> r.error == Some(LoadFailure(out.exc))
    ensures out.Ok? && out.value.Some? ==>
              && r.chosen == Some(Files.Str(out.value.value))
              && (r.loaded <==> Files.LoadImage(out.value.value, fs, pilOpen).Ok?)
  {
    match out
    case Err(e) => BrowseResult(None, false, Some(LoadFailure(e)))
    case Ok(None) => BrowseResult(None, false, None)
    case Ok(Some(path)) =>
      match Files.LoadImage(path, fs, pilOpen)
      case Err(e) => BrowseResult(Some(Files.Str(path)), false, Some(LoadFailure(e)))
      case Ok(_) => BrowseResult(Some(Files.Str(path)), true, None)
  }

  /** `_process_input` followed by `_start_processing_thread`: without a selected
      image nothing starts; otherwise the process button is disabled and reads
      "Processing...", and the caption save button is disabled. */
  function ProcessRequestStep(s: ControlState): (s': ControlState)
    ensures s.selected.None? ==> s' == s
    ensures s.selected.Some? ==>
              && !s'.processEnabled && s'.processLabel == ProcessingLabel && !s'.saveCaption
              && s'.saveOverlay == s.saveOverlay && s'.saveColored == s.saveColored
              && s'.mode == s.mode && s'.selected == s.selected
  {
    if s.selected.None? then s
    else s.(processEnabled := false, processLabel := ProcessingLabel, saveCaption := false)
  }

  function IdleLabel(m: Mode): string {
    if m == ClothesSegmentation then SegmentLabel else GenerateLabel
  }

  /** `_processing_complete`: the process button comes back, and the save buttons
      of the current mode are enabled. */
  function CompleteStep(s: ControlState): (s': ControlState)
    ensures s'.processEnabled && s'.processLabel != ProcessingLabel
    ensures s.mode == ClothesSegmentation ==>
              s'.saveOverlay && s'.saveColored && s'.saveCaption == s.saveCaption && s'.processLabel == SegmentLabel
    ensures s.mode == ImageToCaption ==>
              s'.saveCaption && s'.saveOverlay == s.saveOverlay && s'.saveColored == s.saveColored
              && s'.processLabel == GenerateLabel
    ensures s'.mode == s.mode && s'.selected == s.selected
  {
    var idle := s.(processEnabled := true, processLabel := IdleLabel(s.mode));
    if s.mode == ClothesSegmentation then idle.(saveOverlay := true, saveColored := true)
    else idle.(saveCaption := true)
  }

  /** `_processing_error`: the process button comes back; no save button changes. */
  function ErrorStep(s: ControlState): (s': ControlState)
    ensures s'.processEnabled && s'.processLabel == IdleLabel(s.mode)
    ensures s'.saveOverlay == s.saveOverlay && s'.saveColored == s.saveColored && s'.saveCaption == s.saveCaption
    ensures s'.mode == s.mode && s'.selected == s.selected
  {
    s.(processEnabled := true, processLabel := IdleLabel(s.mode))
  }

  /** The UI events that change the control state. */
  datatype Event =
    | ModeChanged(choice: string)
    | Browsed(chosen: Option<string>, loaded: bool)
    | ProcessRequested
    | Done
    | Errored(message: string)
    | Cleared

  /** One event. Only the mode combobox changes the mode, only browsing changes
      the selected image, only completed processing enables a save button, and
      only a process request puts the button into "Processing...". */
  function Step(s: ControlState, e: Event): (r: ControlState)
    ensures !e.ModeChanged? ==> r.mode == s.mode
    ensures !e.Browsed? ==> r.selected == s.selected
    ensures !e.Done? ==> (r.saveOverlay ==> s.saveOverlay) && (r.saveColored ==> s.saveColored)
                         && (r.saveCaption ==> s.saveCaption)
    ensures r.processLabel == ProcessingLabel && s.processLabel != ProcessingLabel ==> e.ProcessRequested?
  {
    match e
    case ModeChanged(choice) => ModeChangeStep(s, choice)
    case Browsed(chosen, loaded) => BrowseControlStep(s, chosen, loaded)
    case ProcessRequested => ProcessRequestStep(s)
    case Done => CompleteStep(s)
    case Errored(_) => ErrorStep(s)
    case Cleared => ClearStep(s)
  }

  /** The events in order. Without a mode change the mode stays, and without a
      browse the selection stays. */
  function Replay(s: ControlState, events: seq<Event>): (r: ControlState)
    ensures events == [] ==> r == s
    ensures (forall i :: 0 <= i < |events| ==> !events[i].ModeChanged?) ==> r.mode == s.mode
    ensures (forall i :: 0 <= i < |events| ==> !events[i].Browsed?) ==> r.selected == s.selected
    decreases |events|
  {
    if events == [] then s else Replay(Step(s, events[0]), events[1..])
  }

  /** What the buttons promise the user: a save button is enabled only in the
      mode it belongs to, the two segmentation save buttons go together,
      processing has an image to work on, and an enabled process button is
      labelled for the current mode. */
  predicate Coherent(s: ControlState) {
    && (s.saveCaption ==> s.mode == ImageToCaption)
    && (s.saveOverlay || s.saveColored ==> s.mode == ClothesSegmentation)
    && s.saveOverlay == s.saveColored
    && (!s.processEnabled ==> s.selected.Some?)
    && (s.processEnabled && s.mode == ClothesSegmentation ==> s.processLabel == SegmentLabel)
    && (s.processEnabled && s.mode == ImageToCaption ==> s.processLabel in {CaptionLabel, GenerateLabel})
  }

  lemma StepKeepsCoherent(s: ControlState, e: Event)
    requires Coherent(s)
    ensures Coherent(Step(s, e))
  {
  }

  /** Whatever the user does and in whatever order the worker's events arrive,
      the window stays coherent. */
  lemma {:induction false} ReplayKeepsCoherent(s: ControlState, events: seq<Event>)
    requires Coherent(s)
    ensures Coherent(Replay(s, events))
    decreases |events|
  {
    if events != [] {
      StepKeepsCoherent(s, events[0]);
      ReplayKeepsCoherent(Step(s, events[0]), events[1..]);
    }
  }

  /** The window as `__init__` leaves it, and every state reachable from there,
      is coherent. */
  lemma WindowAlwaysCoherent(events: seq<Event>)
    ensures Coherent(Replay(ModeChangeStep(Created, SegmentationChoice), events))
  {
    ReplayKeepsCoherent(ModeChangeStep(Created, SegmentationChoice), events);
  }

  /** A completed segmentation enables exactly the two segmentation save buttons;
      switching modes afterwards disables them again. */
  lemma SaveButtonsFollowMode(s: ControlState, choice: string)
    requires Coherent(s) && s.mode == ClothesSegmentation
    ensures var done := CompleteStep(ProcessRequestStep(s));
            done.saveOverlay && done.saveColored && !done.saveCaption
    ensures var switched := ModeChangeStep(CompleteStep(s), choice);
            !switched.saveOverlay && !switched.saveColored && !switched.saveCaption
  {
  }

  // ---------------------------------------------------------------------------
  // The worker thread's outcome

  /** The event `_process_in_background` schedules in segmentation mode, from the
      result of loading the image and of `process_clothes_segmentation`. */
  function SegmentationWorkerEvent(loaded: Outcome<Image>, processed: Outcome<Value>): (e: Event)
    ensures e.Done? <==> loaded.Ok? && processed.Ok? && processed.value.TupleValue?
                              && |processed.value.items| == 2
    ensures loaded.Err? ==> e == Errored(loaded.exc.msg)
    ensures loaded.Ok? && processed == Ok(NoneValue) ==> e == Errored(UnpackNone)
  {
    if loaded.Err? then Errored(loaded.exc.msg)
    else match processed
      case Err(x) => Errored(x.msg)
      case Ok(v) =>
        if v.TupleValue? && |v.items| == 2 then Done
        else if v.NoneValue? then Errored(UnpackNone)
        else Errored("cannot unpack the result")
  }

  /** In caption mode, from the result of loading the image and of the caption
      model, whose own failures it turns into `None`. */
  function CaptionWorkerEvent(loaded: Outcome<Image>): (e: Event)
    ensures e == Done <==> loaded.Ok?
    ensures loaded.Err? ==> e == Errored(loaded.exc.msg)
  {
    if loaded.Err? then Errored(loaded.exc.msg) else Done
  }

  /** The image argument handed to the segmentation model. */
  function SegmentationInput(image: Image): Value {
    DictValue(map["image" := ImageValue(image)])
  }

  lemma SegmentationInputIsImage(image: Image)
    ensures Segmentation.InputImage(SegmentationInput(image)) == Ok(image)
    ensures !IsEmptyInput(SegmentationInput(image))
  {
    assert "image" in SegmentationInput(image).entries.Keys;
  }

  /** `process` of a segmentation model in state `s` on the `{"image": image}`
      argument: the model's new state and the decorated call's run. */
  function SegmentationRun(s: Segmentation.SegState, image: Image, load: Outcome<()>, elapsed: real,
                           net: Segmentation.Inference, blend: (Rgb, Rgb) -> Rgb): (Segmentation.SegState, Run)
    requires Segmentation.InferenceFits(net, image)
  {
    SegmentationInputIsImage(image);
    Segmentation.ProcessSpec(s, SegmentationInput(image), load, elapsed, net, blend)
  }

  /** A segmentation that loads its model and infers completes the worker: the
      window then enables both segmentation save buttons. One whose model is
      missing, or whose inference raises, reports the unpacking error instead. */
  lemma SegmentationWorkerOutcome(s: Segmentation.SegState, image: Image, load: Outcome<()>, elapsed: real,
                                  net: Segmentation.Inference, blend: (Rgb, Rgb) -> Rgb)
    requires Segmentation.InferenceFits(net, image)
    ensures var (_, run) := SegmentationRun(s, image, load, elapsed, net, blend);
            && (Segmentation.ReadyToInfer(s, load) && net.Ok? ==> SegmentationWorkerEvent(Ok(image), run.out) == Done)
            && (Segmentation.ReadyToInfer(s, load) && net.Err? ==>
                  SegmentationWorkerEvent(Ok(image), run.out) == Errored(UnpackNone))
            && (s.base.loaded && !s.hasProcessor ==> SegmentationWorkerEvent(Ok(image), run.out) == Errored(UnpackNone))
  {
    var data := SegmentationInput(image);
    SegmentationInputIsImage(image);
    Segmentation.ProcessOutcomes(s, data, load, elapsed, net, blend);
    if s.base.loaded && !s.hasProcessor {
      var (_, out) := Segmentation.ProcessBody(s, data, load, elapsed, net, blend);
      assert out == Err(Segmentation.NoneNotCallable);
      var call := Call([Segmentation.SelfValue, data], map[]);
      assert ErrorHandler(Segmentation.FailureMessage, _ => Run(out, []), call).out == Ok(NoneValue);
    }
  }

  // ---------------------------------------------------------------------------
  // The objects

  /** `ImageCaptionModel`, whose behaviour is not part of this model: only its
      identity matters here. */
  class CaptionModel {
    constructor () {}
  }

  const ProcessSegmentationName: string := "process_clothes_segmentation"

  class ModelManager {
    var currentMode: Mode
    var segmentationModel: Segmentation.ClothesSegmentationModel?
    var captionModel: CaptionModel?

    constructor ()
      ensures currentMode == ClothesSegmentation
      ensures segmentationModel == null && captionModel == null
    {
      currentMode := ClothesSegmentation;
      segmentationModel := null;
      captionModel := null;
    }

    /** The `current_mode` property. */
    function CurrentMode(): (name: string)
      reads this
      ensures name in {"clothes_segmentation", "image_to_caption"}
      ensures name == "clothes_segmentation" <==> currentMode == ClothesSegmentation
    {
      currentMode.Name()
    }

    /** The objects the segmentation model consists of, once created. */
    function SegmentationFootprint(): set<object>
      reads this
    {
      if segmentationModel == null then {} else {segmentationModel, segmentationModel.base}
    }

    /** The state of the segmentation model, or of the one the getter would create. */
    function SegmentationState(): Segmentation.SegState
      reads this, SegmentationFootprint()
    {
      if segmentationModel == null then Segmentation.InitialState(Segmentation.DefaultModelName)
      else segmentationModel.State()
    }

    /** `_get_clothes_segmentation_model`: created on first use, the same object
        on every later call. */
    method GetClothesSegmentationModel(cudaAvailable: bool) returns (m: Segmentation.ClothesSegmentationModel)
      modifies this
      ensures segmentationModel == m
      ensures old(segmentationModel) != null ==> m == old(segmentationModel)
      ensures old(segmentationModel) == null ==>
                fresh(m) && fresh(m.base) && m.State() == Segmentation.InitialState(Segmentation.DefaultModelName)
      ensures captionModel == old(captionModel) && currentMode == old(currentMode)
    {
      if segmentationModel == null {
        segmentationModel := new Segmentation.ClothesSegmentationModel(Segmentation.DefaultModelName, cudaAvailable);
      }
      m := segmentationModel;
    }

    /** `_get_image_caption_model`: created on first use, then reused. */
    method GetImageCaptionModel() returns (m: CaptionModel)
      modifies this
      ensures captionModel == m
      ensures old(captionModel) != null ==> m == old(captionModel)
      ensures old(captionModel) == null ==> fresh(m)
      ensures segmentationModel == old(segmentationModel) && currentMode == old(currentMode)
    {
      if captionModel == null {
        captionModel := new CaptionModel();
      }
      m := captionModel;
    }

    /** `process_clothes_segmentation` under `@log_operation`. */
    method ProcessClothesSegmentation(image: Image, cudaAvailable: bool, load: Outcome<()>, elapsed: real,
                                      net: Segmentation.Inference, blend: (Rgb, Rgb) -> Rgb)
      returns (r: Run)
      requires Segmentation.InferenceFits(net, image)
      modifies this, SegmentationFootprint()
      ensures segmentationModel != null
      ensures old(segmentationModel) != null ==> segmentationModel == old(segmentationModel)
      ensures captionModel == old(captionModel) && currentMode == old(currentMode)
      ensures var (after, inner) := SegmentationRun(old(SegmentationState()), image, load, elapsed, net, blend);
              && SegmentationState() == after
              && r == LogOperation(ProcessSegmentationName, _ => inner, Call([ObjectValue(1), ImageValue(image)], map[]))
    {
      var m := GetClothesSegmentationModel(cudaAvailable);
      SegmentationInputIsImage(image);
      var inner := m.Process(SegmentationInput(image), load, elapsed, net, blend);
      r := LogOperation(ProcessSegmentationName, _ => inner, Call([ObjectValue(1), ImageValue(image)], map[]));
    }
  }

  class Window {
    const manager: ModelManager
    const files: Files.FileHandler
    var processEnabled: bool
    var processLabel: string
    var saveOverlay: bool
    var saveColored: bool
    var saveCaption: bool
    var selected: Option<string>

    function State(): ControlState
      reads this, manager
    {
      ControlState(manager.currentMode, processEnabled, processLabel, saveOverlay, saveColored, saveCaption,
                   selected)
    }

    /** `__init__`: build the widgets, then run `_on_mode_change` with the
        combobox on "Clothes Segmentation", which creates the segmentation model
        to describe it. */
    constructor (home: Files.Path, cudaAvailable: bool)
      ensures State() == ModeChangeStep(Created, SegmentationChoice)
      ensures Coherent(State())
      ensures files.lastDirectory == home
      ensures manager.segmentationModel != null && manager.captionModel == null
      ensures fresh(manager) && fresh(files)
    {
      manager := new ModelManager();
      files := new Files.FileHandler(home);
      processEnabled, processLabel := true, SegmentLabel;
      saveOverlay, saveColored, saveCaption := false, false, false;
      selected := None;
      new;
      OnModeChange(SegmentationChoice, cudaAvailable);
    }

    /** `_on_mode_change`. Describing the model of the new mode creates it. */
    method OnModeChange(choice: string, cudaAvailable: bool)
      modifies this, manager
      ensures State() == ModeChangeStep(old(State()), choice)
      ensures manager.currentMode == ClothesSegmentation ==> manager.segmentationModel != null
      ensures manager.currentMode == ImageToCaption ==> manager.captionModel != null
      ensures manager.currentMode == ClothesSegmentation ==> manager.captionModel == old(manager.captionModel)
      ensures old(manager.segmentationModel) != null ==> manager.segmentationModel == old(manager.segmentationModel)
      ensures old(manager.captionModel) != null ==> manager.captionModel == old(manager.captionModel)
    {
      if choice == SegmentationChoice {
        manager.currentMode := ClothesSegmentation;
        processLabel := SegmentLabel;
      } else if choice == CaptionChoice {
        manager.currentMode := ImageToCaption;
        processLabel := CaptionLabel;
      }
      if manager.currentMode == ClothesSegmentation {
        var _ := manager.GetClothesSegmentationModel(cudaAvailable);
      } else {
        var _ := manager.GetImageCaptionModel();
      }
      ClearOutput();
    }

    /** `_clear_output` */
    method ClearOutput()
      modifies this
      ensures State() == ClearStep(old(State()))
    {
      saveOverlay, saveColored, saveCaption := false, false, false;
    }

    /** `_browse_image`: ask the file handler, then load the chosen file. Returns
        the text of the error box it shows, if any. */
    method BrowseImage(dialog: string, fs: Files.FileSystem, pilOpen: Outcome<Image>) returns (error: Option<string>)
      modifies this, files
      ensures var browsed := Files.BrowseStep(old(files.lastDirectory), dialog, fs);
              var b := BrowseOutcome(browsed.out, fs, pilOpen);
              && files.lastDirectory == browsed.last
              && State() == BrowseControlStep(old(State()), b.chosen, b.loaded)
              && error == b.error
    {
      var browsed := files.BrowseImageFile(dialog, fs);
      if browsed.Err? {
        return Some(LoadFailure(browsed.exc));
      }
      if browsed.value.None? {
        return None;
      }
      error := SelectImage(browsed.value.value, fs, pilOpen);
    }

    /** The part of `_browse_image` after a file was chosen: select it, then load
        it; only a successful load disables the segmentation save buttons. */
    method SelectImage(path: Files.Path, fs: Files.FileSystem, pilOpen: Outcome<Image>) returns (error: Option<string>)
      modifies this
      ensures var b := BrowseOutcome(Ok(Some(path)), fs, pilOpen);
              State() == BrowseControlStep(old(State()), b.chosen, b.loaded) && error == b.error
    {
      selected := Some(Files.Str(path));
      var image := Files.LoadImage(path, fs, pilOpen);
      if image.Err? {
        return Some(LoadFailure(image.exc));
      }
      saveOverlay, saveColored := false, false;
      error := None;
    }

    /** `_process_input` and `_start_processing_thread`. Returns the text of the
        error box shown when no image is selected. */
    method ProcessInput() returns (error: Option<string>)
      modifies this
      ensures State() == ProcessRequestStep(old(State()))
      ensures error.Some? <==> old(selected).None?
      ensures old(selected).None? ==> error == Some(
        if manager.currentMode == ClothesSegmentation then "Please select an image file for segmentation"
        else "Please select an image file")
    {
      if selected.None? {
        error := Some(if manager.currentMode == ClothesSegmentation
                      then "Please select an image file for segmentation"
                      else "Please select an image file");
        return;
      }
      error := None;
      processEnabled, processLabel := false, ProcessingLabel;
      saveCaption := false;
    }

    /** `_processing_complete` */
    method ProcessingComplete()
      modifies this
      ensures State() == CompleteStep(old(State()))
    {
      processEnabled, processLabel := true, IdleLabel(manager.currentMode);
      if manager.currentMode == ClothesSegmentation {
        saveOverlay, saveColored := true, true;
      } else {
        saveCaption := true;
      }
    }

    /** `_processing_error` */
    method ProcessingError(message: string)
      modifies this
      ensures State() == ErrorStep(old(State()))
    {
      processEnabled, processLabel := true, IdleLabel(manager.currentMode);
    }

    /** `_process_in_background` in segmentation mode, up to the event it schedules. */
    method SegmentInBackground(fs: Files.FileSystem, pilOpen: Outcome<Image>, cudaAvailable: bool,
                               load: Outcome<()>, elapsed: real, net: Segmentation.Inference,
                               blend: (Rgb, Rgb) -> Rgb)
      returns (e: Event)
      requires selected.Some?
      requires var image := Files.LoadImage(Files.Parse(selected.value), fs, pilOpen);
               image.Ok? ==> Segmentation.InferenceFits(net, image.value)
      modifies manager, manager.SegmentationFootprint()
      ensures var image := Files.LoadImage(Files.Parse(old(selected).value), fs, pilOpen);
              && (image.Err? ==> e == Errored(image.exc.msg))
              && (image.Ok? ==>
                    var (_, run) := SegmentationRun(old(manager.SegmentationState()), image.value, load, elapsed,
                                                    net, blend);
                    e == SegmentationWorkerEvent(image, run.out))
    {
      var image := Files.LoadImage(Files.Parse(selected.value), fs, pilOpen);
      if image.Err? {
        return Errored(image.exc.msg);
      }
      ghost var before := manager.SegmentationState();
      var run := manager.ProcessClothesSegmentation(image.value, cudaAvailable, load, elapsed, net, blend);
      e := SegmentationWorkerEvent(image, run.out);
      assert run.out == SegmentationRun(before, image.value, load, elapsed, net, blend).1.out;
    }

    /** Delivering the worker's event on the UI thread. */
    method Deliver(e: Event)
      requires e.Done? || e.Errored?
      modifies this
      ensures State() == Step(old(State()), e)
    {
      if e.Done? {
        ProcessingComplete();
      } else {
        ProcessingError(e.message);
      }
    }
  }
}
