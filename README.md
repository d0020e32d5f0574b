# A verified model of the AI image desktop application

The application is a Tkinter desktop program. It wraps a SegFormer
clothes-segmentation network and a BLIP captioning network behind a small
model-manager window. This project models its sequential core in Dafny and
proves what that core promises:

- **`BaseModel`** (`models/base_model.py`): the lazy-load lifecycle of every
  model wrapper. The model loads on first use, records the load time and stays
  retryable after a failed load. `get_model_info` reports the state exactly.
  `model_name` is a `const` of `AIModel`, so no method can change it.
- **`Segmentation`** (`models/clothes_segmentation.py`): the input checks and
  post-processing of `ClothesSegmentationModel.process`:
  - low-confidence pixels are dropped to class 0;
  - the clothing mask is built from the class ids 2, 4, 6, 11, 14 and 15;
  - the colour map is painted, black off the mask;
  - only the masked pixels of a copy of the original are blended to make the
    overlay.

  The in-place numpy steps are methods over `array2`, proved against
  whole-image functions. The full decorated `process` is modelled, and so are
  `unload_model` and `get_model_info`.
- **`Decorators`** (`gui/decorators.py`): `validate_input`, `log_operation`,
  `error_handler` and `cache_result`. A wrapped callable returns a `Run`: the
  value it returned or the exception it raised, plus the lines it printed. This
  makes the order in which decorators are stacked observable.
- **`Files`** (`utils/file_handler.py`): the handler is modelled on POSIX
  `pathlib` paths, with `suffix` following CPython's `rfind` rule. It covers the
  case-insensitive extension allow-list, the last-directory field, the error
  order of `load_image`, the dialog-driven save operations and `get_file_info`.
- **`Widgets`** (`gui/widgets.py`): the fit-to-box arithmetic of
  `_resize_image`, the stored-image and photo state of `ImageDisplayFrame`, and
  `ValidatedEntry.is_valid`.
- **`Logger`** (`utils/logger.py`): the `AppLogger` singleton, its handler setup
  with the optional log file, level filtering, and the two message builders.
- **`MainWindow`** (`gui/main_window.py`): the create-once getters of
  `ModelManager`, its decorated `process_clothes_segmentation`, and the window's
  control state. That state is the mode, the process button's enabled state and
  text, the three save buttons and the selected path. It changes through
  `_on_mode_change`, `_browse_image`, `_process_input` with
  `_start_processing_thread`, `_processing_complete`, `_processing_error` and
  `_clear_output`. Every sequence of these events keeps the buttons coherent
  with the mode.
- **`Python`**: the part of Python's runtime the core relies on:
  - exceptions, as `Outcome`;
  - the values that cross the decorators;
  - truthiness;
  - `str.strip`, with CPython's whitespace set;
  - `str.lower`;
  - 8-bit RGB images.

Things outside the program become parameters:

- what `_load_model` does when called, and the elapsed time;
- the network's class and confidence grids and the palette (a `Prediction`);
- the float blend;
- what a file dialog returned (the empty string when cancelled);
- the disk, as a map from existing paths to their `stat()` results;
- whether PIL could open or write a file;
- whether `ImageTk.PhotoImage` could be built;
- whether CUDA is available;
- whether the log file could be opened.

## Model

| member | source | states |
|---|---|---|
| Python.Truthy | gui/decorators.py:177 | `not user_input` holds for None, False, zero and empty strings, tuples and dicts; images and other objects are always true |
| Python.LeadingSpaces | gui/decorators.py:177 | the count covers only whitespace characters at the front, and the character after them, if any, is not whitespace |
| Python.TrailingSpaces | gui/decorators.py:177 | the count covers only whitespace characters at the back, and the character before them, if any, is not whitespace |
| Python.Strip | gui/decorators.py:177 | the stripped string is the contiguous slice of `s` starting at StripStart, neither starts nor ends with whitespace, and only whitespace lies before and after it in `s` |
| Python.StripEmptyIffBlank | gui/decorators.py:177 | `s.strip() == ""` holds exactly for the strings made only of whitespace, the empty string included |
| Python.Lower | utils/file_handler.py:207 | `str.lower` keeps the length and lowers each ASCII letter, leaving every other character unchanged |
| Decorators.RejectsExactlyEmptyInput | gui/decorators.py:175-178 | the `strip()`-based test refuses exactly a falsy `args[1]` or a whitespace-only string, and only when there are at least two positional arguments |
| Decorators.ValidateInput | gui/decorators.py:170-180 | an empty first user argument raises ValueError("Input cannot be empty") without calling the function; otherwise the wrapped result is returned unchanged and kwargs are never inspected |
| Decorators.LogOperation | gui/decorators.py:183-198 | the result or exception passes through unchanged; one Starting line comes before the inner output, then Completed or Failed with `str(e)` |
| Decorators.ErrorHandler | gui/decorators.py:222-234 | never raises; a success is returned as is, and an exception becomes `None` plus one "[ERROR] message: str(e)" line |
| Decorators.ValidatedLoggedGuarded | models/clothes_segmentation.py:159-161 | with `validate_input` outermost, an empty argument escapes as ValueError with no log line; anything else returns normally between a Starting and a Completed line |
| Decorators.GuardedValidatedLogged | gui/decorators.py:183-234 | with `error_handler` outermost no exception escapes |
| Decorators.StackingOrderObservable | models/clothes_segmentation.py:159-161 | with `validate_input` outermost an empty argument escapes as ValueError while body failures are swallowed; with `error_handler` outermost nothing escapes; the two orders agree on successful bodies |
| Decorators.ValidatedLoggedGuardedRun | gui/decorators.py:183-234 | on an argument the validator accepts, a body result is returned between the Starting and Completed lines, and a body exception becomes `None` with its error line between them |
| Decorators.CacheCall | gui/decorators.py:205-217 | a key hit returns the stored value without calling; a miss calls once and stores the result, None included; an exception leaves the cache unchanged |
| Decorators.CachedCallNotRepeated | gui/decorators.py:208-212 | once a call is stored, a later call with the same key is not executed and returns the stored value |
| Decorators.CacheOnlyGrows | gui/decorators.py:203-217 | over any sequence of calls no entry is lost or changed, and each successful miss adds exactly one entry |
| Decorators.CachedFunction.constructor | gui/decorators.py:203 | each decorated function starts with its own empty cache |
| Decorators.CachedFunction.Invoke | gui/decorators.py:206-217 | the wrapper's lookup-or-call-and-store on its persistent dictionary matches CacheCall |
| BaseModel.Initial | models/base_model.py:83-87 | a fresh model is not loaded and has no load time |
| BaseModel.EnsureLoadedStep | models/base_model.py:111-119 | the load routine runs iff the model is unloaded; success sets loaded and the load time; a failure propagates and changes nothing, so the next call retries; the name never changes |
| BaseModel.EnsureLoadedIdempotent | models/base_model.py:113-118 | after a successful `_ensure_loaded`, a second call does not load and changes nothing |
| BaseModel.EnsureLoadedRepeatedly | models/base_model.py:111-119 | repeated `_ensure_loaded` calls load at most once per call and never rename the model; a loaded model is never loaded again; a model still unloaded at the end loaded on every call and is unchanged |
| BaseModel.FirstSuccess | models/base_model.py:111-119 | the first successful load attempt: every earlier attempt failed |
| BaseModel.LoadRetriedUntilFirstSuccess | models/base_model.py:111-119 | over repeated calls the load runs once per failure up to and including the first success, and never afterwards; the final state records the successful attempt's time |
| BaseModel.ModelInfo | models/base_model.py:121-127 | the info dictionary has exactly the keys name, loaded, load_time and type |
| BaseModel.ModelInfoReportsState | models/base_model.py:121-127 | name, loaded flag and load time read back from the dictionary equal the model's state; type is the class name |
| BaseModel.AIModel.constructor | models/base_model.py:83-87 | the object starts in the Initial state |
| BaseModel.AIModel.EnsureLoaded | models/base_model.py:111-119 | updates `_is_loaded`/`_load_time` as EnsureLoadedStep prescribes and reports whether `_load_model` ran |
| BaseModel.AIModel.GetModelInfo | models/base_model.py:121-127 | the dictionary reports the object's current state |
| Segmentation.LowConfidenceNeverClothing | models/clothes_segmentation.py:196-204 | a pixel below 0.5 confidence is class 0 and never clothing; a confident pixel is clothing iff its class is in {2,4,6,11,14,15} |
| Segmentation.ClassAt | models/clothes_segmentation.py:201 | the thresholded class of every pixel has a palette colour |
| Segmentation.ColoredMap | models/clothes_segmentation.py:207-215 | the colour map has the image's size and is the palette colour on the mask, black elsewhere |
| Segmentation.OverlayImage | models/clothes_segmentation.py:218-224 | the overlay has the image's size; mask pixels are blended with their palette colour, all others are the original |
| Segmentation.MaskSeparatesOutputs | models/clothes_segmentation.py:204-224 | off the mask (and at every low-confidence pixel) the colour map is black and the overlay is the original; on it the overlay blends the original with the colour map |
| Segmentation.UniformClothingPrediction | models/clothes_segmentation.py:196-224 | a confident class-4 prediction everywhere colours and blends every pixel with palette colour 4 |
| Segmentation.DropLowConfidence | models/clothes_segmentation.py:201 | in place, each pixel becomes class 0 where not confident and is unchanged elsewhere |
| Segmentation.ClothingMask | models/clothes_segmentation.py:204 | the mask has the grid's shape and is true exactly at clothing classes |
| Segmentation.PaintMask | models/clothes_segmentation.py:215 | in place, exactly the mask pixels receive the palette colour of their class |
| Segmentation.BlendMask | models/clothes_segmentation.py:219-224 | in place, exactly the mask pixels of the overlay copy receive the blend of original and colour |
| Segmentation.PostProcess | models/clothes_segmentation.py:196-224 | the thresholded grid, colour map and overlay equal the per-pixel specification at every pixel, with fresh arrays of the image's size |
| Segmentation.ToArrays | models/clothes_segmentation.py:193-218 | the class grid, confidence mask and image array have the image's shape and hold the network's output and the image's pixels |
| Segmentation.SegmentImage | models/clothes_segmentation.py:193-228 | the pictures built from the arrays are exactly the whole-image overlay and colour map |
| Segmentation.InitialState | models/clothes_segmentation.py:121-129 | a new model is unloaded with neither processor nor network |
| Segmentation.EnsureLoadedSpec | models/clothes_segmentation.py:143-157 | a load that runs and succeeds sets both handles; otherwise they are untouched; the base lifecycle is EnsureLoadedStep |
| Segmentation.InputImage | models/clothes_segmentation.py:165-170 | the image is taken from a dict's "image" key; a non-dict or a missing key raises ValueError, a non-image value TypeError |
| Segmentation.ProcessBody | models/clothes_segmentation.py:162-228 | a bad argument raises its error before loading; a failed load propagates; a loaded model with both handles returns overlay and colour map when inference succeeds, raises the inference exception when it fails, and changes nothing either way; a loaded model without handles raises "'NoneType' object is not callable"; a success implies a valid image, a successful inference and a loaded model with both handles |
| Segmentation.ProcessSpec | models/clothes_segmentation.py:159-228 | the decorated `process` raises only for an empty argument, and then changes nothing; the model name never changes |
| Segmentation.ProcessOutcomes | models/clothes_segmentation.py:159-228 | an empty argument escapes as ValueError and loads nothing; a non-dict or non-image argument returns None with one error line; a failed first load returns None with the load error's line and leaves the model unloaded; a first successful load, or an already loaded model with both handles, returns overlay and colour map between the Starting and Completed lines when inference succeeds, and None with the "Clothes segmentation failed" line of the inference error when it fails |
| Segmentation.FirstLoadInfers | models/clothes_segmentation.py:162-228 | on an unloaded model whose load succeeds, the body loads it, records the load time and sets both handles; it returns overlay and colour map when inference succeeds and raises the inference exception when it fails |
| Segmentation.UnloadSpec | models/clothes_segmentation.py:230-237 | unloading as written drops both handles and keeps the base state, `_is_loaded` included |
| Segmentation.UnloadAndResetSpec | models/clothes_segmentation.py:230-237 | the corrected unload also marks the model unloaded |
| Segmentation.UnloadedModelNeverProcesses | models/clothes_segmentation.py:230-237 | after the unload as written, every valid `process` call returns None with a "'NoneType' object is not callable" error line |
| Segmentation.ResetModelReloads | models/clothes_segmentation.py:230-237 | after the corrected unload, the next `process` reloads the model and both handles, and returns overlay and colour map again when inference succeeds |
| Segmentation.SegModelInfo | models/clothes_segmentation.py:131-141 | the base dictionary plus five entries (nine keys); base fields read back as the state; device is reported |
| Segmentation.SegInfoEntries | models/clothes_segmentation.py:134-140 | the five added keys are disjoint from the base keys, and device is reported as given |
| Segmentation.FromArray | models/clothes_segmentation.py:226-227 | `Image.fromarray` keeps the array's shape and pixels |
| Segmentation.ClothesSegmentationModel.constructor | models/clothes_segmentation.py:121-129 | a new model is in the initial state on "cuda" or "cpu" |
| Segmentation.ClothesSegmentationModel.EnsureLoaded | models/clothes_segmentation.py:143-157 | the object's state follows EnsureLoadedSpec |
| Segmentation.ClothesSegmentationModel.ProcessBodyImpl | models/clothes_segmentation.py:162-228 | the array-based body returns exactly the whole-image overlay and colour map of ProcessBody |
| Segmentation.ClothesSegmentationModel.Process | models/clothes_segmentation.py:159-228 | the decorated method's state change and output are ProcessSpec's |
| Segmentation.ClothesSegmentationModel.UnloadModel | models/clothes_segmentation.py:230-237 | the state follows UnloadSpec |
| Segmentation.ClothesSegmentationModel.UnloadModelAndReset | models/clothes_segmentation.py:230-237 | the state follows UnloadAndResetSpec |
| Segmentation.ClothesSegmentationModel.GetModelInfo | models/clothes_segmentation.py:131-141 | reports the base state and the device |
| Files.Parse | utils/file_handler.py:230 | `Path(s)` keeps only real components; "" and "." give the current directory, "/" the root |
| Files.Str | utils/file_handler.py:225 | `str(path)` of a path is never empty and starts with "/" exactly when the path is absolute |
| Files.Name | utils/file_handler.py:319 | the name of a path is empty only for the root and "."; otherwise it is a component, without "/" and not "." |
| Files.IsValidImageFile | utils/file_handler.py:205-207 | a valid image file has a suffix of at least four characters that is shorter than its name |
| Files.ParseStr | utils/file_handler.py:230 | printing a path and building `Path` from the string gives the same path back |
| Files.Parent | utils/file_handler.py:211-212 | the parent drops the last component; the root and "." are their own parents |
| Files.Suffix | utils/file_handler.py:207 | a suffix is a final dot-part of the name that is neither the whole name nor a lone trailing dot, and contains no other dot |
| Files.ImageFormatShape | utils/file_handler.py:188-190 | each allowed extension is a dot followed by letters |
| Files.ValidImageIffExtension | utils/file_handler.py:205-207 | a path is an image file iff its name ends, ignoring case, in an allowed extension preceded by at least one character |
| Files.SuffixExamples | utils/file_handler.py:205-207 | ".png" is not an image file; "photo.JPG" is; "archive.tar.gz" has suffix ".gz" and "notes." none |
| Files.UpdatedDirectory | utils/file_handler.py:209-212 | the last directory moves only to the file's parent and only when that parent exists |
| Files.BrowseStep | utils/file_handler.py:214-237 | cancelling returns None and changes nothing; an unsupported suffix raises ValueError and changes nothing; a success returns the path and moves to its existing parent |
| Files.SaveStep | utils/file_handler.py:256-309 | cancelling returns None; a failed write raises ValueError("Failed to save …") and changes nothing; a successful write returns the path and then updates the last directory |
| Files.LastDirectoryFollowsSuccess | utils/file_handler.py:214-309 | no dialog operation changes the last directory except to the existing parent of the path it returns |
| Files.LoadImage | utils/file_handler.py:239-254 | existence is checked first (FileNotFoundError), then the extension (ValueError), then PIL; a PIL failure becomes ValueError("Failed to load image: …"); success returns PIL's image |
| Files.MissingBeatsUnsupported | utils/file_handler.py:241-245 | a missing file with an unsupported suffix is reported as missing |
| Files.FileInfo | utils/file_handler.py:311-325 | a missing path gives exactly {"exists": False}; otherwise seven keys: the name, the stat size and mtime, the size in MiB, the lower-cased suffix and the image check |
| Files.Megabytes | utils/file_handler.py:321 | the size in MiB times 1024 * 1024 is the size in bytes |
| Files.FileInfoAgreesWithChecks | utils/file_handler.py:311-325 | `is_image` agrees with the extension rule and with `extension` being an allowed lower-cased suffix; `size_mb` is the size in MiB |
| Files.FileHandler.constructor | utils/file_handler.py:185-193 | the last directory starts at the home directory |
| Files.FileHandler.UpdateLastDirectory | utils/file_handler.py:209-212 | the field follows UpdatedDirectory |
| Files.FileHandler.BrowseImageFile | utils/file_handler.py:214-237 | result and new last directory follow BrowseStep |
| Files.FileHandler.SaveImage | utils/file_handler.py:256-281 | result and new last directory follow SaveStep for images |
| Files.FileHandler.SaveText | utils/file_handler.py:283-309 | result and new last directory follow SaveStep for text |
| Files.FileHandler.Save | utils/file_handler.py:256-309 | the shared save logic follows SaveStep |
| Widgets.EntryIsValid | gui/widgets.py:194-198 | true whenever no callback was supplied, otherwise the callback's verdict on the text |
| Widgets.Ratio | gui/widgets.py:237-238 | the ratio scales the side exactly to the bound and is below 1 when the side exceeds the bound |
| Widgets.ResizeDims | gui/widgets.py:228-244 | an image that fits is returned at its own size; one that does not fit raises ZeroDivisionError when a side is zero, and otherwise `resize` raises ValueError exactly when a scaled side truncates to zero; any resized image is non-empty |
| Widgets.ThinStripCannotBeResized | gui/widgets.py:237-244 | a 10000 x 1 image in a 400 x 400 box scales to height 0, so resizing raises ValueError |
| Widgets.ScaledSide | gui/widgets.py:237-242 | a side scaled by at most its own ratio and by at most 1 stays within its bound and its original length, and hits the bound when its ratio is the scale |
| Widgets.ResizedFitsBox | gui/widgets.py:228-244 | the new size fits the box, never grows, and touches the box on the limiting side |
| Widgets.ShowErrorStep | gui/widgets.py:268-275 | the photo is cleared and the error text shown; the stored image is untouched |
| Widgets.ClearStep | gui/widgets.py:277-285 | stored image and photo become None and the placeholder returns |
| Widgets.DisplayStep | gui/widgets.py:246-266 | the image is stored first; a resize or render failure shows "Error: Failed to display image: " with its message and no photo; a shown photo has the resized size and no text |
| Widgets.DisplayStoresOriginal | gui/widgets.py:246-266 | the original is stored even if display fails; a photo appears exactly when resizing and rendering succeed, and it fits the box |
| Widgets.FrameOperationsKeepConsistent | gui/widgets.py:246-285 | display, error and clear keep "photo shown iff held, held photo fits the box, and a photo implies a stored image" |
| Widgets.ImageDisplayFrame.constructor | gui/widgets.py:204-226 | no image, no photo, placeholder label |
| Widgets.ImageDisplayFrame.ShowError | gui/widgets.py:268-275 | the state follows ShowErrorStep |
| Widgets.ImageDisplayFrame.ClearImage | gui/widgets.py:277-285 | the state follows ClearStep |
| Widgets.ImageDisplayFrame.DisplayImage | gui/widgets.py:246-266 | the state follows DisplayStep |
| Widgets.ImageDisplayFrame.GetCurrentImage | gui/widgets.py:287-289 | returns the stored original image |
| Logger.SetupBackend | utils/logger.py:172-201 | level INFO, a console handler at INFO, and a file handler at DEBUG only when the file opens |
| Logger.Emit | utils/logger.py:203-221 | without a configured logger, or below its level, nothing is written; outputs only grow |
| Logger.SetupRouting | utils/logger.py:172-221 | after setup a debug message reaches no output; others reach the console once and the file once when it exists |
| Logger.UserActionMessage | utils/logger.py:230-235 | "User Action: " + action, followed by " - " + details exactly when details is non-empty |
| Logger.UserActionMessageDeterminesAction | utils/logger.py:230-235 | two detail-less user-action lines are equal iff the actions are |
| Logger.ModelOperationMessage | utils/logger.py:223-228 | "Model '<name>' - <operation>": the quoted name, the `' - ` separator and the operation in that order, with nothing after it exactly when there is no duration |
| Logger.DurationExtendsMessage | utils/logger.py:223-228 | a duration only appends " (Duration: <d>s)" to the line without one |
| Logger.AppLogger.constructor | utils/logger.py:159 | a new instance has no logger and has written nothing |
| Logger.AppLogger.Init | utils/logger.py:167-170 | setup runs only while there is no logger; outputs are untouched |
| Logger.AppLogger.Log | utils/logger.py:203-221 | writes what Emit prescribes; the logger is unchanged |
| Logger.AppLogger.InfoMessage | utils/logger.py:203-206 | Emit at INFO |
| Logger.AppLogger.ErrorMessage | utils/logger.py:208-211 | Emit at ERROR |
| Logger.AppLogger.WarningMessage | utils/logger.py:213-216 | Emit at WARNING |
| Logger.AppLogger.DebugMessage | utils/logger.py:218-221 | Emit at DEBUG |
| Logger.AppLogger.LogModelOperation | utils/logger.py:223-228 | logs ModelOperationMessage at INFO |
| Logger.AppLogger.LogUserAction | utils/logger.py:230-235 | logs UserActionMessage at INFO |
| Logger.AppLoggerClass.constructor | utils/logger.py:158 | no instance exists yet |
| Logger.AppLoggerClass.Call | utils/logger.py:161-170 | `AppLogger()` creates the instance once and returns it on every call; an existing logger is not reconfigured |
| Logger.SingletonScenario | utils/logger.py:161-170 | two constructions give one object configured by the first |
| MainWindow.ClearStep | gui/main_window.py:641-655 | all three save buttons are disabled; nothing else changes |
| MainWindow.ModeChangeStep | gui/main_window.py:424-482 | the two combobox labels select their mode and button text, any other label keeps both; all save buttons end disabled and the process button's enabled state is kept |
| MainWindow.BrowseControlStep | gui/main_window.py:484-510 | a returned path is selected even if loading then fails; only a successful load disables the two segmentation save buttons; the caption save button is never touched |
| MainWindow.BrowseOutcome | gui/main_window.py:484-510 | a refused file and a failed load both show "Failed to load image: ..."; no error appears exactly when the dialog was cancelled or the image loaded; a chosen path stays selected when loading fails |
| MainWindow.ProcessRequestStep | gui/main_window.py:512-538 | without a selected image nothing changes; otherwise the process button is disabled as "Processing..." and the caption save button is disabled |
| MainWindow.CompleteStep | gui/main_window.py:587-599 | the process button returns ("Segment Clothes" or "Generate"); the save buttons of the current mode are enabled |
| MainWindow.ErrorStep | gui/main_window.py:601-607 | the process button returns with its mode's text; no save button changes |
| MainWindow.Step | gui/main_window.py:424-655 | only the mode combobox changes the mode, only browsing the selection, only a completed run enables a save button, and only a process request sets "Processing..." |
| MainWindow.Replay | gui/main_window.py:424-655 | no events leave the window as it is; without a mode change the mode stays, and without a browse the selection stays |
| MainWindow.StepKeepsCoherent | gui/main_window.py:424-655 | every event preserves the coherence of buttons and mode |
| MainWindow.ReplayKeepsCoherent | gui/main_window.py:424-655 | any sequence of events from a coherent state stays coherent |
| MainWindow.WindowAlwaysCoherent | gui/main_window.py:198-215 | from the window as `__init__` leaves it, every reachable state keeps save buttons to their mode and paired, and has a selected image while processing |
| MainWindow.SaveButtonsFollowMode | gui/main_window.py:587-599 | a completed segmentation enables exactly the two segmentation save buttons; a mode change then disables them |
| MainWindow.SegmentationWorkerEvent | gui/main_window.py:540-573 | the worker completes iff the image loads and segmentation returns a pair; a `None` result fails on unpacking |
| MainWindow.CaptionWorkerEvent | gui/main_window.py:540-573 | in caption mode the worker completes iff the image loads |
| MainWindow.SegmentationInputIsImage | gui/main_window.py:183-186 | the `{"image": image}` argument passes validation and the model's input checks |
| MainWindow.SegmentationWorkerOutcome | gui/main_window.py:540-573 | a model that is ready (loads successfully, or is loaded with both handles) makes the worker complete when inference succeeds and fail on unpacking None when inference raises; a model whose handles were unloaded makes it fail on unpacking |
| MainWindow.ModelManager.constructor | gui/main_window.py:155-161 | segmentation mode, no model created |
| MainWindow.ModelManager.CurrentMode | gui/main_window.py:163-166 | the mode string is one of the two, "clothes_segmentation" exactly in segmentation mode |
| MainWindow.ModelManager.GetClothesSegmentationModel | gui/main_window.py:168-173 | creates the model on first use and returns the same object on every later call |
| MainWindow.ModelManager.GetImageCaptionModel | gui/main_window.py:175-180 | creates the caption model on first use and returns the same object afterwards |
| MainWindow.ModelManager.ProcessClothesSegmentation | gui/main_window.py:182-186 | gets or creates the model and runs its decorated `process` under `log_operation` |
| MainWindow.Window.constructor | gui/main_window.py:198-215 | the window starts as the segmentation mode change leaves it, coherent, with the segmentation model created |
| MainWindow.Window.OnModeChange | gui/main_window.py:424-482 | the control state follows ModeChangeStep, and describing the new mode's model creates it once |
| MainWindow.Window.ClearOutput | gui/main_window.py:641-655 | the control state follows ClearStep |
| MainWindow.Window.BrowseImage | gui/main_window.py:484-510 | the file handler's last directory follows BrowseStep; the control state and the error box follow BrowseOutcome of what the dialog returned |
| MainWindow.Window.SelectImage | gui/main_window.py:489-504 | selecting and loading a chosen file follows BrowseOutcome and BrowseControlStep |
| MainWindow.Window.ProcessInput | gui/main_window.py:512-538 | the control state follows ProcessRequestStep; an error box appears exactly when no image is selected |
| MainWindow.Window.ProcessingComplete | gui/main_window.py:587-599 | the control state follows CompleteStep |
| MainWindow.Window.ProcessingError | gui/main_window.py:601-607 | the control state follows ErrorStep |
| MainWindow.Window.SegmentInBackground | gui/main_window.py:540-573 | a load failure is the error event; otherwise the event follows the segmentation run of the manager's model |
| MainWindow.Window.Deliver | gui/main_window.py:540-573 | a worker event scheduled on the UI thread applies the matching step |

## Left out

- models/image_caption.py and models/text_to_image.py are not part of this
  model. The caption model is an object whose only modelled property is that
  the manager creates it once. Its caption result is not modelled: the caption
  worker completes whenever the image loads.
- The network's forward pass, the bilinear upsampling, the softmax and argmax,
  and the palette drawn from numpy's seeded generator are not modelled. They
  are an input `Outcome`: either a `Prediction` that fits the image, or the
  exception they raise, which `process` turns into None and an error line.
- The float32 blend `(1 - 0.45) * o + 0.45 * c`, truncated to uint8, is a
  function parameter. The model states only where the blend is applied.
- The timing and printing inside `_ensure_loaded` and `log_operation` are not
  modelled. The clock is the elapsed time passed in. Printed lines are kept as
  `LogLine` events, without timestamps or durations.
- `cache_result` uses Python's `hash`. The model replaces it with an arbitrary
  function of the call, so colliding calls share a key exactly as they would in
  Python.
- Segmentation.EnsureLoadedSpec: a load is one outcome, so a `_load_model`
  that fetches the processor and then fails on the network is not modelled.
  The source would then hold a processor while `_is_loaded` stays False; the
  model keeps both handles unchanged. The next call reloads both either way.
- Widgets.ResizeDims: the ValueError text for a zero-sized target is Pillow's,
  which is not part of this model.
- Widgets.ResizeDims: computes in exact rational arithmetic, not in floats, so
  a float quotient that rounds just below an integer before `int()` is not
  captured. The box sizes are natural numbers; every window in the program
  uses positive boxes.
- Lanczos resampling and `ImageTk.PhotoImage` are not modelled. A photo is
  recorded as the size it was made at, and whether it could be built is an
  input.
- Files.Megabytes: is the exact quotient; `round(..., 2)` is not modelled.
- Files.FileInfo: `size_mb` is the exact quotient. The model does not round it
  to two decimals.
- Python.Lower: lower-cases only ASCII letters. For the all-ASCII extension
  allow-list this gives the same verdict as Unicode `str.lower` on every
  suffix whose lowered form is ASCII.
- Paths are POSIX only. Windows drive letters and the special meaning of a
  leading `//` are not modelled.
- `supported_image_formats` returns a copy of the set. Dafny sets are values,
  so a caller can never change the handler's own set. That property holds by
  construction and needs no member.
- PIL's `convert("RGB")` on load is not modelled. Images are RGB throughout.
- Logger.ModelOperationMessage: takes the duration already formatted. The
  `:.2f` float formatting is not modelled.
- The log record layout (timestamp, logger name, level name) is not modelled.
  A record is its level and message.
- The worker thread and `after` scheduling become events delivered to the
  window in some order. Concurrency itself, including a mode change while the
  worker runs, is covered only in that every interleaving of the events keeps
  the window coherent.
- `_save_result`, `_display_segmentation_result`, `_display_text_result` and
  `_update_current_model_info` are not modelled beyond their effect on model
  creation. They show text and images, or they delegate to the modelled file
  handler and frames. So are the Tk layout, `pack`/`pack_forget` visibility
  and the message boxes, which are kept only as the error text returned.
- The decorators on `_browse_image` and `_process_input` are not modelled:
  Window.BrowseImage and Window.ProcessInput return only the error text shown
  and record no log lines. `_browse_image` catches every exception itself, so
  its `error_handler` never fires. `_process_input` catches only its own
  validation: `_start_processing_thread()` (gui/main_window.py:529-538) runs
  outside the `try`, so an exception from `config` or `Thread.start()` reaches
  `error_handler("Processing failed")` and leaves the process button disabled
  as "Processing...". That failure of starting the thread is not modelled:
  the model assumes the worker always starts. The `validate_input` check needs
  a second positional argument, so it never applies to these one-argument
  methods.
- main.py, Assignment3.py and the package `__init__` files are not part of this
  model.

## Findings

| source | as written | input that shows it | evidently intended | confidence | as-written member | corrected member |
|---|---|---|---|---|---|---|
| models/clothes_segmentation.py:230-237 | `unload_model` sets `_model` and `_processor` to None but leaves `_is_loaded` True, so `_ensure_loaded` never reloads and calling the `None` processor raises | a loaded model, then `unload_model()`, then `process({"image": img})`: returns None with "[ERROR] Clothes segmentation failed: 'NoneType' object is not callable" | unloading also clears `_is_loaded`, so the next `process` reloads the model | not executed | Segmentation.UnloadedModelNeverProcesses | Segmentation.ResetModelReloads |
