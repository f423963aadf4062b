/** The `CameraManager` object of `cameras/camera_manager.py`: the selected
    camera's record, the filters applied to the frames shown and to the
    frames saved, the directory frames are saved to, the key bindings of
    the video stream and the last captured frame.  The OpenCV window, the
    trackbars and the capture device are outside the model: each captured
    frame, each key read, the clock and the fresh file names are inputs. */
module CameraManagers {
  import opened Outcomes
  import opened Paths
  import opened FileSystem
  import opened ImageProcessing
  import opened Cameras
  import opened ModelManagers

  /** `cv2.waitKey` code of the escape key, bound to `exit`. */
  const ESC: int := 27

  /** What a key may be bound to in `keys_callbacks`: `exit`, or
      `save_last_frame` with an optional `subfolder` argument. */
  datatype KeyAction = ExitAction | SaveAction(subfolder: Option<Path>)

  /** How the modelled prefix of a video stream ends: a callback returned a
      negative number at step `at`, or the inputs ran out while the stream
      was still running. */
  datatype StreamEnd = Stopped(at: nat) | Exhausted

  /** The registered filters as callables, as `model.filters` hands them
      over. */
  function AsCallables(fs: seq<Filter>): (cs: seq<Callable>)
    ensures |cs| == |fs| && forall k :: 0 <= k < |fs| ==> cs[k] == Known(fs[k])
  {
    seq(|fs|, k requires 0 <= k < |fs| => Known(fs[k]))
  }

  /** `[get_filter_name(f) for f in filters]`: every callable must be a
      registered filter, else `KeyError`. */
  function FilterNames(cs: seq<Callable>): (r: Result<seq<string>>)
    ensures r.Ok? <==> forall k :: 0 <= k < |cs| ==> cs[k].Known?
    ensures r.Ok? ==> |r.value| == |cs| && forall k :: 0 <= k < |cs| ==> GetFilterName(cs[k]) == Ok(r.value[k])
    ensures r.Err? ==> r.error == KeyError
  {
    if cs == [] then Ok([])
    else
      FilterNameRoundTrip("", cs[0]);
      match GetFilterName(cs[0])
      case Err(e) => Err(e)
      case Ok(n) =>
        match FilterNames(cs[1..])
        case Err(e) => Err(e)
        case Ok(rest) => Ok([n] + rest)
  }

  /** The filter names a dataset's metadata records when the stream exits
      are read back by a model trained on it as the very same filters. */
  lemma SavedFiltersReload(cs: seq<Callable>)
    requires FilterNames(cs).Ok?
    ensures LookupFilters(FilterNames(cs).value).Ok?
    ensures AsCallables(LookupFilters(FilterNames(cs).value).value) == cs
  {
    var names := FilterNames(cs).value;
    forall k | 0 <= k < |cs|
      ensures names[k] in FILTERS && Known(FILTERS[names[k]]) == cs[k]
    {
      FilterNameRoundTrip("", cs[k]);
    }
  }

  /** Conversely, the filters a model loads are written back under the
      names they were loaded from. */
  lemma LoadedFiltersRename(names: seq<string>)
    requires LookupFilters(names).Ok?
    ensures FilterNames(AsCallables(LookupFilters(names).value)) == Ok(names)
  {
    LookupFiltersRoundTrip(names);
    var cs := AsCallables(LookupFilters(names).value);
    assert FilterNames(cs).value == names;
  }

  /** Calling a held callable on a frame: a registered filter with its
      default arguments, any other callable through `foreign`. */
  function ApplyCallable(c: Callable, img: Image, cfg: ImageConfig, foreign: (nat, Image) -> Result<Image>): Result<Image> {
    match c
    case Known(f) => ApplyFilter(f, img, cfg)
    case Foreign(id) => foreign(id, img)
  }

  /** `for filter in filters: frame = filter(frame)` over held callables. */
  function ApplyCallables(cs: seq<Callable>, img: Image, cfg: ImageConfig, foreign: (nat, Image) -> Result<Image>): Result<Image>
    decreases |cs|
  {
    if cs == [] then Ok(img)
    else
      match ApplyCallable(cs[0], img, cfg, foreign)
      case Err(e) => Err(e)
      case Ok(next) => ApplyCallables(cs[1..], next, cfg, foreign)
  }

  /** Held callables that are all registered filters act as the filters
      themselves. */
  lemma {:induction false} ApplyCallablesOfFilters(fs: seq<Filter>, img: Image, cfg: ImageConfig, foreign: (nat, Image) -> Result<Image>)
    ensures ApplyCallables(AsCallables(fs), img, cfg, foreign) == ApplyAll(fs, img, cfg)
    decreases |fs|
  {
    if fs != [] {
      assert AsCallables(fs)[1..] == AsCallables(fs[1..]);
      match ApplyFilter(fs[0], img, cfg)
      case Err(e) =>
      case Ok(next) => ApplyCallablesOfFilters(fs[1..], next, cfg, foreign);
    }
  }

  /** The frame loop of `save_last_frame`. */
  method FilterFrame(cs: seq<Callable>, img: Image, cfg: ImageConfig, foreign: (nat, Image) -> Result<Image>)
    returns (r: Result<Image>)
    ensures r == ApplyCallables(cs, img, cfg, foreign)
  {
    var frame := img;
    for i := 0 to |cs|
      invariant ApplyCallables(cs, img, cfg, foreign) == ApplyCallables(cs[i..], frame, cfg, foreign)
    {
      assert cs[i..][1..] == cs[i + 1..];
      var next := ApplyCallable(cs[i], frame, cfg, foreign);
      if next.Err? {
        return Err(next.error);
      }
      frame := next.value;
    }
    assert cs[|cs|..] == [];
    r := Ok(frame);
  }

  /** The frames `video_stream` shows side by side: the captured frame,
      then each show filter applied to that same frame (not chained); the
      first failing filter's error propagates. */
  function ShownFrames(cs: seq<Callable>, img: Image, cfg: ImageConfig, foreign: (nat, Image) -> Result<Image>): (r: Result<seq<Image>>)
    ensures r.Ok? <==> forall k :: 0 <= k < |cs| ==> ApplyCallable(cs[k], img, cfg, foreign).Ok?
    ensures r.Ok? ==>
      |r.value| == |cs| + 1 && r.value[0] == img
      && forall k :: 0 <= k < |cs| ==> r.value[k + 1] == ApplyCallable(cs[k], img, cfg, foreign).value
    ensures r.Err? ==>
      exists k :: 0 <= k < |cs| && ApplyCallable(cs[k], img, cfg, foreign) == Err(r.error)
  {
    if cs == [] then Ok([img])
    else
      var last := |cs| - 1;
      match ShownFrames(cs[..last], img, cfg, foreign)
      case Err(e) => Err(e)
      case Ok(frames) =>
        match ApplyCallable(cs[last], img, cfg, foreign)
        case Err(e) => Err(e)
        case Ok(out) => Ok(frames + [out])
  }

  /** Once a prefix of the show filters fails, the whole list fails the
      same way. */
  lemma {:induction false} ShownFramesStops(cs: seq<Callable>, img: Image, cfg: ImageConfig,
                                            foreign: (nat, Image) -> Result<Image>, j: nat)
    requires j <= |cs| && ShownFrames(cs[..j], img, cfg, foreign).Err?
    ensures ShownFrames(cs, img, cfg, foreign) == ShownFrames(cs[..j], img, cfg, foreign)
    decreases |cs|
  {
    if j == |cs| {
      assert cs[..j] == cs;
    } else {
      var front := cs[..|cs| - 1];
      assert front[..j] == cs[..j];
      ShownFramesStops(front, img, cfg, foreign, j);
    }
  }

  /** The show loop of `video_stream`. */
  method CollectShown(cs: seq<Callable>, img: Image, cfg: ImageConfig, foreign: (nat, Image) -> Result<Image>)
    returns (r: Result<seq<Image>>)
    ensures r == ShownFrames(cs, img, cfg, foreign)
  {
    var frames := [img];
    for i := 0 to |cs|
      invariant ShownFrames(cs[..i], img, cfg, foreign) == Ok(frames)
    {
      assert cs[..i + 1][..i] == cs[..i];
      var out := ApplyCallable(cs[i], img, cfg, foreign);
      if out.Err? {
        ShownFramesStops(cs, img, cfg, foreign, i + 1);
        return Err(out.error);
      }
      frames := frames + [out.value];
    }
    assert cs[..|cs|] == cs;
    r := Ok(frames);
  }

  /** The `metadata.yaml` record `exit` writes: the time, the camera's
      resolution, the save filters' names and the camera's settings. */
  function ExitRecord(info: CameraInfo, names: seq<string>, now: int): DatasetMetadata {
    DatasetMetadata(now, info.width, info.height, names,
      info.settings.brightness, info.settings.contrast, info.settings.saturation,
      info.settings.exposure, info.settings.wb)
  }

  class CameraManager {
    var cameraInfo: CameraInfo
    var showFiltersSetting: Option<seq<Callable>>
    var saveFiltersSetting: Option<seq<Callable>>
    var saveDirSetting: Option<Path>
    var keysCallbacks: map<int, KeyAction>
    var lastFrame: Option<Image>

    /** The state `__init__` leaves once the camera is selected and its
        resolution read: no filters, the default save directory, no key
        bindings, no frame captured. */
    constructor (info: CameraInfo)
      ensures cameraInfo == info && keysCallbacks == map[] && lastFrame.None?
      ensures showFiltersSetting.None? && saveFiltersSetting.None? && saveDirSetting.None?
    {
      cameraInfo := info;
      showFiltersSetting := None;
      saveFiltersSetting := None;
      saveDirSetting := None;
      keysCallbacks := map[];
      lastFrame := None;
    }

    /** `show_filters`: none set reads as the empty list. */
    function ShowFilters(): seq<Callable>
      reads this`showFiltersSetting
    {
      if showFiltersSetting.Some? then showFiltersSetting.value else []
    }

    /** `save_filters`: none set reads as the empty list. */
    function SaveFilters(): seq<Callable>
      reads this`saveFiltersSetting
    {
      if saveFiltersSetting.Some? then saveFiltersSetting.value else []
    }

    /** `save_dir_path`: none set reads as `IMAGES_PATH`. */
    function SaveDirPath(imagesPath: Path): Path
      reads this`saveDirSetting
    {
      if saveDirSetting.Some? then saveDirSetting.value else imagesPath
    }

    /** Whether the frames shown for `frame` can be gathered and laid out
        in a grid, so that the step goes on to the key's callback: every
        show filter succeeds, no shown frame is an empty 2-D image, and all
        tiles end up with one type. */
    predicate ShownGridOk(frame: Image, cfg: ImageConfig, foreign: (nat, Image) -> Result<Image>)
      reads this`showFiltersSetting
    {
      var shown := ShownFrames(ShowFilters(), frame, cfg, foreign);
      shown.Ok?
      && forall k :: 0 <= k < |shown.value| ==>
        !ColorRefused(shown.value[k]) && TileDepth(shown.value[k]) == TileDepth(shown.value[0])
    }

    /** A stream step whose key runs `exit`, as (outcome, files): the
        `metadata.yaml` record is written into the save directory and the
        stream stops; a save filter without a name raises `KeyError`, which
        the stream ignores; a file that cannot be written ends the stream
        with its error. */
    ghost function ExitStep(dirs: set<Path>, files: map<Path, Blob>, imagesPath: Path, now: int): (Result<bool>, map<Path, Blob>)
      reads this`saveFiltersSetting, this`saveDirSetting, this`cameraInfo
    {
      match FilterNames(SaveFilters())
      case Err(_) => (Ok(false), files)
      case Ok(names) =>
        var file := Join(SaveDirPath(imagesPath), "metadata.yaml");
        match WriteCheck(dirs, files, file)
        case Err(e) => (Err(e), files)
        case Ok(_) => (Ok(true), files[file := MetadataYaml(ExitRecord(cameraInfo, names, now))])
    }

    /** A stream step whose key runs `save_last_frame(subfolder=sub)`: the
        frame, through the save filters, is written as `<uuid>.png` under
        the save directory and the stream goes on; a filter raising
        `KeyError` is ignored, another failure ends the stream; when the
        image cannot be written the files are unchanged.  It never stops
        the stream. */
    ghost predicate SaveStepEffect(oldDirs: set<Path>, oldFiles: map<Path, Blob>, dirs: set<Path>, files: map<Path, Blob>,
                                   r: Result<bool>, frame: Image, sub: Option<Path>, cfg: ImageConfig,
                                   foreign: (nat, Image) -> Result<Image>, imagesPath: Path, uuid: string, encoderOk: bool)
      reads this`saveFiltersSetting, this`saveDirSetting
    {
      r != Ok(true)
      && match ApplyCallables(SaveFilters(), frame, cfg, foreign)
        case Err(e) => files == oldFiles && dirs == oldDirs && r == (if e == KeyError then Ok(false) else Err(e))
        case Ok(saved) =>
          var d := ResolveUnder(SaveDirPath(imagesPath), if sub.Some? then sub.value else Path(false, []));
          var file := Join(d, uuid + ".png");
          if d !in oldFiles && !Blocked(oldFiles, d) && encoderOk && file !in oldDirs then
            r == Ok(false) && d in dirs && files == oldFiles[file := PngImage(saved)]
          else files == oldFiles
    }

    /** Whether `key` is bound to `exit`. */
    predicate IsExitKey(key: int)
      reads this`keysCallbacks
    {
      key in keysCallbacks && keysCallbacks[key] == ExitAction
    }

    /** The `show_filters` setter: the list is stored unchecked; unset
        filters read as none. */
    method SetShowFilters(filters: Option<seq<Callable>>)
      modifies this`showFiltersSetting
      ensures showFiltersSetting == filters
      ensures filters.None? ==> ShowFilters() == []
    {
      showFiltersSetting := filters;
    }

    /** The `save_filters` setter: the list is stored unchecked; unset
        filters read as none. */
    method SetSaveFilters(filters: Option<seq<Callable>>)
      modifies this`saveFiltersSetting
      ensures saveFiltersSetting == filters
      ensures filters.None? ==> SaveFilters() == []
    {
      saveFiltersSetting := filters;
    }

    /** The `save_dir_path` setter: the path is stored first; a path that
        is not a directory is then created with its parents, which fails
        with `FileExistsError` on a file and `NotADirectoryError` below
        one. */
    method SetSaveDirPath(fs: FileSystem, path: Option<Path>) returns (r: Result<()>)
      requires fs.Valid()
      modifies this`saveDirSetting, fs
      ensures fs.Valid() && fs.files == old(fs.files)
      ensures saveDirSetting == path
      ensures path.None? || path.value in old(fs.dirs) ==> r == Ok(()) && fs.dirs == old(fs.dirs)
      ensures path.Some? && path.value !in old(fs.dirs) ==>
        (path.value in old(fs.files) ==> r == Err(FileExistsError) && fs.dirs == old(fs.dirs))
        && (path.value !in old(fs.files) && Blocked(old(fs.files), path.value) ==> r == Err(NotADirectoryError) && fs.dirs == old(fs.dirs))
        && (path.value !in old(fs.files) && !Blocked(old(fs.files), path.value) ==> r == Ok(()) && fs.dirs == old(fs.dirs) + Ancestors(path.value))
      ensures r.Ok? && path.Some? ==> path.value in fs.dirs
    {
      saveDirSetting := path;
      if path.None? || path.value in fs.dirs {
        return Ok(());
      }
      r := fs.MkdirParents(path.value, false);
    }

    /** `save_last_frame(subfolder=...)`: the last frame, passed through the
        save filters in turn, is saved under the save directory, in
        `subfolder` when one is given (an absolute one replaces the save
        directory); the callback then returns 0.  Before any capture there
        is no last frame. */
    method SaveLastFrame(fs: FileSystem, subfolder: Option<Path>, imagesPath: Path, cfg: ImageConfig,
                         foreign: (nat, Image) -> Result<Image>, uuid: string, encoderOk: bool)
      returns (r: Result<int>)
      requires fs.Valid()
      modifies fs
      ensures fs.Valid()
      ensures r.Ok? ==> r.value == 0
      ensures lastFrame.None? ==> r == Err(AttributeError) && fs.files == old(fs.files) && fs.dirs == old(fs.dirs)
      ensures lastFrame.Some? ==>
        match ApplyCallables(SaveFilters(), lastFrame.value, cfg, foreign)
        case Err(e) => r == Err(e) && fs.files == old(fs.files) && fs.dirs == old(fs.dirs)
        case Ok(frame) =>
          var d := ResolveUnder(SaveDirPath(imagesPath), if subfolder.Some? then subfolder.value else Path(false, []));
          var file := Join(d, uuid + ".png");
          (r.Ok? <==> d !in old(fs.files) && !Blocked(old(fs.files), d) && encoderOk && file !in old(fs.dirs))
          && (r.Ok? ==> d in fs.dirs && fs.files == old(fs.files)[file := PngImage(frame)])
          && (r.Err? ==> fs.files == old(fs.files))
    {
      var sub := if subfolder.Some? then subfolder.value else Path(false, []);
      if lastFrame.None? {
        return Err(AttributeError);
      }
      var frame := FilterFrame(SaveFilters(), lastFrame.value, cfg, foreign);
      if frame.Err? {
        return Err(frame.error);
      }
      var dir := ResolveUnder(SaveDirPath(imagesPath), sub);
      var saved := SaveImage(fs, frame.value, Some(dir), imagesPath, uuid, encoderOk);
      if saved.Err? {
        return Err(saved.error);
      }
      r := Ok(0);
    }

    /** `exit`: the dataset's `metadata.yaml` is written into the save
        directory, stamped with the time `now`, and the callback returns -1
        to stop the stream.  A save filter that is not registered has no
        name (`KeyError`) and nothing is written. */
    method Exit(fs: FileSystem, now: int, imagesPath: Path) returns (r: Result<int>)
      requires fs.Valid()
      modifies fs
      ensures fs.Valid() && fs.dirs == old(fs.dirs)
      ensures r.Ok? ==> r.value == -1
      ensures r == Err(KeyError) <==> FilterNames(SaveFilters()).Err?
      ensures match FilterNames(SaveFilters())
        case Err(e) => r == Err(e) && fs.files == old(fs.files)
        case Ok(names) =>
          var file := Join(SaveDirPath(imagesPath), "metadata.yaml");
          match WriteCheck(old(fs.dirs), old(fs.files), file)
          case Err(e) => r == Err(e) && fs.files == old(fs.files)
          case Ok(_) => r == Ok(-1) && fs.files == old(fs.files)[file := MetadataYaml(ExitRecord(cameraInfo, names, now))]
    {
      var names := FilterNames(SaveFilters());
      if names.Err? {
        return Err(names.error);
      }
      var data := ExitRecord(cameraInfo, names.value, 0);
      var written := CreateDatasetMetadataYaml(fs, Some(SaveDirPath(imagesPath)), data, now, imagesPath);
      if written.Err? {
        return Err(written.error);
      }
      r := Ok(-1);
    }

    /** The `try` around the key's callback in `video_stream`: an unbound
        key, or a callback raising `KeyError`, lets the stream go on
        (`Ok(false)`); a negative result stops it (`Ok(true)`); any other
        failure ends it.  `exit` writes the dataset's `metadata.yaml` and
        stops; a save key writes the filtered last frame as `<uuid>.png`
        and goes on. */
    method RunCallback(fs: FileSystem, key: int, cfg: ImageConfig, foreign: (nat, Image) -> Result<Image>,
                       imagesPath: Path, now: int, uuid: string, encoderOk: bool)
      returns (r: Result<bool>)
      requires fs.Valid()
      modifies fs
      ensures fs.Valid()
      ensures key !in keysCallbacks ==> r == Ok(false) && fs.files == old(fs.files) && fs.dirs == old(fs.dirs)
      ensures IsExitKey(key) ==> fs.dirs == old(fs.dirs) && (r, fs.files) == ExitStep(old(fs.dirs), old(fs.files), imagesPath, now)
      ensures key in keysCallbacks && keysCallbacks[key].SaveAction? ==>
        r != Ok(true)
        && (lastFrame.None? ==> r == Err(AttributeError) && fs.files == old(fs.files) && fs.dirs == old(fs.dirs))
        && (lastFrame.Some? ==>
              SaveStepEffect(old(fs.dirs), old(fs.files), fs.dirs, fs.files, r, lastFrame.value, keysCallbacks[key].subfolder,
                             cfg, foreign, imagesPath, uuid, encoderOk))
    {
      if key !in keysCallbacks {
        return Ok(false);
      }
      var outcome: Result<int>;
      match keysCallbacks[key] {
        case ExitAction =>
          outcome := Exit(fs, now, imagesPath);
        case SaveAction(sub) =>
          outcome := SaveLastFrame(fs, sub, imagesPath, cfg, foreign, uuid, encoderOk);
      }
      if outcome.Err? && outcome.error != KeyError {
        return Err(outcome.error);
      }
      r := Ok(outcome.Ok? && outcome.value < 0);
    }

    /** One pass of the `video_stream` loop on a captured frame: remember
        it, gather the shown frames and lay them out, then run the callback
        bound to `key` (`RunCallback`).  A failed layout ends the stream
        with the files untouched; an unbound key lets it go on; a stop
        comes only from `exit`, which stops it whenever the save filters
        all have names. */
    method StreamStep(fs: FileSystem, frame: Image, key: int, cfg: ImageConfig,
                      foreign: (nat, Image) -> Result<Image>, imagesPath: Path,
                      now: int, uuid: string, encoderOk: bool)
      returns (r: Result<bool>)
      requires fs.Valid()
      modifies this`lastFrame, fs
      ensures fs.Valid() && lastFrame == Some(frame)
      ensures key !in keysCallbacks ==> r != Ok(true) && fs.files == old(fs.files) && fs.dirs == old(fs.dirs)
      ensures r == Ok(true) ==> IsExitKey(key) && FilterNames(SaveFilters()).Ok?
      ensures IsExitKey(key) && FilterNames(SaveFilters()).Ok? ==> r != Ok(false)
      ensures !ShownGridOk(frame, cfg, foreign) ==> r.Err? && fs.files == old(fs.files) && fs.dirs == old(fs.dirs)
      ensures ShownGridOk(frame, cfg, foreign) && key !in keysCallbacks ==> r == Ok(false)
      ensures ShownGridOk(frame, cfg, foreign) && IsExitKey(key) ==>
        fs.dirs == old(fs.dirs) && (r, fs.files) == ExitStep(old(fs.dirs), old(fs.files), imagesPath, now)
      ensures ShownGridOk(frame, cfg, foreign) && key in keysCallbacks && keysCallbacks[key].SaveAction? ==>
        SaveStepEffect(old(fs.dirs), old(fs.files), fs.dirs, fs.files, r, frame, keysCallbacks[key].subfolder,
                       cfg, foreign, imagesPath, uuid, encoderOk)
    {
      lastFrame := Some(frame);
      var shown := CollectShown(ShowFilters(), frame, cfg, foreign);
      if shown.Err? {
        return Err(shown.error);
      }
      var grid := GetImagesGrid(shown.value);
      GridShape(shown.value);
      if grid.Err? {
        return Err(grid.error);
      }
      r := RunCallback(fs, key, cfg, foreign, imagesPath, now, uuid, encoderOk);
    }

    /** `video_stream`, over a finite prefix of its input: escape is bound
        to `exit`; at each step a frame is captured (`None` when the camera
        returns none, a `RuntimeError`), the shown frames are gathered and
        laid out in a grid, and the callback bound to the key read runs.
        An unbound key, or a callback raising `KeyError`, is ignored; any
        other failure ends the stream; a negative result stops it.  So the
        stream stops at the first key bound to `exit` exactly when the save
        filters all have names, and otherwise `exit` never stops it. */
    method VideoStream(fs: FileSystem, steps: seq<(Option<Image>, int)>, cfg: ImageConfig,
                       foreign: (nat, Image) -> Result<Image>, imagesPath: Path,
                       clock: nat -> int, uuid: nat -> string, encoderOk: nat -> bool)
      returns (r: Result<StreamEnd>)
      requires fs.Valid()
      modifies this`keysCallbacks, this`lastFrame, fs
      ensures fs.Valid()
      ensures keysCallbacks == old(keysCallbacks)[ESC := ExitAction]
      ensures steps != [] && steps[0].0.None? ==> r == Err(RuntimeError)
      ensures r == Ok(Exhausted) ==>
        forall j :: 0 <= j < |steps| ==> steps[j].0.Some? && (IsExitKey(steps[j].1) ==> FilterNames(SaveFilters()).Err?)
      ensures r.Ok? && r.value.Stopped? ==>
        r.value.at < |steps| && IsExitKey(steps[r.value.at].1) && FilterNames(SaveFilters()).Ok?
        && lastFrame == steps[r.value.at].0
        && (forall j :: 0 <= j <= r.value.at ==> steps[j].0.Some?)
        && (forall j :: 0 <= j < r.value.at ==> !IsExitKey(steps[j].1))
    {
      keysCallbacks := keysCallbacks[ESC := ExitAction];
      ghost var named := FilterNames(SaveFilters()).Ok?;
      var i := 0;
      while i < |steps|
        invariant 0 <= i <= |steps|
        invariant fs.Valid()
        invariant keysCallbacks == old(keysCallbacks)[ESC := ExitAction]
        invariant named == FilterNames(SaveFilters()).Ok?
        invariant forall j :: 0 <= j < i ==> steps[j].0.Some?
        invariant forall j :: 0 <= j < i ==> IsExitKey(steps[j].1) ==> !named
      {
        var (frame, key) := steps[i];
        if frame.None? {
          return Err(RuntimeError);
        }
        assert forall j :: 0 <= j <= i ==> steps[j].0.Some?;
        var stop := StreamStep(fs, frame.value, key, cfg, foreign, imagesPath, clock(i), uuid(i), encoderOk(i));
        if stop.Err? {
          return Err(stop.error);
        }
        if stop.value {
          return Ok(Stopped(i));
        }
        assert IsExitKey(key) ==> !named;
        i := i + 1;
      }
      r := Ok(Exhausted);
    }

    /** `load_params_from_model(model)` as written: the model's
        `process_frame` becomes the show filter, its filters the save
        filters, its metadata the resolution; then `model.camera_brightness`
        is read, which `ModelManager` does not define, so the call always
        ends in `AttributeError` with the settings untouched. */
    method LoadParamsFromModelAsWritten(fs: FileSystem, model: ModelManager, processFrame: nat) returns (r: Result<()>)
      modifies this`showFiltersSetting, this`saveFiltersSetting, this`cameraInfo
      ensures r.Err?
      ensures showFiltersSetting == Some([Foreign(processFrame)])
      ensures cameraInfo.index == old(cameraInfo.index) && cameraInfo.name == old(cameraInfo.name)
      ensures cameraInfo.settings == old(cameraInfo.settings)
      ensures match model.Metadata(fs.dirs, fs.files)
        case Err(e) => r == Err(e) && saveFiltersSetting == old(saveFiltersSetting) && cameraInfo == old(cameraInfo)
        case Ok(m) =>
          match LookupFilters(m.filters)
          case Err(e) => r == Err(e) && saveFiltersSetting == old(saveFiltersSetting) && cameraInfo == old(cameraInfo)
          case Ok(filters) =>
            r == Err(AttributeError) && saveFiltersSetting == Some(AsCallables(filters))
            && cameraInfo == old(cameraInfo).(width := m.cameraWidth, height := m.cameraHeight)
    {
      showFiltersSetting := Some([Foreign(processFrame)]);
      var filters := model.Filters(fs.dirs, fs.files);
      if filters.Err? {
        return Err(filters.error);
      }
      saveFiltersSetting := Some(AsCallables(filters.value));
      var m := model.Metadata(fs.dirs, fs.files).value;
      cameraInfo := cameraInfo.(width := m.cameraWidth);
      cameraInfo := cameraInfo.(height := m.cameraHeight);
      r := Err(AttributeError);
    }

    /** `load_params_from_model(model)` as intended: besides the filters and
        the resolution, the five camera settings come from the same
        metadata record, so a stream started afterwards records them back
        unchanged on exit. */
    method LoadParamsFromModel(fs: FileSystem, model: ModelManager, processFrame: nat) returns (r: Result<()>)
      modifies this`showFiltersSetting, this`saveFiltersSetting, this`cameraInfo
      ensures showFiltersSetting == Some([Foreign(processFrame)])
      ensures cameraInfo.index == old(cameraInfo.index) && cameraInfo.name == old(cameraInfo.name)
      ensures match model.Metadata(fs.dirs, fs.files)
        case Err(e) => r == Err(e) && saveFiltersSetting == old(saveFiltersSetting) && cameraInfo == old(cameraInfo)
        case Ok(m) =>
          match LookupFilters(m.filters)
          case Err(e) => r == Err(e) && saveFiltersSetting == old(saveFiltersSetting) && cameraInfo == old(cameraInfo)
          case Ok(filters) =>
            r == Ok(()) && saveFiltersSetting == Some(AsCallables(filters))
            && FilterNames(SaveFilters()) == Ok(m.filters)
            && ExitRecord(cameraInfo, m.filters, m.date) == m
    {
      showFiltersSetting := Some([Foreign(processFrame)]);
      var filters := model.Filters(fs.dirs, fs.files);
      if filters.Err? {
        return Err(filters.error);
      }
      saveFiltersSetting := Some(AsCallables(filters.value));
      var m := model.Metadata(fs.dirs, fs.files).value;
      LoadedFiltersRename(m.filters);
      cameraInfo := cameraInfo.(width := m.cameraWidth, height := m.cameraHeight,
        settings := CameraSettings(m.brightness, m.contrast, m.saturation, m.exposure, m.wb));
      r := Ok(());
    }
  }

  /** `CameraManager(camera_id)`: select a camera (by index, or by the
      user's answer), open it (`None` when the capture does not open, a
      `ConnectionRefusedError`) and read its resolution. */
  method OpenCameraManager(host: CameraHost, settings: CameraSettings, cameraId: Option<int>, input: UserInput,
                           resolution: Option<(int, int)>)
    returns (r: Result<CameraManager>)
    ensures CamerasSpec(host, settings).Err? ==> r == Err(CamerasSpec(host, settings).error)
    ensures r.Ok? ==>
      fresh(r.value) && resolution.Some? && CamerasSpec(host, settings).Ok?
      && r.value.cameraInfo.width == resolution.value.0 && r.value.cameraInfo.height == resolution.value.1
      && r.value.cameraInfo.(width := 0, height := 0) in CamerasSpec(host, settings).value.Values
      && (cameraId.Some? ==> r.value.cameraInfo.index == cameraId.value)
      && (cameraId.None? ==> input.Number? && r.value.cameraInfo.index == input.n)
      && r.value.keysCallbacks == map[] && r.value.lastFrame.None?
      && r.value.showFiltersSetting.None? && r.value.saveFiltersSetting.None? && r.value.saveDirSetting.None?
    ensures CamerasSpec(host, settings).Ok? && resolution.None? ==> r.Err?
    ensures CamerasSpec(host, settings).Ok? ==>
      var cameras := CamerasSpec(host, settings).value;
      var selected := if cameraId.Some? then exists c :: c in cameras.Values && c.index == cameraId.value
                      else input.Number? && input.n in cameras;
      (selected && resolution.Some? ==> r.Ok?) && (!selected ==> r == Err(SystemExit(1)))
  {
    var info := SelectCamera(host, settings, cameraId, input);
    if info.Err? {
      return Err(info.error);
    }
    if resolution.None? {
      return Err(ConnectionRefusedError);
    }
    SelectedCameraIsIndexed(host, settings, info.value.index);
    var (width, height) := resolution.value;
    var manager := new CameraManager(info.value.(width := width, height := height));
    r := Ok(manager);
  }
}
