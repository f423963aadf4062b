/** `model/model_manager.py`: a trained model is a directory under the
    models path holding `<name>.pt` and `metadata.yaml`.  Naming a model
    checks that structure, derives the model's paths and exports the model
    to NCNN unless a complete export already sits beside it; processing a
    frame runs the filters the model's metadata lists, then the detector.
    The models path, the detector and the export itself are inputs: the
    model says when an export is needed, not what YOLO writes. */
module ModelManagers {
  import opened Outcomes
  import opened Text
  import opened Paths
  import opened FileSystem
  import opened ImageProcessing

  /** The files an exported NCNN model directory must hold. */
  const NCNN_FILES: set<string> := {"metadata.yaml", "model.ncnn.bin", "model.ncnn.param"}

  /** `MODELS_PATH / name`. */
  function ModelDir(modelsPath: Path, name: string): Path {
    Join(modelsPath, name)
  }

  /** `path / (name + '.pt')`. */
  function PtModelPath(modelsPath: Path, name: string): Path {
    Join(ModelDir(modelsPath, name), name + ".pt")
  }

  /** `path / 'metadata.yaml'`. */
  function ModelMetadataPath(modelsPath: Path, name: string): Path {
    Join(ModelDir(modelsPath, name), "metadata.yaml")
  }

  /** `pt_model_path.with_name(pt_model_path.stem + '_ncnn_model')`. */
  function NcnnPath(pt: Path): Path
    requires pt.parts != []
  {
    WithName(pt, PathStem(pt) + "_ncnn_model")
  }

  /** The export of model `name` lives beside its `.pt` file as
      `<name>_ncnn_model`; for the empty name the whole of `.pt` is the stem,
      so the export is `.pt_ncnn_model`. */
  lemma NcnnBesidePt(modelsPath: Path, name: string)
    ensures name != "" ==>
      NcnnPath(PtModelPath(modelsPath, name)) == Join(ModelDir(modelsPath, name), name + "_ncnn_model")
    ensures name == "" ==>
      NcnnPath(PtModelPath(modelsPath, name)) == Join(ModelDir(modelsPath, name), ".pt_ncnn_model")
  {
    var pt := PtModelPath(modelsPath, name);
    JoinParentName(ModelDir(modelsPath, name), name + ".pt");
    var file := name + ".pt";
    assert file[|name|] == '.' && file[|name| + 1..] == "pt";
    var i := LastIndexOf(file, '.');
    assert i == Some(|name|);
    if name == "" {
      assert SuffixStart(file) == 3 && file == ".pt";
      assert PathStem(pt) == ".pt";
      assert PathStem(pt) + "_ncnn_model" == ".pt_ncnn_model";
    } else {
      assert file[..|name|] == name;
    }
  }

  /** The names of the files directly inside `dir`
      (`[file.name for file in dir.iterdir() if file.is_file()]`). */
  function FileNamesIn(files: map<Path, Blob>, dir: Path): set<string> {
    set f | f in files && f.parts != [] && Parent(f) == dir :: Name(f)
  }

  /** `_is_valid_ncnn(path)`. */
  predicate IsValidNcnn(dirs: set<Path>, files: map<Path, Blob>, p: Path) {
    p in dirs && NCNN_FILES <= FileNamesIn(files, p)
  }

  /** An export is complete exactly when its directory exists and holds the
      three files `metadata.yaml`, `model.ncnn.bin` and `model.ncnn.param`. */
  lemma IsValidNcnnFiles(dirs: set<Path>, files: map<Path, Blob>, p: Path)
    ensures IsValidNcnn(dirs, files, p) <==>
      p in dirs && Join(p, "metadata.yaml") in files
      && Join(p, "model.ncnn.bin") in files && Join(p, "model.ncnn.param") in files
  {
    JoinParentName(p, "metadata.yaml");
    JoinParentName(p, "model.ncnn.bin");
    JoinParentName(p, "model.ncnn.param");
    forall n | n in NCNN_FILES
      ensures n in FileNamesIn(files, p) <==> Join(p, n) in files
    {
      JoinParentName(p, n);
      if n in FileNamesIn(files, p) {
        var f :| f in files && f.parts != [] && Parent(f) == p && Name(f) == n;
        assert f.parts == f.parts[..|f.parts| - 1] + [f.parts[|f.parts| - 1]];
        assert f == Join(p, n);
      }
    }
  }

  /** The checks of the `name` setter, in order: the value must be a `str`,
      the model directory must exist, and it must hold `<name>.pt` and
      `metadata.yaml`. */
  function CheckModel(dirs: set<Path>, files: map<Path, Blob>, modelsPath: Path, value: StrInput): (r: Result<string>)
    ensures r.Ok? <==>
      value.Str? && ModelDir(modelsPath, value.s) in dirs
      && PtModelPath(modelsPath, value.s) in files && ModelMetadataPath(modelsPath, value.s) in files
    ensures r.Ok? ==> r.value == value.s
    ensures value.NotStr? ==> r == Err(TypeError)
    ensures value.Str? && ModelDir(modelsPath, value.s) !in dirs ==> r == Err(NotADirectoryError)
    ensures value.Str? && ModelDir(modelsPath, value.s) in dirs && !r.Ok? ==> r == Err(FileExistsError)
  {
    match value
    case NotStr => Err(TypeError)
    case Str(n) =>
      if ModelDir(modelsPath, n) !in dirs then Err(NotADirectoryError)
      else if PtModelPath(modelsPath, n) !in files || ModelMetadataPath(modelsPath, n) !in files then Err(FileExistsError)
      else Ok(n)
  }

  /** `[FILTERS[name] for name in names]`: the first unregistered name
      raises `KeyError`. */
  function LookupFilters(names: seq<string>): (r: Result<seq<Filter>>)
    ensures r.Ok? <==> forall k :: 0 <= k < |names| ==> names[k] in FILTERS
    ensures r.Ok? ==> |r.value| == |names| && forall k :: 0 <= k < |names| ==> r.value[k] == FILTERS[names[k]]
    ensures r.Err? ==> r.error == KeyError
  {
    if names == [] then Ok([])
    else
      match LookupFilter(names[0])
      case Err(e) => Err(e)
      case Ok(f) =>
        match LookupFilters(names[1..])
        case Err(e) => Err(e)
        case Ok(rest) => Ok([f] + rest)
  }

  /** The names a dataset records are the ones its filters answer to: a
      list of names that all look up gives filters whose names are that
      list. */
  lemma LookupFiltersRoundTrip(names: seq<string>)
    requires LookupFilters(names).Ok?
    ensures forall k :: 0 <= k < |names| ==>
      GetFilterName(Known(LookupFilters(names).value[k])) == Ok(names[k])
  {
    forall k | 0 <= k < |names|
      ensures GetFilterName(Known(LookupFilters(names).value[k])) == Ok(names[k])
    {
      FilterNameRoundTrip(names[k], Known(FILTERS[names[k]]));
    }
  }

  /** `ModelManager`. */
  class ModelManager {
    var name: string
    var path: Path
    var ptModelPath: Path
    var metadataPath: Path
    var ncnnModelPath: Path
    var lastInput: Option<Image>
    var lastProcessed: Option<Image>
    var lastResult: Option<Image>

    /** The paths of a manager for model `n` under `modelsPath`. */
    ghost predicate NamedAs(modelsPath: Path, n: string)
      reads this
    {
      name == n && path == ModelDir(modelsPath, n) && ptModelPath == PtModelPath(modelsPath, n)
      && metadataPath == ModelMetadataPath(modelsPath, n) && ncnnModelPath == NcnnPath(ptModelPath)
    }

    /** The fields set once `n` has passed the checks; nothing has been
        processed yet. */
    constructor (modelsPath: Path, n: string)
      ensures NamedAs(modelsPath, n)
      ensures lastInput.None? && lastProcessed.None? && lastResult.None?
    {
      name := n;
      path := ModelDir(modelsPath, n);
      ptModelPath := PtModelPath(modelsPath, n);
      metadataPath := ModelMetadataPath(modelsPath, n);
      ncnnModelPath := NcnnPath(PtModelPath(modelsPath, n));
      lastInput := None;
      lastProcessed := None;
      lastResult := None;
    }

    /** `_export_model_2_ncnn`: the export path is derived from the `.pt`
        file; the export runs (`exported`) exactly when no complete export
        is there yet. */
    method ExportModelToNcnn(fs: FileSystem) returns (exported: bool)
      requires ptModelPath.parts != []
      modifies this`ncnnModelPath
      ensures ncnnModelPath == NcnnPath(ptModelPath)
      ensures exported <==> !IsValidNcnn(fs.dirs, fs.files, ncnnModelPath)
    {
      ncnnModelPath := NcnnPath(ptModelPath);
      exported := !IsValidNcnn(fs.dirs, fs.files, ncnnModelPath);
    }

    /** The `name` setter: a value that fails the checks raises and leaves
        the manager as it was; an accepted name sets every path, then the
        export runs unless a complete one exists (`Ok(exported)`). */
    method SetName(fs: FileSystem, modelsPath: Path, value: StrInput) returns (r: Result<bool>)
      modifies this
      ensures lastInput == old(lastInput) && lastProcessed == old(lastProcessed) && lastResult == old(lastResult)
      ensures match CheckModel(fs.dirs, fs.files, modelsPath, value)
        case Err(e) =>
          r == Err(e) && name == old(name) && path == old(path) && ptModelPath == old(ptModelPath)
          && metadataPath == old(metadataPath) && ncnnModelPath == old(ncnnModelPath)
        case Ok(n) =>
          NamedAs(modelsPath, n) && r == Ok(!IsValidNcnn(fs.dirs, fs.files, ncnnModelPath))
    {
      var checked := CheckModel(fs.dirs, fs.files, modelsPath, value);
      if checked.Err? {
        return Err(checked.error);
      }
      var n := checked.value;
      name := n;
      path := ModelDir(modelsPath, n);
      ptModelPath := PtModelPath(modelsPath, n);
      metadataPath := ModelMetadataPath(modelsPath, n);
      var exported := ExportModelToNcnn(fs);
      r := Ok(exported);
    }

    /** `metadata`: the record read from `metadata.yaml`. */
    function Metadata(dirs: set<Path>, files: map<Path, Blob>): Result<DatasetMetadata>
      reads this
    {
      ReadMetadata(dirs, files, metadataPath)
    }

    /** `filters`: the registered filters the metadata names, in order. */
    function Filters(dirs: set<Path>, files: map<Path, Blob>): Result<seq<Filter>>
      reads this
    {
      match Metadata(dirs, files)
      case Err(e) => Err(e)
      case Ok(m) => LookupFilters(m.filters)
    }

    /** `process_frame(frame)`: the model's filters are applied in turn,
        the detector runs on the last filtered frame, and the input, the
        filtered frame and the plotted detections are remembered.  The
        detector is an input; its results are represented by their plot.
        A failure leaves the remembered frames as they were. */
    method ProcessFrame(fs: FileSystem, frame: Image, cfg: ImageConfig, detector: Image -> Image) returns (r: Result<Image>)
      modifies this`lastInput, this`lastProcessed, this`lastResult
      ensures match Filters(fs.dirs, fs.files)
        case Err(e) =>
          r == Err(e) && lastInput == old(lastInput) && lastProcessed == old(lastProcessed) && lastResult == old(lastResult)
        case Ok(filters) =>
          match ApplyAll(filters, frame, cfg)
          case Err(e) =>
            r == Err(e) && lastInput == old(lastInput) && lastProcessed == old(lastProcessed) && lastResult == old(lastResult)
          case Ok(filtered) =>
            r == Ok(detector(filtered))
            && lastInput == Some(frame) && lastProcessed == Some(filtered) && lastResult == Some(detector(filtered))
    {
      var read := Filters(fs.dirs, fs.files);
      if read.Err? {
        return Err(read.error);
      }
      var filters := read.value;
      var frames := [frame];
      var i := 0;
      while i < |filters|
        invariant 0 <= i <= |filters| && |frames| == i + 1 && frames[0] == frame
        invariant ApplyAll(filters, frame, cfg) == ApplyAll(filters[i..], frames[i], cfg)
      {
        assert filters[i..][1..] == filters[i + 1..];
        var next := ApplyFilter(filters[i], frames[i], cfg);
        if next.Err? {
          return Err(next.error);
        }
        frames := frames + [next.value];
        i := i + 1;
      }
      assert filters[i..] == [];
      frames := frames + [detector(frames[i])];
      lastInput := Some(frame);
      lastProcessed := Some(frames[|frames| - 2]);
      lastResult := Some(frames[|frames| - 1]);
      r := Ok(frames[|frames| - 1]);
    }

    /** `get_last_result_image(source)`: with `source`, the last input and
        the last result side by side in a grid; otherwise the last result.
        Before any frame was processed the attributes do not exist. */
    method GetLastResultImage(source: bool) returns (r: Result<Image>)
      ensures source && lastInput.Some? && lastResult.Some? ==> r == GridSpec([lastInput.value, lastResult.value])
      ensures source && (lastInput.None? || lastResult.None?) ==> r == Err(AttributeError)
      ensures !source && lastResult.Some? ==> r == Ok(lastResult.value)
      ensures !source && lastResult.None? ==> r == Err(AttributeError)
    {
      if source {
        if lastInput.None? || lastResult.None? {
          return Err(AttributeError);
        }
        r := GetImagesGrid([lastInput.value, lastResult.value]);
      } else {
        if lastResult.None? {
          return Err(AttributeError);
        }
        r := Ok(lastResult.value);
      }
    }
  }

  /** `ModelManager(name)`: the checks of the `name` setter, then a manager
      whose paths are those of the accepted name; nothing is processed. */
  method OpenModel(fs: FileSystem, modelsPath: Path, value: StrInput) returns (r: Result<ModelManager>)
    ensures CheckModel(fs.dirs, fs.files, modelsPath, value).Err? ==> r == Err(CheckModel(fs.dirs, fs.files, modelsPath, value).error)
    ensures r.Ok? ==>
      fresh(r.value) && CheckModel(fs.dirs, fs.files, modelsPath, value) == Ok(r.value.name)
      && r.value.NamedAs(modelsPath, r.value.name) && r.value.lastResult.None?
  {
    var checked := CheckModel(fs.dirs, fs.files, modelsPath, value);
    if checked.Err? {
      return Err(checked.error);
    }
    var m := new ModelManager(modelsPath, checked.value);
    var _ := m.ExportModelToNcnn(fs);
    r := Ok(m);
  }
}
