/** `filesystem/dirsManagers.py`, the older variant of the dataset
    managers: the training dataset is always split from a source, its name
    is a settable field (`dataset_name`), every part directory is created
    on demand, `split` does not write `data.yaml`, and the `task` entry of
    `data.yaml` is the enum member.  Its `DatasetDirManager` is the same
    class as in `dirs_managers.py` and is shared with `DatasetDirs`. */
module LegacyDatasetDirs {
  import opened Outcomes
  import opened Paths
  import opened FileSystem
  import opened DatasetDirs
  import opened Text

  /** `TrainingDatasetDirManager` of `dirsManagers.py`. */
  class LegacyTrainingDatasetDirManager {
    const source: DatasetDirManager
    var datasetName: string
    var path: Path
    var trainDir: DatasetDirManager
    var validationDir: DatasetDirManager
    var testDir: DatasetDirManager

    constructor (source: DatasetDirManager, datasetName: string, path: Path,
                 trainDir: DatasetDirManager, validationDir: DatasetDirManager, testDir: DatasetDirManager)
      ensures this.source == source && this.datasetName == datasetName && this.path == path
      ensures this.trainDir == trainDir && this.validationDir == validationDir && this.testDir == testDir
    {
      this.source := source;
      this.datasetName := datasetName;
      this.path := path;
      this.trainDir := trainDir;
      this.validationDir := validationDir;
      this.testDir := testDir;
    }

    /** `data_yaml_file_path`. */
    function DataYamlPath(): (p: Path)
      reads this
      ensures Parent(p) == path && Name(p) == "data.yaml"
    {
      JoinParentName(path, "data.yaml");
      Join(path, "data.yaml")
    }

    /** `set_paths`: the dataset lives beside the source under
      `dataset_name`; its `train`, `validation` and `test` dataset
      directories are created if missing, each field assigned as soon as
      its directory is ready, the first failure propagating. */
    method SetPaths(fs: FileSystem) returns (r: Result<()>)
      requires fs.Valid()
      modifies this, fs
      ensures fs.Valid() && fs.files == old(fs.files) && old(fs.dirs) <= fs.dirs
      ensures datasetName == old(datasetName)
      ensures path == Join(Parent(source.path), datasetName)
      ensures r.Ok? ==>
        trainDir.path == Join(path, "train") && validationDir.path == Join(path, "validation")
        && testDir.path == Join(path, "test")
        && forall p :: p in TrainingTree(path) ==> p in fs.dirs || p in fs.files
    {
      path := Join(Parent(source.path), datasetName);
      var train := CreatePart(fs, path, "train");
      if train.Err? {
        return Err(train.error);
      }
      trainDir := train.value;
      var validation := CreatePart(fs, path, "validation");
      if validation.Err? {
        return Err(validation.error);
      }
      validationDir := validation.value;
      var test := CreatePart(fs, path, "test");
      if test.Err? {
        return Err(test.error);
      }
      testDir := test.value;
      r := Ok(());
    }

    /** The `dataset_name` setter: anything but a `str` raises `TypeError`
      and changes nothing; a name is stored, then the paths are set. */
    method SetDatasetName(fs: FileSystem, value: StrInput) returns (r: Result<()>)
      requires fs.Valid()
      modifies this, fs
      ensures fs.Valid() && fs.files == old(fs.files) && old(fs.dirs) <= fs.dirs
      ensures value.NotStr? ==>
        r == Err(TypeError) && fs.dirs == old(fs.dirs)
        && datasetName == old(datasetName) && path == old(path)
        && trainDir == old(trainDir) && validationDir == old(validationDir) && testDir == old(testDir)
      ensures value.Str? ==> datasetName == value.s && path == Join(Parent(source.path), value.s)
      ensures value.Str? && r.Ok? ==>
        trainDir.path == Join(path, "train") && validationDir.path == Join(path, "validation")
        && testDir.path == Join(path, "test")
        && forall p :: p in TrainingTree(path) ==> p in fs.dirs || p in fs.files
    {
      if value.NotStr? {
        return Err(TypeError);
      }
      datasetName := value.s;
      r := SetPaths(fs);
    }

    /** `create_yaml_data_file`: as in `dirs_managers.py`, except that the
      `task` entry is the enum member `ModelTasks.DETECT`. */
    method CreateYamlDataFile(fs: FileSystem) returns (r: Result<()>)
      requires fs.Valid()
      modifies fs
      ensures fs.Valid() && fs.dirs == old(fs.dirs)
      ensures match ReadLines(old(fs.dirs), old(fs.files), Join(source.path, "classes.txt"))
        case Err(e) => r == Err(e) && fs.files == old(fs.files)
        case Ok(lines) =>
          match WriteCheck(old(fs.dirs), old(fs.files), DataYamlPath())
          case Err(e) => r == Err(e) && fs.files == old(fs.files)
          case Ok(_) =>
            r == Ok(()) && fs.files == old(fs.files)[DataYamlPath() := DataYaml(DataRecord(path, TaskMember(Detect), lines))]
    {
      var classesPath := Join(source.path, "classes.txt");
      var read := ReadLines(fs.dirs, fs.files, classesPath);
      if read.Err? {
        return Err(read.error);
      }
      var data := DataRecord(path, TaskMember(Detect), read.value);
      var target := DataYamlPath();
      var written := WriteCheck(fs.dirs, fs.files, target);
      if written.Err? {
        return Err(written.error);
      }
      fs.files := fs.files[target := DataYaml(data)];
      r := Ok(());
    }

    /** `split(validation, test)`: the same counts and partition of the
      shuffled images as in `dirs_managers.py`, with the corrected label
      split, then the source `metadata.yaml` when it is a file; no
      `data.yaml` is written. */
    method Split(fs: FileSystem, shuffled: seq<Path>, labels: seq<Path>, validation: real, test: real) returns (r: Result<()>)
      requires 0.0 <= validation && 0.0 <= test
      requires fs.Valid()
      modifies fs
      ensures fs.Valid() && fs.dirs == old(fs.dirs)
    {
      var nVal := SplitCount(|shuffled|, validation);
      var nTest := SplitCount(|shuffled|, test);
      var (trainImages, valImages, testImages) := SplitParts(shuffled, nVal, nTest);
      var (trainLabels, valLabels, testLabels) := SplitLabels(shuffled, labels, nVal, nTest);
      r := AddData(fs, trainDir, trainImages, trainLabels);
      if r.Err? {
        return;
      }
      r := AddData(fs, validationDir, valImages, valLabels);
      if r.Err? {
        return;
      }
      r := AddData(fs, testDir, testImages, testLabels);
      if r.Err? {
        return;
      }
      var metadata := source.MetadataPath();
      if metadata in fs.files {
        r := CopyFiles(fs, [metadata], path, None);
      }
    }
  }

  /** `DatasetDirManager(path / name)` with the default `create=True`:
      the part directory and its `images` and `labels` exist afterwards
      unless the creation fails. */
  method CreatePart(fs: FileSystem, path: Path, name: string) returns (r: Result<DatasetDirManager>)
    requires fs.Valid()
    modifies fs
    ensures fs.Valid() && fs.files == old(fs.files) && old(fs.dirs) <= fs.dirs
    ensures r.Ok? ==>
      fresh(r.value) && r.value.path == Join(path, name)
      && forall p :: p in DatasetTree(Join(path, name)) ==> p in fs.dirs || p in fs.files
  {
    r := OpenDatasetDir(fs, PathLike(Join(path, name)), true);
  }

  /** `TrainingDatasetDirManager(source_dataset_dir)`: the source, taken
      under `datasetsPath` when relative and unzipped (`unzip`), must be a
      dataset directory; `dataset_name` becomes its stem with `_split`
      appended, which sets the paths, and the setter then sets them once
      more. */
  method OpenLegacyTrainingDataset(fs: FileSystem, sourceDir: Path, datasetsPath: Path, unzip: Path -> Path)
    returns (r: Result<LegacyTrainingDatasetDirManager>)
    requires fs.Valid()
    modifies fs
    ensures fs.Valid() && fs.files == old(fs.files) && old(fs.dirs) <= fs.dirs
    ensures var source := unzip(ResolveUnder(datasetsPath, sourceDir));
      (!(DatasetTree(source) <= old(fs.dirs)) ==> r == Err(NotADirectoryError) && fs.dirs == old(fs.dirs))
      && (r.Ok? ==>
            fresh(r.value) && r.value.source.path == source
            && r.value.datasetName == PathStem(source) + "_split"
            && r.value.path == Join(Parent(source), PathStem(source) + "_split")
            && r.value.trainDir.path == Join(r.value.path, "train")
            && r.value.validationDir.path == Join(r.value.path, "validation")
            && r.value.testDir.path == Join(r.value.path, "test")
            && forall p :: p in TrainingTree(r.value.path) ==> p in fs.dirs || p in fs.files)
  {
    var sourcePath := unzip(ResolveUnder(datasetsPath, sourceDir));
    var source := OpenDatasetDir(fs, PathLike(sourcePath), false);
    if source.Err? {
      return Err(source.error);
    }
    var name := PathStem(sourcePath) + "_split";
    var path := Join(Parent(source.value.path), name);
    var parts := OpenParts(fs, path, true);
    if parts.Err? {
      return Err(parts.error);
    }
    var (trainDir, validationDir, testDir) := parts.value;
    var manager := new LegacyTrainingDatasetDirManager(source.value, name, path, trainDir, validationDir, testDir);
    var again := manager.SetPaths(fs);
    if again.Err? {
      return Err(again.error);
    }
    r := Ok(manager);
  }

  /** Where the older variant puts the split dataset: beside the source,
      named after its stem with `_split` appended, with the three parts
      below it. */
  lemma LegacySplitPaths(source: Path)
    requires source.parts != []
    ensures var path := Join(Parent(source), PathStem(source) + "_split");
      Parent(path) == Parent(source) && Name(path) == PathStem(source) + "_split"
      && Parent(Join(path, "train")) == path && Name(Join(path, "validation")) == "validation"
  {
    JoinParentName(Parent(source), PathStem(source) + "_split");
    JoinParentName(Join(Parent(source), PathStem(source) + "_split"), "train");
  }
}
