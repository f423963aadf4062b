/** `filesystem/files.py` and `filesystem/dirs.py` over an abstract file
    system: a set of directories and a map from file paths to contents.
    The operating-system rules the helpers rely on are written out:
    `mkdir(parents=True)` creates every missing ancestor, fails with
    `FileExistsError` when the path exists and with `NotADirectoryError`
    when an ancestor is a file; opening a file for writing needs its parent
    directory; `shutil.copy2` into a directory copies under the source's
    name. */
module FileSystem {
  import opened Outcomes
  import opened Paths
  import opened Text
  import ImageProcessing

  /** The `metadata.yaml` record of a captured dataset. */
  datatype DatasetMetadata = DatasetMetadata(
    date: int, cameraWidth: int, cameraHeight: int, filters: seq<string>,
    brightness: real, contrast: real, saturation: real, exposure: real, wb: real)

  /** `ModelTasks`. */
  datatype ModelTask = Detect | Segment | Classify | Pose

  /** The `task` entry of `data.yaml`: the task's text, or the enum member
      itself (which YAML dumps as a Python object). */
  datatype TaskValue = TaskText(text: string) | TaskMember(member: ModelTask)

  /** The `data.yaml` record of a training dataset. */
  datatype DatasetData = DatasetData(
    path: Path, task: TaskValue, train: string, val: string, test: string, nc: nat, name: map<nat, string>)

  /** File contents: an opaque byte string, an encoded image, one of the two
      YAML records, or a text file read as lines. */
  datatype Blob =
    | Bytes(id: nat)
    | PngImage(image: ImageProcessing.Image)
    | MetadataYaml(metadata: DatasetMetadata)
    | DataYaml(data: DatasetData)
    | TextLines(lines: seq<string>)

  /** `ALLOWED_IMAGES_EXTENSIONS`. */
  const ALLOWED_IMAGES_EXTENSIONS: set<string> := {".png", ".jpg", ".jpeg", ".bmp", ".gif", ".tiff"}

  /** The test `add_images` applies to a directory entry's suffix. */
  predicate IsAllowedImageName(name: string) {
    Lower(Suffix(name)) in ALLOWED_IMAGES_EXTENSIONS
  }

  /** An accepted name has a non-empty suffix among the six listed ones,
      whatever its case. */
  lemma AllowedImageNames(name: string)
    ensures IsAllowedImageName(name) ==> |Suffix(name)| >= 2 && Suffix(name)[0] == '.'
    ensures IsAllowedImageName(name) <==> IsAllowedImageName(Upper(name))
  {
    StemSuffix(name);
    assert Lower([]) == [];
    SuffixOfUpper(name);
    LowerOfUpper(Suffix(name));
  }

  lemma LowerOfUpper(s: string)
    ensures Lower(Upper(s)) == Lower(s)
  {
    assert forall k :: 0 <= k < |s| ==> LowerChar(UpperChar(s[k])) == LowerChar(s[k]);
  }

  /** Upper-casing a name does not move its dots, so its suffix is the
      upper-cased suffix. */
  lemma SuffixOfUpper(name: string)
    ensures Suffix(Upper(name)) == Upper(Suffix(name))
  {
    UpperLastIndexOf(name, '.');
  }

  lemma {:induction false} UpperLastIndexOf(s: string, c: char)
    requires !('a' <= c <= 'z') && !('A' <= c <= 'Z')
    ensures LastIndexOf(Upper(s), c) == LastIndexOf(s, c)
    decreases |s|
  {
    if s != [] {
      assert Upper(s)[..|s| - 1] == Upper(s[..|s| - 1]);
      UpperLastIndexOf(s[..|s| - 1], c);
    }
  }

  /** Some proper ancestor of `p` is a file, so the operating system cannot
      resolve `p` (ENOTDIR). */
  predicate Blocked(files: map<Path, Blob>, p: Path) {
    exists k :: 0 <= k < |p.parts| && Path(p.absolute, p.parts[..k]) in files
  }

  /** Whether a file can be opened for writing at `p`, as `open(p, 'w')`
      and `cv2.imwrite` need. */
  function WriteCheck(dirs: set<Path>, files: map<Path, Blob>, p: Path): Result<()> {
    if p in dirs then Err(IsADirectoryError)
    else if Parent(p) in dirs then Ok(())
    else if Blocked(files, p) then Err(NotADirectoryError)
    else Err(FileNotFoundError)
  }

  /** `open(p, 'r').readlines()`: a directory raises `IsADirectoryError`, a
      missing file `FileNotFoundError` (`NotADirectoryError` below a file);
      only a text file has lines, and decoding any other content as text
      is a `ValueError`. */
  function ReadLines(dirs: set<Path>, files: map<Path, Blob>, p: Path): (r: Result<seq<string>>)
    ensures r.Ok? <==> p !in dirs && p in files && files[p].TextLines?
    ensures r.Ok? ==> r.value == files[p].lines
  {
    if p in dirs then Err(IsADirectoryError)
    else if p in files then
      (if files[p].TextLines? then Ok(files[p].lines) else Err(ValueError))
    else if Blocked(files, p) then Err(NotADirectoryError)
    else Err(FileNotFoundError)
  }

  /** `yaml.safe_load(open(p, 'r'))` of a `metadata.yaml`: a path that is
      not a file fails as in `ReadLines`; a file that does not hold the
      metadata record has none of its entries, so looking one up raises
      `KeyError`. */
  function ReadMetadata(dirs: set<Path>, files: map<Path, Blob>, p: Path): (r: Result<DatasetMetadata>)
    ensures r.Ok? <==> p !in dirs && p in files && files[p].MetadataYaml?
    ensures r.Ok? ==> r.value == files[p].metadata
    ensures r.Err? && p !in files ==> ReadLines(dirs, files, p) == Err(r.error)
  {
    if p in dirs then Err(IsADirectoryError)
    else if p in files then
      (if files[p].MetadataYaml? then Ok(files[p].metadata) else Err(KeyError))
    else if Blocked(files, p) then Err(NotADirectoryError)
    else Err(FileNotFoundError)
  }

  class FileSystem {
    var dirs: set<Path>
    var files: map<Path, Blob>

    /** A tree: nothing is both a file and a directory, and the parent of
        every directory and of every file is a directory. */
    ghost predicate Valid()
      reads this
    {
      dirs !! files.Keys
      && (forall d :: d in dirs && d.parts != [] ==> Parent(d) in dirs)
      && (forall f :: f in files ==> f.parts != [] && Parent(f) in dirs)
    }

    constructor (dirs0: set<Path>, files0: map<Path, Blob>)
      ensures dirs == dirs0 && files == files0
    {
      dirs := dirs0;
      files := files0;
    }

    /** `p.mkdir(parents=True, exist_ok=existOk)`. */
    method MkdirParents(p: Path, existOk: bool) returns (r: Result<()>)
      requires Valid()
      modifies this
      ensures Valid() && files == old(files)
      ensures p in old(dirs) ==> dirs == old(dirs) && (r.Ok? <==> existOk) && (r.Err? ==> r.error == FileExistsError)
      ensures p !in old(dirs) && p in old(files) ==> dirs == old(dirs) && r == Err(FileExistsError)
      ensures p !in old(dirs) && p !in old(files) && Blocked(old(files), p) ==> dirs == old(dirs) && r == Err(NotADirectoryError)
      ensures p !in old(dirs) && p !in old(files) && !Blocked(old(files), p) ==> dirs == old(dirs) + Ancestors(p) && r == Ok(())
      ensures r.Ok? ==> p in dirs
    {
      if p in dirs {
        r := if existOk then Ok(()) else Err(FileExistsError);
      } else if p in files {
        r := Err(FileExistsError);
      } else if Blocked(files, p) {
        r := Err(NotADirectoryError);
      } else {
        AncestorsStayTree(dirs, files, p);
        dirs := dirs + Ancestors(p);
        r := Ok(());
      }
    }
  }

  /** Adding every ancestor of a path that no file blocks keeps the tree
      shape. */
  lemma AncestorsStayTree(dirs: set<Path>, files: map<Path, Blob>, p: Path)
    requires dirs !! files.Keys
    requires forall d :: d in dirs && d.parts != [] ==> Parent(d) in dirs
    requires forall f :: f in files ==> f.parts != [] && Parent(f) in dirs
    requires p !in files && !Blocked(files, p)
    ensures (dirs + Ancestors(p)) !! files.Keys
    ensures forall d :: d in dirs + Ancestors(p) && d.parts != [] ==> Parent(d) in dirs + Ancestors(p)
  {
    forall d | d in Ancestors(p)
      ensures d !in files
      ensures d.parts != [] ==> Parent(d) in Ancestors(p)
    {
      var k :| 0 <= k <= |p.parts| && d == Path(p.absolute, p.parts[..k]);
      if k == |p.parts| {
        assert p.parts[..k] == p.parts;
      }
      if d.parts != [] {
        assert d.parts[..|d.parts| - 1] == p.parts[..k - 1];
      }
    }
  }

  /** What `Path(path_in)` receives: something path-like, or a value it
      rejects. */
  datatype PathInput = PathLike(path: Path) | NotPathLike

  /** `check_dir_path(path_in, create)`. */
  method CheckDirPath(fs: FileSystem, input: PathInput, create: bool) returns (r: Result<Path>)
    requires fs.Valid()
    modifies fs
    ensures fs.Valid() && fs.files == old(fs.files)
    ensures input.NotPathLike? ==> r == Err(TypeError) && fs.dirs == old(fs.dirs)
    ensures input.PathLike? && input.path in old(fs.dirs) ==> r == Ok(input.path) && fs.dirs == old(fs.dirs)
    ensures input.PathLike? && input.path !in old(fs.dirs) && !create ==>
      r == Err(NotADirectoryError) && fs.dirs == old(fs.dirs)
    ensures input.PathLike? && input.path !in old(fs.dirs) && create && input.path in old(fs.files) ==>
      r == Ok(input.path) && fs.dirs == old(fs.dirs)
    ensures input.PathLike? && input.path !in old(fs.dirs) && create && input.path !in old(fs.files) ==>
      if Blocked(old(fs.files), input.path) then r == Err(NotADirectoryError) && fs.dirs == old(fs.dirs)
      else r == Ok(input.path) && fs.dirs == old(fs.dirs) + Ancestors(input.path)
    ensures r.Ok? ==> r.value == input.path && (r.value in fs.dirs || r.value in fs.files)
  {
    if input.NotPathLike? {
      return Err(TypeError);
    }
    var path := input.path;
    if path !in fs.dirs {
      if !create {
        return Err(NotADirectoryError);
      }
      var made := fs.MkdirParents(path, false);
      if made.Err? && made.error != FileExistsError {
        return Err(made.error);
      }
    }
    r := Ok(path);
  }

  /** `copy_files` with `new_names=None`: each file keeps its own name. */
  function DefaultNames(sources: seq<Path>): (names: seq<string>)
    ensures |names| == |sources| && forall i :: 0 <= i < |sources| ==> names[i] == Name(sources[i])
  {
    seq(|sources|, i requires 0 <= i < |sources| => Name(sources[i]))
  }

  function Min(a: nat, b: nat): nat { if a <= b then a else b }

  /** `zip(files_list, [destiny_dir / n for n in new_names])`. */
  function CopyPairs(sources: seq<Path>, dest: Path, names: seq<string>): (pairs: seq<(Path, Path)>)
    ensures |pairs| == Min(|sources|, |names|)
    ensures forall i :: 0 <= i < |pairs| ==> pairs[i] == (sources[i], Join(dest, names[i]))
  {
    seq(Min(|sources|, |names|), i requires 0 <= i < Min(|sources|, |names|) => (sources[i], Join(dest, names[i])))
  }

  /** Where `shutil.copy2(src, dst)` writes: into `dst` under the source's
      name when `dst` is a directory. */
  function Copy2Target(dirs: set<Path>, src: Path, dst: Path): Path {
    if dst in dirs then Join(dst, Name(src)) else dst
  }

  /** One iteration of the copy loop: a source that is not a file is
      skipped; otherwise `copy2` refuses to copy a file onto itself, then
      needs to be able to open the target for writing. */
  function CopyStep(dirs: set<Path>, files: map<Path, Blob>, src: Path, dst: Path): Result<map<Path, Blob>> {
    if src !in files then Ok(files)
    else
      var target := Copy2Target(dirs, src, dst);
      if target == src then Err(SameFileError)
      else
        match WriteCheck(dirs, files, target)
        case Err(e) => Err(e)
        case Ok(_) => Ok(files[target := files[src]])
  }

  /** The file map after copying the pairs in order, and the error that
      stopped the loop, if any (earlier copies stay done). */
  function CopyRun(dirs: set<Path>, files: map<Path, Blob>, pairs: seq<(Path, Path)>): (map<Path, Blob>, Option<Error>)
    decreases |pairs|
  {
    if pairs == [] then (files, None)
    else
      match CopyStep(dirs, files, pairs[0].0, pairs[0].1)
      case Err(e) => (files, Some(e))
      case Ok(next) => CopyRun(dirs, next, pairs[1..])
  }

  /** The paths a list of copies may write to. */
  function Targets(dirs: set<Path>, pairs: seq<(Path, Path)>): set<Path> {
    set i | 0 <= i < |pairs| :: Copy2Target(dirs, pairs[i].0, pairs[i].1)
  }

  /** Copying changes only the paired destinations: every other path keeps
      its content (or its absence), and the content written is that of the
      paired source at the time of copying. */
  lemma {:induction false} CopyRunFrame(dirs: set<Path>, files: map<Path, Blob>, pairs: seq<(Path, Path)>)
    ensures var out := CopyRun(dirs, files, pairs).0;
      forall p :: p !in Targets(dirs, pairs) ==> (p in out <==> p in files) && (p in files ==> out[p] == files[p])
    ensures files.Keys <= CopyRun(dirs, files, pairs).0.Keys
    decreases |pairs|
  {
    if pairs != [] {
      match CopyStep(dirs, files, pairs[0].0, pairs[0].1)
      case Err(e) =>
      case Ok(next) =>
        CopyRunFrame(dirs, next, pairs[1..]);
        assert forall i :: 0 <= i < |pairs[1..]| ==> pairs[1..][i] == pairs[i + 1];
        assert Targets(dirs, pairs[1..]) <= Targets(dirs, pairs);
        assert Copy2Target(dirs, pairs[0].0, pairs[0].1) in Targets(dirs, pairs);
    }
  }

  /** Sources that are not files are skipped: with none of them a file,
      nothing happens. */
  lemma {:induction false} CopyRunSkips(dirs: set<Path>, files: map<Path, Blob>, pairs: seq<(Path, Path)>)
    requires forall i :: 0 <= i < |pairs| ==> pairs[i].0 !in files
    ensures CopyRun(dirs, files, pairs) == (files, None)
    decreases |pairs|
  {
    if pairs != [] {
      CopyRunSkips(dirs, files, pairs[1..]);
    }
  }

  /** Copying into a directory keeps the tree shape: every write lands in an
      existing directory and never on one. */
  lemma {:induction false} CopyRunStaysTree(dirs: set<Path>, files: map<Path, Blob>, pairs: seq<(Path, Path)>)
    requires dirs !! files.Keys
    requires forall f :: f in files ==> f.parts != [] && Parent(f) in dirs
    ensures var out := CopyRun(dirs, files, pairs).0;
      dirs !! out.Keys && forall f :: f in out ==> f.parts != [] && Parent(f) in dirs
    decreases |pairs|
  {
    if pairs != [] {
      match CopyStep(dirs, files, pairs[0].0, pairs[0].1)
      case Err(e) =>
      case Ok(next) =>
        CopyRunStaysTree(dirs, next, pairs[1..]);
    }
  }

  /** `copy_files(files_list, destiny_dir, new_names)`. */
  method CopyFiles(fs: FileSystem, sources: seq<Path>, dest: Path, newNames: Option<seq<string>>) returns (r: Result<()>)
    requires fs.Valid()
    modifies fs
    ensures fs.Valid() && fs.dirs == old(fs.dirs)
    ensures dest !in old(fs.dirs) ==> r == Err(NotADirectoryError) && fs.files == old(fs.files)
    ensures dest in old(fs.dirs) ==>
      var names := if newNames.Some? then newNames.value else DefaultNames(sources);
      var run := CopyRun(old(fs.dirs), old(fs.files), CopyPairs(sources, dest, names));
      fs.files == run.0 && (r.Ok? <==> run.1.None?) && (r.Err? ==> run.1 == Some(r.error))
  {
    if dest !in fs.dirs {
      return Err(NotADirectoryError);
    }
    var names := if newNames.Some? then newNames.value else DefaultNames(sources);
    var pairs := CopyPairs(sources, dest, names);
    ghost var files0 := fs.files;
    for i := 0 to |pairs|
      invariant fs.Valid() && fs.dirs == old(fs.dirs)
      invariant CopyRun(fs.dirs, files0, pairs) == CopyRun(fs.dirs, fs.files, pairs[i..])
    {
      CopyRunUnfold(fs.dirs, fs.files, pairs, i);
      var copied := Copy2(fs, pairs[i].0, pairs[i].1);
      if copied.Err? {
        return copied;
      }
    }
    assert pairs[|pairs|..] == [];
    r := Ok(());
  }

  /** The run from position `i` is the copy at `i` followed by the run
      from `i + 1`. */
  lemma CopyRunUnfold(dirs: set<Path>, files: map<Path, Blob>, pairs: seq<(Path, Path)>, i: nat)
    requires i < |pairs|
    ensures CopyRun(dirs, files, pairs[i..]) ==
      match CopyStep(dirs, files, pairs[i].0, pairs[i].1)
      case Err(e) => (files, Some(e))
      case Ok(next) => CopyRun(dirs, next, pairs[i + 1..])
  {
    assert pairs[i..][0] == pairs[i] && pairs[i..][1..] == pairs[i + 1..];
  }

  /** One pass of the loop of `copy_files`: a source that is not a file is
      skipped, otherwise `shutil.copy2` copies it as `CopyStep` says. */
  method Copy2(fs: FileSystem, source: Path, destiny: Path) returns (r: Result<()>)
    requires fs.Valid()
    modifies fs
    ensures fs.Valid() && fs.dirs == old(fs.dirs)
    ensures match CopyStep(old(fs.dirs), old(fs.files), source, destiny)
      case Err(e) => r == Err(e) && fs.files == old(fs.files)
      case Ok(next) => r == Ok(()) && fs.files == next
  {
    if source !in fs.files {
      return Ok(());
    }
    var target := Copy2Target(fs.dirs, source, destiny);
    if target == source {
      return Err(SameFileError);
    }
    var written := WriteCheck(fs.dirs, fs.files, target);
    if written.Err? {
      return Err(written.error);
    }
    fs.files := fs.files[target := fs.files[source]];
    r := Ok(());
  }

  /** `create_dataset_medatada_yaml(dir_path, data)`: the record, with its
      date replaced by the current time `now`, is written to
      `dir_path/metadata.yaml` (`IMAGES_PATH` when no directory is given). */
  method CreateDatasetMetadataYaml(fs: FileSystem, dir: Option<Path>, data: DatasetMetadata, now: int, imagesPath: Path)
    returns (r: Result<()>)
    requires fs.Valid()
    modifies fs
    ensures fs.Valid() && fs.dirs == old(fs.dirs)
    ensures var file := Join(if dir.Some? then dir.value else imagesPath, "metadata.yaml");
      match WriteCheck(old(fs.dirs), old(fs.files), file)
      case Err(e) => r == Err(e) && fs.files == old(fs.files)
      case Ok(_) => r == Ok(()) && fs.files == old(fs.files)[file := MetadataYaml(data.(date := now))]
  {
    var dirPath := if dir.Some? then dir.value else imagesPath;
    var filePath := Join(dirPath, "metadata.yaml");
    var stamped := data.(date := now);
    var written := WriteCheck(fs.dirs, fs.files, filePath);
    if written.Err? {
      return Err(written.error);
    }
    fs.files := fs.files[filePath := MetadataYaml(stamped)];
    r := Ok(());
  }

  /** `save_image(image, dir_path)`: make sure the directory exists, then
      write `<uuid>.png` into it.  The fresh name and whether the encoder
      accepts the image are inputs; a failed write raises `RuntimeError`. */
  method SaveImage(fs: FileSystem, image: ImageProcessing.Image, dir: Option<Path>, imagesPath: Path, uuid: string, encoderOk: bool)
    returns (r: Result<Path>)
    requires fs.Valid()
    modifies fs
    ensures fs.Valid()
    ensures var d := if dir.Some? then dir.value else imagesPath;
      var path := Join(d, uuid + ".png");
      (r.Ok? <==> d !in old(fs.files) && !Blocked(old(fs.files), d) && encoderOk && path !in old(fs.dirs))
      && (r.Ok? ==> r.value == path && d in fs.dirs && fs.files == old(fs.files)[path := PngImage(image)])
      && (r.Err? ==> fs.files == old(fs.files))
      && (d in old(fs.files) ==> r == Err(FileExistsError))
      && (d !in old(fs.files) && d !in old(fs.dirs) && Blocked(old(fs.files), d) ==> r == Err(NotADirectoryError))
      && (d !in old(fs.files) && !Blocked(old(fs.files), d) && (!encoderOk || path in old(fs.dirs)) ==> r == Err(RuntimeError))
    ensures var d := if dir.Some? then dir.value else imagesPath;
      fs.dirs == if d !in old(fs.dirs) && d !in old(fs.files) && !Blocked(old(fs.files), d) then old(fs.dirs) + Ancestors(d) else old(fs.dirs)
  {
    var dirPath := if dir.Some? then dir.value else imagesPath;
    var imageName := uuid + ".png";
    var imagePath := Join(dirPath, imageName);
    if dirPath in fs.dirs {
      BlockedDir(fs, dirPath);
    }
    var made := fs.MkdirParents(dirPath, true);
    if made.Err? {
      return Err(made.error);
    }
    JoinParentName(dirPath, imageName);
    var written := WriteCheck(fs.dirs, fs.files, imagePath);
    if !encoderOk || written.Err? {
      return Err(RuntimeError);
    }
    fs.files := fs.files[imagePath := PngImage(image)];
    r := Ok(imagePath);
  }

  /** `ImageProcessing.save_image(image, dir_path)`: the same write as
      `save_image`, but the directory is not created first, so a missing
      directory is a failed write (`RuntimeError`) like a refused image. */
  method SaveImageNoMkdir(fs: FileSystem, image: ImageProcessing.Image, dir: Option<Path>, imagesPath: Path, uuid: string, encoderOk: bool)
    returns (r: Result<Path>)
    requires fs.Valid()
    modifies fs
    ensures fs.Valid() && fs.dirs == old(fs.dirs)
    ensures var d := if dir.Some? then dir.value else imagesPath;
      var path := Join(d, uuid + ".png");
      (r.Ok? <==> d in old(fs.dirs) && encoderOk && path !in old(fs.dirs))
      && (r.Ok? ==> r.value == path && Parent(path) == d && fs.files == old(fs.files)[path := PngImage(image)])
      && (r.Err? ==> r.error == RuntimeError && fs.files == old(fs.files))
  {
    var dirPath := if dir.Some? then dir.value else imagesPath;
    var imageName := uuid + ".png";
    var imagePath := Join(dirPath, imageName);
    JoinParentName(dirPath, imageName);
    var written := WriteCheck(fs.dirs, fs.files, imagePath);
    if !encoderOk || written.Err? {
      return Err(RuntimeError);
    }
    fs.files := fs.files[imagePath := PngImage(image)];
    r := Ok(imagePath);
  }

  /** In a tree, a directory is never below a file. */
  lemma BlockedDir(fs: FileSystem, d: Path)
    requires fs.Valid() && d in fs.dirs
    ensures !Blocked(fs.files, d)
  {
    if Blocked(fs.files, d) {
      var k :| 0 <= k < |d.parts| && Path(d.absolute, d.parts[..k]) in fs.files;
      DirAncestorsAreDirs(fs, d, k);
      assert false;
    }
  }

  lemma {:induction false} DirAncestorsAreDirs(fs: FileSystem, d: Path, k: nat)
    requires fs.Valid() && d in fs.dirs && k <= |d.parts|
    ensures Path(d.absolute, d.parts[..k]) in fs.dirs
    decreases |d.parts| - k
  {
    if k == |d.parts| {
      assert d.parts[..k] == d.parts;
    } else {
      DirAncestorsAreDirs(fs, d, k + 1);
      var a := Path(d.absolute, d.parts[..k + 1]);
      assert Parent(a) == Path(d.absolute, d.parts[..k]);
    }
  }
}
