/** `filesystem/dirs_managers.py`: a dataset directory (`images/`,
    `labels/`, `metadata.yaml`) and a training dataset made of `train/`,
    `validation/` and `test/` dataset directories, split from a source
    dataset.  Directory listings (`rglob`, `iterdir`), the shuffle and the
    unzipping helper are inputs; file contents and YAML are the records of
    the `FileSystem` module. */
module DatasetDirs {
  import opened Outcomes
  import opened Paths
  import opened Text
  import opened FileSystem
  import Sequences

  /** `DatasetDirManager`: a directory with `images` and `labels`
      subdirectories. */
  class DatasetDirManager {
    const create: bool
    const path: Path
    const imagesPath: Path
    const labelsPath: Path

    constructor (create: bool, path: Path)
      ensures this.create == create && this.path == path
      ensures imagesPath == Join(path, "images") && labelsPath == Join(path, "labels")
    {
      this.create := create;
      this.path := path;
      imagesPath := Join(path, "images");
      labelsPath := Join(path, "labels");
    }

    /** `metadata_path`. */
    function MetadataPath(): (p: Path)
      ensures Parent(p) == path && Name(p) == "metadata.yaml"
    {
      JoinParentName(path, "metadata.yaml");
      Join(path, "metadata.yaml")
    }
  }

  /** The directories a `DatasetDirManager` for `path` checks. */
  function DatasetTree(path: Path): set<Path> {
    {path, Join(path, "images"), Join(path, "labels")}
  }

  /** `DatasetDirManager(path, create)`: the `path` setter checks the
      directory, then its `images` and `labels` subdirectories, creating
      them when `create` is set; the first failure propagates. */
  method OpenDatasetDir(fs: FileSystem, input: PathInput, create: bool) returns (r: Result<DatasetDirManager>)
    requires fs.Valid()
    modifies fs
    ensures fs.Valid() && fs.files == old(fs.files)
    ensures input.NotPathLike? ==> r == Err(TypeError) && fs.dirs == old(fs.dirs)
    ensures !create ==> fs.dirs == old(fs.dirs)
    ensures !create && input.PathLike? ==>
      (r.Ok? <==> DatasetTree(input.path) <= old(fs.dirs)) && (r.Err? ==> r.error == NotADirectoryError)
    ensures create && input.PathLike? ==>
      old(fs.dirs) <= fs.dirs <= old(fs.dirs) + Ancestors(Join(input.path, "images")) + Ancestors(Join(input.path, "labels"))
    ensures r.Ok? ==>
      fresh(r.value) && input.PathLike? && r.value.create == create && r.value.path == input.path
      && r.value.imagesPath == Join(input.path, "images") && r.value.labelsPath == Join(input.path, "labels")
      && forall p :: p in DatasetTree(input.path) ==> p in fs.dirs || p in fs.files
  {
    var checked := CheckDirPath(fs, input, create);
    if checked.Err? {
      return Err(checked.error);
    }
    var path := checked.value;
    JoinAncestors(path, "images");
    var images := CheckDirPath(fs, PathLike(Join(path, "images")), create);
    if images.Err? {
      return Err(images.error);
    }
    var labels := CheckDirPath(fs, PathLike(Join(path, "labels")), create);
    if labels.Err? {
      return Err(labels.error);
    }
    var manager := new DatasetDirManager(create, path);
    r := Ok(manager);
  }

  /** A path is among the ancestors of its children. */
  lemma JoinAncestors(p: Path, n: string)
    ensures Ancestors(p) <= Ancestors(Join(p, n))
  {
    forall a | a in Ancestors(p) ensures a in Ancestors(Join(p, n)) {
      var k :| 0 <= k <= |p.parts| && a == Path(p.absolute, p.parts[..k]);
      assert Join(p, n).parts[..k] == p.parts[..k];
    }
  }

  /** `label.stem.endswith(image.stem)`: how a label file is matched to an
      image. */
  predicate Matches(image: Path, labelFile: Path) {
    EndsWith(PathStem(labelFile), PathStem(image))
  }

  /** `[(image, label) for image in images for label in labels if ...]`:
      every matching pair, image-major. */
  function MatchPairs(images: seq<Path>, labels: seq<Path>): seq<(Path, Path)>
    decreases |images|
  {
    if images == [] then []
    else MatchesOf(images[0], labels) + MatchPairs(images[1..], labels)
  }

  /** The labels matching one image, in label order. */
  function MatchesOf(image: Path, labels: seq<Path>): seq<(Path, Path)>
    decreases |labels|
  {
    if labels == [] then []
    else (if Matches(image, labels[0]) then [(image, labels[0])] else []) + MatchesOf(image, labels[1..])
  }

  /** The pairs are exactly the matching (image, label) combinations. */
  lemma {:induction false} MatchPairsMembership(images: seq<Path>, labels: seq<Path>)
    ensures forall im, lb :: (im, lb) in MatchPairs(images, labels) <==> im in images && lb in labels && Matches(im, lb)
    decreases |images|
  {
    if images != [] {
      MatchesOfMembership(images[0], labels);
      MatchPairsMembership(images[1..], labels);
      assert images == [images[0]] + images[1..];
    }
  }

  lemma {:induction false} MatchesOfMembership(image: Path, labels: seq<Path>)
    ensures forall im, lb :: (im, lb) in MatchesOf(image, labels) <==> im == image && lb in labels && Matches(im, lb)
    decreases |labels|
  {
    if labels != [] {
      MatchesOfMembership(image, labels[1..]);
      assert labels == [labels[0]] + labels[1..];
    }
  }

  /** Matching distributes over a concatenation of image lists: the pairs
      for `a + b` are those for `a` followed by those for `b`. */
  lemma {:induction false} MatchPairsAppend(a: seq<Path>, b: seq<Path>, labels: seq<Path>)
    ensures MatchPairs(a + b, labels) == MatchPairs(a, labels) + MatchPairs(b, labels)
    decreases |a|
  {
    if a == [] {
      assert a + b == b;
    } else {
      assert (a + b)[1..] == a[1..] + b;
      MatchPairsAppend(a[1..], b, labels);
    }
  }

  /** The matched labels, image-major (`shuffle_labels` in `split`). */
  function MatchedLabels(images: seq<Path>, labels: seq<Path>): (r: seq<Path>)
    ensures |r| == |MatchPairs(images, labels)|
    ensures forall i :: 0 <= i < |r| ==> r[i] == MatchPairs(images, labels)[i].1
  {
    var pairs := MatchPairs(images, labels);
    seq(|pairs|, i requires 0 <= i < |pairs| => pairs[i].1)
  }

  /** `labels_new_names` in `add_data`: `image.stem + '.txt'` for every
      matching pair, image-major. */
  function LabelNewNames(images: seq<Path>, labels: seq<Path>): (r: seq<string>)
    ensures |r| == |MatchPairs(images, labels)|
    ensures forall i :: 0 <= i < |r| ==> r[i] == PathStem(MatchPairs(images, labels)[i].0) + ".txt"
  {
    var pairs := MatchPairs(images, labels);
    seq(|pairs|, i requires 0 <= i < |pairs| => PathStem(pairs[i].0) + ".txt")
  }

  /** The i-th new name is the stem of the image the i-th matched label
      belongs to, so copying the matched labels under the new names gives
      each label the name of its image. */
  lemma NewNamesFollowMatches(images: seq<Path>, labels: seq<Path>, i: nat)
    requires i < |MatchPairs(images, labels)|
    ensures var pair := MatchPairs(images, labels)[i];
      MatchedLabels(images, labels)[i] == pair.1 && LabelNewNames(images, labels)[i] == PathStem(pair.0) + ".txt"
      && pair.0 in images && pair.1 in labels && EndsWith(PathStem(pair.1), PathStem(pair.0))
  {
    MatchPairsMembership(images, labels);
    assert MatchPairs(images, labels)[i] in MatchPairs(images, labels);
  }

  /** `add_data(images, labels)`: copy the images into `images/`, then copy
      `labels` into `labels/`, the i-th label under the i-th new name. */
  method AddData(fs: FileSystem, manager: DatasetDirManager, images: seq<Path>, labels: seq<Path>) returns (r: Result<()>)
    requires fs.Valid()
    modifies fs
    ensures fs.Valid() && fs.dirs == old(fs.dirs)
    ensures manager.imagesPath !in old(fs.dirs) ==> r == Err(NotADirectoryError) && fs.files == old(fs.files)
    ensures manager.imagesPath in old(fs.dirs) ==>
      var first := CopyRun(old(fs.dirs), old(fs.files), CopyPairs(images, manager.imagesPath, DefaultNames(images)));
      if first.1.Some? then r == Err(first.1.value) && fs.files == first.0
      else if manager.labelsPath !in old(fs.dirs) then r == Err(NotADirectoryError) && fs.files == first.0
      else
        var second := CopyRun(old(fs.dirs), first.0, CopyPairs(labels, manager.labelsPath, LabelNewNames(images, labels)));
        fs.files == second.0 && (r.Ok? <==> second.1.None?)
  {
    var copied := CopyFiles(fs, images, manager.imagesPath, None);
    if copied.Err? {
      return copied;
    }
    var labelsNewNames := LabelNewNames(images, labels);
    r := CopyFiles(fs, labels, manager.labelsPath, Some(labelsNewNames));
  }

  /** The entries `add_images` copies: regular files with an allowed
      suffix, in listing order. */
  function ImagesToCopy(files: map<Path, Blob>, listing: seq<Path>): (r: seq<Path>)
    ensures forall p :: p in r <==> p in listing && p in files && IsAllowedImageName(Name(p))
    ensures Sequences.SubseqOf(r, listing)
  {
    Sequences.FilterMembership(listing, p => p in files && IsAllowedImageName(Name(p)));
    Sequences.FilterSubseq(listing, p => p in files && IsAllowedImageName(Name(p)));
    Sequences.Filter(listing, p => p in files && IsAllowedImageName(Name(p)))
  }

  /** `add_images(images_path)`: a relative directory is taken under
      `imagesRoot` (`IMAGES_PATH`); a missing one raises
      `NotADirectoryError`; the allowed image files among its entries
      (`listing`, its children in `iterdir` order) are copied into
      `images/`, then its `metadata.yaml`, when it is a file, into the
      dataset directory. */
  method AddImages(fs: FileSystem, manager: DatasetDirManager, imagesPath: Path, imagesRoot: Path, listing: seq<Path>)
    returns (r: Result<()>)
    requires forall p :: p in listing ==> Parent(p) == ResolveUnder(imagesRoot, imagesPath)
    requires forall p :: p in fs.files && Parent(p) == ResolveUnder(imagesRoot, imagesPath) ==> p in listing
    requires fs.Valid()
    modifies fs
    ensures fs.Valid() && fs.dirs == old(fs.dirs)
    ensures var dir := ResolveUnder(imagesRoot, imagesPath);
      var images := ImagesToCopy(old(fs.files), listing);
      var first := CopyRun(old(fs.dirs), old(fs.files), CopyPairs(images, manager.imagesPath, DefaultNames(images)));
      var metadata := Join(dir, "metadata.yaml");
      if dir !in old(fs.dirs) || manager.imagesPath !in old(fs.dirs) then
        r == Err(NotADirectoryError) && fs.files == old(fs.files)
      else if first.1.Some? then r == Err(first.1.value) && fs.files == first.0
      else if metadata !in first.0 then r == Ok(()) && fs.files == first.0
      else if manager.path !in old(fs.dirs) then r == Err(NotADirectoryError) && fs.files == first.0
      else
        var second := CopyRun(old(fs.dirs), first.0, CopyPairs([metadata], manager.path, DefaultNames([metadata])));
        fs.files == second.0 && (r.Ok? <==> second.1.None?)
  {
    var dir := ResolveUnder(imagesRoot, imagesPath);
    if dir !in fs.dirs {
      return Err(NotADirectoryError);
    }
    var images := ImagesToCopy(fs.files, listing);
    var copied := CopyFiles(fs, images, manager.imagesPath, None);
    if copied.Err? {
      return copied;
    }
    var metadata := Join(dir, "metadata.yaml");
    if metadata in fs.files {
      r := CopyFiles(fs, [metadata], manager.path, None);
    } else {
      r := Ok(());
    }
  }

  /** The three parts of `split`, as (train, validation, test):
      `s[n_val+n_test:]`, `s[:n_val]` and `s[n_val:n_val+n_test]`. */
  function SplitParts<T>(s: seq<T>, nVal: nat, nTest: nat): (seq<T>, seq<T>, seq<T>) {
    (Sequences.Slice(s, nVal + nTest, |s|), Sequences.Slice(s, 0, nVal), Sequences.Slice(s, nVal, nVal + nTest))
  }

  /** The parts tile the list: validation, then test, then train is the
      list itself, so each element lands in exactly as many parts as it
      occurs in the list; with `n_val + n_test <= len` the parts have
      exactly the requested sizes. */
  lemma SplitPartition<T>(s: seq<T>, nVal: nat, nTest: nat)
    ensures var (train, val, test) := SplitParts(s, nVal, nTest);
      val + test + train == s && multiset(val) + multiset(test) + multiset(train) == multiset(s)
    ensures nVal + nTest <= |s| ==> var (train, val, test) := SplitParts(s, nVal, nTest);
      val == s[..nVal] && test == s[nVal..nVal + nTest] && train == s[nVal + nTest..]
      && |val| == nVal && |test| == nTest && |train| == |s| - nVal - nTest
  {
    var (train, val, test) := SplitParts(s, nVal, nTest);
    var a := if nVal <= |s| then nVal else |s|;
    var b := if nVal + nTest <= |s| then nVal + nTest else |s|;
    assert val == s[..a] && test == s[a..b] && train == s[b..];
    assert s == s[..a] + s[a..b] + s[b..];
    calc {
      multiset(s);
      multiset(val + test + train);
      multiset(val) + multiset(test) + multiset(train);
    }
  }

  /** The default fractions of `split`. */
  const DefaultValidation: real := 0.2
  const DefaultTest: real := 0.1

  /** `int(len(images) * fraction)`: for a non-negative fraction, truncation
      toward zero is the floor, the largest count not above the share. */
  function SplitCount(n: nat, fraction: real): (k: nat)
    requires 0.0 <= fraction
    ensures k as real <= n as real * fraction < k as real + 1.0
  {
    MulNonNegative(n as real, fraction);
    (n as real * fraction).Floor
  }

  lemma MulNonNegative(a: real, b: real)
    requires 0.0 <= a && 0.0 <= b
    ensures 0.0 <= a * b
  {
  }

  /** With fractions that add up to at most the whole list (the command
      line demands at most a half), the two counts fit in the list; so do
      the default ones, which give 2 and 1 of ten images. */
  lemma SplitCountsFit(n: nat, validation: real, test: real)
    requires 0.0 <= validation && 0.0 <= test && validation + test <= 1.0
    ensures SplitCount(n, validation) + SplitCount(n, test) <= n
    ensures SplitCount(n, DefaultValidation) + SplitCount(n, DefaultTest) <= n
    ensures SplitCount(10, DefaultValidation) == 2 && SplitCount(10, DefaultTest) == 1
  {
    var x := n as real;
    assert x * validation + x * test == x * (validation + test);
    MulAtMostOne(x, validation + test);
    assert x * DefaultValidation + x * DefaultTest == x * 0.3;
    MulAtMostOne(x, 0.3);
  }

  lemma MulAtMostOne(a: real, b: real)
    requires 0.0 <= a && b <= 1.0
    ensures a * b <= a
  {
    assert a * b == a - a * (1.0 - b);
    MulNonNegative(a, 1.0 - b);
  }

  /** The parts `split` makes for the given fractions: validation holds
      the first `int(n * validation)` shuffled images, test the next
      `int(n * test)`, train the rest, and together they are the list. */
  lemma SplitByFractions<T>(s: seq<T>, validation: real, test: real)
    requires 0.0 <= validation && 0.0 <= test && validation + test <= 1.0
    ensures var nVal, nTest := SplitCount(|s|, validation), SplitCount(|s|, test);
      var (train, val, test) := SplitParts(s, nVal, nTest);
      val == s[..nVal] && test == s[nVal..nVal + nTest] && train == s[nVal + nTest..]
      && val + test + train == s
  {
    SplitCountsFit(|s|, validation, test);
    SplitPartition(s, SplitCount(|s|, validation), SplitCount(|s|, test));
  }

  /** No element occurs twice. */
  predicate Distinct<T(==)>(s: seq<T>) {
    forall i, j :: 0 <= i < j < |s| ==> s[i] != s[j]
  }

  /** When the listing has no repeated path (as a directory listing has
      not), no image goes to two parts. */
  lemma SplitDisjoint<T>(s: seq<T>, nVal: nat, nTest: nat)
    requires Distinct(s)
    ensures var (train, val, test) := SplitParts(s, nVal, nTest);
      (forall x :: x in val ==> x !in test && x !in train) && (forall x :: x in test ==> x !in train)
  {
    var (train, val, test) := SplitParts(s, nVal, nTest);
    SplitPartition(s, nVal, nTest);
    var whole := val + test + train;
    forall i, j | 0 <= i < |val| && 0 <= j < |test| ensures val[i] != test[j] {
      assert whole[i] == val[i] && whole[|val| + j] == test[j];
    }
    forall i, j | 0 <= i < |val| && 0 <= j < |train| ensures val[i] != train[j] {
      assert whole[i] == val[i] && whole[|val| + |test| + j] == train[j];
    }
    forall i, j | 0 <= i < |test| && 0 <= j < |train| ensures test[i] != train[j] {
      assert whole[|val| + i] == test[i] && whole[|val| + |test| + j] == train[j];
    }
  }

  /** `labels_lists` as written: the image-major matched labels sliced at
      the image boundaries, as (train, validation, test). */
  function SplitLabelsAsWritten(shuffled: seq<Path>, labels: seq<Path>, nVal: nat, nTest: nat): (seq<Path>, seq<Path>, seq<Path>) {
    SplitParts(MatchedLabels(shuffled, labels), nVal, nTest)
  }

  /** The labels each part should receive: those matching that part's
      images, as (train, validation, test). */
  function SplitLabels(shuffled: seq<Path>, labels: seq<Path>, nVal: nat, nTest: nat): (seq<Path>, seq<Path>, seq<Path>) {
    var (train, val, test) := SplitParts(shuffled, nVal, nTest);
    (MatchedLabels(train, labels), MatchedLabels(val, labels), MatchedLabels(test, labels))
  }

  /** Matched labels of a concatenation are the concatenation of the
      matched labels. */
  lemma MatchedLabelsAppend(a: seq<Path>, b: seq<Path>, labels: seq<Path>)
    ensures MatchedLabels(a + b, labels) == MatchedLabels(a, labels) + MatchedLabels(b, labels)
  {
    MatchPairsAppend(a, b, labels);
  }

  /** Every label of a matched list matches one of the listed images. */
  lemma MatchedLabelsMatch(images: seq<Path>, labels: seq<Path>, lb: Path)
    requires lb in MatchedLabels(images, labels)
    ensures lb in labels && exists im :: im in images && Matches(im, lb)
  {
    var i :| 0 <= i < |MatchedLabels(images, labels)| && MatchedLabels(images, labels)[i] == lb;
    NewNamesFollowMatches(images, labels, i);
  }

  /** With the corrected label lists every label goes to the part holding
      an image it matches, and the three lists together are the labels
      `split` matched, in the order validation, test, train. */
  lemma SplitLabelsFollowImages(shuffled: seq<Path>, labels: seq<Path>, nVal: nat, nTest: nat)
    ensures var (train, val, test) := SplitParts(shuffled, nVal, nTest);
      var (trainLabels, valLabels, testLabels) := SplitLabels(shuffled, labels, nVal, nTest);
      valLabels + testLabels + trainLabels == MatchedLabels(shuffled, labels)
      && (forall lb :: lb in trainLabels ==> exists im :: im in train && Matches(im, lb))
      && (forall lb :: lb in valLabels ==> exists im :: im in val && Matches(im, lb))
      && (forall lb :: lb in testLabels ==> exists im :: im in test && Matches(im, lb))
  {
    var (train, val, test) := SplitParts(shuffled, nVal, nTest);
    SplitPartition(shuffled, nVal, nTest);
    MatchedLabelsAppend(val, test, labels);
    MatchedLabelsAppend(val + test, train, labels);
    forall lb | lb in MatchedLabels(train, labels) ensures exists im :: im in train && Matches(im, lb) {
      MatchedLabelsMatch(train, labels, lb);
    }
    forall lb | lb in MatchedLabels(val, labels) ensures exists im :: im in val && Matches(im, lb) {
      MatchedLabelsMatch(val, labels, lb);
    }
    forall lb | lb in MatchedLabels(test, labels) ensures exists im :: im in test && Matches(im, lb) {
      MatchedLabelsMatch(test, labels, lb);
    }
  }

  /** The slicing as written sends a label to a part none of whose images
      it matches: with images `a.png`, `b.png` (in that order after the
      shuffle), the single label `b.txt` and one validation image, the
      validation part is handed image `a.png` with label `b.txt`, and
      training `b.png` with no label.  Since `b.txt` matches no validation
      image, `add_data` builds no new name for it and the zip in
      `copy_files` copies nothing: `b.txt` is lost and both images end up
      unlabelled. */
  lemma SplitLabelsAsWrittenMisplaces(labelsDir: Path)
    ensures var a, b, lb := Path(false, ["a.png"]), Path(false, ["b.png"]), Path(false, ["b.txt"]);
      SplitParts([a, b], 1, 0).1 == [a] && SplitParts([a, b], 1, 0).0 == [b]
      && SplitLabelsAsWritten([a, b], [lb], 1, 0).1 == [lb] && !Matches(a, lb)
      && SplitLabelsAsWritten([a, b], [lb], 1, 0).0 == []
      && CopyPairs([lb], labelsDir, LabelNewNames([a], [lb])) == []
      && CopyPairs([], labelsDir, LabelNewNames([b], [])) == []
      && SplitLabels([a, b], [lb], 1, 0).1 == [] && SplitLabels([a, b], [lb], 1, 0).0 == [lb]
  {
    var a, b, lb := Path(false, ["a.png"]), Path(false, ["b.png"]), Path(false, ["b.txt"]);
    MisplacedExamplePairs();
    assert MatchedLabels([a, b], [lb]) == [lb];
    assert MatchedLabels([a], [lb]) == [];
    assert MatchedLabels([b], [lb]) == [lb];
    assert LabelNewNames([a], [lb]) == [];
    assert LabelNewNames([b], []) == [];
  }

  /** In the example above, `b.txt` matches `b.png` and not `a.png`. */
  lemma MisplacedExampleMatches()
    ensures var a, b, lb := Path(false, ["a.png"]), Path(false, ["b.png"]), Path(false, ["b.txt"]);
      !Matches(a, lb) && Matches(b, lb)
  {
    var a, b, lb := Path(false, ["a.png"]), Path(false, ["b.png"]), Path(false, ["b.txt"]);
    StemOfShortName('a', "png");
    StemOfShortName('b', "png");
    StemOfShortName('b', "txt");
    assert "a.png" == ['a', '.'] + "png" && "b.png" == ['b', '.'] + "png" && "b.txt" == ['b', '.'] + "txt";
    assert PathStem(a) == "a" && PathStem(b) == "b" && PathStem(lb) == "b";
  }

  /** The matching pairs of the example above. */
  lemma MisplacedExamplePairs()
    ensures var a, b, lb := Path(false, ["a.png"]), Path(false, ["b.png"]), Path(false, ["b.txt"]);
      !Matches(a, lb) && Matches(b, lb)
      && MatchPairs([a], [lb]) == [] && MatchPairs([b], [lb]) == [(b, lb)]
      && MatchPairs([a, b], [lb]) == [(b, lb)] && MatchPairs([b], []) == []
  {
    var a, b, lb := Path(false, ["a.png"]), Path(false, ["b.png"]), Path(false, ["b.txt"]);
    MisplacedExampleMatches();
    assert MatchesOf(a, [lb]) == [];
    assert MatchesOf(b, [lb]) == [(b, lb)];
    assert MatchPairs([a], [lb]) == [];
    assert MatchPairs([b], [lb]) == [(b, lb)];
    assert [a, b][1..] == [b];
  }

  /** The class map of `create_yaml_data_file` over the stripped lines
      from index `i` on: each index of a non-empty one mapped to it. */
  function ClassMapFrom(names: seq<string>, i: nat): map<nat, string>
    requires i <= |names|
    decreases |names| - i
  {
    if i == |names| then map[]
    else
      var rest := ClassMapFrom(names, i + 1);
      if names[i] != "" then rest[i := names[i]] else rest
  }

  /** `line.strip()` for every line of `classes.txt`. */
  function Stripped(lines: seq<string>): (r: seq<string>)
    ensures |r| == |lines| && forall k :: 0 <= k < |r| ==> r[k] == Strip(lines[k])
  {
    seq(|lines|, k requires 0 <= k < |lines| => Strip(lines[k]))
  }

  /** `{i: line.strip() for i, line in enumerate(lines) if len(line.strip()) > 0}`. */
  function ClassMap(lines: seq<string>): map<nat, string> {
    ClassMapFrom(Stripped(lines), 0)
  }

  /** Keys of the map from `i` on are exactly the indices at or after `i`
      of the non-empty names, each holding its name. */
  lemma {:induction false} ClassMapFromKeys(names: seq<string>, i: nat)
    requires i <= |names|
    ensures forall k: nat :: k in ClassMapFrom(names, i) <==> i <= k < |names| && names[k] != ""
    ensures forall k: nat :: k in ClassMapFrom(names, i) ==> ClassMapFrom(names, i)[k] == names[k]
    decreases |names| - i
  {
    if i < |names| {
      ClassMapFromKeys(names, i + 1);
    }
  }

  /** `classes` and `n_classes`: the keys are the original line numbers of
      the non-blank lines (so they may have gaps), each value is the
      stripped line, never empty, and `nc` counts the non-blank lines. */
  lemma ClassMapSpec(lines: seq<string>)
    ensures forall k: nat :: k in ClassMap(lines) <==> k < |lines| && NonBlank(lines[k])
    ensures forall k: nat :: k in ClassMap(lines) ==> ClassMap(lines)[k] == Strip(lines[k]) && ClassMap(lines)[k] != ""
    ensures |ClassMap(lines)| == |set k: nat | k < |lines| && NonBlank(lines[k])|
  {
    ClassMapFromKeys(Stripped(lines), 0);
    assert ClassMap(lines).Keys == set k: nat | k < |lines| && NonBlank(lines[k]);
  }

  /** The `data.yaml` record `create_yaml_data_file` writes for a dataset at
      `path` and the lines of `classes.txt`. */
  function DataRecord(path: Path, task: TaskValue, lines: seq<string>): (d: DatasetData)
    ensures d.path == path && d.task == task && d.nc == |d.name|
    ensures d.train == "train/images" && d.val == "validation/images" && d.test == "test/images"
  {
    var classes := ClassMap(lines);
    DatasetData(path, task, "train/images", "validation/images", "test/images", |classes|, classes)
  }

  /** `source.parent / (source.stem + '_split')`, taken under the datasets
      directory when relative. */
  function SplitPath(datasetsPath: Path, source: Path): Path {
    ResolveUnder(datasetsPath, Join(Parent(source), PathStem(source) + "_split"))
  }

  /** For an absolute source directory the split dataset is its sibling
      named after its stem with `_split` appended. */
  lemma SplitPathSibling(datasetsPath: Path, source: Path)
    requires source.absolute && source.parts != []
    ensures Parent(SplitPath(datasetsPath, source)) == Parent(source)
    ensures Name(SplitPath(datasetsPath, source)) == PathStem(source) + "_split"
  {
    JoinParentName(Parent(source), PathStem(source) + "_split");
  }

  /** The directories of a training dataset at `path`. */
  function TrainingTree(path: Path): set<Path> {
    DatasetTree(Join(path, "train")) + DatasetTree(Join(path, "validation")) + DatasetTree(Join(path, "test"))
  }

  /** `TrainingDatasetDirManager`: a training dataset at `path`, its three
      parts, and the source dataset it is split from when built from one. */
  class TrainingDatasetDirManager {
    const path: Path
    const source: Option<DatasetDirManager>
    const trainDir: DatasetDirManager
    const validationDir: DatasetDirManager
    const testDir: DatasetDirManager

    constructor (path: Path, source: Option<DatasetDirManager>,
                 trainDir: DatasetDirManager, validationDir: DatasetDirManager, testDir: DatasetDirManager)
      ensures this.path == path && this.source == source
      ensures this.trainDir == trainDir && this.validationDir == validationDir && this.testDir == testDir
    {
      this.path := path;
      this.source := source;
      this.trainDir := trainDir;
      this.validationDir := validationDir;
      this.testDir := testDir;
    }

    /** `data_yaml_file_path`. */
    function DataYamlPath(): (p: Path)
      ensures Parent(p) == path && Name(p) == "data.yaml"
    {
      JoinParentName(path, "data.yaml");
      Join(path, "data.yaml")
    }

    /** `create_yaml_data_file`: read `classes.txt` of the source dataset
      and write `data.yaml` with task `detect`, the fixed part paths and
      the class map. */
    method CreateYamlDataFile(fs: FileSystem) returns (r: Result<()>)
      requires fs.Valid()
      modifies fs
      ensures fs.Valid() && fs.dirs == old(fs.dirs)
      ensures source.None? ==> r == Err(AttributeError) && fs.files == old(fs.files)
      ensures source.Some? ==>
        match ReadLines(old(fs.dirs), old(fs.files), Join(source.value.path, "classes.txt"))
        case Err(e) => r == Err(e) && fs.files == old(fs.files)
        case Ok(lines) =>
          match WriteCheck(old(fs.dirs), old(fs.files), DataYamlPath())
          case Err(e) => r == Err(e) && fs.files == old(fs.files)
          case Ok(_) =>
            r == Ok(()) && fs.files == old(fs.files)[DataYamlPath() := DataYaml(DataRecord(path, TaskText("detect"), lines))]
    {
      if source.None? {
        return Err(AttributeError);
      }
      var classesPath := Join(source.value.path, "classes.txt");
      var read := ReadLines(fs.dirs, fs.files, classesPath);
      if read.Err? {
        return Err(read.error);
      }
      var data := DataRecord(path, TaskText("detect"), read.value);
      var target := DataYamlPath();
      var written := WriteCheck(fs.dirs, fs.files, target);
      if written.Err? {
        return Err(written.error);
      }
      fs.files := fs.files[target := DataYaml(data)];
      r := Ok(());
    }

    /** `split(validation, test)`: distribute the shuffled source images
      (`shuffled`) over train, validation and test, `int(n * validation)`
      and `int(n * test)` of them to the last two, each part with the
      labels matching its own images (the corrected label split), copy the
      source `metadata.yaml` when it is a file, and write `data.yaml`. */
    method Split(fs: FileSystem, shuffled: seq<Path>, labels: seq<Path>, validation: real, test: real) returns (r: Result<()>)
      requires 0.0 <= validation && 0.0 <= test
      requires fs.Valid()
      modifies fs
      ensures fs.Valid() && fs.dirs == old(fs.dirs)
      ensures source.None? ==> r == Err(AttributeError) && fs.files == old(fs.files)
      ensures r.Ok? ==>
        DataYamlPath() in fs.files && fs.files[DataYamlPath()].DataYaml?
        && fs.files[DataYamlPath()].data.path == path && fs.files[DataYamlPath()].data.task == TaskText("detect")
    {
      if source.None? {
        return Err(AttributeError);
      }
      var nVal := SplitCount(|shuffled|, validation);
      var nTest := SplitCount(|shuffled|, test);
      var (trainImages, valImages, testImages) := SplitParts(shuffled, nVal, nTest);
      var (trainLabels, valLabels, testLabels) := SplitLabels(shuffled, labels, nVal, nTest);
      r := AddData(fs, trainDir, trainImages, trainLabels);
      if r.Err? {
        return;
      }
      r := AddData(fs, validationDir, valImages, valLabels);
      if r.Err? {
        return;
      }
      r := AddData(fs, testDir, testImages, testLabels);
      if r.Err? {
        return;
      }
      var metadata := source.value.MetadataPath();
      if metadata in fs.files {
        r := CopyFiles(fs, [metadata], path, None);
        if r.Err? {
          return;
        }
      }
      r := CreateYamlDataFile(fs);
    }
  }

  /** `TrainingDatasetDirManager(dataset_dir, source_dataset_dir)`.  An
      existing dataset (`dataset_dir`, taken under `datasetsPath` when
      relative) has priority: its three parts must exist.  Otherwise the
      source directory is resolved the same way and unzipped (`unzip`),
      must be a dataset directory, and the parts of its `_split` sibling
      are created.  With neither, `AttributeError`. */
  method OpenTrainingDataset(fs: FileSystem, datasetDir: Option<Path>, sourceDir: Option<Path>,
                             datasetsPath: Path, unzip: Path -> Path)
    returns (r: Result<TrainingDatasetDirManager>)
    requires fs.Valid()
    modifies fs
    ensures fs.Valid() && fs.files == old(fs.files) && old(fs.dirs) <= fs.dirs
    ensures datasetDir.Some? ==>
      fs.dirs == old(fs.dirs)
      && var path := ResolveUnder(datasetsPath, datasetDir.value);
      (r.Ok? <==> TrainingTree(path) <= old(fs.dirs)) && (r.Err? ==> r.error == NotADirectoryError)
      && (r.Ok? ==> r.value.path == path && r.value.source.None?)
    ensures datasetDir.None? && sourceDir.None? ==> r == Err(AttributeError) && fs.dirs == old(fs.dirs)
    ensures datasetDir.None? && sourceDir.Some? ==>
      var source := unzip(ResolveUnder(datasetsPath, sourceDir.value));
      (!(DatasetTree(source) <= old(fs.dirs)) ==> r == Err(NotADirectoryError) && fs.dirs == old(fs.dirs))
      && (r.Ok? ==>
            r.value.source.Some? && r.value.source.value.path == source
            && r.value.path == SplitPath(datasetsPath, source)
            && forall p :: p in TrainingTree(r.value.path) ==> p in fs.dirs || p in fs.files)
    ensures r.Ok? ==>
      fresh(r.value)
      && r.value.trainDir.path == Join(r.value.path, "train")
      && r.value.validationDir.path == Join(r.value.path, "validation")
      && r.value.testDir.path == Join(r.value.path, "test")
  {
    if datasetDir.Some? {
      var path := ResolveUnder(datasetsPath, datasetDir.value);
      var parts := OpenParts(fs, path, false);
      if parts.Err? {
        return Err(parts.error);
      }
      var (trainDir, validationDir, testDir) := parts.value;
      var manager := new TrainingDatasetDirManager(path, None, trainDir, validationDir, testDir);
      return Ok(manager);
    }
    if sourceDir.None? {
      return Err(AttributeError);
    }
    var sourcePath := unzip(ResolveUnder(datasetsPath, sourceDir.value));
    var source := OpenDatasetDir(fs, PathLike(sourcePath), false);
    if source.Err? {
      return Err(source.error);
    }
    var path := SplitPath(datasetsPath, source.value.path);
    var parts := OpenParts(fs, path, true);
    if parts.Err? {
      return Err(parts.error);
    }
    var (trainDir, validationDir, testDir) := parts.value;
    var manager := new TrainingDatasetDirManager(path, Some(source.value), trainDir, validationDir, testDir);
    r := Ok(manager);
  }

  /** `set_paths` (`create` false) and `create_paths` (`create` true): the
      dataset directories `train`, `validation` and `test` under `path`. */
  method OpenParts(fs: FileSystem, path: Path, create: bool)
    returns (r: Result<(DatasetDirManager, DatasetDirManager, DatasetDirManager)>)
    requires fs.Valid()
    modifies fs
    ensures fs.Valid() && fs.files == old(fs.files) && old(fs.dirs) <= fs.dirs
    ensures !create ==>
      fs.dirs == old(fs.dirs)
      && (r.Ok? <==> TrainingTree(path) <= old(fs.dirs)) && (r.Err? ==> r.error == NotADirectoryError)
    ensures r.Ok? ==>
      fresh(r.value.0) && fresh(r.value.1) && fresh(r.value.2)
      && r.value.0.path == Join(path, "train") && r.value.1.path == Join(path, "validation")
      && r.value.2.path == Join(path, "test")
      && r.value.0.create == create && r.value.1.create == create && r.value.2.create == create
      && forall p :: p in TrainingTree(path) ==> p in fs.dirs || p in fs.files
  {
    var train := OpenDatasetDir(fs, PathLike(Join(path, "train")), create);
    if train.Err? {
      return Err(train.error);
    }
    var validation := OpenDatasetDir(fs, PathLike(Join(path, "validation")), create);
    if validation.Err? {
      return Err(validation.error);
    }
    var test := OpenDatasetDir(fs, PathLike(Join(path, "test")), create);
    if test.Err? {
      return Err(test.error);
    }
    r := Ok((train.value, validation.value, test.value));
  }
}
