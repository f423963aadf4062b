# YOLO Model Manager, modelled in Dafny

This project models the core of YOLO Model Manager, a Python tool that
captures frames from a camera, filters them, saves them as dataset images,
splits image datasets into train, validation and test parts for YOLO
training, and runs a trained YOLO model on filtered frames. The model
covers these parts:

- `model/results.py`, in `geometry.dfy` (module `Geometry`): integer
  points, the corners, extent and centre of a detection box, the
  "complete box" margin test, the duplicate-suppression pass over the
  complete boxes, and the five-entry history of results.
- `image/image_processing.py`, in `image_processing.dfy` (module
  `ImageProcessing`): the OpenCV primitives the tool uses, taken at the
  level of image shapes and colour depths. These are colour conversion,
  resize, borders and padding, unifying a list of images, and the square
  grid of images. It also holds the filter registry `FILTERS` and its
  reverse lookup.
- `filesystem/files.py` and `filesystem/dirs.py`, in `filesystem.dfy`
  (module `FileSystem`): a file system that is a tree of directories and
  files (the class `FileSystem`). On it are modelled `mkdir(parents=True)`,
  `check_dir_path`, `copy_files`, `create_dataset_medatada_yaml` and both
  `save_image` functions.
- `filesystem/dirs_managers.py`, in `dataset_dirs.dfy` (module
  `DatasetDirs`): the dataset directory, its `add_data` and `add_images`,
  the training dataset with its `split` and its `data.yaml`.
- `filesystem/dirsManagers.py`, in `legacy_dataset_dirs.dfy` (module
  `LegacyDatasetDirs`): the older training dataset manager with a settable
  dataset name.
- `cameras/camera_manager.py`, in two files:
  - `cameras.dfy` (module `Cameras`): the Linux camera discovery. It parses
    `v4l2-ctl --list-devices` and `v4l2-ctl -D`, keeps the webcams, probes
    capture indices, builds the camera table and selects a camera.
  - `camera_manager.dfy` (module `CameraManagers`): the `CameraManager`
    object, with its filters, save directory, key bindings, `exit`,
    `save_last_frame`, `load_params_from_model` and the video stream loop.
- `model/model_manager.py`, in `models.dfy` (module `ModelManagers`): the
  `name` checks, the NCNN export decision, the model's filters read from
  its metadata, `process_frame` and `get_last_result_image`.

Helper modules are `Outcomes` (the `Result`/`Option` datatypes and the
Python exceptions as values), `Text` (`strip`, `split`, `upper`,
`startswith` on ASCII text), `Paths` (pathlib paths as a root flag plus a
list of components) and `Sequences` (filtering and sub-sequences).

Outside effects become inputs:
- the output of a subprocess is a return code and a text;
- the clock, the fresh UUID names, whether the PNG encoder accepts an
  image and whether a capture index opens are parameters;
- `unzip_dir` and the YOLO detector are functions passed in;
- callables the registry does not know (such as a model's
  `process_frame` used as a show filter) are `Foreign(id)` values, run by
  a function passed in.

Python exceptions become `Err(...)` values. A state-changing object (the
file system, the camera manager, the model manager, the dataset managers,
the result tracker) is a Dafny class whose methods state its new state.

## Model

| member | source | states |
|---|---|---|
| Geometry.Trunc | yoloModelManager/src/model/results.py:17-20 | `int(x)` truncates toward zero: the result is within one of `x`, never farther from zero than `x` |
| Geometry.PointArithmetic | yoloModelManager/src/model/results.py:16-36 | a point built from integers keeps them, and `+` with a pair or a scalar adds coordinate-wise |
| Geometry.MakePointTruncates | yoloModelManager/src/model/results.py:17-20 | a point built from floats holds both coordinates truncated toward zero |
| Geometry.InfLeftCornerAsWrittenIsSupRight | yoloModelManager/src/model/results.py:68-71 | `inf_left_corner` as written is always the upper-right corner, and differs from the lower-left one on a 10x10 box |
| Geometry.CornersFormRectangle | yoloModelManager/src/model/results.py:60-75 | with the corrected lower-left corner, left and right corners share their x, top and bottom corners share their y, and the four corners are exactly the combinations of the truncated x and y coordinates |
| Geometry.MinX | yoloModelManager/src/model/results.py:76-79 | the smaller of the two x coordinates: at most both, equal to one |
| Geometry.MaxX | yoloModelManager/src/model/results.py:80-83 | the larger of the two x coordinates: at least both, equal to one |
| Geometry.MinY | yoloModelManager/src/model/results.py:84-87 | the smaller of the two y coordinates: at most both, equal to one |
| Geometry.MaxY | yoloModelManager/src/model/results.py:88-91 | the larger of the two y coordinates: at least both, equal to one |
| Geometry.HalfTruncBetween | yoloModelManager/src/model/results.py:104-107 | `int(n / 2)` of a sum lies between the two summands, and equals floor division for a non-negative sum |
| Geometry.CenterIsMidpoint | yoloModelManager/src/model/results.py:92-107 | the centre lies between the truncated corners on both axes and is their midpoint in the non-negative quadrant |
| Geometry.IsCompleteMeaning | yoloModelManager/src/model/results.py:109-119 | a box is complete exactly when all four coordinates stay strictly inside the tolerance margins of the image |
| Geometry.CloseSymmetric | yoloModelManager/src/model/results.py:121-122 | the centre-distance test (distance at most 20) is symmetric |
| Geometry.CompletedBoxesSpec | yoloModelManager/src/model/results.py:226-231 | the completed boxes are exactly the complete boxes, in their original order, each as often as it was detected |
| Geometry.ValidBoxes | yoloModelManager/src/model/results.py:233-249 | the double loop keeps exactly the boxes the suppression rule keeps, in order |
| Geometry.KeepsBox | yoloModelManager/src/model/results.py:236-248 | the inner loop keeps box `i` exactly when it is isolated or strictly more confident than every other close box |
| Geometry.KeptFromSubseq | yoloModelManager/src/model/results.py:233-249 | the kept boxes are a sub-sequence of the completed boxes |
| Geometry.KeptFromSources | yoloModelManager/src/model/results.py:233-249 | every kept box comes from an index that passes the rule, and the indices increase |
| Geometry.KeptFromContains | yoloModelManager/src/model/results.py:233-249 | every box that passes the rule is kept |
| Geometry.SuppressionRule | yoloModelManager/src/model/results.py:238-248 | an isolated box is kept, as is a box strictly more confident than all others; two close boxes of equal confidence are both dropped; two kept boxes are never close |
| Geometry.KeptPairApart | yoloModelManager/src/model/results.py:238-248 | two distinct kept boxes are never close to each other |
| Geometry.ValidBoxesApart | yoloModelManager/src/model/results.py:233-249 | no two valid boxes are close |
| Geometry.NewMyBoxes | yoloModelManager/src/model/results.py:179-206 | a new box set keeps its boxes and image shape; its completed boxes are the complete ones, and its valid boxes are the kept ones among them |
| Geometry.Centers | yoloModelManager/src/model/results.py:219-224 | one centre per box, in box order |
| Geometry.NewMyResults | yoloModelManager/src/model/results.py:252-282 | a result keeps the image shape; it has boxes exactly when the detector returned some, and holds the detector's boxes over the frame's `orig_shape`, so its completed boxes are the detected ones complete within that frame; without boxes both box lists are empty |
| Geometry.ResultCompletedBoxes | yoloModelManager/src/model/results.py:284-289 | no boxes give no completed boxes; otherwise exactly the complete boxes |
| Geometry.ResultValidBoxes | yoloModelManager/src/model/results.py:290-294 | no boxes give no valid boxes; otherwise a sub-sequence of the completed boxes with no two close |
| Geometry.PushedBounded | yoloModelManager/src/model/results.py:305-313 | a push onto a history of at most five results keeps at most five: the newest last, preceded by the most recent earlier ones in order |
| Geometry.ResultTracker.constructor | yoloModelManager/src/model/results.py:307-308 | the history starts empty |
| Geometry.ResultTracker.AddNewResult | yoloModelManager/src/model/results.py:310-313 | the new result is wrapped over the frame's shape, with the completed boxes of that frame, and pushed onto the history, which stays within five entries |
| Geometry.ResultTracker.Latest | yoloModelManager/src/model/results.py:315-316 | the latest result exists exactly when the history is non-empty, and is its last entry |
| ImageProcessing.CopyMakeBorder | yoloModelManager/src/image/image_processing.py:47-61 | the border succeeds exactly for non-negative widths, and grows the image by those widths with the same depth |
| ImageProcessing.ImagePaddingShape | yoloModelManager/src/image/image_processing.py:88-107 | padding succeeds exactly for a target at least the image's size, giving exactly the target size, with the extra row or column at the bottom or right |
| ImageProcessing.AddBorderShape | yoloModelManager/src/image/image_processing.py:47-61 | a border of width `w` adds `2w` to both dimensions, and fails for a negative `w` |
| ImageProcessing.Resize | yoloModelManager/src/image/image_processing.py:35-45 | resize succeeds exactly for a non-empty image and positive target, and gives the target size with the same depth |
| ImageProcessing.Cut | yoloModelManager/src/image/image_processing.py:26-32 | `cut` returns the frame unchanged |
| ImageProcessing.Bgr2Gray | yoloModelManager/src/image/image_processing.py:18-20 | only non-empty 3- or 4-channel images convert, to a single-plane image of the same size |
| ImageProcessing.Gray2Bgr | yoloModelManager/src/image/image_processing.py:22-24 | only non-empty single-channel images convert, to a 3-channel image of the same size |
| ImageProcessing.LookupFilter | yoloModelManager/src/image/image_processing.py:145-150 | a name finds a filter exactly when it is registered, and finds the registered one |
| ImageProcessing.FilterNameRoundTrip | yoloModelManager/src/image/image_processing.py:137-150 | the reverse lookup names every registered filter by its key; it fails with `KeyError` exactly on unregistered callables |
| ImageProcessing.ApplyAllAppend | yoloModelManager/src/image/image_processing.py:145-150 | applying no filters is the identity, and applying `a + b` is applying `a`, then `b` to its result |
| ImageProcessing.UnifyColor | yoloModelManager/src/image/image_processing.py:69-77 | a 2-D image becomes a 3-channel image of the same size; an image with a channel axis is unchanged |
| ImageProcessing.UnifyColorIsGray2Bgr | yoloModelManager/src/image/image_processing.py:72-73 | on a 2-D image, `unify_colors` does what `gray2bgr` does, and refuses exactly the empty images `cvtColor` refuses |
| ImageProcessing.UnifyColors | yoloModelManager/src/image/image_processing.py:69-77 | an empty 2-D image makes the loop fail with an OpenCV error; otherwise it unifies every image's colour, in order |
| ImageProcessing.MaxHeight | yoloModelManager/src/image/image_processing.py:82 | the maximum height is an upper bound attained by some image |
| ImageProcessing.MaxWidth | yoloModelManager/src/image/image_processing.py:81 | the maximum width is an upper bound attained by some image |
| ImageProcessing.UnifyShapes | yoloModelManager/src/image/image_processing.py:79-86 | an empty list raises `ValueError`; otherwise every image is padded to the largest height and width |
| ImageProcessing.CeilSqrtIsLeast | yoloModelManager/src/image/image_processing.py:113 | the number of columns is the least integer whose square covers the number of images |
| ImageProcessing.Repeat | yoloModelManager/src/image/image_processing.py:118-119 | the padding tiles are `k` copies of the blank tile |
| ImageProcessing.NumRowsIsCeiling | yoloModelManager/src/image/image_processing.py:115 | the number of rows is the ceiling of images over columns |
| ImageProcessing.GridRowsCount | yoloModelManager/src/image/image_processing.py:115-120 | the grid has that many rows, each exactly one column count wide |
| ImageProcessing.GridRowsFlatten | yoloModelManager/src/image/image_processing.py:115-120 | read row by row, the grid is the images followed by blank tiles only |
| ImageProcessing.UnifiedShapes | yoloModelManager/src/image/image_processing.py:63-66 | unifying keeps the number of images and gives each the largest height and width, with its unified colour depth |
| ImageProcessing.BorderAll | yoloModelManager/src/image/image_processing.py:112 | bordering keeps the number of images and grows each by `2w` in both dimensions, keeping its channels |
| ImageProcessing.GetImagesGrid | yoloModelManager/src/image/image_processing.py:110-122 | the method computes the grid the specification function defines |
| ImageProcessing.LayOutRows | yoloModelManager/src/image/image_processing.py:115-120 | the row loop concatenates each padded row, the first failure ending it |
| ImageProcessing.ShapesOfUnified | yoloModelManager/src/image/image_processing.py:63-66 | colour, then shape unification yields the unified shapes |
| ImageProcessing.MaxOfUnified | yoloModelManager/src/image/image_processing.py:63-86 | colour unification keeps the maximum height and width |
| ImageProcessing.SumWidthsUniform | yoloModelManager/src/image/image_processing.py:120 | tiles of one shape concatenated side by side are as wide as their count times one tile |
| ImageProcessing.SumHeightsUniform | yoloModelManager/src/image/image_processing.py:121 | rows of one shape stacked are as tall as their count times one row |
| ImageProcessing.GridRowsUniform | yoloModelManager/src/image/image_processing.py:115-120 | when every tile equals the blank, so does every grid cell |
| ImageProcessing.HConcatRowsUniform | yoloModelManager/src/image/image_processing.py:120 | rows of equal tiles always concatenate, each to one tile high and `cols` tiles wide |
| ImageProcessing.HConcatRowsTypes | yoloModelManager/src/image/image_processing.py:120 | a concatenated row keeps the depth of every tile in it |
| ImageProcessing.FlattenMember | yoloModelManager/src/image/image_processing.py:115-120 | a tile of the flattened grid sits in some row |
| ImageProcessing.GridOfUniform | yoloModelManager/src/image/image_processing.py:110-122 | tiles of one shape form a grid exactly when they share a depth, and the grid is `rows` tiles high and `cols` tiles wide |
| ImageProcessing.GridOfSameDepth | yoloModelManager/src/image/image_processing.py:114-120 | identical tiles stack into a grid `rows` tiles high and `cols` tiles wide |
| ImageProcessing.GridOfMixedDepths | yoloModelManager/src/image/image_processing.py:114-120 | one tile whose type differs from the first makes OpenCV fail |
| ImageProcessing.GridShape | yoloModelManager/src/image/image_processing.py:110-122 | no images raise `ValueError`; otherwise the grid succeeds exactly when no image is an empty 2-D one and all tiles share a colour depth, and any failure is an OpenCV error |
| ImageProcessing.GridSize | yoloModelManager/src/image/image_processing.py:110-122 | a grid that succeeds is `ceil(n/cols)` tiles high and `cols = ceil(sqrt(n))` tiles wide, each tile the largest image plus a 1-pixel border on each side, with the tiles' colour depth |
| ImageProcessing.TilesShape | yoloModelManager/src/image/image_processing.py:110-113 | every tile is the largest height and width plus a 1-pixel border on each side |
| ImageProcessing.HConcatRowsErrors | yoloModelManager/src/image/image_processing.py:120 | the only failure of row concatenation is an OpenCV error |
| ImageProcessing.GridOfErrors | yoloModelManager/src/image/image_processing.py:120-121 | the only failure of the grid layout is an OpenCV error |
| FileSystem.AllowedImageNames | yoloModelManager/src/filesystem/files.py:22-29 | an allowed image name has a dot suffix, and upper-casing the name changes nothing about whether it is allowed |
| FileSystem.ReadLines | yoloModelManager/src/filesystem/dirs_managers.py:253-260 | reading succeeds exactly on a text file that is not a directory, and yields its lines |
| FileSystem.ReadMetadata | yoloModelManager/src/model/model_manager.py:80-84 | loading succeeds exactly on a metadata file and yields its record; a missing path fails as reading lines does |
| FileSystem.FileSystem.MkdirParents | yoloModelManager/src/filesystem/dirs.py:19-23 | `mkdir(parents=True)`: an existing directory is an error unless allowed; an existing file is `FileExistsError`; a path below a file is `NotADirectoryError`; otherwise all missing ancestors are created |
| FileSystem.AncestorsStayTree | yoloModelManager/src/filesystem/dirs.py:19-20 | adding a path's ancestors keeps directories and files apart and every directory's parent present |
| FileSystem.CheckDirPath | yoloModelManager/src/filesystem/dirs.py:7-24 | a non-path raises `TypeError`; an existing directory is returned; a missing one raises `NotADirectoryError` unless created; the creation's `FileExistsError` is swallowed |
| FileSystem.DefaultNames | yoloModelManager/src/filesystem/files.py:40-41 | the default new names are the sources' own names |
| FileSystem.CopyPairs | yoloModelManager/src/filesystem/files.py:42-43 | `zip` pairs each source with its destination and stops at the shorter list |
| FileSystem.CopyRunFrame | yoloModelManager/src/filesystem/files.py:43-48 | copying writes only at the destinations and keeps every existing file |
| FileSystem.CopyRunSkips | yoloModelManager/src/filesystem/files.py:44-48 | sources that are not files are skipped, leaving the tree unchanged |
| FileSystem.CopyRunStaysTree | yoloModelManager/src/filesystem/files.py:43-48 | copying into existing directories keeps the tree well formed |
| FileSystem.CopyFiles | yoloModelManager/src/filesystem/files.py:31-48 | a missing destination raises `NotADirectoryError`; otherwise the pairs are copied in order, the first failure ending the run |
| FileSystem.Copy2 | yoloModelManager/src/filesystem/files.py:43-48 | a source that is not a file is skipped; otherwise it is copied into the target, or the copy fails with the error `copy2` raises and nothing changes |
| FileSystem.CreateDatasetMetadataYaml | yoloModelManager/src/filesystem/files.py:50-60 | the record, stamped with the current time, is written to `metadata.yaml` in the directory (the images directory by default), or the open fails |
| FileSystem.SaveImage | yoloModelManager/src/filesystem/files.py:62-79 | the directory is created with its ancestors whenever it can be (even when the write then fails), and no other directory changes; then `<uuid>.png` is written; success exactly when the directory can exist, the encoder accepts and the name is free; a failed write is `RuntimeError` |
| FileSystem.SaveImageNoMkdir | yoloModelManager/src/image/image_processing.py:123-135 | without creating the directory, the write succeeds exactly when the directory exists, the encoder accepts and the name is free; any failure is `RuntimeError` |
| FileSystem.BlockedDir | yoloModelManager/src/filesystem/dirs.py:14-20 | in a well-formed tree no directory sits below a file |
| DatasetDirs.DatasetDirManager.constructor | yoloModelManager/src/filesystem/dirs_managers.py:22-44 | the manager's `images` and `labels` paths sit below its path |
| DatasetDirs.DatasetDirManager.MetadataPath | yoloModelManager/src/filesystem/dirs_managers.py:44-46 | `metadata.yaml` sits directly in the dataset directory |
| DatasetDirs.OpenDatasetDir | yoloModelManager/src/filesystem/dirs_managers.py:22-35 | without creation it succeeds exactly when the directory and its `images` and `labels` exist; with creation only their ancestors are added; on success all three exist |
| DatasetDirs.JoinAncestors | yoloModelManager/src/filesystem/dirs_managers.py:31-35 | creating a child also creates the parent |
| DatasetDirs.MatchPairsMembership | yoloModelManager/src/filesystem/dirs_managers.py:226-232 | the matched pairs are exactly the (image, label) pairs whose label stem ends with the image stem |
| DatasetDirs.MatchesOfMembership | yoloModelManager/src/filesystem/dirs_managers.py:226-232 | the pairs for one image are exactly its matching labels |
| DatasetDirs.MatchPairsAppend | yoloModelManager/src/filesystem/dirs_managers.py:226-232 | matching distributes over concatenated image lists |
| DatasetDirs.MatchedLabels | yoloModelManager/src/filesystem/dirs_managers.py:226-232 | the matched labels are the label of each matched pair, in pair order |
| DatasetDirs.LabelNewNames | yoloModelManager/src/filesystem/dirs_managers.py:64-77 | the i-th new label name is the stem of the i-th pair's image plus `.txt` |
| DatasetDirs.NewNamesFollowMatches | yoloModelManager/src/filesystem/dirs_managers.py:64-77 | a label is renamed after the image it matches |
| DatasetDirs.AddData | yoloModelManager/src/filesystem/dirs_managers.py:64-77 | the images are copied into `images/`, then the labels into `labels/` under their new names; a missing directory or a failed copy stops the call |
| DatasetDirs.ImagesToCopy | yoloModelManager/src/filesystem/dirs_managers.py:79-94 | the entries copied are exactly the listed files with an allowed suffix, in listing order |
| DatasetDirs.AddImages | yoloModelManager/src/filesystem/dirs_managers.py:79-94 | a relative directory is taken under the images root; a missing one raises; of its children, the allowed image files are copied, then the `metadata.yaml` if present |
| DatasetDirs.SplitPartition | yoloModelManager/src/filesystem/dirs_managers.py:222-225 | validation, test and train together are the shuffled list (a permutation of it as multisets), with the requested sizes when they fit |
| DatasetDirs.SplitDisjoint | yoloModelManager/src/filesystem/dirs_managers.py:222-225 | with no repeated image, no image goes to two parts |
| DatasetDirs.SplitLabelsAsWrittenMisplaces | yoloModelManager/src/filesystem/dirs_managers.py:226-241 | the label slicing as written hands `b.txt` to the part holding only `a.png`, where no new name is built for it, so no label is copied at all |
| DatasetDirs.MatchedLabelsAppend | yoloModelManager/src/filesystem/dirs_managers.py:226-232 | matched labels of a concatenation are the concatenation of the matched labels |
| DatasetDirs.MatchedLabelsMatch | yoloModelManager/src/filesystem/dirs_managers.py:226-232 | every matched label is a listed label matching some listed image |
| DatasetDirs.SplitLabelsFollowImages | yoloModelManager/src/filesystem/dirs_managers.py:226-241 | with the corrected slicing every label goes to the part holding an image it matches, and the three lists are all matched labels |
| DatasetDirs.Stripped | yoloModelManager/src/filesystem/dirs_managers.py:259-264 | every line of `classes.txt` is stripped |
| DatasetDirs.ClassMapFromKeys | yoloModelManager/src/filesystem/dirs_managers.py:259-264 | the keys from `i` on are the non-empty stripped lines at or after `i` |
| DatasetDirs.ClassMapSpec | yoloModelManager/src/filesystem/dirs_managers.py:259-266 | the class map's keys are the original line numbers of the non-blank lines, each mapped to its stripped text, and `nc` counts them |
| DatasetDirs.DataRecord | yoloModelManager/src/filesystem/dirs_managers.py:253-276 | `data.yaml` holds the dataset path, the task, the fixed part paths and `nc` equal to the number of classes |
| DatasetDirs.SplitPathSibling | yoloModelManager/src/filesystem/dirs_managers.py:129-137 | the split dataset sits beside its source, named after its stem with `_split` |
| DatasetDirs.TrainingDatasetDirManager.constructor | yoloModelManager/src/filesystem/dirs_managers.py:101-119 | the manager holds its path, its optional source and its three parts |
| DatasetDirs.TrainingDatasetDirManager.DataYamlPath | yoloModelManager/src/filesystem/dirs_managers.py:153-155 | `data.yaml` sits directly in the training dataset directory |
| DatasetDirs.TrainingDatasetDirManager.CreateYamlDataFile | yoloModelManager/src/filesystem/dirs_managers.py:253-276 | no source raises `AttributeError`; otherwise `classes.txt` is read and `data.yaml` is written with task `detect`, the first failure propagating |
| DatasetDirs.SplitCount | yoloModelManager/src/filesystem/dirs_managers.py:223-224 | `int(len * fraction)` is the largest count not above the fraction's share |
| DatasetDirs.SplitCountsFit | yoloModelManager/src/filesystem/dirs_managers.py:218-224 | fractions adding up to at most one give counts that fit the list; so do the defaults `0.2` and `0.1`, which give 2 and 1 of ten images |
| DatasetDirs.SplitByFractions | yoloModelManager/src/filesystem/dirs_managers.py:223-236 | validation is the first `int(n * validation)` shuffled images, test the next `int(n * test)`, train the rest, together the whole list |
| DatasetDirs.TrainingDatasetDirManager.Split | yoloModelManager/src/filesystem/dirs_managers.py:216-251 | takes the two fractions and uses the corrected label split of Findings row 3; no source raises `AttributeError`; a successful split leaves a `data.yaml` describing this dataset with task `detect` |
| DatasetDirs.OpenTrainingDataset | yoloModelManager/src/filesystem/dirs_managers.py:101-147 | an existing dataset opens exactly when its three parts exist; otherwise a source dataset is required and the parts of its `_split` sibling are created; with neither, `AttributeError` |
| DatasetDirs.OpenParts | yoloModelManager/src/filesystem/dirs_managers.py:182-214 | without creation the parts open exactly when they exist; on success the three parts sit below the path and exist |
| LegacyDatasetDirs.LegacyTrainingDatasetDirManager.constructor | yoloModelManager/src/filesystem/dirsManagers.py:84-89 | the manager holds its source, name, path and parts |
| LegacyDatasetDirs.LegacyTrainingDatasetDirManager.DataYamlPath | yoloModelManager/src/filesystem/dirsManagers.py:115-117 | `data.yaml` sits directly in the dataset directory |
| LegacyDatasetDirs.LegacyTrainingDatasetDirManager.SetPaths | yoloModelManager/src/filesystem/dirsManagers.py:122-129 | the dataset sits beside the source under its name, and its three parts are created below it |
| LegacyDatasetDirs.LegacyTrainingDatasetDirManager.SetDatasetName | yoloModelManager/src/filesystem/dirsManagers.py:107-113 | a non-string raises `TypeError` and changes nothing; a string becomes the name and moves the dataset |
| LegacyDatasetDirs.LegacyTrainingDatasetDirManager.CreateYamlDataFile | yoloModelManager/src/filesystem/dirsManagers.py:164-181 | `classes.txt` is read and `data.yaml` written with the enum task, the first failure propagating |
| LegacyDatasetDirs.CreatePart | yoloModelManager/src/filesystem/dirsManagers.py:125-127 | a part directory with its `images` and `labels` exists on success |
| LegacyDatasetDirs.OpenLegacyTrainingDataset | yoloModelManager/src/filesystem/dirsManagers.py:84-101 | the source must be a dataset directory; the dataset is named after its stem with `_split`, beside it, with its parts created |
| LegacyDatasetDirs.LegacyTrainingDatasetDirManager.Split | yoloModelManager/src/filesystem/dirsManagers.py:131-162 | the same fractions and counts as the newer `split`, with the corrected label split of Findings row 3; the tree stays well formed and no directory is created |
| LegacyDatasetDirs.LegacySplitPaths | yoloModelManager/src/filesystem/dirsManagers.py:95-101 | the split dataset's parent and name, and its parts' parents and names |
| Cameras.GetDevicesList | yoloModelManager/src/cameras/camera_manager.py:578-613 | the loops compute the device list the specification function defines |
| Cameras.ScanBlock | yoloModelManager/src/cameras/camera_manager.py:598-610 | one block yields the devices it lists |
| Cameras.ScanPaths | yoloModelManager/src/cameras/camera_manager.py:603-610 | the inner loop keeps the `/dev/video` lines, in order |
| Cameras.VideoDevicesMembership | yoloModelManager/src/cameras/camera_manager.py:603-610 | a device is listed exactly for a line starting with `/dev/video` |
| Cameras.BlockDevicesMembership | yoloModelManager/src/cameras/camera_manager.py:598-610 | a block lists exactly its `/dev/video` lines under its card name |
| Cameras.DeviceBlocksMembership | yoloModelManager/src/cameras/camera_manager.py:596-597 | the blocks are the non-blank pieces between blank lines |
| Cameras.DevicesListSpec | yoloModelManager/src/cameras/camera_manager.py:578-613 | a failed command is `RuntimeError`; otherwise a device is listed exactly when some block lists it |
| Cameras.DevicesOfMembership | yoloModelManager/src/cameras/camera_manager.py:596-613 | a device is in the flattened listing exactly when one of the blocks lists it |
| Cameras.GetCameraDetails | yoloModelManager/src/cameras/camera_manager.py:617-652 | the corrected parser (a `key: value` line before any header is a top-level entry) computes the details the specification function defines |
| Cameras.ScanDetails | yoloModelManager/src/cameras/camera_manager.py:637-651 | the loop over the lines computes the parsed dictionary, the first failure ending it |
| Cameras.DetailRunStopsAtFailure | yoloModelManager/src/cameras/camera_manager.py:637-651 | once the parse fails, later lines do not matter |
| Cameras.DetailRunIgnoresPlainLines | yoloModelManager/src/cameras/camera_manager.py:638-640 | lines without a colon are ignored |
| Cameras.StepHeader | yoloModelManager/src/cameras/camera_manager.py:641-644 | a header line opens an empty section and makes it current |
| Cameras.StepPairInSection | yoloModelManager/src/cameras/camera_manager.py:645-650 | inside a section, a `key: value` line sets that key in the section |
| Cameras.SectionCollectsPairs | yoloModelManager/src/cameras/camera_manager.py:637-651 | a header followed by pairs gives a section holding those pairs |
| Cameras.TopLevelPairs | yoloModelManager/src/cameras/camera_manager.py:637-651 | with the corrected start, pairs before any header become top-level values |
| Cameras.DetailRunNeverFails | yoloModelManager/src/cameras/camera_manager.py:637-651 | once a section is bound the loop never fails |
| Cameras.CameraDetailsErrors | yoloModelManager/src/cameras/camera_manager.py:617-652 | the corrected parser fails exactly on a failed command or empty output, with `RuntimeError` |
| Cameras.AsWrittenAgreesAfterHeader | yoloModelManager/src/cameras/camera_manager.py:637-651 | output starting with a header is parsed the same as written and as corrected |
| Cameras.UnboundSectionExample | yoloModelManager/src/cameras/camera_manager.py:637-651 | the output `a: b` raises `UnboundLocalError` as written and gives `{a: b}` as corrected |
| Cameras.RecordsOfSpec | yoloModelManager/src/cameras/camera_manager.py:565-574 | every device gets a record, in order, with its own parsed details |
| Cameras.GetCamerasInfo | yoloModelManager/src/cameras/camera_manager.py:565-574 | the method computes the camera information the specification function defines, reading details with the corrected parser of Findings row 2 |
| Cameras.ReadDetails | yoloModelManager/src/cameras/camera_manager.py:568-572 | the loop attaches every device's details, the first failure ending it |
| Cameras.CamerasInfoWebcams | yoloModelManager/src/cameras/camera_manager.py:572-574 | the cameras reported are exactly the devices whose name contains `WEBCAM` in any case, in order |
| Cameras.DetectWorkingCameras | yoloModelManager/src/cameras/camera_manager.py:174-180 | the probe loop computes the working indices |
| Cameras.WorkingIndicesSpec | yoloModelManager/src/cameras/camera_manager.py:174-180 | the working indices are exactly those below the bound whose capture opens, increasing |
| Cameras.GetCameras | yoloModelManager/src/cameras/camera_manager.py:183-204 | the method computes the camera table the specification function defines, built on the corrected details parser of Findings row 2 |
| Cameras.BuildCameras | yoloModelManager/src/cameras/camera_manager.py:190-204 | an index past the information list is `IndexError`; otherwise one camera per working index, named from the list |
| Cameras.SelectCamera | yoloModelManager/src/cameras/camera_manager.py:206-227 | table failures propagate (the table is built on the corrected details parser of Findings row 2); an id selects the camera with that index; otherwise the number entered; anything else exits with status 1 |
| Cameras.SelectedCameraIsIndexed | yoloModelManager/src/cameras/camera_manager.py:183-227 | the table holds exactly the working indices, each camera under its own index, so selecting by id finds exactly a working camera |
| Cameras.CameraTableIndexed | yoloModelManager/src/cameras/camera_manager.py:188-204 | the table built from the working indices has exactly those keys, each camera under its own index with the name at that position and zero width and height |
| CameraManagers.AsCallables | yoloModelManager/src/cameras/camera_manager.py:459-461 | a model's filters become held callables, one per filter, in order |
| CameraManagers.FilterNames | yoloModelManager/src/cameras/camera_manager.py:431-432 | the names exist exactly when every callable is registered, each is the callable's name, and a failure is `KeyError` |
| CameraManagers.SavedFiltersReload | yoloModelManager/src/cameras/camera_manager.py:425-443 | names written on exit load back to the same callables |
| CameraManagers.LoadedFiltersRename | yoloModelManager/src/cameras/camera_manager.py:459-461 | filters loaded from names are written back under the same names |
| CameraManagers.ApplyCallablesOfFilters | yoloModelManager/src/cameras/camera_manager.py:453-455 | held registered filters act as the filters themselves |
| CameraManagers.FilterFrame | yoloModelManager/src/cameras/camera_manager.py:453-455 | the save loop applies the callables in turn |
| CameraManagers.ShownFrames | yoloModelManager/src/cameras/camera_manager.py:522-524 | the frames shown are the captured frame, then each show filter applied to the captured frame; one failure fails them all |
| CameraManagers.ShownFramesStops | yoloModelManager/src/cameras/camera_manager.py:522-524 | once a prefix of the show filters fails, the whole list fails the same way |
| CameraManagers.CollectShown | yoloModelManager/src/cameras/camera_manager.py:522-524 | the show loop computes the shown frames |
| CameraManagers.CameraManager.constructor | yoloModelManager/src/cameras/camera_manager.py:37-50 | a new manager has its camera, no filters, no save directory, no key bindings and no frame |
| CameraManagers.CameraManager.SetShowFilters | yoloModelManager/src/cameras/camera_manager.py:116-124 | the show filters are stored; none read as the empty list |
| CameraManagers.CameraManager.SetSaveFilters | yoloModelManager/src/cameras/camera_manager.py:126-134 | the save filters are stored; none read as the empty list |
| CameraManagers.CameraManager.SetSaveDirPath | yoloModelManager/src/cameras/camera_manager.py:136-155 | the path is stored; a missing directory is created with its parents; afterwards it exists unless creation failed |
| CameraManagers.CameraManager.SaveLastFrame | yoloModelManager/src/cameras/camera_manager.py:445-457 | no frame is `AttributeError`; the filtered last frame is saved under the save directory and subfolder, and the callback returns 0 |
| CameraManagers.CameraManager.Exit | yoloModelManager/src/cameras/camera_manager.py:425-443 | an unnamed save filter is `KeyError`; otherwise the camera, the filter names and the time go to `metadata.yaml`, and the callback returns -1 |
| CameraManagers.CameraManager.RunCallback | yoloModelManager/src/cameras/camera_manager.py:528-541 | an unbound key goes on with the files untouched; `exit` writes the `metadata.yaml` record into the save directory and stops, or fails with the files untouched when a save filter has no name; a save key never stops: with no frame it is `AttributeError`, otherwise it writes the filtered frame as `<uuid>.png` under the save directory |
| CameraManagers.CameraManager.StreamStep | yoloModelManager/src/cameras/camera_manager.py:521-541 | the frame is remembered; a failed shown-frame grid fails the step with the files untouched; an unbound key never stops; only `exit` stops, and when the save filters have names it either stops or fails; with a successful grid, `exit` writes the `metadata.yaml` record (or fails with the files untouched) and a save key writes the filtered frame as `<uuid>.png` under the save directory, exactly as `RunCallback` states |
| CameraManagers.CameraManager.VideoStream | yoloModelManager/src/cameras/camera_manager.py:510-543 | escape is bound to `exit`; a missing frame is `RuntimeError`; the stream stops at the first exit key exactly when the save filters have names |
| CameraManagers.CameraManager.LoadParamsFromModelAsWritten | yoloModelManager/src/cameras/camera_manager.py:459-468 | as written the call always fails, after setting the show filter, the save filters and the resolution |
| CameraManagers.CameraManager.LoadParamsFromModel | yoloModelManager/src/cameras/camera_manager.py:459-468 | corrected, it succeeds when the metadata and filters load, and then `exit` would write back the same metadata record |
| CameraManagers.OpenCameraManager | yoloModelManager/src/cameras/camera_manager.py:37-50 | table failures propagate; a selection that names no listed camera exits with status 1; a valid selection whose capture opens succeeds with that camera and the resolution read from the capture; a capture that does not open is an error |
| ModelManagers.NcnnBesidePt | yoloModelManager/src/model/model_manager.py:86-87 | the export of model `name` is `<name>_ncnn_model` in the model directory |
| ModelManagers.IsValidNcnnFiles | yoloModelManager/src/model/model_manager.py:97-114 | an export is valid exactly when its directory exists and holds the three NCNN files |
| ModelManagers.CheckModel | yoloModelManager/src/model/model_manager.py:25-41 | a name passes exactly when it is a string whose directory holds `<name>.pt` and `metadata.yaml`; otherwise `TypeError`, `NotADirectoryError` or `FileExistsError`, in that order |
| ModelManagers.LookupFilters | yoloModelManager/src/model/model_manager.py:73-78 | the names resolve exactly when all are registered, each to its filter; a failure is `KeyError` |
| ModelManagers.LookupFiltersRoundTrip | yoloModelManager/src/model/model_manager.py:73-78 | each loaded filter answers to the name it was loaded by |
| ModelManagers.ModelManager.constructor | yoloModelManager/src/model/model_manager.py:42-45 | the model's paths are derived from its name |
| ModelManagers.ModelManager.ExportModelToNcnn | yoloModelManager/src/model/model_manager.py:86-95 | the export path sits beside the `.pt` file, and an export happens exactly when no valid one exists |
| ModelManagers.ModelManager.SetName | yoloModelManager/src/model/model_manager.py:25-47 | a rejected name changes nothing; an accepted one sets all paths and reports whether an export happened |
| ModelManagers.ModelManager.ProcessFrame | yoloModelManager/src/model/model_manager.py:123-132 | the filters are applied in turn, the detector runs on the result, and the input, filtered frame and result are remembered |
| ModelManagers.ModelManager.GetLastResultImage | yoloModelManager/src/model/model_manager.py:134-137 | with the source, the grid of last input and result; without, the last result; before any frame, `AttributeError` |
| ModelManagers.OpenModel | yoloModelManager/src/model/model_manager.py:18-19 | the name checks decide; on success a manager named after the value |

## Left out

- The YOLO model itself: loading, NCNN export and inference. The detector is a function passed in. `_load_model` is not modelled, and of `_export_model_2_ncnn` only the decision to export and the export path are modelled. The files the export writes and deletes are not.
- ModelManagers.ModelManager.ProcessFrame: returns the plotted result image. The source returns the YOLO results list, whose first entry is plotted into `last_result`.
- OpenCV capture and windows: opening a capture, `grab`/`retrieve`, `imshow`, `waitKey`, trackbars, `namedWindow`, window resizing. Captured frames and keys are inputs.
- The camera property accessors and setters (`get_brightness`, `set_brightness` and the rest, auto exposure, auto white balance, `set_camera_resolution`, `add_cam_prop_bars`). They only forward values to the capture device.
- The `atexit` cleanup, `sleep`, logging and the debug `print` calls in `video_stream`.
- The Windows camera manager (WMI), `camera_manager_factory`, and `camera_exists`, which only probes the capture device.
- CameraManagers.CameraManager.VideoStream: covers a finite prefix of the key and frame stream; the source loops until a callback stops it.
- CameraManagers.CameraManager.VideoStream: states when the stream stops and on which frame, not the files written along the way; those are stated one callback at a time by `RunCallback`.
- CameraManagers.CameraManager.RunCallback: for a save key whose image cannot be written it states only that the files are unchanged and the stream does not stop, not which error ends it.
- Pixel values: images are a height, a width and a colour depth. Filters, borders and grids are modelled on shapes and depths only.
- Floats are `real`s. `int(...)` is truncation toward zero. Camera settings are carried without arithmetic.
- Subprocesses are a return code and captured output. YAML files are typed records (class list, dataset record, metadata record), not serialised text.
- ReadMetadata: a `metadata.yaml` holding something other than the metadata record fails with `KeyError`. The source fails later, at the first key looked up.
- Text handling is ASCII only: `strip`, `upper` and case-insensitive suffixes do not cover Unicode whitespace or case folding.
- The file system is a set of directories and a map from paths to typed files; `FileSystem.FileSystem.constructor` only starts such a tree and models no source function. Permissions, timestamps and concurrent changes are not modelled.
- FileSystem.CreateDatasetMetadataYaml: writes a copy of the record with its date set; the source sets `data['date']` in the caller's dictionary. No caller reads the dictionary afterwards.
- Paths are a root flag and components. `Join(p, "")` adds an empty component where pathlib drops it. `..` and symbolic links are not resolved. A component containing `/` (a model name or `dataset_name` such as `a/b`) stays one component, where pathlib splits it.
- `datetime.now`, `uuid4`, `random.shuffle` and `unzip_dir` are inputs. The shuffled image list is a parameter of `split`.
- `get_images_list`, `get_labels_list`, `get_n_images` and the `get_n_*` counters are directory listings. The listing is a parameter where it matters (`add_images`).
- The `data` and `metadata` properties of `TrainingDatasetDirManager` only load YAML files, so they are not modelled.
- DatasetDirs.TrainingDatasetDirManager.Split: takes non-negative fractions only; the command line accepts only fractions strictly between 0 and 1, and a negative one would make Python slice from the end.
- LegacyDatasetDirs.LegacyTrainingDatasetDirManager.Split: takes non-negative fractions only, for the same reason.
- DatasetDirs.TrainingDatasetDirManager.Split: besides the `AttributeError` without a source, it states only the `data.yaml` a successful split leaves, not which error a failed copy, metadata copy or `data.yaml` write passes on. The copies are stated by `DatasetDirs.AddData` and `FileSystem.CopyFiles`.
- LegacyDatasetDirs.LegacyTrainingDatasetDirManager.Split: states only that the tree stays well formed and no directory is created. The copies are stated by `DatasetDirs.AddData`.
- `Box.add_square_to_img`, `Box.add_center_to_img`, `MyResults.plot_tracker` and `ResultTracker.plot` only draw on images.
- Foreign callables run through a function parameter that returns an image or an error.

## Findings

| source | as written | input that shows it | evidently intended | confidence | as-written member | corrected member |
|---|---|---|---|---|---|---|
| yoloModelManager/src/model/results.py:68-71 | `inf_left_corner` returns `(x2, y1)`, the upper-right corner | the box `(0, 0, 10, 10)` gives `(10, 0)` | the lower-left corner `(x1, y2)` | high, not executed | Geometry.InfLeftCornerAsWrittenIsSupRight | Geometry.CornersFormRectangle |
| yoloModelManager/src/cameras/camera_manager.py:637-651 | `section` is bound only by a header line, so a `key: value` line before any header reads an unbound local | `v4l2-ctl -D` output `a: b` raises `UnboundLocalError` | `section` starts as `''`, so early pairs are top-level values | medium, not executed | Cameras.UnboundSectionExample | Cameras.CameraDetailsErrors |
| yoloModelManager/src/filesystem/dirs_managers.py:226-241 | the matched labels are sliced at the image counts, so labels no longer line up with their images | images `a.png`, `b.png`, label `b.txt`, one validation image: validation is handed `a.png` with `b.txt`, builds no new name for it and copies no label; training gets `b.png` and no label, so `b.txt` is lost | each part gets the labels matching its own images | high, not executed | DatasetDirs.SplitLabelsAsWrittenMisplaces | DatasetDirs.SplitLabelsFollowImages |
| yoloModelManager/src/cameras/camera_manager.py:459-468 | `load_params_from_model` reads `model.camera_brightness` and four more attributes that `ModelManager` does not define | any model whose metadata and filters load raises `AttributeError` | the five camera settings come from the model's metadata record | medium, not executed | CameraManagers.CameraManager.LoadParamsFromModelAsWritten | CameraManagers.CameraManager.LoadParamsFromModel |
