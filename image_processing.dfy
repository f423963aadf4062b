/** `image/image_processing.py` on image SHAPES.  An image is the shape of its
    numpy array: `(height, width)` for a single-channel 2-D array, or
    `(height, width, depth)`.  OpenCV returns single-channel results as 2-D
    arrays, which `CvOut` reproduces; the calls OpenCV refuses (a negative
    border, an empty target size, a colour conversion from the wrong number
    of channels, concatenating images of different sizes or types) yield
    `Err(CvError)`.  Pixel values are not modelled. */
module ImageProcessing {
  import opened Outcomes

  datatype Image = Image(height: nat, width: nat, depth: Option<nat>)

  /** The shape of an array OpenCV hands back: a one-channel result is 2-D. */
  function CvOut(h: nat, w: nat, depth: Option<nat>): Image {
    Image(h, w, if depth == Some(1) then None else depth)
  }

  /** Number of channels of an image (a 2-D array has one). */
  function Channels(img: Image): nat {
    match img.depth
    case None => 1
    case Some(d) => d
  }

  /** `cv2.copyMakeBorder(img, top, bottom, left, right, ...)`. */
  function CopyMakeBorder(img: Image, top: int, bottom: int, left: int, right: int): (r: Result<Image>)
    ensures r.Ok? <==> top >= 0 && bottom >= 0 && left >= 0 && right >= 0
    ensures r.Ok? ==> r.value.height == img.height + top + bottom && r.value.width == img.width + left + right
    ensures r.Ok? ==> r.value == CvOut(r.value.height, r.value.width, img.depth)
  {
    if top >= 0 && bottom >= 0 && left >= 0 && right >= 0 then
      Ok(CvOut(img.height + top + bottom, img.width + left + right, img.depth))
    else Err(CvError)
  }

  /** `imagePadding(image, target_height, target_width)`: `delta // 2` rows
      (columns) on top (left), the rest at the bottom (right).  Python's `//`
      floors; Dafny's `/` by the positive 2 floors as well. */
  function ImagePadding(img: Image, targetHeight: int, targetWidth: int): Result<Image> {
    var dh := targetHeight - img.height;
    var dw := targetWidth - img.width;
    CopyMakeBorder(img, dh / 2, dh - dh / 2, dw / 2, dw - dw / 2)
  }

  /** Padding succeeds exactly when the target is at least as large as the
      image in both dimensions, and then produces exactly the target shape,
      with the top (left) band at most one row (column) thinner than the
      bottom (right) one. */
  lemma ImagePaddingShape(img: Image, targetHeight: int, targetWidth: int)
    ensures var r := ImagePadding(img, targetHeight, targetWidth);
      (r.Ok? <==> targetHeight >= img.height && targetWidth >= img.width)
      && (r.Ok? ==> r.value == CvOut(targetHeight, targetWidth, img.depth))
    ensures var dh := targetHeight - img.height;
      dh >= 0 ==> dh / 2 <= dh - dh / 2 <= dh / 2 + 1
  {
  }

  /** `add_border(frame, width)`: the same border on all four sides. */
  function AddBorder(img: Image, width: int): Result<Image> {
    CopyMakeBorder(img, width, width, width, width)
  }

  /** A border of `w` grows both dimensions by `2 * w`; a negative width is
      refused by OpenCV. */
  lemma AddBorderShape(img: Image, w: int)
    ensures AddBorder(img, w).Ok? <==> w >= 0
    ensures w >= 0 ==> AddBorder(img, w) == Ok(CvOut(img.height + 2 * w, img.width + 2 * w, img.depth))
  {
  }

  /** `resize(frame, width, height)`: OpenCV needs a non-empty source and a
      positive target size (a zero size means "use the scale factors",
      which are zero here). */
  function Resize(img: Image, width: int, height: int): (r: Result<Image>)
    ensures r.Ok? <==> img.height > 0 && img.width > 0 && width > 0 && height > 0
    ensures r.Ok? ==> r.value.height == height && r.value.width == width && r.value == CvOut(height, width, img.depth)
  {
    if img.height > 0 && img.width > 0 && width > 0 && height > 0 then Ok(CvOut(height, width, img.depth))
    else Err(CvError)
  }

  /** `cut(frame, ...)`: not implemented in the source; it returns its
      input unchanged whatever the requested size. */
  function Cut(img: Image, width: int, height: int): (r: Image)
    ensures r == img
  {
    img
  }

  /** `bgr2gray`: `COLOR_BGR2GRAY` takes a non-empty image with three or
      four channels and gives a 2-D image of the same size. */
  function Bgr2Gray(img: Image): (r: Result<Image>)
    ensures r.Ok? <==> img.height > 0 && img.width > 0 && (Channels(img) == 3 || Channels(img) == 4)
    ensures r.Ok? ==> r.value == Image(img.height, img.width, None)
  {
    if img.height > 0 && img.width > 0 && (Channels(img) == 3 || Channels(img) == 4) then Ok(Image(img.height, img.width, None))
    else Err(CvError)
  }

  /** `gray2bgr`: `COLOR_GRAY2BGR` takes a non-empty one-channel image and
      gives three channels. */
  function Gray2Bgr(img: Image): (r: Result<Image>)
    ensures r.Ok? <==> img.height > 0 && img.width > 0 && Channels(img) == 1
    ensures r.Ok? ==> r.value == Image(img.height, img.width, Some(3))
  {
    if img.height > 0 && img.width > 0 && Channels(img) == 1 then Ok(Image(img.height, img.width, Some(3))) else Err(CvError)
  }

  /** The configured default size `YOLO_IMAGE_WIDTH` x `YOLO_IMAGE_HEIGHT`
      used by `resize` and `cut` when called as filters. */
  datatype ImageConfig = ImageConfig(yoloWidth: int, yoloHeight: int)

  /** The four functions registered in `FILTERS`. */
  datatype Filter = Grey | Color | ResizeFilter | CutFilter

  /** Any callable the program may hold where a filter is expected: one of
      the registered filters, or some other function (such as a model's
      `process_frame`), identified only by an opaque number. */
  datatype Callable = Known(f: Filter) | Foreign(id: nat)

  /** `ImageProcessing.FILTERS`. */
  const FILTERS: map<string, Filter> := map["GREY" := Grey, "COLOR" := Color, "RESIZE" := ResizeFilter, "CUT" := CutFilter]

  /** `FILTERS[name]`: a name that is not registered raises `KeyError`. */
  function LookupFilter(name: string): (r: Result<Filter>)
    ensures r.Ok? <==> name in FILTERS
    ensures r.Ok? ==> r.value == FILTERS[name]
  {
    if name in FILTERS then Ok(FILTERS[name]) else Err(KeyError)
  }

  /** `get_filter_name(filter)`: look the callable up in the inverted
      `FILTERS` dictionary. */
  function GetFilterName(c: Callable): Result<string> {
    match c
    case Known(Grey) => Ok("GREY")
    case Known(Color) => Ok("COLOR")
    case Known(ResizeFilter) => Ok("RESIZE")
    case Known(CutFilter) => Ok("CUT")
    case Foreign(_) => Err(KeyError)
  }

  /** Names and filters are in one-to-one correspondence: the name of
      `FILTERS[k]` is `k`, a name returned by `get_filter_name` maps back to
      the callable it came from, and a callable outside `FILTERS` raises
      `KeyError`. */
  lemma FilterNameRoundTrip(k: string, c: Callable)
    ensures k in FILTERS ==> GetFilterName(Known(FILTERS[k])) == Ok(k)
    ensures GetFilterName(c).Ok? ==> GetFilterName(c).value in FILTERS && c == Known(FILTERS[GetFilterName(c).value])
    ensures GetFilterName(c).Err? <==> c.Foreign?
    ensures GetFilterName(c).Err? ==> GetFilterName(c).error == KeyError
  {
  }

  /** Calling a registered filter on a frame (with its default size
      arguments). */
  function ApplyFilter(f: Filter, img: Image, cfg: ImageConfig): Result<Image> {
    match f
    case Grey => Bgr2Gray(img)
    case Color => Gray2Bgr(img)
    case ResizeFilter => Resize(img, cfg.yoloWidth, cfg.yoloHeight)
    case CutFilter => Ok(Cut(img, cfg.yoloWidth, cfg.yoloHeight))
  }

  /** `for filter in filters: frame = filter(frame)`: the filters applied left
      to right; the first failure propagates. */
  function ApplyAll(fs: seq<Filter>, img: Image, cfg: ImageConfig): Result<Image>
    decreases |fs|
  {
    if fs == [] then Ok(img)
    else
      match ApplyFilter(fs[0], img, cfg)
      case Err(e) => Err(e)
      case Ok(next) => ApplyAll(fs[1..], next, cfg)
  }

  /** Applying a concatenation of filter lists is applying the first list,
      then the second to its result; no filters leave the frame unchanged. */
  lemma {:induction false} ApplyAllAppend(a: seq<Filter>, b: seq<Filter>, img: Image, cfg: ImageConfig)
    ensures ApplyAll([], img, cfg) == Ok(img)
    ensures ApplyAll(a + b, img, cfg) ==
      match ApplyAll(a, img, cfg)
      case Err(e) => Err(e)
      case Ok(mid) => ApplyAll(b, mid, cfg)
    decreases |a|
  {
    if a != [] {
      assert (a + b)[1..] == a[1..] + b;
      match ApplyFilter(a[0], img, cfg)
      case Err(e) =>
      case Ok(next) => ApplyAllAppend(a[1..], b, next, cfg);
    } else {
      assert a + b == b;
    }
  }

  /** What `unify_colors` makes of one image it accepts: a 2-D image becomes
      a three-channel one; an image with a channel axis is kept as it is. */
  function UnifyColor(img: Image): (r: Image)
    ensures r.height == img.height && r.width == img.width && r.depth.Some?
    ensures img.depth.None? ==> r == Image(img.height, img.width, Some(3))
    ensures img.depth.Some? ==> r == img
  {
    if img.depth.None? then Image(img.height, img.width, Some(3)) else img
  }

  /** `unify_colors` raises where `cvtColor` does: on an empty 2-D image. */
  predicate ColorRefused(img: Image) {
    img.depth.None? && (img.height == 0 || img.width == 0)
  }

  /** On a 2-D image, `UnifyColor` is what `gray2bgr` gives, and the images
      `unify_colors` refuses are exactly those `gray2bgr` refuses. */
  lemma UnifyColorIsGray2Bgr(img: Image)
    requires img.depth.None?
    ensures ColorRefused(img) <==> Gray2Bgr(img).Err?
    ensures !ColorRefused(img) ==> Gray2Bgr(img) == Ok(UnifyColor(img))
  {
  }

  /** `unify_colors`: `CvError` from the first refused image, otherwise every
      image unified, in order. */
  method UnifyColors(images: seq<Image>) returns (r: Result<seq<Image>>)
    ensures r.Err? <==> exists k :: 0 <= k < |images| && ColorRefused(images[k])
    ensures r.Err? ==> r.error == CvError
    ensures r.Ok? ==> |r.value| == |images| && forall k :: 0 <= k < |images| ==> r.value[k] == UnifyColor(images[k])
  {
    var unified := [];
    for k := 0 to |images|
      invariant |unified| == k
      invariant forall i :: 0 <= i < k ==> !ColorRefused(images[i]) && unified[i] == UnifyColor(images[i])
    {
      var image := images[k];
      if image.depth.None? {
        var converted := Gray2Bgr(image);
        if converted.Err? {
          return Err(converted.error);
        }
        unified := unified + [converted.value];
      } else {
        unified := unified + [image];
      }
    }
    r := Ok(unified);
  }

  /** `max(image.shape[0] for image in images)`. */
  function MaxHeight(images: seq<Image>): (m: nat)
    requires images != []
    ensures forall k :: 0 <= k < |images| ==> images[k].height <= m
    ensures exists k :: 0 <= k < |images| && images[k].height == m
  {
    if |images| == 1 then images[0].height
    else
      var rest := MaxHeight(images[1..]);
      assert forall k :: 1 <= k < |images| ==> images[k] == images[1..][k - 1];
      if images[0].height >= rest then images[0].height else rest
  }

  /** `max(image.shape[1] for image in images)`. */
  function MaxWidth(images: seq<Image>): (m: nat)
    requires images != []
    ensures forall k :: 0 <= k < |images| ==> images[k].width <= m
    ensures exists k :: 0 <= k < |images| && images[k].width == m
  {
    if |images| == 1 then images[0].width
    else
      var rest := MaxWidth(images[1..]);
      assert forall k :: 1 <= k < |images| ==> images[k] == images[1..][k - 1];
      if images[0].width >= rest then images[0].width else rest
  }

  /** `unify_shapes`: pad every image to the largest height and width; `max`
      of nothing raises `ValueError`. */
  method UnifyShapes(images: seq<Image>) returns (r: Result<seq<Image>>)
    ensures images == [] <==> r.Err?
    ensures r.Err? ==> r.error == ValueError
    ensures r.Ok? ==> (|r.value| == |images|
      && forall k :: 0 <= k < |images| ==> r.value[k] == CvOut(MaxHeight(images), MaxWidth(images), images[k].depth))
  {
    if images == [] {
      return Err(ValueError);
    }
    var maxW := MaxWidth(images);
    var maxH := MaxHeight(images);
    var unified: seq<Image> := [];
    for k := 0 to |images|
      invariant |unified| == k
      invariant forall i :: 0 <= i < k ==> unified[i] == CvOut(maxH, maxW, images[i].depth)
    {
      ImagePaddingShape(images[k], maxH, maxW);
      var padded := ImagePadding(images[k], maxH, maxW);
      unified := unified + [padded.value];
    }
    r := Ok(unified);
  }

  /** `ceil(sqrt(n))`: the least `c` with `c * c >= n`. */
  function CeilSqrt(n: nat): nat {
    if n == 0 then 0
    else
      var c := CeilSqrt(n - 1);
      if c * c >= n then c else c + 1
  }

  /** A non-empty list of images has at least one column. */
  lemma CeilSqrtPositive(n: nat)
    requires n > 0
    ensures CeilSqrt(n) > 0
  {
  }

  /** `CeilSqrt(n)` is the least `c` whose square reaches `n`, which is
      `ceil(sqrt(n))`; it is positive for a non-empty list of images. */
  lemma {:induction false} CeilSqrtIsLeast(n: nat)
    ensures CeilSqrt(n) * CeilSqrt(n) >= n
    ensures CeilSqrt(n) > 0 ==> (CeilSqrt(n) - 1) * (CeilSqrt(n) - 1) < n
    ensures n > 0 ==> CeilSqrt(n) > 0
  {
    if n > 0 {
      var c := CeilSqrt(n - 1);
      CeilSqrtIsLeast(n - 1);
      if c * c < n {
        assert CeilSqrt(n) == c + 1;
        SquareStep(c);
      } else {
        assert CeilSqrt(n) == c;
      }
    }
  }

  lemma SquareStep(c: int)
    ensures (c + 1) * (c + 1) == c * c + 2 * c + 1
  {
  }

  /** `[x] * k`. */
  function Repeat(x: Image, k: nat): (r: seq<Image>)
    ensures |r| == k && forall i :: 0 <= i < k ==> r[i] == x
  {
    seq(k, i => x)
  }

  /** The rows the grid loop builds: consecutive chunks of `cols` tiles, the
      last one completed with copies of `blank`. */
  function GridRows(tiles: seq<Image>, cols: nat, blank: Image): seq<seq<Image>>
    requires cols > 0
    decreases |tiles|
  {
    if tiles == [] then []
    else if |tiles| <= cols then [tiles + Repeat(blank, cols - |tiles|)]
    else [tiles[..cols]] + GridRows(tiles[cols..], cols, blank)
  }

  function Flatten(rows: seq<seq<Image>>): seq<Image> {
    if rows == [] then [] else rows[0] + Flatten(rows[1..])
  }

  /** The number of `range(0, n, cols)` steps, `ceil(n / cols)`. */
  function NumRows(n: nat, cols: nat): nat
    requires cols > 0
    decreases n
  {
    if n == 0 then 0 else if n <= cols then 1 else 1 + NumRows(n - cols, cols)
  }

  /** `NumRows(n, cols)` is the ceiling of `n / cols`: the least number of
      rows of `cols` that hold `n` tiles. */
  lemma {:induction false} NumRowsIsCeiling(n: nat, cols: nat)
    requires cols > 0
    ensures n <= NumRows(n, cols) * cols
    ensures NumRows(n, cols) > 0 ==> (NumRows(n, cols) - 1) * cols < n
    decreases n
  {
    if n > cols {
      var k := NumRows(n - cols, cols);
      NumRowsIsCeiling(n - cols, cols);
      assert (1 + k) * cols == cols + k * cols;
    }
  }

  /** The grid has `ceil(n / cols)` rows of exactly `cols` tiles. */
  lemma {:induction false} GridRowsCount(tiles: seq<Image>, cols: nat, blank: Image)
    requires cols > 0
    ensures |GridRows(tiles, cols, blank)| == NumRows(|tiles|, cols)
    ensures forall row :: row in GridRows(tiles, cols, blank) ==> |row| == cols
    decreases |tiles|
  {
    if |tiles| > cols {
      GridRowsCount(tiles[cols..], cols, blank);
    }
  }

  /** Read row by row, the grid holds the tiles in order followed by fewer
      than `cols` blanks. */
  lemma {:induction false} GridRowsFlatten(tiles: seq<Image>, cols: nat, blank: Image)
    requires cols > 0
    ensures var flat := Flatten(GridRows(tiles, cols, blank));
      |tiles| <= |flat| < |tiles| + cols
      && flat == tiles + Repeat(blank, |flat| - |tiles|)
    decreases |tiles|
  {
    var rows := GridRows(tiles, cols, blank);
    if tiles == [] {
    } else if |tiles| <= cols {
      assert Flatten(rows) == rows[0] + Flatten([]);
    } else {
      var rest := tiles[cols..];
      GridRowsFlatten(rest, cols, blank);
      var restFlat := Flatten(GridRows(rest, cols, blank));
      assert rows[1..] == GridRows(rest, cols, blank);
      assert Flatten(rows) == tiles[..cols] + restFlat;
      var m := |restFlat| - |rest|;
      assert tiles[..cols] + (rest + Repeat(blank, m)) == (tiles[..cols] + rest) + Repeat(blank, m);
      assert tiles[..cols] + rest == tiles;
    }
  }


  function SumWidths(ts: seq<Image>): nat {
    if ts == [] then 0 else ts[0].width + SumWidths(ts[1..])
  }

  function SumHeights(ts: seq<Image>): nat {
    if ts == [] then 0 else ts[0].height + SumHeights(ts[1..])
  }

  /** `cv2.hconcat(tiles)`: every tile needs the height and the type of the
      first. */
  function HConcat(ts: seq<Image>): Result<Image> {
    if ts != [] && forall k :: 0 <= k < |ts| ==> ts[k].height == ts[0].height && ts[k].depth == ts[0].depth then
      Ok(Image(ts[0].height, SumWidths(ts), ts[0].depth))
    else Err(CvError)
  }

  /** `cv2.vconcat(rows)`: every row needs the width and the type of the
      first. */
  function VConcat(ts: seq<Image>): Result<Image> {
    if ts != [] && forall k :: 0 <= k < |ts| ==> ts[k].width == ts[0].width && ts[k].depth == ts[0].depth then
      Ok(Image(SumHeights(ts), ts[0].width, ts[0].depth))
    else Err(CvError)
  }

  /** `[cv2.hconcat(row) for row in rows]`, stopping at the first failure. */
  function HConcatRows(rows: seq<seq<Image>>): Result<seq<Image>> {
    if rows == [] then Ok([])
    else
      match HConcat(rows[0])
      case Err(e) => Err(e)
      case Ok(h) =>
        match HConcatRows(rows[1..])
        case Err(e) => Err(e)
        case Ok(hs) => Ok([h] + hs)
  }

  /** The grid built from equal-sized tiles: rows of `cols` tiles, the last
      padded with `blank`, concatenated horizontally and then vertically. */
  function GridOf(tiles: seq<Image>, cols: nat, blank: Image): Result<Image>
    requires cols > 0
  {
    match HConcatRows(GridRows(tiles, cols, blank))
    case Err(e) => Err(e)
    case Ok(rs) => VConcat(rs)
  }

  /** The shapes `unify_images` produces: colours unified, then every image
      padded to the largest height and width. */
  function UnifiedShapes(images: seq<Image>): (ts: seq<Image>)
    requires images != []
    ensures |ts| == |images|
    ensures forall k :: 0 <= k < |ts| ==> ts[k] == Image(MaxHeight(images), MaxWidth(images), TileDepth(images[k]))
  {
    seq(|images|, k requires 0 <= k < |images| => CvOut(MaxHeight(images), MaxWidth(images), UnifyColor(images[k]).depth))
  }

  /** The type an image has once it is a grid tile: a 2-D image gained three
      channels, and a one-channel image lost its channel axis in OpenCV. */
  function TileDepth(img: Image): Option<nat> {
    var d := UnifyColor(img).depth;
    if d == Some(1) then None else d
  }

  /** `[add_border(image, w) for image in images]` with a border that OpenCV
      accepts. */
  function BorderAll(images: seq<Image>, w: nat): (ts: seq<Image>)
    ensures |ts| == |images|
    ensures forall k :: 0 <= k < |ts| ==>
      ts[k].height == images[k].height + 2 * w && ts[k].width == images[k].width + 2 * w && Channels(ts[k]) == Channels(images[k])
  {
    seq(|images|, k requires 0 <= k < |images| => AddBorder(images[k], w).value)
  }

  /** `get_images_grid` as a function of its input shapes: `max` of nothing
      raises `ValueError`; otherwise the bordered tiles are laid out
      `ceil(sqrt(n))` to a row, the last row padded with copies of the first
      tile (`np.zeros_like(images[0])`). */
  function GridSpec(images: seq<Image>): Result<Image> {
    if images == [] then Err(ValueError)
    else if exists k :: 0 <= k < |images| && ColorRefused(images[k]) then Err(CvError)
    else
      var ts := BorderAll(UnifiedShapes(images), 1);
      CeilSqrtIsLeast(|images|);
      GridOf(ts, CeilSqrt(|images|), ts[0])
  }

  /** `get_images_grid`. */
  method GetImagesGrid(images: seq<Image>) returns (r: Result<Image>)
    ensures r == GridSpec(images)
  {
    var colored := UnifyColors(images);
    if colored.Err? {
      return Err(colored.error);
    }
    var unified := colored.value;
    var shaped := UnifyShapes(unified);
    if shaped.Err? {
      return Err(shaped.error);
    }
    ShapesOfUnified(images, unified, shaped.value);
    var tiles := BorderAll(shaped.value, 1);
    CeilSqrtIsLeast(|tiles|);
    var cols := CeilSqrt(|tiles|);
    var rows := LayOutRows(tiles, cols, tiles[0]);
    if rows.Err? {
      return Err(rows.error);
    }
    r := VConcat(rows.value);
  }

  /** The `for row in range(0, len(images), cols)` loop of `get_images_grid`:
      slice a row of tiles, pad it with blanks, concatenate it horizontally. */
  method LayOutRows(tiles: seq<Image>, cols: nat, blank: Image) returns (r: Result<seq<Image>>)
    requires cols > 0
    ensures r == HConcatRows(GridRows(tiles, cols, blank))
  {
    var n := |tiles|;
    var rows: seq<Image> := [];
    var start := 0;
    assert tiles[start..] == tiles;
    PrependEmpty(HConcatRows(GridRows(tiles, cols, blank)));
    while start < n
      invariant 0 <= start <= n
      invariant HConcatRows(GridRows(tiles, cols, blank)) == Prepend(rows, HConcatRows(GridRows(tiles[start..], cols, blank)))
      decreases n - start
    {
      var rowImages: seq<Image>;
      if n - start <= cols {
        rowImages := tiles[start..] + Repeat(blank, cols - (n - start));
        assert tiles[n..] == [];
      } else {
        rowImages := tiles[start..start + cols];
        assert tiles[start..][..cols] == rowImages;
        assert tiles[start..][cols..] == tiles[start + cols..];
      }
      var next := if n - start <= cols then n else start + cols;
      var g := GridRows(tiles[start..], cols, blank);
      assert g == [rowImages] + GridRows(tiles[next..], cols, blank);
      var row := HConcat(rowImages);
      if row.Err? {
        return Err(row.error);
      }
      assert HConcatRows(g) == Prepend([row.value], HConcatRows(GridRows(tiles[next..], cols, blank)));
      PrependAppend(rows, row.value, HConcatRows(GridRows(tiles[next..], cols, blank)));
      rows := rows + [row.value];
      start := next;
    }
    assert tiles[start..] == [];
    assert rows + [] == rows;
    r := Ok(rows);
  }

  /** Prefixing the rows already built to the rows still to come. */
  function Prepend(done: seq<Image>, rest: Result<seq<Image>>): Result<seq<Image>> {
    match rest
    case Err(e) => Err(e)
    case Ok(hs) => Ok(done + hs)
  }

  lemma PrependEmpty(rest: Result<seq<Image>>)
    ensures Prepend([], rest) == rest
  {
    if rest.Ok? {
      assert [] + rest.value == rest.value;
    }
  }

  lemma PrependAppend(done: seq<Image>, h: Image, rest: Result<seq<Image>>)
    ensures Prepend(done, Prepend([h], rest)) == Prepend(done + [h], rest)
  {
    if rest.Ok? {
      assert done + ([h] + rest.value) == (done + [h]) + rest.value;
    }
  }

  /** Padding the colour-unified images to their largest size gives
      `UnifiedShapes` of the caller's images. */
  lemma ShapesOfUnified(images: seq<Image>, unified: seq<Image>, shaped: seq<Image>)
    requires images != [] && |unified| == |images| && |shaped| == |images|
    requires forall k :: 0 <= k < |images| ==> unified[k] == UnifyColor(images[k])
    requires forall k :: 0 <= k < |images| ==> shaped[k] == CvOut(MaxHeight(unified), MaxWidth(unified), unified[k].depth)
    ensures shaped == UnifiedShapes(images)
  {
    MaxOfUnified(images, unified);
  }

  /** Unifying colours does not change heights and widths, so the maxima the
      grid pads to are those of the caller's images. */
  lemma MaxOfUnified(images: seq<Image>, unified: seq<Image>)
    requires images != [] && |unified| == |images|
    requires forall k :: 0 <= k < |images| ==> unified[k] == UnifyColor(images[k])
    ensures MaxHeight(unified) == MaxHeight(images) && MaxWidth(unified) == MaxWidth(images)
  {
    var kh :| 0 <= kh < |images| && images[kh].height == MaxHeight(images);
    var kh' :| 0 <= kh' < |unified| && unified[kh'].height == MaxHeight(unified);
    assert unified[kh].height == images[kh].height;
    var kw :| 0 <= kw < |images| && images[kw].width == MaxWidth(images);
    var kw' :| 0 <= kw' < |unified| && unified[kw'].width == MaxWidth(unified);
    assert unified[kw].width == images[kw].width;
  }

  /** A row of copies of one tile is `|ts|` tiles wide. */
  lemma {:induction false} SumWidthsUniform(ts: seq<Image>, t: Image)
    requires forall k :: 0 <= k < |ts| ==> ts[k] == t
    ensures SumWidths(ts) == |ts| * t.width
  {
    if ts != [] {
      SumWidthsUniform(ts[1..], t);
      assert (|ts| - 1) * t.width + t.width == |ts| * t.width;
    }
  }

  /** A column of copies of one strip is `|ts|` strips high. */
  lemma {:induction false} SumHeightsUniform(ts: seq<Image>, t: Image)
    requires forall k :: 0 <= k < |ts| ==> ts[k] == t
    ensures SumHeights(ts) == |ts| * t.height
  {
    if ts != [] {
      SumHeightsUniform(ts[1..], t);
      assert (|ts| - 1) * t.height + t.height == |ts| * t.height;
    }
  }

  /** Rows cut from copies of one tile, padded with that tile, hold only
      that tile. */
  lemma {:induction false} GridRowsUniform(tiles: seq<Image>, cols: nat, t: Image)
    requires cols > 0
    requires forall k :: 0 <= k < |tiles| ==> tiles[k] == t
    ensures forall i, k :: 0 <= i < |GridRows(tiles, cols, t)| && 0 <= k < |GridRows(tiles, cols, t)[i]| ==> GridRows(tiles, cols, t)[i][k] == t
    decreases |tiles|
  {
    var rows := GridRows(tiles, cols, t);
    if |tiles| > cols {
      var rest := GridRows(tiles[cols..], cols, t);
      GridRowsUniform(tiles[cols..], cols, t);
      forall i, k | 0 <= i < |rows| && 0 <= k < |rows[i]|
        ensures rows[i][k] == t
      {
        if i == 0 {
          assert rows[0] == tiles[..cols];
          assert rows[0][k] == tiles[k];
        } else {
          assert rows[i] == rest[i - 1];
        }
      }
    } else if tiles != [] {
      assert forall k :: 0 <= k < |rows[0]| ==> rows[0][k] == t;
    }
  }

  /** Concatenating rows of `cols` copies of one tile gives one strip per
      row, `cols` tiles wide. */
  lemma {:induction false} HConcatRowsUniform(rows: seq<seq<Image>>, cols: nat, t: Image)
    requires cols > 0
    requires forall i :: 0 <= i < |rows| ==> |rows[i]| == cols
    requires forall i, k :: 0 <= i < |rows| && 0 <= k < |rows[i]| ==> rows[i][k] == t
    ensures HConcatRows(rows).Ok?
    ensures |HConcatRows(rows).value| == |rows|
    ensures forall i :: 0 <= i < |rows| ==> HConcatRows(rows).value[i] == Image(t.height, cols * t.width, t.depth)
  {
    if rows != [] {
      SumWidthsUniform(rows[0], t);
      assert HConcat(rows[0]) == Ok(Image(t.height, cols * t.width, t.depth));
      HConcatRowsUniform(rows[1..], cols, t);
    }
  }

  /** When the horizontal concatenations succeed, each row holds tiles of a
      single type, the type of its strip. */
  lemma {:induction false} HConcatRowsTypes(rows: seq<seq<Image>>)
    requires HConcatRows(rows).Ok?
    ensures |HConcatRows(rows).value| == |rows|
    ensures forall i, x :: 0 <= i < |rows| && x in rows[i] ==> x.depth == HConcatRows(rows).value[i].depth
  {
    if rows != [] {
      HConcatRowsTypes(rows[1..]);
      var hs := HConcatRows(rows).value;
      forall i, x | 0 <= i < |rows| && x in rows[i]
        ensures x.depth == hs[i].depth
      {
        if i > 0 {
          assert rows[i] == rows[1..][i - 1];
        }
      }
    }
  }

  lemma {:induction false} FlattenMember(rows: seq<seq<Image>>, x: Image)
    requires x in Flatten(rows)
    ensures exists i :: 0 <= i < |rows| && x in rows[i]
  {
    if x !in rows[0] {
      FlattenMember(rows[1..], x);
      var i :| 0 <= i < |rows[1..]| && x in rows[1..][i];
      assert x in rows[i + 1];
    }
  }

  /** The grid succeeds exactly when all tiles have one type, and is then
      `ceil(n / cols)` tiles high and `cols` tiles wide. */
  lemma GridOfUniform(tiles: seq<Image>, cols: nat)
    requires cols > 0 && tiles != []
    requires forall k :: 0 <= k < |tiles| ==> tiles[k].height == tiles[0].height && tiles[k].width == tiles[0].width
    ensures GridOf(tiles, cols, tiles[0]).Ok? <==> forall k :: 0 <= k < |tiles| ==> tiles[k].depth == tiles[0].depth
    ensures GridOf(tiles, cols, tiles[0]).Ok? ==>
      GridOf(tiles, cols, tiles[0]).value == Image(NumRows(|tiles|, cols) * tiles[0].height, cols * tiles[0].width, tiles[0].depth)
  {
    if forall k :: 0 <= k < |tiles| ==> tiles[k].depth == tiles[0].depth {
      GridOfSameDepth(tiles, cols);
    } else {
      var k :| 0 <= k < |tiles| && tiles[k].depth != tiles[0].depth;
      GridOfMixedDepths(tiles, cols, k);
    }
  }

  /** Tiles of one shape and one type make a grid of `rows * cols` tiles. */
  lemma GridOfSameDepth(tiles: seq<Image>, cols: nat)
    requires cols > 0 && tiles != []
    requires forall k :: 0 <= k < |tiles| ==> tiles[k] == tiles[0]
    ensures GridOf(tiles, cols, tiles[0]) == Ok(Image(NumRows(|tiles|, cols) * tiles[0].height, cols * tiles[0].width, tiles[0].depth))
  {
    var t := tiles[0];
    var n := NumRows(|tiles|, cols);
    var rows := GridRows(tiles, cols, t);
    GridRowsCount(tiles, cols, t);
    GridRowsUniform(tiles, cols, t);
    assert forall i :: 0 <= i < |rows| ==> |rows[i]| == cols by {
      forall i | 0 <= i < |rows| ensures |rows[i]| == cols {
        assert rows[i] in rows;
      }
    }
    HConcatRowsUniform(rows, cols, t);
    var hs := HConcatRows(rows).value;
    assert GridOf(tiles, cols, t) == VConcat(hs);
    var strip := Image(t.height, cols * t.width, t.depth);
    VConcatUniform(hs, strip, n);
    MulEqual(n, strip.height, NumRows(|tiles|, cols), tiles[0].height);
  }

  /** `n > 0` equal strips stack into one `n` times as high. */
  lemma VConcatUniform(hs: seq<Image>, strip: Image, n: nat)
    requires |hs| == n && n > 0
    requires forall k :: 0 <= k < |hs| ==> hs[k] == strip
    ensures VConcat(hs) == Ok(Image(n * strip.height, strip.width, strip.depth))
  {
    SumHeightsUniform(hs, strip);
  }

  /** A tile whose type differs from the first one's makes OpenCV fail. */
  lemma GridOfMixedDepths(tiles: seq<Image>, cols: nat, k: nat)
    requires cols > 0 && k < |tiles| && tiles[k].depth != tiles[0].depth
    ensures GridOf(tiles, cols, tiles[0]).Err?
  {
    var t := tiles[0];
    var rows := GridRows(tiles, cols, t);
    if GridOf(tiles, cols, t).Ok? {
      HConcatRowsTypes(rows);
      GridRowsFlatten(tiles, cols, t);
      assert Flatten(rows)[k] == tiles[k] && Flatten(rows)[0] == t;
      FlattenMember(rows, tiles[k]);
      FlattenMember(rows, t);
      assert false;
    }
  }

  /** `get_images_grid` fails with `ValueError` on no images, fails in
      OpenCV exactly when an image is an empty 2-D one or the tiles end up
      with different types (a colour image beside a one-channel one that
      kept its channel axis), and otherwise produces a `ceil(n / cols)` by
      `cols` grid, `cols = ceil(sqrt(n))`, of cells two pixels larger than
      the largest image. */
  lemma GridShape(images: seq<Image>)
    ensures images == [] ==> GridSpec(images) == Err(ValueError)
    ensures images != [] ==>
      (GridSpec(images).Ok? <==>
        (forall k :: 0 <= k < |images| ==> !ColorRefused(images[k]))
        && forall k :: 0 <= k < |images| ==> TileDepth(images[k]) == TileDepth(images[0]))
    ensures images != [] && GridSpec(images).Err? ==> GridSpec(images).error == CvError
  {
    if images != [] && forall k :: 0 <= k < |images| ==> !ColorRefused(images[k]) {
      var ts := BorderAll(UnifiedShapes(images), 1);
      CeilSqrtPositive(|images|);
      var cols := CeilSqrt(|images|);
      assert GridSpec(images) == GridOf(ts, cols, ts[0]);
      TilesShape(images);
      assert forall k :: 0 <= k < |images| ==> (TileDepth(images[k]) == TileDepth(images[0]) <==> ts[k].depth == ts[0].depth);
      GridOfUniform(ts, cols);
      GridOfErrors(ts, cols, ts[0]);
    }
  }

  /** A grid that succeeds is `rows = ceil(n / cols)` cells high and `cols =
      ceil(sqrt(n))` cells wide, each cell two pixels larger than the
      largest image, and has the tiles' type. */
  lemma GridSize(images: seq<Image>, cols: nat, rows: nat, cellHeight: nat, cellWidth: nat)
    requires images != [] && GridSpec(images).Ok?
    requires cols == CeilSqrt(|images|) && cols > 0 && rows == NumRows(|images|, cols)
    requires cellHeight == MaxHeight(images) + 2 && cellWidth == MaxWidth(images) + 2
    ensures GridSpec(images).value.height == rows * cellHeight
    ensures GridSpec(images).value.width == cols * cellWidth
    ensures GridSpec(images).value.depth == TileDepth(images[0])
  {
    var ts := BorderAll(UnifiedShapes(images), 1);
    assert GridSpec(images) == GridOf(ts, cols, ts[0]);
    TilesShape(images);
    GridOfUniform(ts, cols);
    assert |ts| == |images|;
    MulEqual(NumRows(|ts|, cols), ts[0].height, rows, cellHeight);
    MulEqual(cols, ts[0].width, cols, cellWidth);
  }

  lemma MulEqual(a: int, b: int, c: int, d: int)
    requires a == c && b == d
    ensures a * b == c * d
  {
  }

  /** Every tile is the largest image plus a one-pixel border. */
  lemma TilesShape(images: seq<Image>)
    requires images != []
    ensures var ts := BorderAll(UnifiedShapes(images), 1);
      forall k :: 0 <= k < |ts| ==> ts[k] == Image(MaxHeight(images) + 2, MaxWidth(images) + 2, TileDepth(images[k]))
  {
  }

  /** The only error the layout itself raises is OpenCV's. */
  lemma {:induction false} HConcatRowsErrors(rows: seq<seq<Image>>)
    ensures HConcatRows(rows).Err? ==> HConcatRows(rows).error == CvError
  {
    if rows != [] {
      HConcatRowsErrors(rows[1..]);
    }
  }

  lemma GridOfErrors(tiles: seq<Image>, cols: nat, blank: Image)
    requires cols > 0
    ensures GridOf(tiles, cols, blank).Err? ==> GridOf(tiles, cols, blank).error == CvError
  {
    HConcatRowsErrors(GridRows(tiles, cols, blank));
  }
}
