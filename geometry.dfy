/** Detection post-filtering of `model/results.py`: integer points, the
    geometry of a detection box, the "complete box" margin test, the
    duplicate suppression pass and the bounded history of results.

    A box holds the four numbers `(x1, y1, x2, y2)` that the detector
    returns as floats (indices 0..3 of the numpy row), a confidence and a
    class number.  They are `real`s here; every conversion the source makes
    with `int(...)` is the truncation `Trunc`. */
module Geometry {
  import opened Outcomes
  import opened Sequences

  /** Python's `int(r)` on a float: truncation toward zero. */
  function Trunc(r: real): (n: int)
    ensures r >= 0.0 ==> n as real <= r < n as real + 1.0
    ensures r < 0.0 ==> n as real - 1.0 < r <= n as real
  {
    if r >= 0.0 then r.Floor else -((-r).Floor)
  }

  datatype Point = Point(x: int, y: int)

  /** `Point(x, y)`: both coordinates go through `int(...)`. */
  function MakePoint(x: real, y: real): Point {
    Point(Trunc(x), Trunc(y))
  }

  /** `p + (dx, dy)`. */
  function AddPair(p: Point, dx: real, dy: real): Point {
    MakePoint(p.x as real + dx, p.y as real + dy)
  }

  /** `p + d` for a number `d`. */
  function AddScalar(p: Point, d: real): Point {
    MakePoint(p.x as real + d, p.y as real + d)
  }

  /** Constructing a point from integers keeps them, and adding integers to
      a point adds componentwise (a pair) or to both coordinates (a number). */
  lemma PointArithmetic(p: Point, a: int, b: int)
    ensures MakePoint(a as real, b as real) == Point(a, b)
    ensures AddPair(p, a as real, b as real) == Point(p.x + a, p.y + b)
    ensures AddScalar(p, a as real) == Point(p.x + a, p.y + a)
  {
  }

  /** Constructing a point moves each coordinate toward zero by less than one. */
  lemma MakePointTruncates(x: real, y: real)
    ensures var p := MakePoint(x, y);
      (x >= 0.0 ==> 0 <= p.x && p.x as real <= x < p.x as real + 1.0)
      && (x < 0.0 ==> p.x <= 0 && p.x as real - 1.0 < x <= p.x as real)
      && (y >= 0.0 ==> 0 <= p.y && p.y as real <= y < p.y as real + 1.0)
      && (y < 0.0 ==> p.y <= 0 && p.y as real - 1.0 < y <= p.y as real)
  {
  }

  /** `((a.x - b.x)**2 + (a.y - b.y)**2)`, the square of `a.distance(b)`. */
  function DistanceSq(a: Point, b: Point): int {
    (a.x - b.x) * (a.x - b.x) + (a.y - b.y) * (a.y - b.y)
  }

  datatype Box = Box(x1: real, y1: real, x2: real, y2: real, conf: real, objectN: int)

  function SupLeftCorner(b: Box): Point { MakePoint(b.x1, b.y1) }

  function SupRightCorner(b: Box): Point { MakePoint(b.x2, b.y1) }

  /** `inf_left_corner` as written: it reads indices 2 and 1, the same
      numbers as `sup_right_corner`. */
  function InfLeftCornerAsWritten(b: Box): Point { MakePoint(b.x2, b.y1) }

  /** The bottom-left corner the name promises: left x, bottom y. */
  function InfLeftCorner(b: Box): Point { MakePoint(b.x1, b.y2) }

  function InfRightCorner(b: Box): Point { MakePoint(b.x2, b.y2) }

  /** As written, the "bottom-left" corner is always the top-right one, so a
      box whose corners differ in x never gets its bottom-left corner: for
      the box (0, 0, 10, 10) it is (10, 0) rather than (0, 10). */
  lemma InfLeftCornerAsWrittenIsSupRight(b: Box)
    ensures InfLeftCornerAsWritten(b) == SupRightCorner(b)
    ensures var c := Box(0.0, 0.0, 10.0, 10.0, 0.5, 0);
      InfLeftCornerAsWritten(c) == Point(10, 0) != Point(0, 10) == InfLeftCorner(c)
  {
  }

  /** With the corrected bottom-left corner the four corners are exactly the
      four combinations of the box's two x and two y coordinates, each with
      its partner corners sharing one coordinate (a rectangle). */
  lemma CornersFormRectangle(b: Box)
    ensures SupLeftCorner(b).x == InfLeftCorner(b).x && SupRightCorner(b).x == InfRightCorner(b).x
    ensures SupLeftCorner(b).y == SupRightCorner(b).y && InfLeftCorner(b).y == InfRightCorner(b).y
    ensures {SupLeftCorner(b), SupRightCorner(b), InfLeftCorner(b), InfRightCorner(b)}
         == set px <- {Trunc(b.x1), Trunc(b.x2)}, py <- {Trunc(b.y1), Trunc(b.y2)} :: Point(px, py)
  {
    var s := set px <- {Trunc(b.x1), Trunc(b.x2)}, py <- {Trunc(b.y1), Trunc(b.y2)} :: Point(px, py);
    assert Point(Trunc(b.x1), Trunc(b.y1)) in s;
    assert Point(Trunc(b.x2), Trunc(b.y1)) in s;
    assert Point(Trunc(b.x1), Trunc(b.y2)) in s;
    assert Point(Trunc(b.x2), Trunc(b.y2)) in s;
  }

  function MinX(b: Box): (r: real)
    ensures r <= b.x1 && r <= b.x2 && (r == b.x1 || r == b.x2)
  {
    if b.x1 <= b.x2 then b.x1 else b.x2
  }

  function MaxX(b: Box): (r: real)
    ensures r >= b.x1 && r >= b.x2 && (r == b.x1 || r == b.x2)
  {
    if b.x1 >= b.x2 then b.x1 else b.x2
  }

  function MinY(b: Box): (r: real)
    ensures r <= b.y1 && r <= b.y2 && (r == b.y1 || r == b.y2)
  {
    if b.y1 <= b.y2 then b.y1 else b.y2
  }

  function MaxY(b: Box): (r: real)
    ensures r >= b.y1 && r >= b.y2 && (r == b.y1 || r == b.y2)
  {
    if b.y1 >= b.y2 then b.y1 else b.y2
  }

  /** The property `width`: despite its name, the SUM of the truncated left
      and right x coordinates (so that half of it is the centre). */
  function CornerSumX(b: Box): int { SupLeftCorner(b).x + InfRightCorner(b).x }

  /** The property `height`: the sum of the truncated top and bottom y. */
  function CornerSumY(b: Box): int { SupLeftCorner(b).y + InfRightCorner(b).y }

  /** `int(n / 2)` for an integer `n`: halving truncated toward zero. */
  function HalfTrunc(n: int): int {
    Trunc(n as real / 2.0)
  }

  /** `get_center`: the truncated midpoint of the truncated corners. */
  function Center(b: Box): Point {
    Point(HalfTrunc(CornerSumX(b)), HalfTrunc(CornerSumY(b)))
  }

  /** Halving a sum of two integers with truncation lands between them. */
  lemma HalfTruncBetween(a: int, c: int)
    ensures a <= c ==> a <= HalfTrunc(a + c) <= c
    ensures c <= a ==> c <= HalfTrunc(a + c) <= a
    ensures a + c >= 0 ==> HalfTrunc(a + c) == (a + c) / 2
  {
    var h := HalfTrunc(a + c);
    var m := (a + c) as real / 2.0;
    assert m * 2.0 == (a + c) as real;
  }

  /** The centre is the truncated midpoint of the box: it lies within the
      truncated corners in both axes, and for boxes in the non-negative
      quadrant it is `((x1 + x2) // 2, (y1 + y3) // 2)` of the truncated
      coordinates. */
  lemma CenterIsMidpoint(b: Box)
    ensures var c := Center(b); var l := SupLeftCorner(b); var r := InfRightCorner(b);
      (if l.x <= r.x then l.x <= c.x <= r.x else r.x <= c.x <= l.x)
      && (if l.y <= r.y then l.y <= c.y <= r.y else r.y <= c.y <= l.y)
    ensures var l := SupLeftCorner(b); var r := InfRightCorner(b);
      l.x + r.x >= 0 && l.y + r.y >= 0 ==> Center(b) == Point((l.x + r.x) / 2, (l.y + r.y) / 2)
  {
    HalfTruncBetween(SupLeftCorner(b).x, InfRightCorner(b).x);
    HalfTruncBetween(SupLeftCorner(b).y, InfRightCorner(b).y);
  }

  /** The configured margins `RESULT_X_TOLERANCE` and `RESULT_Y_TOLERANCE`. */
  datatype Tolerances = Tolerances(x: int, y: int)

  /** `is_complete`: the box stays strictly inside the image, at least one
      tolerance away from every edge. */
  predicate IsComplete(b: Box, imgW: int, imgH: int, tol: Tolerances) {
    !(MinX(b) <= tol.x as real
      || MaxX(b) >= (imgW - tol.x) as real
      || MinY(b) <= tol.y as real
      || MaxY(b) >= (imgH - tol.y) as real)
  }

  /** `is_complete` holds exactly when all four margins are respected, and
      then both x coordinates and both y coordinates are inside the margins. */
  lemma IsCompleteMeaning(b: Box, imgW: int, imgH: int, tol: Tolerances)
    ensures IsComplete(b, imgW, imgH, tol) <==>
      MinX(b) > tol.x as real && MaxX(b) < (imgW - tol.x) as real
      && MinY(b) > tol.y as real && MaxY(b) < (imgH - tol.y) as real
    ensures IsComplete(b, imgW, imgH, tol) ==>
      tol.x as real < b.x1 < (imgW - tol.x) as real && tol.x as real < b.x2 < (imgW - tol.x) as real
      && tol.y as real < b.y1 < (imgH - tol.y) as real && tol.y as real < b.y2 < (imgH - tol.y) as real
  {
  }

  /** `a.center_distance(b) <= 20`.  The centres have integer coordinates, so
      comparing the square root of the squared distance with 20 is the same
      as comparing the squared distance with 400. */
  predicate Close(a: Box, b: Box) {
    DistanceSq(Center(a), Center(b)) <= 400
  }

  lemma CloseSymmetric(a: Box, b: Box)
    ensures Close(a, b) <==> Close(b, a)
  {
  }

  /** `get_completed_boxes`, with `img_w = orig_shape[1]` and
      `img_h = orig_shape[0]`. */
  function CompletedBoxes(boxes: seq<Box>, origH: int, origW: int, tol: Tolerances): seq<Box> {
    Filter(boxes, b => IsComplete(b, origW, origH, tol))
  }

  /** The completed boxes are the complete ones among the detected boxes, in
      detection order. */
  lemma CompletedBoxesSpec(boxes: seq<Box>, origH: int, origW: int, tol: Tolerances)
    ensures forall b :: b in CompletedBoxes(boxes, origH, origW, tol) <==> b in boxes && IsComplete(b, origW, origH, tol)
    ensures SubseqOf(CompletedBoxes(boxes, origH, origW, tol), boxes)
    ensures forall b :: multiset(CompletedBoxes(boxes, origH, origW, tol))[b] == if IsComplete(b, origW, origH, tol) then multiset(boxes)[b] else 0
  {
    FilterMembership(boxes, b => IsComplete(b, origW, origH, tol));
    FilterSubseq(boxes, b => IsComplete(b, origW, origH, tol));
    FilterMultiplicity(boxes, b => IsComplete(b, origW, origH, tol));
  }

  /** Box `i` of `bs` survives suppression: every OTHER box (by position)
      whose centre is within 20 pixels has a strictly lower confidence. */
  ghost predicate Kept(bs: seq<Box>, i: int)
    requires 0 <= i < |bs|
  {
    forall j :: 0 <= j < |bs| && j != i && Close(bs[i], bs[j]) ==> bs[j].conf < bs[i].conf
  }

  /** The surviving boxes at positions `i..`, in order. */
  ghost function KeptFrom(bs: seq<Box>, i: nat): seq<Box>
    requires i <= |bs|
    decreases |bs| - i
  {
    if i == |bs| then [] else (if Kept(bs, i) then [bs[i]] else []) + KeptFrom(bs, i + 1)
  }

  /** `get_valid_boxes`: each completed box is kept or dropped in turn,
      in order. */
  method ValidBoxes(completed: seq<Box>) returns (valid: seq<Box>)
    ensures valid == KeptFrom(completed, 0)
  {
    var n := |completed|;
    valid := [];
    for i := 0 to n
      invariant valid + KeptFrom(completed, i) == KeptFrom(completed, 0)
    {
      var keep := KeepsBox(completed, i);
      KeptFromStep(completed, i);
      if keep {
        valid := valid + [completed[i]];
      }
    }
  }

  /** One step of `KeptFrom`: position `i` contributes its box or nothing. */
  lemma KeptFromStep(bs: seq<Box>, i: nat)
    requires i < |bs|
    ensures Kept(bs, i) ==> KeptFrom(bs, i) == [bs[i]] + KeptFrom(bs, i + 1)
    ensures !Kept(bs, i) ==> KeptFrom(bs, i) == KeptFrom(bs, i + 1)
  {
  }

  /** The inner loop of `get_valid_boxes` for box `i`: scan all others; a
      close box clears `is_alone`, and a close box at least as confident
      clears `is_best` and stops the scan.  The box is kept if it is alone
      or best. */
  method KeepsBox(completed: seq<Box>, i: nat) returns (keep: bool)
    requires i < |completed|
    ensures keep <==> Kept(completed, i)
  {
    var n := |completed|;
    var actual := completed[i];
    var isAlone := true;
    var isBest := true;
    for j := 0 to n
      invariant isAlone <==> forall k :: 0 <= k < j && k != i ==> !Close(actual, completed[k])
      invariant isBest <==> forall k :: 0 <= k < j && k != i && Close(actual, completed[k]) ==> completed[k].conf < actual.conf
    {
      if i != j {
        if DistanceSq(Center(actual), Center(completed[j])) <= 400 {
          isAlone := false;
          if completed[j].conf >= actual.conf {
            isBest := false;
            assert !Kept(completed, i);
            break;
          }
        }
      }
    }
    keep := isAlone || isBest;
  }

  /** Suppression never reorders or invents boxes: the valid boxes are a
      subsequence of the completed ones. */
  lemma {:induction false} KeptFromSubseq(bs: seq<Box>, i: nat)
    requires i <= |bs|
    ensures SubseqOf(KeptFrom(bs, i), bs[i..])
    decreases |bs| - i
  {
    if i < |bs| {
      KeptFromSubseq(bs, i + 1);
      assert bs[i..][1..] == bs[i + 1..];
      if Kept(bs, i) {
        assert KeptFrom(bs, i)[1..] == KeptFrom(bs, i + 1);
      } else {
        assert KeptFrom(bs, i) == KeptFrom(bs, i + 1);
      }
    }
  }

  /** The positions that survive, from `i` on, in increasing order. */
  ghost function KeptIndices(bs: seq<Box>, i: nat): seq<int>
    requires i <= |bs|
    decreases |bs| - i
  {
    if i == |bs| then [] else (if Kept(bs, i) then [i] else []) + KeptIndices(bs, i + 1)
  }

  /** The surviving boxes are the boxes at strictly increasing kept
      positions: the p-th survivor is the box at the p-th kept position. */
  lemma {:induction false} KeptFromSources(bs: seq<Box>, i: nat)
    requires i <= |bs|
    ensures var ks := KeptIndices(bs, i);
      |KeptFrom(bs, i)| == |ks|
      && (forall p :: 0 <= p < |ks| ==> i <= ks[p] < |bs| && Kept(bs, ks[p]) && KeptFrom(bs, i)[p] == bs[ks[p]])
      && (forall p, q :: 0 <= p < q < |ks| ==> ks[p] < ks[q])
    decreases |bs| - i
  {
    if i < |bs| {
      KeptFromSources(bs, i + 1);
      var ks := KeptIndices(bs, i + 1);
      if Kept(bs, i) {
        assert KeptIndices(bs, i) == [i] + ks;
        assert KeptFrom(bs, i) == [bs[i]] + KeptFrom(bs, i + 1);
      } else {
        assert KeptIndices(bs, i) == ks;
        assert KeptFrom(bs, i) == KeptFrom(bs, i + 1);
      }
    }
  }

  /** A kept position is kept whatever else happens: membership in the
      result is exactly "kept" for every position. */
  lemma {:induction false} KeptFromContains(bs: seq<Box>, i: nat, k: nat)
    requires i <= k < |bs| && Kept(bs, k)
    ensures bs[k] in KeptFrom(bs, i)
    decreases |bs| - i
  {
    if i < k {
      KeptFromContains(bs, i + 1, k);
    }
  }

  /** The suppression rule: a box is isolated-or-best exactly when no other
      box within 20 pixels is at least as confident.  Hence isolated boxes
      and a box more confident than every other survive, two close boxes of
      equal confidence both disappear, and no two surviving positions are
      within 20 pixels of each other. */
  lemma SuppressionRule(bs: seq<Box>, i: int, j: int)
    requires 0 <= i < |bs| && 0 <= j < |bs|
    ensures (forall k :: 0 <= k < |bs| && k != i ==> !Close(bs[i], bs[k])) ==> Kept(bs, i)
    ensures (forall k :: 0 <= k < |bs| && k != i ==> bs[k].conf < bs[i].conf) ==> Kept(bs, i)
    ensures i != j && Close(bs[i], bs[j]) && bs[i].conf == bs[j].conf ==> !Kept(bs, i) && !Kept(bs, j)
    ensures i != j && Kept(bs, i) && Kept(bs, j) ==> !Close(bs[i], bs[j])
  {
    CloseSymmetric(bs[i], bs[j]);
  }

  lemma KeptPairApart(bs: seq<Box>, i: int, j: int)
    requires 0 <= i < |bs| && 0 <= j < |bs| && i != j && Kept(bs, i) && Kept(bs, j)
    ensures !Close(bs[i], bs[j])
  {
    SuppressionRule(bs, i, j);
  }

  /** A kept box is apart from every box kept at a later position. */
  lemma {:induction false} HeadApart(bs: seq<Box>, i: nat, j: nat)
    requires i < j <= |bs| && Kept(bs, i)
    ensures forall q :: 0 <= q < |KeptFrom(bs, j)| ==> !Close(bs[i], KeptFrom(bs, j)[q])
    decreases |bs| - j
  {
    if j < |bs| {
      HeadApart(bs, i, j + 1);
      if Kept(bs, j) {
        KeptPairApart(bs, i, j);
        assert KeptFrom(bs, j) == [bs[j]] + KeptFrom(bs, j + 1);
      } else {
        assert KeptFrom(bs, j) == KeptFrom(bs, j + 1);
      }
    }
  }

  /** Consequently the list returned by `get_valid_boxes` holds no two boxes
      whose centres are within 20 pixels. */
  lemma {:induction false} ValidBoxesApart(bs: seq<Box>, i: nat)
    requires i <= |bs|
    ensures forall p, q :: 0 <= p < q < |KeptFrom(bs, i)| ==> !Close(KeptFrom(bs, i)[p], KeptFrom(bs, i)[q])
    decreases |bs| - i
  {
    if i < |bs| {
      ValidBoxesApart(bs, i + 1);
      var rest := KeptFrom(bs, i + 1);
      var r := KeptFrom(bs, i);
      if Kept(bs, i) {
        HeadApart(bs, i, i + 1);
        assert r == [bs[i]] + rest;
        forall p, q | 0 <= p < q < |r| ensures !Close(r[p], r[q]) {
          assert r[q] == rest[q - 1];
          if p > 0 {
            assert r[p] == rest[p - 1];
          }
        }
      } else {
        assert r == rest;
      }
    }
  }

  /** `MyBoxes`: the detected boxes of one frame, the frame's
      `orig_shape = (h, w)`, and the two lists its constructor caches. */
  datatype MyBoxes = MyBoxes(boxes: seq<Box>, origH: int, origW: int, completed: seq<Box>, valid: seq<Box>)

  /** The cached lists are the ones `get_completed_boxes` and
      `get_valid_boxes` compute. */
  ghost predicate Consistent(m: MyBoxes, tol: Tolerances) {
    m.completed == CompletedBoxes(m.boxes, m.origH, m.origW, tol)
    && m.valid == KeptFrom(m.completed, 0)
  }

  /** `MyBoxes.__init__` (after the tensor conversion): caches the completed
      boxes, then the valid ones computed from them. */
  method NewMyBoxes(boxes: seq<Box>, origH: int, origW: int, tol: Tolerances) returns (m: MyBoxes)
    ensures m.boxes == boxes && m.origH == origH && m.origW == origW
    ensures Consistent(m, tol)
    ensures SubseqOf(m.valid, m.completed) && SubseqOf(m.completed, m.boxes)
  {
    var completed := CompletedBoxes(boxes, origH, origW, tol);
    var valid := ValidBoxes(completed);
    CompletedBoxesSpec(boxes, origH, origW, tol);
    KeptFromSubseq(completed, 0);
    m := MyBoxes(boxes, origH, origW, completed, valid);
  }

  /** The property `centers`: one centre per detected box, in order. */
  function Centers(m: MyBoxes): (cs: seq<Point>)
    ensures |cs| == |m.boxes|
    ensures forall k :: 0 <= k < |cs| ==> cs[k] == Center(m.boxes[k])
  {
    seq(|m.boxes|, k requires 0 <= k < |m.boxes| => Center(m.boxes[k]))
  }

  /** What the detector hands over for one frame: its boxes (`None` when the
      model produced no box tensor) and the frame's shape. */
  datatype RawResult = RawResult(boxes: Option<seq<Box>>, origH: int, origW: int)

  /** `MyResults`: the detector's result with its boxes re-wrapped. */
  datatype MyResults = MyResults(boxes: Option<MyBoxes>, imgH: int, imgW: int)

  ghost predicate ResultConsistent(r: MyResults, tol: Tolerances) {
    r.boxes.Some? ==> Consistent(r.boxes.value, tol)
  }

  /** `MyResults.__init__` with the `boxes` setter: no boxes stay `None`,
      otherwise they become a `MyBoxes` over the frame's shape. */
  method NewMyResults(raw: RawResult, tol: Tolerances) returns (r: MyResults)
    ensures r.imgH == raw.origH && r.imgW == raw.origW
    ensures r.boxes.None? <==> raw.boxes.None?
    ensures raw.boxes.Some? ==> r.boxes.value.boxes == raw.boxes.value
    ensures raw.boxes.Some? ==> r.boxes.value.origH == raw.origH && r.boxes.value.origW == raw.origW
    ensures ResultConsistent(r, tol)
    ensures raw.boxes.Some? ==> forall b :: b in ResultCompletedBoxes(r, tol) <==> b in raw.boxes.value && IsComplete(b, raw.origW, raw.origH, tol)
    ensures raw.boxes.None? ==> ResultCompletedBoxes(r, tol) == [] && ResultValidBoxes(r, tol) == []
  {
    match raw.boxes
    case None =>
      r := MyResults(None, raw.origH, raw.origW);
    case Some(bs) =>
      var m := NewMyBoxes(bs, raw.origH, raw.origW, tol);
      r := MyResults(Some(m), raw.origH, raw.origW);
  }

  /** The property `completed_boxes` of a result: `[]` without boxes. */
  function ResultCompletedBoxes(r: MyResults, tol: Tolerances): (bs: seq<Box>)
    requires ResultConsistent(r, tol)
    ensures r.boxes.None? ==> bs == []
    ensures r.boxes.Some? ==> forall b :: b in bs <==> b in r.boxes.value.boxes && IsComplete(b, r.boxes.value.origW, r.boxes.value.origH, tol)
  {
    match r.boxes
    case None => []
    case Some(m) =>
      CompletedBoxesSpec(m.boxes, m.origH, m.origW, tol);
      m.completed
  }

  /** The property `valid_boxes` of a result: `[]` without boxes. */
  function ResultValidBoxes(r: MyResults, tol: Tolerances): (bs: seq<Box>)
    requires ResultConsistent(r, tol)
    ensures r.boxes.None? ==> bs == []
    ensures r.boxes.Some? ==> SubseqOf(bs, r.boxes.value.completed)
    ensures forall p, q :: 0 <= p < q < |bs| ==> !Close(bs[p], bs[q])
  {
    match r.boxes
    case None => []
    case Some(m) =>
      KeptFromSubseq(m.completed, 0);
      ValidBoxesApart(m.completed, 0);
      m.valid
  }

  /** `ResultTracker.MAX_RESULTS`. */
  const MaxResults: nat := 5

  /** The history after `add_new_result`: append, then drop the oldest once
      the history is longer than `MAX_RESULTS`. */
  function Pushed<T>(hist: seq<T>, r: T): seq<T> {
    var h := hist + [r];
    if |h| > MaxResults then h[1..] else h
  }

  /** A history never grows past five results; pushing adds the newest at
      the end, keeps the most recent ones in order, and has length
      `min(old + 1, 5)`. */
  lemma PushedBounded<T>(hist: seq<T>, r: T)
    requires |hist| <= MaxResults
    ensures var h := Pushed(hist, r);
      |h| <= MaxResults
      && |h| == (if |hist| + 1 < MaxResults then |hist| + 1 else MaxResults)
      && h[|h| - 1] == r
      && h == (hist + [r])[|hist| + 1 - |h|..]
  {
  }

  /** `ResultTracker`: the rolling history of the last results. */
  class ResultTracker {
    var resultsHist: seq<MyResults>

    ghost predicate Valid(tol: Tolerances)
      reads this
    {
      |resultsHist| <= MaxResults && forall k :: 0 <= k < |resultsHist| ==> ResultConsistent(resultsHist[k], tol)
    }

    constructor ()
      ensures resultsHist == []
    {
      resultsHist := [];
    }

    /** `add_new_result`: wrap the detector's result and push it. */
    method AddNewResult(raw: RawResult, tol: Tolerances)
      requires Valid(tol)
      modifies this
      ensures Valid(tol)
      ensures |resultsHist| >= 1 && resultsHist == Pushed(old(resultsHist), resultsHist[|resultsHist| - 1])
      ensures var last := resultsHist[|resultsHist| - 1];
        last.imgH == raw.origH && last.imgW == raw.origW
        && (last.boxes.None? <==> raw.boxes.None?)
        && (raw.boxes.Some? ==> last.boxes.value.boxes == raw.boxes.value)
        && (raw.boxes.Some? ==> last.boxes.value.origH == raw.origH && last.boxes.value.origW == raw.origW)
        && (raw.boxes.Some? ==> forall b :: b in ResultCompletedBoxes(last, tol) <==> b in raw.boxes.value && IsComplete(b, raw.origW, raw.origH, tol))
    {
      var r := NewMyResults(raw, tol);
      resultsHist := resultsHist + [r];
      if |resultsHist| > MaxResults {
        resultsHist := resultsHist[1..];
      }
    }

    /** The result `plot` draws: the newest one; an empty history raises
      `IndexError`. */
    function Latest(): (r: Result<MyResults>)
      reads this
      ensures r.Ok? <==> resultsHist != []
      ensures r.Ok? ==> r.value == resultsHist[|resultsHist| - 1]
    {
      if resultsHist == [] then Err(IndexError) else Ok(resultsHist[|resultsHist| - 1])
    }
  }
}
