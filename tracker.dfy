/** The labelling logic of the tracker on the Raspberry Pi
    (`src/raspberry_pi/tracker.py`): the SKU-to-class-id file, the
    hand-aware shrinking of a tracked box, the YOLO-style normalisation of a
    box, and the counter that saves a track's frame once it has been seen
    often enough.

    The detector, the tracker and the hand landmarks are inputs: each frame
    arrives with whether any contour survived the area filter, the tracks the
    tracker reports for it, the hand polygons and the frame size. Images and
    label files are not written; the saves are returned. */
module Tracker {
  import opened Text

  // ---------------------------------------------------------------------
  // Class ids

  /** Every id below the number of classes, and no two SKUs sharing one. */
  predicate DenseIds(classes: map<string, nat>) {
    && (forall s :: s in classes ==> classes[s] < |classes|)
    && (forall s, t :: s in classes && t in classes && s != t ==> classes[s] != classes[t])
  }

  /** `ensure_class_id(sku)` on the contents of `classes.json` (empty when
      the file does not exist): the stored id of a known SKU, otherwise the
      next id, `len(cls)`, recorded for it. */
  function AssignId(classes: map<string, nat>, sku: string): (r: (map<string, nat>, nat))
    ensures sku in classes ==> r == (classes, classes[sku])
    ensures sku !in classes ==> r.1 == |classes| && r.0 == classes[sku := |classes|]
    ensures r.0.Keys == classes.Keys + {sku} && r.0[sku] == r.1
  {
    if sku in classes then (classes, classes[sku]) else (classes[sku := |classes|], |classes|)
  }

  /** Assigning ids keeps them dense: a new SKU gets the one id not yet used. */
  lemma AssignIdDense(classes: map<string, nat>, sku: string)
    ensures DenseIds(classes) ==> DenseIds(AssignId(classes, sku).0)
  {
    if sku !in classes && DenseIds(classes) {
      var m := classes[sku := |classes|];
      assert |m| == |classes| + 1;
      forall s, t | s in m && t in m && s != t
        ensures m[s] != m[t]
      {
        if s != sku && t != sku {
          assert m[s] == classes[s] && m[t] == classes[t];
        }
      }
    }
  }

  /** `classes.json` as a mutable map of SKU to class id. */
  class ClassFile {
    var classes: map<string, nat>

    /** A missing file reads as the empty map. */
    constructor ()
      ensures classes == map[]
    {
      classes := map[];
    }

    /** `ensure_class_id(sku)`: the file is rewritten only for a new SKU. */
    method EnsureClassId(sku: string) returns (id: nat)
      modifies this
      ensures (classes, id) == AssignId(old(classes), sku)
      ensures DenseIds(old(classes)) ==> DenseIds(classes)
    {
      if sku !in classes {
        AssignIdDense(classes, sku);
        classes := classes[sku := |classes|];
      }
      id := classes[sku];
    }
  }

  // ---------------------------------------------------------------------
  // Hand-aware box shrinking

  /** A box in integer pixel corners, `[x1, y1, x2, y2]`. */
  datatype Box = Box(x1: int, y1: int, x2: int, y2: int)

  /** The tracker's `tlbr` box as `map(int, box)` reads it. */
  datatype Tlbr = Tlbr(left: real, top: real, right: real, bottom: real)

  function IntBox(b: Tlbr): Box {
    Box(Trunc(b.left), Trunc(b.top), Trunc(b.right), Trunc(b.bottom))
  }

  /** The edge of the box a hand covers. */
  datatype Side = Right | Left | Bottom | Top

  /** `poly.min(0)` and `poly.max(0)`: the bounding box of a hand polygon. */
  function Hull(poly: seq<(int, int)>): (h: Box)
    requires poly != []
    ensures forall k :: 0 <= k < |poly| ==> h.x1 <= poly[k].0 <= h.x2 && h.y1 <= poly[k].1 <= h.y2
    decreases |poly|
  {
    var (x, y) := poly[0];
    if |poly| == 1 then Box(x, y, x, y)
    else
      var h := Hull(poly[1..]);
      assert forall k :: 1 <= k < |poly| ==> poly[k] == poly[1..][k - 1];
      Box(Min(x, h.x1), Min(y, h.y1), Max(x, h.x2), Max(y, h.y2))
  }

  /** Each bound of the hull is reached by a corner of the polygon. */
  lemma {:induction false} HullTight(poly: seq<(int, int)>)
    requires poly != []
    ensures exists k :: 0 <= k < |poly| && poly[k].0 == Hull(poly).x1
    ensures exists k :: 0 <= k < |poly| && poly[k].1 == Hull(poly).y1
    ensures exists k :: 0 <= k < |poly| && poly[k].0 == Hull(poly).x2
    ensures exists k :: 0 <= k < |poly| && poly[k].1 == Hull(poly).y2
    decreases |poly|
  {
    if |poly| > 1 {
      var rest := poly[1..];
      HullTight(rest);
      var h, g := Hull(poly), Hull(rest);
      var a :| 0 <= a < |rest| && rest[a].0 == g.x1;
      var b :| 0 <= b < |rest| && rest[b].1 == g.y1;
      var c :| 0 <= c < |rest| && rest[c].0 == g.x2;
      var d :| 0 <= d < |rest| && rest[d].1 == g.y2;
      assert poly[a + 1] == rest[a] && poly[b + 1] == rest[b] && poly[c + 1] == rest[c] && poly[d + 1] == rest[d];
      var i := if h.x1 == poly[0].0 then 0 else a + 1;
      var j := if h.y1 == poly[0].1 then 0 else b + 1;
      var m := if h.x2 == poly[0].0 then 0 else c + 1;
      var n := if h.y2 == poly[0].1 then 0 else d + 1;
      assert poly[i].0 == h.x1 && poly[j].1 == h.y1 && poly[m].0 == h.x2 && poly[n].1 == h.y2;
    } else {
      assert poly[0].0 == Hull(poly).x1 && poly[0].1 == Hull(poly).y1;
      assert poly[0].0 == Hull(poly).x2 && poly[0].1 == Hull(poly).y2;
    }
  }

  /** The overlap of a hand's box with the tracked box, when the two
      intersect: the intersection over the box's own area (plus `1e-9`), and
      the edge it covers, tested right, left, bottom, then top within 5 px. */
  function Overlap(b: Box, hand: Box): (r: Option<(real, Side)>)
    ensures r.Some? ==> r.value.0 > 0.0
    ensures r.Some? <==> Max(b.x1, hand.x1) < Min(b.x2, hand.x2) && Max(b.y1, hand.y1) < Min(b.y2, hand.y2)
  {
    var ix1, iy1 := Max(b.x1, hand.x1), Max(b.y1, hand.y1);
    var ix2, iy2 := Min(b.x2, hand.x2), Min(b.y2, hand.y2);
    if ix1 < ix2 && iy1 < iy2 then
      var side :=
        if Abs(ix2 - b.x2) < 5 then Right
        else if Abs(ix1 - b.x1) < 5 then Left
        else if Abs(iy2 - b.y2) < 5 then Bottom
        else Top;
      Some((Iou(Area(ix2 - ix1, iy2 - iy1), Area(b.x2 - b.x1, b.y2 - b.y1)), side))
    else None
  }

  function Area(w: int, h: int): (a: int)
    requires w > 0 && h > 0
    ensures a > 0
  {
    PositiveProduct(w, h);
    w * h
  }

  /** `inter / (area + 1e-9)`. */
  function Iou(inter: int, area: int): (r: real)
    requires inter > 0 && area > 0
    ensures r > 0.0
  {
    inter as real / (area as real + 0.000000001)
  }

  lemma PositiveProduct(a: int, b: int)
    requires a > 0 && b > 0
    ensures a * b > 0
  {
  }

  /** The overlap of one hand polygon with the box. */
  function HandOverlap(b: Box, poly: seq<(int, int)>): Option<(real, Side)>
    requires poly != []
  {
    Overlap(b, Hull(poly))
  }

  /** The hand loop of `shrink_box` over the first polygons: the best ratio
      so far and the edge of the hand that gave it; `ValueError` when a
      polygon is empty (`min` of an empty array). */
  function Worst(b: Box, polys: seq<seq<(int, int)>>): (r: Result<(real, Option<Side>), PyError>)
    ensures r.Failure? ==> r.error == ValueError
    ensures r.Success? ==> r.value.0 >= 0.0 && (r.value.1.None? <==> r.value.0 == 0.0)
    decreases |polys|
  {
    if polys == [] then Success((0.0, None))
    else
      match Worst(b, polys[..|polys| - 1])
      case Failure(e) => Failure(e)
      case Success(acc) => WorstStep(b, acc, polys[|polys| - 1])
  }

  /** One polygon of the hand loop. */
  function WorstStep(b: Box, acc: (real, Option<Side>), poly: seq<(int, int)>): Result<(real, Option<Side>), PyError> {
    if poly == [] then Failure(ValueError)
    else match HandOverlap(b, poly)
      case None => Success(acc)
      case Some(o) => if o.0 > acc.0 then Success((o.0, Some(o.1))) else Success(acc)
  }

  /** The ratio a polygon gives the box, zero when it does not overlap. */
  function Ratio(b: Box, poly: seq<(int, int)>): (r: real)
    requires poly != []
    ensures r >= 0.0
  {
    match HandOverlap(b, poly)
    case None => 0.0
    case Some(o) => o.0
  }

  /** The first polygon of highest ratio decides the edge. */
  predicate FirstBest(b: Box, polys: seq<seq<(int, int)>>, i: int, best: real)
    requires forall k :: 0 <= k < |polys| ==> polys[k] != []
  {
    && 0 <= i < |polys| && Ratio(b, polys[i]) == best
    && forall k :: 0 <= k < i ==> Ratio(b, polys[k]) < best
  }

  /** The hand loop raises exactly when one of the polygons is empty. */
  lemma {:induction false} WorstFails(b: Box, polys: seq<seq<(int, int)>>)
    ensures Worst(b, polys).Failure? <==> exists k :: 0 <= k < |polys| && polys[k] == []
    decreases |polys|
  {
    if polys != [] {
      var n := |polys| - 1;
      WorstFails(b, polys[..n]);
      assert forall k :: 0 <= k < n ==> polys[..n][k] == polys[k];
    }
  }

  /** The hand loop finds the highest ratio of all the polygons. */
  lemma {:induction false} WorstIsMax(b: Box, polys: seq<seq<(int, int)>>)
    requires forall k :: 0 <= k < |polys| ==> polys[k] != []
    ensures Worst(b, polys).Success?
    ensures forall k :: 0 <= k < |polys| ==> Ratio(b, polys[k]) <= Worst(b, polys).value.0
    decreases |polys|
  {
    if polys != [] {
      var n := |polys| - 1;
      WorstIsMax(b, polys[..n]);
      assert forall k :: 0 <= k < n ==> polys[..n][k] == polys[k];
    }
  }

  /** The edge comes from the first polygon that reaches the highest ratio. */
  lemma {:induction false} WorstIsFirst(b: Box, polys: seq<seq<(int, int)>>)
    requires forall k :: 0 <= k < |polys| ==> polys[k] != []
    ensures Worst(b, polys).Success? && Worst(b, polys).value.1.Some? ==>
      exists i :: FirstBest(b, polys, i, Worst(b, polys).value.0)
               && Worst(b, polys).value.1 == Some(HandOverlap(b, polys[i]).value.1)
    decreases |polys|
  {
    if polys != [] {
      var n := |polys| - 1;
      var front := polys[..n];
      assert forall k :: 0 <= k < n ==> front[k] == polys[k];
      WorstIsFirst(b, front);
      WorstIsMax(b, front);
      var acc := Worst(b, front).value;
      var r := Worst(b, polys).value;
      if r != acc {
        assert FirstBest(b, polys, n, r.0);
      } else if acc.1.Some? {
        var i :| FirstBest(b, front, i, acc.0) && acc.1 == Some(HandOverlap(b, front[i]).value.1);
        assert FirstBest(b, polys, i, r.0);
      }
    }
  }

  /** No edge is chosen exactly when no hand overlaps the box. */
  lemma WorstNoEdge(b: Box, polys: seq<seq<(int, int)>>)
    requires forall k :: 0 <= k < |polys| ==> polys[k] != []
    ensures Worst(b, polys).Success?
    ensures Worst(b, polys).value.1.None? <==> forall k :: 0 <= k < |polys| ==> HandOverlap(b, polys[k]).None?
  {
    WorstIsMax(b, polys);
    WorstIsFirst(b, polys);
    var w := Worst(b, polys).value;
    if w.1.Some? {
      var i :| FirstBest(b, polys, i, w.0) && w.1 == Some(HandOverlap(b, polys[i]).value.1);
      assert HandOverlap(b, polys[i]).Some?;
    } else {
      forall k | 0 <= k < |polys|
        ensures HandOverlap(b, polys[k]).None?
      {
        assert Ratio(b, polys[k]) <= 0.0;
      }
    }
  }

  /** `int(0.15 * d)`. */
  function Margin(d: int): (m: int)
    ensures d >= 0 ==> 0 <= m <= d
  {
    Trunc(0.15 * d as real)
  }

  /** `shrink_box(box, hand_polys, thr)`: the integer box unchanged when no
      hand overlaps it by `thr` or more, otherwise the covered edge moved
      inward by 15% of the width or height. */
  function Shrink(box: Tlbr, polys: seq<seq<(int, int)>>, thr: real): (r: Result<Box, PyError>)
    ensures r.Failure? ==> r.error == ValueError
  {
    var b := IntBox(box);
    match Worst(b, polys)
    case Failure(e) => Failure(e)
    case Success(w) =>
      if w.0 < thr then Success(b)
      else Success(MoveEdge(b, w.1))
  }

  function MoveEdge(b: Box, side: Option<Side>): Box {
    var dx, dy := Margin(b.x2 - b.x1), Margin(b.y2 - b.y1);
    match side
    case None => b
    case Some(Right) => b.(x2 := b.x2 - dx)
    case Some(Left) => b.(x1 := b.x1 + dx)
    case Some(Bottom) => b.(y2 := b.y2 - dy)
    case Some(Top) => b.(y1 := b.y1 + dy)
  }

  /** Below the threshold the box is returned as `map(int, box)` gives it. */
  lemma ShrinkBelowThreshold(box: Tlbr, polys: seq<seq<(int, int)>>, thr: real)
    requires forall k :: 0 <= k < |polys| ==> polys[k] != []
    requires forall k :: 0 <= k < |polys| ==> Ratio(IntBox(box), polys[k]) < thr
    ensures Shrink(box, polys, thr) == Success(IntBox(box))
  {
    WorstIsMax(IntBox(box), polys);
    WorstIsFirst(IntBox(box), polys);
  }

  /** Moving an edge inward by the margin keeps a box with its corners in
      order inside itself and in order, and leaves the other three edges. */
  lemma MoveEdgeInside(b: Box, side: Option<Side>)
    requires b.x1 <= b.x2 && b.y1 <= b.y2
    ensures var r := MoveEdge(b, side);
      && b.x1 <= r.x1 <= r.x2 <= b.x2 && b.y1 <= r.y1 <= r.y2 <= b.y2
      && (side != Some(Right) ==> r.x2 == b.x2) && (side == Some(Right) ==> r.x2 == b.x2 - Margin(b.x2 - b.x1))
      && (side != Some(Left) ==> r.x1 == b.x1) && (side == Some(Left) ==> r.x1 == b.x1 + Margin(b.x2 - b.x1))
      && (side != Some(Bottom) ==> r.y2 == b.y2) && (side == Some(Bottom) ==> r.y2 == b.y2 - Margin(b.y2 - b.y1))
      && (side != Some(Top) ==> r.y1 == b.y1) && (side == Some(Top) ==> r.y1 == b.y1 + Margin(b.y2 - b.y1))
  {
  }

  /** A shrunk box is the integer box with at most the covered edge moved. */
  lemma ShrinkInside(box: Tlbr, polys: seq<seq<(int, int)>>, thr: real)
    requires IntBox(box).x1 <= IntBox(box).x2 && IntBox(box).y1 <= IntBox(box).y2
    ensures Shrink(box, polys, thr).Success? ==>
      exists side :: Shrink(box, polys, thr).value == MoveEdge(IntBox(box), side)
    ensures Shrink(box, polys, thr).Success? ==>
      var b, r := IntBox(box), Shrink(box, polys, thr).value;
      b.x1 <= r.x1 <= r.x2 <= b.x2 && b.y1 <= r.y1 <= r.y2 <= b.y2
  {
    var b := IntBox(box);
    var w := Worst(b, polys);
    if w.Success? {
      var side := if w.value.0 < thr then None else w.value.1;
      assert Shrink(box, polys, thr).value == MoveEdge(b, side);
      MoveEdgeInside(b, side);
    }
  }

  /** The hand loop of `shrink_box`. */
  method ScanHands(b: Box, polys: seq<seq<(int, int)>>) returns (r: Result<(real, Option<Side>), PyError>)
    ensures r == Worst(b, polys)
  {
    var best := 0.0;
    var side: Option<Side> := None;
    var i := 0;
    while i < |polys|
      invariant 0 <= i <= |polys|
      invariant Worst(b, polys[..i]) == Success((best, side))
    {
      assert polys[..i + 1][..i] == polys[..i];
      var poly := polys[i];
      if poly == [] {
        WorstFailureStays(b, polys, i + 1);
        return Failure(ValueError);
      }
      var o := Overlap(b, Hull(poly));
      if o.Some? && o.value.0 > best {
        best, side := o.value.0, Some(o.value.1);
      }
      i := i + 1;
    }
    assert polys[..|polys|] == polys;
    return Success((best, side));
  }

  /** Once a polygon raises, the loop's outcome is that error. */
  lemma {:induction false} WorstFailureStays(b: Box, polys: seq<seq<(int, int)>>, n: nat)
    requires n <= |polys| && Worst(b, polys[..n]).Failure?
    ensures Worst(b, polys).Failure?
    decreases |polys| - n
  {
    if n < |polys| {
      assert polys[..n + 1][..n] == polys[..n];
      WorstFailureStays(b, polys, n + 1);
    } else {
      assert polys[..n] == polys;
    }
  }

  /** `shrink_box(box, hand_polys, thr)`. */
  method ShrinkBox(box: Tlbr, polys: seq<seq<(int, int)>>, thr: real) returns (r: Result<Box, PyError>)
    ensures r == Shrink(box, polys, thr)
  {
    var b := IntBox(box);
    var w := ScanHands(b, polys);
    if w.Failure? {
      return Failure(w.error);
    }
    if w.value.0 < thr {
      return Success(b);
    }
    var dx := Margin(b.x2 - b.x1);
    var dy := Margin(b.y2 - b.y1);
    var x1, y1, x2, y2 := b.x1, b.y1, b.x2, b.y2;
    if w.value.1 == Some(Right) { x2 := x2 - dx; }
    if w.value.1 == Some(Left) { x1 := x1 + dx; }
    if w.value.1 == Some(Bottom) { y2 := y2 - dy; }
    if w.value.1 == Some(Top) { y1 := y1 + dy; }
    return Success(Box(x1, y1, x2, y2));
  }

  // ---------------------------------------------------------------------
  // Normalised labels

  /** A label line's numbers: centre and size as fractions of the frame. */
  datatype Label = Label(xc: real, yc: real, bw: real, bh: real)

  /** `normalise(bb, W, H)`; a zero frame dimension divides by zero. */
  function Normalise(bb: Box, w: int, h: int): (r: Result<Label, PyError>)
    ensures r.Failure? <==> w == 0 || h == 0
    ensures r.Failure? ==> r.error == ZeroDivisionError
  {
    if w == 0 || h == 0 then Failure(ZeroDivisionError)
    else
      var fw, fh := w as real, h as real;
      Success(Label((bb.x1 + bb.x2) as real / 2.0 / fw, (bb.y1 + bb.y2) as real / 2.0 / fh,
                    (bb.x2 - bb.x1) as real / fw, (bb.y2 - bb.y1) as real / fh))
  }

  /** A box inside the frame gives a label whose box is inside the unit
      square, and the label gives the box back. */
  lemma NormaliseInFrame(bb: Box, w: int, h: int)
    requires 0 <= bb.x1 <= bb.x2 <= w && 0 <= bb.y1 <= bb.y2 <= h && w > 0 && h > 0
    ensures var l := Normalise(bb, w, h).value;
      && 0.0 <= l.xc - l.bw / 2.0 && l.xc + l.bw / 2.0 <= 1.0
      && 0.0 <= l.yc - l.bh / 2.0 && l.yc + l.bh / 2.0 <= 1.0
      && (l.xc - l.bw / 2.0) * w as real == bb.x1 as real && (l.xc + l.bw / 2.0) * w as real == bb.x2 as real
      && (l.yc - l.bh / 2.0) * h as real == bb.y1 as real && (l.yc + l.bh / 2.0) * h as real == bb.y2 as real
  {
    var l := Normalise(bb, w, h).value;
    ScaledEdges(bb.x1, bb.x2, w, l.xc, l.bw);
    ScaledEdges(bb.y1, bb.y2, h, l.yc, l.bh);
  }

  lemma ScaledEdges(a: int, b: int, w: int, c: real, s: real)
    requires 0 <= a <= b <= w && w > 0
    requires c == (a + b) as real / 2.0 / w as real && s == (b - a) as real / w as real
    ensures c - s / 2.0 == a as real / w as real && c + s / 2.0 == b as real / w as real
    ensures 0.0 <= c - s / 2.0 && c + s / 2.0 <= 1.0
    ensures (c - s / 2.0) * w as real == a as real && (c + s / 2.0) * w as real == b as real
  {
    var fw := w as real;
    assert c - s / 2.0 == a as real / fw;
    assert c + s / 2.0 == b as real / fw;
    assert a as real / fw <= b as real / fw <= 1.0 by {
      assert b as real <= fw;
    }
  }

  /** The box in the horizontally flipped frame (`cv2.flip(frame, 1)`). */
  function Flip(bb: Box, w: int): Box {
    Box(w - bb.x2, bb.y1, w - bb.x1, bb.y2)
  }

  /** The augmented label, written with `1 - xc`, is the label of the box in
      the flipped frame. */
  lemma MirroredLabel(bb: Box, w: int, h: int)
    requires w != 0 && h != 0
    ensures var l := Normalise(bb, w, h).value;
      Normalise(Flip(bb, w), w, h) == Success(l.(xc := 1.0 - l.xc))
  {
    MirroredCentre((bb.x1 + bb.x2) as real, w as real);
    assert (w - bb.x2 + (w - bb.x1)) as real == 2.0 * w as real - (bb.x1 + bb.x2) as real;
  }

  lemma MirroredCentre(a: real, fw: real)
    requires fw != 0.0
    ensures (2.0 * fw - a) / 2.0 / fw == 1.0 - a / 2.0 / fw
  {
    var c := a / 2.0;
    assert (2.0 * fw - a) / 2.0 == fw - c;
    assert (fw - c) / fw == fw / fw - c / fw;
  }

  // ---------------------------------------------------------------------
  // Stable-frame counting

  /** One tracked object of a frame: the tracker's id and box. */
  datatype Track = Track(id: nat, tlbr: Tlbr)

  /** One frame as `track_and_save` sees it: whether any contour passed the
      area filter, the tracks the tracker reports, the hand polygons and the
      frame size. */
  datatype Frame = Frame(detected: bool, tracks: seq<Track>, hands: seq<seq<(int, int)>>, width: int, height: int)

  /** The autolabel settings that `track_and_save` reads, and the class id
      `ensure_class_id` gave the session's SKU. */
  datatype Settings = Settings(stableFrames: int, handIouMax: real, saveAug: bool, classId: nat)

  /** A saved frame: the track, the frame's index, the class id, the shrunk
      box, its label, and the label of the flipped copy when augmenting. */
  datatype Saved = Saved(track: nat, frame: nat, classId: nat, box: Box, yolo: Label, mirrored: Option<Label>)

  /** The `stable` counters and the saves so far. */
  type Progress = (map<nat, nat>, seq<Saved>)

  function Count(stable: map<nat, nat>, id: nat): nat {
    if id in stable then stable[id] else 0
  }

  /** The save of a track's box in frame `fi`, labelled. */
  function SaveOf(s: Settings, fi: nat, id: nat, bb: Box, l: Label): Saved {
    Saved(id, fi, s.classId, bb, l, if s.saveAug then Some(l.(xc := 1.0 - l.xc)) else None)
  }

  /** The augmented label of a save is the label of the box in the flipped
      frame. */
  lemma SaveOfMirrored(s: Settings, fi: nat, id: nat, bb: Box, w: int, h: int)
    requires w != 0 && h != 0 && s.saveAug
    ensures var sv := SaveOf(s, fi, id, bb, Normalise(bb, w, h).value);
      && sv.mirrored.Some? && Normalise(bb, w, h) == Success(sv.yolo)
      && Normalise(Flip(bb, w), w, h) == Success(sv.mirrored.value)
  {
    MirroredLabel(bb, w, h);
  }

  /** One track of a frame: the box is shrunk, the track's counter goes up
      by one, and the frame is saved, with its label, when the counter
      reaches exactly `stable_frames`. */
  function TrackStep(s: Settings, fi: nat, f: Frame, t: Track, p: Progress): (r: Result<Progress, PyError>)
    ensures r.Failure? <==>
      Shrink(t.tlbr, f.hands, s.handIouMax).Failure? ||
      (Count(p.0, t.id) + 1 == s.stableFrames && (f.width == 0 || f.height == 0))
    ensures r.Success? ==>
      && r.value.0 == p.0[t.id := Count(p.0, t.id) + 1]
      && (Count(p.0, t.id) + 1 != s.stableFrames ==> r.value.1 == p.1)
      && (Count(p.0, t.id) + 1 == s.stableFrames ==>
            var bb := Shrink(t.tlbr, f.hands, s.handIouMax).value;
            r.value.1 == p.1 + [SaveOf(s, fi, t.id, bb, Normalise(bb, f.width, f.height).value)])
  {
    match Shrink(t.tlbr, f.hands, s.handIouMax)
    case Failure(e) => Failure(e)
    case Success(bb) =>
      var c := Count(p.0, t.id) + 1;
      if c != s.stableFrames then Success((p.0[t.id := c], p.1))
      else match Normalise(bb, f.width, f.height)
        case Failure(e) => Failure(e)
        case Success(l) => Success((p.0[t.id := c], p.1 + [SaveOf(s, fi, t.id, bb, l)]))
  }

  /** The tracks of one frame from `ts` on. */
  function TracksFrom(s: Settings, fi: nat, f: Frame, ts: seq<Track>, p: Progress): Result<Progress, PyError>
    decreases |ts|
  {
    if ts == [] then Success(p)
    else match TrackStep(s, fi, f, ts[0], p)
      case Failure(e) => Failure(e)
      case Success(q) => TracksFrom(s, fi, f, ts[1..], q)
  }

  /** One frame: one without detections leaves every counter alone. */
  function FrameStep(s: Settings, fi: nat, f: Frame, p: Progress): Result<Progress, PyError> {
    if !f.detected then Success(p) else TracksFrom(s, fi, f, f.tracks, p)
  }

  /** The frame loop of `track_and_save` from frame `fi` on. */
  function FramesFrom(s: Settings, frames: seq<Frame>, fi: nat, p: Progress): Result<Progress, PyError>
    requires fi <= |frames|
    decreases |frames| - fi
  {
    if fi == |frames| then Success(p)
    else match FrameStep(s, fi, frames[fi], p)
      case Failure(e) => Failure(e)
      case Success(q) => FramesFrom(s, frames, fi + 1, q)
  }

  /** Every saved track has reached the threshold. */
  predicate SavesReached(sf: int, p: Progress) {
    forall k :: 0 <= k < |p.1| ==> Count(p.0, p.1[k].track) >= sf
  }

  /** No track is saved twice. */
  predicate SavesDistinct(p: Progress) {
    forall k, l :: 0 <= k < l < |p.1| ==> p.1[k].track != p.1[l].track
  }

  /** With a threshold of at least one, every track that reached it is saved. */
  predicate ReachedSaved(sf: int, p: Progress) {
    sf >= 1 ==> forall id :: id in p.0 && p.0[id] >= sf ==> exists k :: 0 <= k < |p.1| && p.1[k].track == id
  }

  predicate Consistent(sf: int, p: Progress) {
    SavesReached(sf, p) && SavesDistinct(p) && ReachedSaved(sf, p)
  }

  lemma TrackStepReached(s: Settings, fi: nat, f: Frame, t: Track, p: Progress)
    requires SavesReached(s.stableFrames, p)
    ensures TrackStep(s, fi, f, t, p).Success? ==> SavesReached(s.stableFrames, TrackStep(s, fi, f, t, p).value)
  {
    var r := TrackStep(s, fi, f, t, p);
    if r.Success? {
      var q := r.value;
      forall k | 0 <= k < |q.1|
        ensures Count(q.0, q.1[k].track) >= s.stableFrames
      {
        if k < |p.1| {
          assert q.1[k] == p.1[k];
        }
      }
    }
  }

  lemma TrackStepDistinct(s: Settings, fi: nat, f: Frame, t: Track, p: Progress)
    requires SavesReached(s.stableFrames, p) && SavesDistinct(p)
    ensures TrackStep(s, fi, f, t, p).Success? ==> SavesDistinct(TrackStep(s, fi, f, t, p).value)
  {
    var r := TrackStep(s, fi, f, t, p);
    if r.Success? && Count(p.0, t.id) + 1 == s.stableFrames {
      var q := r.value;
      forall k, l | 0 <= k < l < |q.1|
        ensures q.1[k].track != q.1[l].track
      {
        assert q.1[k] == p.1[k];
        if l < |p.1| {
          assert q.1[l] == p.1[l];
        } else {
          assert Count(p.0, p.1[k].track) >= s.stableFrames;
        }
      }
    }
  }

  lemma TrackStepReachedSaved(s: Settings, fi: nat, f: Frame, t: Track, p: Progress)
    requires ReachedSaved(s.stableFrames, p)
    ensures TrackStep(s, fi, f, t, p).Success? ==> ReachedSaved(s.stableFrames, TrackStep(s, fi, f, t, p).value)
  {
    var r := TrackStep(s, fi, f, t, p);
    if r.Success? && s.stableFrames >= 1 {
      var q := r.value;
      forall id | id in q.0 && q.0[id] >= s.stableFrames
        ensures exists k :: 0 <= k < |q.1| && q.1[k].track == id
      {
        if id == t.id && Count(p.0, t.id) + 1 == s.stableFrames {
          assert q.1[|p.1|].track == id;
        } else {
          var k :| 0 <= k < |p.1| && p.1[k].track == id;
          assert q.1[k] == p.1[k];
        }
      }
    }
  }

  lemma {:induction false} TracksFromConsistent(s: Settings, fi: nat, f: Frame, ts: seq<Track>, p: Progress)
    requires Consistent(s.stableFrames, p)
    ensures TracksFrom(s, fi, f, ts, p).Success? ==> Consistent(s.stableFrames, TracksFrom(s, fi, f, ts, p).value)
    decreases |ts|
  {
    if ts != [] {
      TrackStepReached(s, fi, f, ts[0], p);
      TrackStepDistinct(s, fi, f, ts[0], p);
      TrackStepReachedSaved(s, fi, f, ts[0], p);
      var r := TrackStep(s, fi, f, ts[0], p);
      if r.Success? {
        TracksFromConsistent(s, fi, f, ts[1..], r.value);
      }
    }
  }

  /** Over the whole run each track is saved at most once, every save is of
      a track seen `stable_frames` times or more, and every track seen that
      often is saved. */
  lemma {:induction false} FramesFromConsistent(s: Settings, frames: seq<Frame>, fi: nat, p: Progress)
    requires fi <= |frames| && Consistent(s.stableFrames, p)
    ensures FramesFrom(s, frames, fi, p).Success? ==> Consistent(s.stableFrames, FramesFrom(s, frames, fi, p).value)
    decreases |frames| - fi
  {
    if fi < |frames| {
      if frames[fi].detected {
        TracksFromConsistent(s, fi, frames[fi], frames[fi].tracks, p);
      }
      var r := FrameStep(s, fi, frames[fi], p);
      if r.Success? {
        FramesFromConsistent(s, frames, fi + 1, r.value);
      }
    }
  }

  /** Saves are only ever appended. */
  lemma {:induction false} TracksFromExtends(s: Settings, fi: nat, f: Frame, ts: seq<Track>, p: Progress)
    ensures TracksFrom(s, fi, f, ts, p).Success? ==> p.1 <= TracksFrom(s, fi, f, ts, p).value.1
    decreases |ts|
  {
    if ts != [] {
      var r := TrackStep(s, fi, f, ts[0], p);
      if r.Success? {
        TracksFromExtends(s, fi, f, ts[1..], r.value);
      }
    }
  }

  /** One track of a frame: `shrink_box`, the counter, and the save. */
  method SaveTrack(s: Settings, fi: nat, f: Frame, t: Track, stable: map<nat, nat>, saves: seq<Saved>)
    returns (r: Result<Progress, PyError>)
    ensures r == TrackStep(s, fi, f, t, (stable, saves))
  {
    var bb := ShrinkBox(t.tlbr, f.hands, s.handIouMax);
    if bb.Failure? {
      return Failure(bb.error);
    }
    var c := Count(stable, t.id) + 1;
    var stable' := stable[t.id := c];
    if c != s.stableFrames {
      return Success((stable', saves));
    }
    var l := Normalise(bb.value, f.width, f.height);
    if l.Failure? {
      return Failure(l.error);
    }
    return Success((stable', saves + [SaveOf(s, fi, t.id, bb.value, l.value)]));
  }

  /** The tracks loop of one frame. */
  method SaveTracks(s: Settings, fi: nat, f: Frame, p: Progress) returns (r: Result<Progress, PyError>)
    ensures r == TracksFrom(s, fi, f, f.tracks, p)
  {
    var stable: map<nat, nat>, saves := p.0, p.1;
    var todo := f.tracks;
    while todo != []
      invariant TracksFrom(s, fi, f, f.tracks, p) == TracksFrom(s, fi, f, todo, (stable, saves))
      decreases |todo|
    {
      var q := SaveTrack(s, fi, f, todo[0], stable, saves);
      if q.Failure? {
        return Failure(q.error);
      }
      stable, saves := q.value.0, q.value.1;
      todo := todo[1..];
    }
    return Success((stable, saves));
  }

  /** `track_and_save(...)` over the frames that arrive before the queue
      times out: the saves, and their number, which is what it returns. */
  method TrackAndSave(s: Settings, frames: seq<Frame>) returns (r: Result<(nat, seq<Saved>), PyError>)
    ensures FramesFrom(s, frames, 0, (map[], [])).Failure? <==> r.Failure?
    ensures FramesFrom(s, frames, 0, (map[], [])).Success? ==>
      var saves := FramesFrom(s, frames, 0, (map[], [])).value.1;
      r == Success((|saves|, saves))
  {
    var p: Progress := (map[], []);
    var saved := 0;
    var fi := 0;
    while fi < |frames|
      invariant 0 <= fi <= |frames| && saved == |p.1|
      invariant FramesFrom(s, frames, 0, (map[], [])) == FramesFrom(s, frames, fi, p)
    {
      if frames[fi].detected {
        var q := SaveTracks(s, fi, frames[fi], p);
        if q.Failure? {
          return Failure(q.error);
        }
        TracksFromExtends(s, fi, frames[fi], frames[fi].tracks, p);
        saved := saved + (|q.value.1| - |p.1|);
        p := q.value;
      }
      fi := fi + 1;
    }
    return Success((saved, p.1));
  }

  // ---------------------------------------------------------------------
  // `track_and_save` as written

  /** `track_and_save(...)` as the module is written: it never imports
      `asyncio`, so the first pass of the loop raises a NameError at
      `asyncio.wait_for`, and the handler's `except asyncio.TimeoutError`
      raises another while it is matched.  Only a stop event that is already
      set on entry skips the loop, and then the call reports 0 saves. */
  function TrackAndSaveAsWritten(s: Settings, frames: seq<Frame>, stopSet: bool): Result<(nat, seq<Saved>), PyError> {
    if stopSet then Success((0, [])) else Failure(NameError)
  }

  /** As written no frame is ever saved, whatever the frames and settings. */
  lemma MissingImportSavesNothing(s: Settings, frames: seq<Frame>, stopSet: bool)
    ensures TrackAndSaveAsWritten(s, frames, stopSet).Success? ==> TrackAndSaveAsWritten(s, frames, stopSet).value.1 == []
    ensures !stopSet ==> TrackAndSaveAsWritten(s, frames, stopSet) == Failure(NameError)
  {
  }

  /** One frame with one track and a threshold of one: the loop with
      `asyncio` imported saves it, the module as written raises instead. */
  lemma MissingImportLosesSave()
    ensures var s := Settings(1, 0.5, false, 0);
      var frames := [Frame(true, [Track(1, Tlbr(1.0, 1.0, 5.0, 5.0))], [], 10, 10)];
      && FramesFrom(s, frames, 0, (map[], [])).Success?
      && |FramesFrom(s, frames, 0, (map[], [])).value.1| == 1
      && TrackAndSaveAsWritten(s, frames, false) == Failure(NameError)
  {
    var s := Settings(1, 0.5, false, 0);
    var t := Track(1, Tlbr(1.0, 1.0, 5.0, 5.0));
    var f := Frame(true, [t], [], 10, 10);
    var frames := [f];
    assert Worst(IntBox(t.tlbr), []) == Success((0.0, None));
    assert Shrink(t.tlbr, [], 0.5).Success?;
    var q := TrackStep(s, 0, f, t, (map[], []));
    assert q.Success? && |q.value.1| == 1;
    assert TracksFrom(s, 0, f, [t][1..], q.value) == Success(q.value);
    assert FrameStep(s, 0, f, (map[], [])) == Success(q.value);
    assert FramesFrom(s, frames, 1, q.value) == Success(q.value);
  }
}
