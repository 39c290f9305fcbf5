/** The data logic of the restock-and-train labelling pipeline
    (`src/inventory_managment_app/restock_and_train.py`).

    The product SKUs are sorted and numbered; OCR text is matched against
    them and its box widened into a pseudo product box clipped to the image;
    an operator confirms the proposals, which are converted from corner form
    to COCO form; the confirmed annotations become a COCO document with
    consecutive image and annotation ids; and the training command line is
    assembled from the configuration.

    The OCR results, the image sizes, the operator's replies and which files
    exist are inputs.  OCR coordinates and scores are exact reals. */
module Pipeline {
  import opened Text

  // ---------------------------------------------------------------------
  // String order and sorting

  /** Python's `a <= b` on strings: code point by code point, a prefix first. */
  predicate LexLe(a: string, b: string)
    decreases |a|
  {
    a == [] || (b != [] && (a[0] < b[0] || (a[0] == b[0] && LexLe(a[1..], b[1..]))))
  }

  lemma {:induction false} LexLeTotal(a: string, b: string)
    ensures LexLe(a, b) || LexLe(b, a)
    decreases |a|
  {
    if a != [] && b != [] && a[0] == b[0] {
      LexLeTotal(a[1..], b[1..]);
    }
  }

  lemma {:induction false} LexLeTrans(a: string, b: string, c: string)
    requires LexLe(a, b) && LexLe(b, c)
    ensures LexLe(a, c)
    decreases |a|
  {
    if a != [] && a[0] == b[0] && b[0] == c[0] {
      LexLeTrans(a[1..], b[1..], c[1..]);
    }
  }

  predicate SortedStrings(s: seq<string>) {
    forall i, j :: 0 <= i < j < |s| ==> LexLe(s[i], s[j])
  }

  lemma SortedCons(x: string, s: seq<string>)
    requires SortedStrings(s)
    requires forall y :: y in multiset(s) ==> LexLe(x, y)
    ensures SortedStrings([x] + s)
  {
    var r := [x] + s;
    forall i, j | 0 <= i < j < |r|
      ensures LexLe(r[i], r[j])
    {
      assert r[j] == s[j - 1] && r[j] in multiset(s);
      if i > 0 {
        assert r[i] == s[i - 1];
      }
    }
  }

  /** One step of insertion sort. */
  function InsertString(s: seq<string>, x: string): (r: seq<string>)
    requires SortedStrings(s)
    ensures SortedStrings(r) && multiset(r) == multiset(s) + multiset{x}
    decreases |s|
  {
    if s == [] then [x]
    else if LexLe(x, s[0]) then
      InsertFirst(x, s);
      [x] + s
    else
      var t := InsertString(s[1..], x);
      LexLeTotal(x, s[0]);
      InsertLater(s, x, t);
      [s[0]] + t
  }

  lemma InsertFirst(x: string, s: seq<string>)
    requires SortedStrings(s) && s != [] && LexLe(x, s[0])
    ensures SortedStrings([x] + s)
  {
    forall y | y in multiset(s) ensures LexLe(x, y) {
      var k :| 0 <= k < |s| && s[k] == y;
      if k > 0 {
        LexLeTrans(x, s[0], y);
      }
    }
    SortedCons(x, s);
  }

  lemma InsertLater(s: seq<string>, x: string, t: seq<string>)
    requires SortedStrings(s) && s != [] && LexLe(s[0], x)
    requires SortedStrings(t) && multiset(t) == multiset(s[1..]) + multiset{x}
    ensures SortedStrings([s[0]] + t) && multiset([s[0]] + t) == multiset(s) + multiset{x}
  {
    assert s == [s[0]] + s[1..];
    forall y | y in multiset(t) ensures LexLe(s[0], y) {
      if y != x {
        assert y in multiset(s[1..]);
        var k :| 0 <= k < |s[1..]| && s[1..][k] == y;
        assert s[k + 1] == y;
      }
    }
    SortedCons(s[0], t);
  }

  /** Python's `sorted` on strings. */
  function SortStrings(s: seq<string>): (r: seq<string>)
    ensures SortedStrings(r) && multiset(r) == multiset(s)
    decreases |s|
  {
    if s == [] then []
    else
      assert s == s[..|s| - 1] + [s[|s| - 1]];
      InsertString(SortStrings(s[..|s| - 1]), s[|s| - 1])
  }

  // ---------------------------------------------------------------------
  // Configuration

  /** `KNOWN_PRODUCT_SKUS` as listed, before sorting. */
  const ProductSkus: seq<string> :=
    ["coke_can", "pepsi_can", "sprite_can", "lays_classic_chips", "doritos_nacho_chips", "snickers_bar", "mars_bar"]

  /** `OCR_CONFIDENCE_THRESHOLD`. */
  const OcrThreshold: real := 0.4

  /** `BBOX_EXPANSION_FACTOR`. */
  const BboxExpansion: real := 1.5

  /** The parts of `PipelineConfig` the modelled functions read. */
  datatype PipelineConfig = PipelineConfig(
    repoPath: string,
    knownSkus: seq<string>,
    categoryToId: map<string, nat>,
    numClasses: nat,
    useAmp: bool,
    seed: Option<int>,
    nprocPerNode: int,
    masterPort: string)

  /** `{sku: i for i, sku in enumerate(skus)}`: a repeated SKU keeps its last index. */
  function CategoryIds(skus: seq<string>): (ids: map<string, nat>)
    ensures ids.Keys == set s | s in skus
    ensures forall s :: s in ids ==> ids[s] < |skus| && skus[ids[s]] == s
    decreases |skus|
  {
    if skus == [] then map[]
    else
      var front := CategoryIds(skus[..|skus| - 1]);
      assert forall s :: s in front ==> skus[front[s]] == skus[..|skus| - 1][front[s]];
      assert forall s :: s in skus ==> s in skus[..|skus| - 1] || s == skus[|skus| - 1] by {
        assert skus == skus[..|skus| - 1] + [skus[|skus| - 1]];
      }
      front[skus[|skus| - 1] := |skus| - 1]
  }

  predicate DistinctStrings(s: seq<string>) {
    forall i, j :: 0 <= i < j < |s| ==> s[i] != s[j]
  }

  /** Distinct SKUs are numbered densely by their position. */
  lemma CategoryIdsDense(skus: seq<string>)
    requires DistinctStrings(skus)
    ensures forall i :: 0 <= i < |skus| ==> CategoryIds(skus)[skus[i]] == i
  {
    var ids := CategoryIds(skus);
    forall i | 0 <= i < |skus|
      ensures ids[skus[i]] == i
    {
      assert skus[i] in ids;
      var j := ids[skus[i]];
      assert skus[j] == skus[i];
    }
  }

  /** `PipelineConfig(dfine_repo_path)` with the given product list:
      `FileNotFoundError` unless the repository holds `train.py`; otherwise the
      SKUs sorted, numbered by position, and counted. */
  function NewConfig(repoPath: string, trainScriptExists: bool, productSkus: seq<string>): (r: Result<PipelineConfig, PyError>)
    ensures r.Failure? <==> !trainScriptExists
    ensures r.Failure? ==> r.error == FileNotFoundError
    ensures r.Success? ==>
      && SortedStrings(r.value.knownSkus) && multiset(r.value.knownSkus) == multiset(productSkus)
      && r.value.numClasses == |productSkus|
      && r.value.categoryToId.Keys == (set s | s in productSkus)
      && (forall s :: s in r.value.categoryToId ==>
            r.value.categoryToId[s] < |r.value.knownSkus| && r.value.knownSkus[r.value.categoryToId[s]] == s)
  {
    if !trainScriptExists then Failure(FileNotFoundError)
    else
      var skus := SortStrings(productSkus);
      assert forall s :: s in skus <==> s in productSkus by {
        assert forall s :: s in skus <==> s in multiset(skus);
        assert forall s :: s in productSkus <==> s in multiset(productSkus);
      }
      assert |skus| == |multiset(skus)| == |productSkus|;
      Success(PipelineConfig(repoPath, skus, CategoryIds(skus), |skus|, true, Some(0), 1, "7778"))
  }

  // ---------------------------------------------------------------------
  // OCR proposals

  /** One `readtext` result: the corner points of the text, the text, and its confidence. */
  datatype OcrResult = OcrResult(points: seq<(real, real)>, text: string, prob: real)

  /** A box as `[xmin, ymin, xmax, ymax]` in whole pixels. */
  datatype Corners = Corners(xmin: int, ymin: int, xmax: int, ymax: int)

  datatype Proposal = Proposal(sku: string, box: Corners, ocrText: string)

  datatype ImageSize = ImageSize(width: int, height: int)

  /** `text.strip().lower().replace(" ", "_")` */
  function Normalize(text: string): string {
    ReplaceChar(Lower(Strip(text)), ' ', '_')
  }

  predicate SkuMatches(sku: string, text: string) {
    IsSubstring(sku, text) || IsSubstring(text, sku)
  }

  /** The SKU at `i` matches the text and none before it does. */
  predicate FirstMatchAt(skus: seq<string>, text: string, i: nat)
    requires i < |skus|
  {
    SkuMatches(skus[i], text) && forall k :: 0 <= k < i ==> !SkuMatches(skus[k], text)
  }

  /** The first SKU that contains the text or is contained in it. */
  function FirstMatch(skus: seq<string>, text: string): (r: Option<string>)
    ensures r.None? <==> forall k :: 0 <= k < |skus| ==> !SkuMatches(skus[k], text)
    ensures r.Some? ==> exists i :: 0 <= i < |skus| && skus[i] == r.value && FirstMatchAt(skus, text, i)
    decreases |skus|
  {
    if skus == [] then None
    else if SkuMatches(skus[0], text) then Some(skus[0])
    else
      var r := FirstMatch(skus[1..], text);
      assert forall k :: 1 <= k < |skus| ==> skus[k] == skus[1..][k - 1];
      r
  }

  /** Every SKU contains the empty text, so OCR text that is empty or all
      whitespace matches the first SKU. */
  lemma EmptyTextMatchesFirst(skus: seq<string>, t: string)
    requires skus != []
    requires forall k :: 0 <= k < |t| ==> IsSpace(t[k])
    ensures FirstMatch(skus, Normalize(t)) == Some(skus[0])
  {
    EmptyIsSubstring(skus[0]);
  }

  function MinOf(xs: seq<real>): (m: real)
    requires xs != []
    ensures m in xs && forall k :: 0 <= k < |xs| ==> m <= xs[k]
    decreases |xs|
  {
    if |xs| == 1 then xs[0]
    else
      var m := MinOf(xs[1..]);
      assert forall k :: 1 <= k < |xs| ==> xs[k] == xs[1..][k - 1];
      if xs[0] <= m then xs[0] else m
  }

  function MaxOf(xs: seq<real>): (m: real)
    requires xs != []
    ensures m in xs && forall k :: 0 <= k < |xs| ==> xs[k] <= m
    decreases |xs|
  {
    if |xs| == 1 then xs[0]
    else
      var m := MaxOf(xs[1..]);
      assert forall k :: 1 <= k < |xs| ==> xs[k] == xs[1..][k - 1];
      if xs[0] >= m then xs[0] else m
  }

  function Xs(points: seq<(real, real)>): (xs: seq<real>)
    ensures |xs| == |points| && forall k :: 0 <= k < |points| ==> xs[k] == points[k].0
  {
    seq(|points|, k requires 0 <= k < |points| => points[k].0)
  }

  function Ys(points: seq<(real, real)>): (ys: seq<real>)
    ensures |ys| == |points| && forall k :: 0 <= k < |points| ==> ys[k] == points[k].1
  {
    seq(|points|, k requires 0 <= k < |points| => points[k].1)
  }

  /** The span of width `w` around the centre of `[lo, hi]`, truncated to
      whole pixels and clipped to `[0, limit]`. */
  function Around(lo: real, hi: real, w: real, limit: int): (r: (int, int))
    ensures 0 <= r.0 && r.1 <= limit
  {
    var c := (lo + hi) / 2.0;
    (Max(0, Trunc(c - w / 2.0)), Min(limit, Trunc(c + w / 2.0)))
  }

  lemma AroundCovers(lo: real, hi: real, w: real, limit: int)
    requires 0.0 <= lo <= hi && w >= hi - lo
    ensures Around(lo, hi, w, limit).0 <= lo.Floor
    ensures Around(lo, hi, w, limit).1 >= Min(limit, hi.Floor)
  {
    var c := (lo + hi) / 2.0;
    FloorMonotone(c - w / 2.0, lo);
    FloorMonotone(hi, c + w / 2.0);
  }

  /** One axis of the pseudo box: the extent of the text coordinates `vs`
      scaled by `factor` around its centre. */
  function Span(vs: seq<real>, factor: real, limit: int): (r: (int, int))
    requires vs != []
    ensures 0 <= r.0 && r.1 <= limit
  {
    Around(MinOf(vs), MaxOf(vs), Scaled(MaxOf(vs) - MinOf(vs), factor), limit)
  }

  /** Widening by a factor of at least one covers the text's extent to the
      pixel, as far as the limit allows. */
  lemma SpanCovers(vs: seq<real>, factor: real, limit: int)
    requires vs != [] && factor >= 1.0
    requires forall k :: 0 <= k < |vs| ==> vs[k] >= 0.0
    ensures Span(vs, factor, limit).0 <= MinOf(vs).Floor
    ensures Span(vs, factor, limit).1 >= Min(limit, MaxOf(vs).Floor)
  {
    var lo, hi := MinOf(vs), MaxOf(vs);
    assert 0.0 <= lo <= vs[0] <= hi;
    AroundCovers(lo, hi, Scaled(hi - lo, factor), limit);
  }

  /** `d` scaled by `f`; a factor of at least one never shrinks a width. */
  function Scaled(d: real, f: real): (r: real)
    ensures d >= 0.0 && f >= 1.0 ==> r >= d
  {
    assert d * f - d == d * (f - 1.0);
    d * f
  }

  lemma FloorMonotone(a: real, b: real)
    requires a <= b
    ensures a.Floor <= b.Floor
  {
  }

  /** The pseudo product box for a text box: the text's extent widened by the
      expansion factor around its centre, twice that in height. */
  function PseudoBox(size: ImageSize, points: seq<(real, real)>): (b: Corners)
    requires points != []
    ensures 0 <= b.xmin && 0 <= b.ymin && b.xmax <= size.width && b.ymax <= size.height
  {
    var sx := Span(Xs(points), BboxExpansion, size.width);
    var sy := Span(Ys(points), BboxExpansion * 2.0, size.height);
    Corners(sx.0, sy.0, sx.1, sy.1)
  }

  /** For text at non-negative coordinates, the pseudo box covers the text
      box to the pixel, as far as the image allows. */
  lemma PseudoBoxCovers(size: ImageSize, points: seq<(real, real)>)
    requires points != []
    requires forall k :: 0 <= k < |points| ==> points[k].0 >= 0.0 && points[k].1 >= 0.0
    ensures var b := PseudoBox(size, points);
      && b.xmin <= MinOf(Xs(points)).Floor && b.ymin <= MinOf(Ys(points)).Floor
      && b.xmax >= Min(size.width, MaxOf(Xs(points)).Floor) && b.ymax >= Min(size.height, MaxOf(Ys(points)).Floor)
  {
    SpanCovers(Xs(points), BboxExpansion, size.width);
    SpanCovers(Ys(points), BboxExpansion * 2.0, size.height);
  }

  /** A proposal as the scan makes them: a known SKU and a box of positive
      size inside the image. */
  predicate Proposable(skus: seq<string>, size: ImageSize, p: Proposal) {
    && p.sku in skus && p.sku != ""
    && 0 <= p.box.xmin < p.box.xmax <= size.width && 0 <= p.box.ymin < p.box.ymax <= size.height
  }

  /** The proposal's SKU is the first one its normalised text matches. */
  predicate TextMatches(skus: seq<string>, p: Proposal) {
    FirstMatch(skus, Normalize(p.ocrText)) == Some(p.sku)
  }

  /** One result of the scan: skipped below the confidence threshold,
      otherwise placed by the SKU its text matches first. */
  function ScanStep(skus: seq<string>, size: ImageSize, ps: seq<Proposal>, o: OcrResult): (r: Option<seq<Proposal>>)
    ensures r.Some? ==> r.value == ps || (|r.value| == |ps| + 1 && r.value[..|ps|] == ps && Proposable(skus, size, r.value[|ps|]))
    ensures r.Some? && r.value != ps ==> TextMatches(skus, r.value[|ps|])
  {
    if o.prob < OcrThreshold then Some(ps) else Place(size, ps, o, FirstMatch(skus, Normalize(o.text)))
  }

  /** A result of sufficient confidence: skipped without a matching SKU (an
      empty SKU is false in Python), an exception when it has no corner
      points, otherwise a proposal when its box has positive size. */
  function Place(size: ImageSize, ps: seq<Proposal>, o: OcrResult, matched: Option<string>): (r: Option<seq<Proposal>>)
    ensures r.None? <==> matched.Some? && matched.value != "" && o.points == []
    ensures r.Some? && r.value != ps ==>
      && matched.Some? && matched.value != ""
      && |r.value| == |ps| + 1 && r.value[..|ps|] == ps
      && r.value[|ps|].sku == matched.value && r.value[|ps|].ocrText == o.text
      && var b := r.value[|ps|].box;
         0 <= b.xmin < b.xmax <= size.width && 0 <= b.ymin < b.ymax <= size.height
  {
    if matched.None? || matched.value == "" then Some(ps)
    else if o.points == [] then None
    else
      var b := PseudoBox(size, o.points);
      if b.xmin < b.xmax && b.ymin < b.ymax then Some(ps + [Proposal(matched.value, b, o.text)]) else Some(ps)
  }

  /** `ocr_and_pseudo_annotate_product` on an image of the given size: the
      proposals, or None when an exception ends it (a matched result without
      corner points makes `min` raise, and the handler discards every
      proposal of the image). */
  function ProposalsOf(skus: seq<string>, size: ImageSize, results: seq<OcrResult>): (r: Option<seq<Proposal>>)
    ensures r.Some? ==> forall p :: p in r.value ==> Proposable(skus, size, p)
    decreases |results|
  {
    if results == [] then Some([])
    else
      match ProposalsOf(skus, size, results[..|results| - 1])
      case None => None
      case Some(ps) =>
        var r := ScanStep(skus, size, ps, results[|results| - 1]);
        assert r.Some? && r.value != ps ==> r.value == ps + [r.value[|ps|]];
        r
  }

  /** Every proposal carries the SKU its text matches first. */
  lemma {:induction false} ProposalsMatchText(skus: seq<string>, size: ImageSize, results: seq<OcrResult>)
    ensures ProposalsOf(skus, size, results).Some? ==>
      forall p :: p in ProposalsOf(skus, size, results).value ==> TextMatches(skus, p)
    decreases |results|
  {
    if results != [] {
      ProposalsMatchText(skus, size, results[..|results| - 1]);
    }
  }

  /** Once an exception ends the scan, later results cannot bring it back. */
  lemma {:induction false} ProposalsFailureStays(skus: seq<string>, size: ImageSize, results: seq<OcrResult>, n: nat)
    requires n <= |results| && ProposalsOf(skus, size, results[..n]).None?
    ensures ProposalsOf(skus, size, results).None?
    decreases |results| - n
  {
    if n < |results| {
      assert results[..n + 1][..n] == results[..n];
      ProposalsFailureStays(skus, size, results, n + 1);
    } else {
      assert results[..n] == results;
    }
  }

  /** The proposals for one image: none when the image cannot be read. */
  function ProposalsFor(skus: seq<string>, image: Option<ImageSize>, results: seq<OcrResult>): (r: seq<Proposal>)
    ensures forall p :: p in r ==> image.Some? && Proposable(skus, image.value, p)
  {
    if image.None? then []
    else match ProposalsOf(skus, image.value, results)
      case Some(ps) => ps
      case None => []
  }

  /** The SKU loop of `ocr_and_pseudo_annotate_product`. */
  method MatchSku(skus: seq<string>, text: string) returns (matched: Option<string>)
    ensures matched == FirstMatch(skus, text)
  {
    var i := 0;
    while i < |skus|
      invariant 0 <= i <= |skus|
      invariant FirstMatch(skus, text) == FirstMatch(skus[i..], text)
    {
      assert skus[i..][0] == skus[i] && skus[i..][1..] == skus[i + 1..];
      if IsSubstring(skus[i], text) || IsSubstring(text, skus[i]) {
        return Some(skus[i]);
      }
      i := i + 1;
    }
    return None;
  }

  /** The body of the loop over the OCR results. */
  method Scan(skus: seq<string>, size: ImageSize, ps: seq<Proposal>, o: OcrResult) returns (r: Option<seq<Proposal>>)
    ensures r == ScanStep(skus, size, ps, o)
  {
    if o.prob < OcrThreshold {
      return Some(ps);
    }
    var matched := MatchSku(skus, Normalize(o.text));
    if matched.None? || matched.value == "" {
      return Some(ps);
    }
    if o.points == [] {
      return None;
    }
    var b := PseudoBox(size, o.points);
    if b.xmin < b.xmax && b.ymin < b.ymax {
      return Some(ps + [Proposal(matched.value, b, o.text)]);
    }
    return Some(ps);
  }

  /** `ocr_and_pseudo_annotate_product(image_path, config)` for an image that
      reads as `image` (None: `cv2.imread` failed) and OCR results `results`. */
  method OcrAndPseudoAnnotate(skus: seq<string>, image: Option<ImageSize>, results: seq<OcrResult>)
    returns (proposals: seq<Proposal>)
    ensures proposals == ProposalsFor(skus, image, results)
  {
    if image.None? {
      return [];
    }
    var size := image.value;
    proposals := [];
    var i := 0;
    while i < |results|
      invariant 0 <= i <= |results|
      invariant ProposalsOf(skus, size, results[..i]) == Some(proposals)
    {
      assert results[..i + 1][..i] == results[..i];
      var next := Scan(skus, size, proposals, results[i]);
      if next.None? {
        ProposalsFailureStays(skus, size, results, i + 1);
        return [];
      }
      proposals := next.value;
      i := i + 1;
    }
    assert results[..|results|] == results;
  }

  // ---------------------------------------------------------------------
  // Operator review

  /** What an operator's reply to `Confirm? (y/n/s(kip image))` means. */
  datatype Reply = Confirm | SkipImage | Reject

  /** `input(...).strip().lower()`: "y" confirms, "s" skips the rest of the
      image, anything else rejects. */
  function Classify(line: string): Reply {
    var t := Lower(Strip(line));
    if t == "y" then Confirm else if t == "s" then SkipImage else Reject
  }

  /** Whitespace around a reply does not change what it means. */
  lemma ClassifyStripped(line: string)
    ensures Classify(Strip(line)) == Classify(line)
  {
    StripStripped(Strip(line));
  }

  /** The operator's lines, each classified. */
  function Replies(lines: seq<string>): (rs: seq<Reply>)
    ensures |rs| == |lines|
    ensures forall k :: 0 <= k < |lines| ==> rs[k] == Classify(lines[k])
  {
    seq(|lines|, k requires 0 <= k < |lines| => Classify(lines[k]))
  }

  /** A COCO box: top-left corner, width and height. */
  datatype CocoBox = CocoBox(x: int, y: int, w: int, h: int)

  /** `[xmin, ymin, xmax - xmin, ymax - ymin]`. */
  function ToCoco(c: Corners): (b: CocoBox)
    ensures ToCorners(b) == c
  {
    CocoBox(c.xmin, c.ymin, c.xmax - c.xmin, c.ymax - c.ymin)
  }

  /** The inverse conversion, from COCO form back to corners. */
  function ToCorners(b: CocoBox): (c: Corners)
    ensures c.xmax - c.xmin == b.w && c.ymax - c.ymin == b.h
  {
    Corners(b.x, b.y, b.x + b.w, b.y + b.h)
  }

  lemma CocoCornersRoundTrip(b: CocoBox)
    ensures ToCoco(ToCorners(b)) == b
  {
  }

  /** A box of positive size in corner form has positive size in COCO form. */
  lemma ToCocoPositive(c: Corners)
    ensures (ToCoco(c).w > 0 && ToCoco(c).h > 0) <==> (c.xmin < c.xmax && c.ymin < c.ymax)
  {
  }

  /** A confirmed annotation: `{"sku": ..., "bbox_coco": [x, y, w, h]}`. */
  datatype Confirmed = Confirmed(sku: string, bbox: CocoBox)

  /** The confirmed annotations of one image and how many replies were read. */
  type Reviewed = (seq<Confirmed>, nat)

  /** `acc`, after `n` replies, followed by what a later part of the review confirms. */
  function Prepend(acc: seq<Confirmed>, n: nat, r: Result<Reviewed, PyError>): Result<Reviewed, PyError> {
    match r
    case Success(v) => Success((acc + v.0, n + v.1))
    case Failure(e) => Failure(e)
  }

  /** The confirmation loop over one image's proposals, one reply per
      proposal; running out of replies is the `EOFError` that `input()`
      raises and nothing in the step catches. */
  function Review(props: seq<Proposal>, replies: seq<Reply>): (r: Result<Reviewed, PyError>)
    ensures r.Failure? ==> r.error == EOFError && |replies| < |props|
    ensures r.Success? ==> r.value.1 <= |replies| && r.value.1 <= |props| && |r.value.0| <= r.value.1
    decreases |props|
  {
    if props == [] then Success(([], 0))
    else if replies == [] then Failure(EOFError)
    else
      ReviewOne(props[0], replies[0], Review(props[1..], replies[1..]))
  }

  /** One reply of the review, given the review of the later proposals. */
  function ReviewOne(p: Proposal, reply: Reply, tail: Result<Reviewed, PyError>): Result<Reviewed, PyError> {
    if reply == SkipImage then Success(([], 1)) else Prepend(Kept(p, reply), 1, tail)
  }

  /** What a confirming or rejecting reply keeps of a proposal: its COCO
      form when confirmed and of positive size, nothing otherwise. */
  function Kept(p: Proposal, reply: Reply): seq<Confirmed> {
    var b := ToCoco(p.box);
    if reply == Confirm && b.w > 0 && b.h > 0 then [Confirmed(p.sku, b)] else []
  }

  /** The review from the `i`-th proposal on, one step unfolded. */
  lemma ReviewFrom(props: seq<Proposal>, replies: seq<Reply>, i: nat)
    requires i < |props| && i < |replies|
    ensures Review(props[i..], replies[i..]) == ReviewOne(props[i], replies[i], Review(props[i + 1..], replies[i + 1..]))
  {
    assert props[i..][0] == props[i] && props[i..][1..] == props[i + 1..];
    assert replies[i..][0] == replies[i] && replies[i..][1..] == replies[i + 1..];
  }

  /** Every confirmed annotation is a proposal in COCO form, of positive size. */
  lemma {:induction false} ReviewKeepsProposals(props: seq<Proposal>, replies: seq<Reply>)
    ensures Review(props, replies).Success? ==>
      forall c :: c in Review(props, replies).value.0 ==>
        c.bbox.w > 0 && c.bbox.h > 0 && exists p :: p in props && c == Confirmed(p.sku, ToCoco(p.box))
    decreases |props|
  {
    if props != [] && replies != [] && replies[0] != SkipImage {
      ReviewKeepsProposals(props[1..], replies[1..]);
      assert forall p :: p in props[1..] ==> p in props;
    }
  }

  /** Every proposal with its box in COCO form. */
  function ConfirmAll(props: seq<Proposal>): (cs: seq<Confirmed>)
    ensures |cs| == |props|
  {
    if props == [] then [] else [Confirmed(props[0].sku, ToCoco(props[0].box))] + ConfirmAll(props[1..])
  }

  /** An operator who confirms every proposal of positive size keeps all of
      them, each box converted, and reads exactly one reply per proposal. */
  lemma {:induction false} ReviewConfirmsAll(props: seq<Proposal>, replies: seq<Reply>)
    requires forall i :: 0 <= i < |props| ==> props[i].box.xmin < props[i].box.xmax && props[i].box.ymin < props[i].box.ymax
    requires |props| <= |replies| && forall i :: 0 <= i < |props| ==> replies[i] == Confirm
    ensures Review(props, replies) == Success((ConfirmAll(props), |props|))
    decreases |props|
  {
    if props != [] {
      var ps, rs := props[1..], replies[1..];
      assert forall i :: 0 <= i < |ps| ==> ps[i] == props[i + 1] && rs[i] == replies[i + 1];
      ReviewConfirmsAll(ps, rs);
      var c := Confirmed(props[0].sku, ToCoco(props[0].box));
      assert Review(props, replies) == Prepend([c], 1, Review(ps, rs));
    }
  }

  /** An operator who rejects every proposal keeps none of them. */
  lemma {:induction false} ReviewRejectsAll(props: seq<Proposal>, replies: seq<Reply>)
    requires |props| <= |replies| && forall i :: 0 <= i < |props| ==> replies[i] == Reject
    ensures Review(props, replies) == Success(([], |props|))
    decreases |props|
  {
    if props != [] {
      ReviewRejectsAll(props[1..], replies[1..]);
    }
  }

  /** Skipping first at the `k`-th proposal keeps what was confirmed before
      it and reads `k + 1` replies. */
  lemma {:induction false} ReviewSkipStops(props: seq<Proposal>, replies: seq<Reply>, k: nat)
    requires k < |props| && k < |replies| && replies[k] == SkipImage
    requires forall i :: 0 <= i < k ==> replies[i] != SkipImage
    ensures Review(props, replies).Success?
    ensures Review(props, replies).value.1 == k + 1
    ensures Review(props, replies).value.0 == Review(props[..k], replies[..k]).value.0
    decreases k
  {
    if k > 0 {
      var ps, rs := props[1..], replies[1..];
      assert forall i :: 0 <= i < k - 1 ==> rs[i] == replies[i + 1];
      ReviewSkipStops(ps, rs, k - 1);
      var kept := Kept(props[0], replies[0]);
      assert Review(props, replies) == Prepend(kept, 1, Review(ps, rs));
      assert ps[..k - 1] == props[..k][1..] && rs[..k - 1] == replies[..k][1..];
      assert Review(props[..k], replies[..k]) == Prepend(kept, 1, Review(ps[..k - 1], rs[..k - 1]));
    }
  }

  lemma PrependNothing(r: Result<Reviewed, PyError>)
    ensures Prepend([], 0, r) == r
  {
    if r.Success? {
      assert [] + r.value.0 == r.value.0;
    }
  }

  lemma PrependTwice(a: seq<Confirmed>, m: nat, b: seq<Confirmed>, n: nat, r: Result<Reviewed, PyError>)
    ensures Prepend(a, m, Prepend(b, n, r)) == Prepend(a + b, m + n, r)
  {
    if r.Success? {
      assert a + (b + r.value.0) == (a + b) + r.value.0;
    }
  }

  /** The inner loop of `interactive_annotation_step` over one image's
      proposals, given the operator's replies in order. */
  method ReviewProposals(props: seq<Proposal>, replies: seq<Reply>) returns (r: Result<Reviewed, PyError>)
    ensures r == Review(props, replies)
  {
    var confirmed: seq<Confirmed> := [];
    var i := 0;
    PrependNothing(Review(props, replies));
    while i < |props|
      invariant 0 <= i <= |props| && i <= |replies|
      invariant Review(props, replies) == Prepend(confirmed, i, Review(props[i..], replies[i..]))
    {
      if i == |replies| {
        return Failure(EOFError);
      }
      ReviewFrom(props, replies, i);
      if replies[i] == SkipImage {
        assert confirmed + [] == confirmed;
        return Success((confirmed, i + 1));
      }
      PrependTwice(confirmed, i, Kept(props[i], replies[i]), 1, Review(props[i + 1..], replies[i + 1..]));
      confirmed := confirmed + Kept(props[i], replies[i]);
      i := i + 1;
    }
    assert confirmed + [] == confirmed;
    return Success((confirmed, i));
  }

  // ---------------------------------------------------------------------
  // The annotation step

  /** The confirmed annotations by relative image path, in the order the
      paths were first stored (a Python dict keeps a key's first position). */
  type Entries = seq<(string, seq<Confirmed>)>

  predicate DistinctKeys(es: Entries) {
    forall i, j :: 0 <= i < j < |es| ==> es[i].0 != es[j].0
  }

  /** `d[k]`: the value stored under `k`, if any. */
  function Get(es: Entries, k: string): (r: Option<seq<Confirmed>>)
    ensures r.None? <==> forall i :: 0 <= i < |es| ==> es[i].0 != k
    decreases |es|
  {
    if es == [] then None
    else if es[0].0 == k then Some(es[0].1)
    else
      var r := Get(es[1..], k);
      assert forall i :: 1 <= i < |es| ==> es[i] == es[1..][i - 1];
      r
  }

  /** `d[k] = v`: replaces the value in place when `k` is present, appends otherwise. */
  function Put(es: Entries, k: string, v: seq<Confirmed>): (r: Entries)
    ensures |r| == |es| || (|r| == |es| + 1 && r[|es|] == (k, v) && forall i :: 0 <= i < |es| ==> es[i].0 != k)
    ensures forall i :: 0 <= i < |es| ==> r[i].0 == es[i].0 && (r[i] == es[i] || r[i] == (k, v))
    decreases |es|
  {
    if es == [] then [(k, v)]
    else if es[0].0 == k then [(k, v)] + es[1..]
    else
      var t := Put(es[1..], k, v);
      assert forall i :: 1 <= i < |es| ==> es[i] == es[1..][i - 1];
      [es[0]] + t
  }

  /** Reading back a stored key gives the stored value. */
  lemma {:induction false} PutGetSame(es: Entries, k: string, v: seq<Confirmed>)
    ensures Get(Put(es, k, v), k) == Some(v)
    decreases |es|
  {
    if es != [] && es[0].0 != k {
      PutGetSame(es[1..], k, v);
      assert Put(es, k, v)[1..] == Put(es[1..], k, v);
    }
  }

  /** Storing a key leaves every other key's value alone. */
  lemma {:induction false} PutGetOther(es: Entries, k: string, v: seq<Confirmed>, k2: string)
    requires k2 != k
    ensures Get(Put(es, k, v), k2) == Get(es, k2)
    decreases |es|
  {
    if es != [] && es[0].0 != k && es[0].0 != k2 {
      PutGetOther(es[1..], k, v, k2);
      assert Put(es, k, v)[1..] == Put(es[1..], k, v);
    }
  }

  /** An entry of the map as the step stores them: a path under `train/`
      and a non-empty list of confirmed annotations of known SKUs with boxes
      of positive size. */
  predicate EntryOk(skus: seq<string>, e: (string, seq<Confirmed>)) {
    && StartsWith(e.0, "train/") && e.1 != []
    && forall c :: c in e.1 ==> c.sku in skus && c.bbox.w > 0 && c.bbox.h > 0
  }

  predicate EntriesOk(skus: seq<string>, es: Entries) {
    DistinctKeys(es) && forall i :: 0 <= i < |es| ==> EntryOk(skus, es[i])
  }

  lemma PutKeepsOk(skus: seq<string>, es: Entries, k: string, v: seq<Confirmed>)
    requires EntriesOk(skus, es) && EntryOk(skus, (k, v))
    ensures EntriesOk(skus, Put(es, k, v))
  {
    var r := Put(es, k, v);
    forall i, j | 0 <= i < j < |r|
      ensures r[i].0 != r[j].0
    {
      assert r[i].0 == es[i].0;
      if j < |es| {
        assert r[j].0 == es[j].0;
      } else {
        assert r[j] == (k, v) && es[i].0 != k;
      }
    }
    forall i | 0 <= i < |r|
      ensures EntryOk(skus, r[i])
    {
      if i < |es| {
        assert r[i] == es[i] || r[i] == (k, v);
      }
    }
  }

  /** One image as the step sees it: its file name, its size (None when
      `cv2.imread` fails) and what OCR reads in it. */
  datatype ImageInput = ImageInput(name: string, size: Option<ImageSize>, ocr: seq<OcrResult>)

  /** One image of `interactive_annotation_step`: its proposals are
      reviewed and, when any is confirmed, stored under `train/<name>`; the
      map and the number of replies read. */
  function AnnotateOne(skus: seq<string>, image: ImageInput, replies: seq<Reply>, acc: Entries): (r: Result<(Entries, nat), PyError>)
    ensures r.Failure? ==> r.error == EOFError
    ensures r.Success? ==> r.value.1 <= |replies|
  {
    var props := ProposalsFor(skus, image.size, image.ocr);
    if props == [] then Success((acc, 0))
    else match Review(props, replies)
      case Failure(e) => Failure(e)
      case Success(v) => Success((if v.0 == [] then acc else Put(acc, "train/" + image.name, v.0), v.1))
  }

  /** `interactive_annotation_step` from the images `images` on, with the
      operator's remaining replies and the map built so far. */
  function Annotate(skus: seq<string>, images: seq<ImageInput>, replies: seq<Reply>, acc: Entries): (r: Result<Entries, PyError>)
    ensures r.Failure? ==> r.error == EOFError
    decreases |images|
  {
    if images == [] then Success(acc)
    else match AnnotateOne(skus, images[0], replies, acc)
      case Failure(e) => Failure(e)
      case Success(v) => Annotate(skus, images[1..], replies[v.1..], v.0)
  }

  lemma AnnotateOneOk(skus: seq<string>, image: ImageInput, replies: seq<Reply>, acc: Entries)
    requires EntriesOk(skus, acc)
    ensures AnnotateOne(skus, image, replies, acc).Success? ==> EntriesOk(skus, AnnotateOne(skus, image, replies, acc).value.0)
  {
    var props := ProposalsFor(skus, image.size, image.ocr);
    ReviewKeepsProposals(props, replies);
    if props != [] && Review(props, replies).Success? {
      var v := Review(props, replies).value;
      if v.0 != [] {
        var k := "train/" + image.name;
        assert k[..|"train/"|] == "train/";
        forall c | c in v.0
          ensures c.sku in skus
        {
          var p :| p in props && c == Confirmed(p.sku, ToCoco(p.box));
        }
        PutKeepsOk(skus, acc, k, v.0);
      }
    }
  }

  /** The map the step returns keeps the shape its entries are stored in:
      distinct paths under `train/`, each with a non-empty list of confirmed
      annotations of known SKUs. */
  lemma {:induction false} AnnotateOk(skus: seq<string>, images: seq<ImageInput>, replies: seq<Reply>, acc: Entries)
    requires EntriesOk(skus, acc)
    ensures Annotate(skus, images, replies, acc).Success? ==> EntriesOk(skus, Annotate(skus, images, replies, acc).value)
    decreases |images|
  {
    if images != [] {
      AnnotateOneOk(skus, images[0], replies, acc);
      var one := AnnotateOne(skus, images[0], replies, acc);
      if one.Success? {
        AnnotateOk(skus, images[1..], replies[one.value.1..], one.value.0);
      }
    }
  }

  /** The step from the `i`-th image on, one image unfolded. */
  lemma AnnotateAt(skus: seq<string>, images: seq<ImageInput>, i: nat, replies: seq<Reply>, acc: Entries)
    requires i < |images|
    ensures Annotate(skus, images[i..], replies, acc) ==
      match AnnotateOne(skus, images[i], replies, acc)
      case Failure(e) => Failure(e)
      case Success(v) => Annotate(skus, images[i + 1..], replies[v.1..], v.0)
  {
    assert images[i..][0] == images[i] && images[i..][1..] == images[i + 1..];
  }

  /** The body of the loop over the images. */
  method AnnotateImage(skus: seq<string>, image: ImageInput, replies: seq<Reply>, entries: Entries)
    returns (r: Result<(Entries, nat), PyError>)
    ensures r == AnnotateOne(skus, image, replies, entries)
  {
    var props := OcrAndPseudoAnnotate(skus, image.size, image.ocr);
    if props == [] {
      return Success((entries, 0));
    }
    var reviewed := ReviewProposals(props, replies);
    if reviewed.Failure? {
      return Failure(reviewed.error);
    }
    var (confirmed, used) := reviewed.value;
    if confirmed != [] {
      return Success((Put(entries, "train/" + image.name, confirmed), used));
    }
    return Success((entries, used));
  }

  /** `interactive_annotation_step(image_paths, config)`. */
  method InteractiveAnnotationStep(skus: seq<string>, images: seq<ImageInput>, replies: seq<Reply>)
    returns (r: Result<Entries, PyError>)
    ensures r == Annotate(skus, images, replies, [])
  {
    var entries: Entries := [];
    var rest := replies;
    var i := 0;
    while i < |images|
      invariant 0 <= i <= |images|
      invariant Annotate(skus, images, replies, []) == Annotate(skus, images[i..], rest, entries)
    {
      AnnotateAt(skus, images, i, rest, entries);
      var one := AnnotateImage(skus, images[i], rest, entries);
      if one.Failure? {
        return Failure(one.error);
      }
      entries, rest := one.value.0, rest[one.value.1..];
      i := i + 1;
    }
    return Success(entries);
  }

  // ---------------------------------------------------------------------
  // COCO conversion

  datatype CocoImage = CocoImage(id: nat, fileName: string, width: int, height: int)

  datatype CocoAnnotation = CocoAnnotation(id: nat, imageId: nat, categoryId: nat, bbox: CocoBox, area: int, isCrowd: nat)

  datatype CocoCategory = CocoCategory(id: nat, name: string, supercategory: string)

  datatype Coco = Coco(images: seq<CocoImage>, annotations: seq<CocoAnnotation>, categories: seq<CocoCategory>)

  /** `Path(p).name`: what follows the last `/`. */
  function LastSegment(p: string): (r: string)
    ensures '/' !in r && |r| <= |p| && r == p[|p| - |r|..]
    decreases |p|
  {
    if p == [] || p[|p| - 1] == '/' then []
    else
      var r := LastSegment(p[..|p| - 1]);
      assert p[..|p| - 1][|p| - 1 - |r|..] + [p[|p| - 1]] == p[|p| - |r| - 1..];
      r + [p[|p| - 1]]
  }

  /** The file name of `train/<name>` is `name` again. */
  lemma {:induction false} LastSegmentUnder(dir: string, name: string)
    requires '/' !in name
    ensures LastSegment(dir + "/" + name) == name
    decreases |name|
  {
    if name != [] {
      var front := name[..|name| - 1];
      assert dir + "/" + name == (dir + "/" + front) + [name[|name| - 1]];
      assert (dir + "/" + name)[..|dir + "/" + name| - 1] == dir + "/" + front;
      assert forall c :: c in front ==> c in name;
      LastSegmentUnder(dir, front);
      assert front + [name[|name| - 1]] == name;
    } else {
      assert (dir + "/" + name)[|dir + "/" + name| - 1] == '/';
    }
  }

  /** The configuration as `PipelineConfig` builds it: every known SKU has
      an id, and each id indexes back to its SKU. */
  predicate ConfigOk(cfg: PipelineConfig) {
    && cfg.categoryToId.Keys == (set s | s in cfg.knownSkus)
    && cfg.numClasses == |cfg.knownSkus|
    && forall s :: s in cfg.categoryToId ==>
         cfg.categoryToId[s] < |cfg.knownSkus| && cfg.knownSkus[cfg.categoryToId[s]] == s
  }

  lemma NewConfigOk(repoPath: string, trainScriptExists: bool, productSkus: seq<string>)
    ensures NewConfig(repoPath, trainScriptExists, productSkus).Success? ==>
      ConfigOk(NewConfig(repoPath, trainScriptExists, productSkus).value)
  {
    var r := NewConfig(repoPath, trainScriptExists, productSkus);
    if r.Success? {
      assert forall s :: s in r.value.knownSkus <==> s in productSkus by {
        assert forall s :: s in r.value.knownSkus <==> s in multiset(r.value.knownSkus);
        assert forall s :: s in productSkus <==> s in multiset(productSkus);
      }
      assert |r.value.knownSkus| == |multiset(r.value.knownSkus)| == |productSkus|;
    }
  }

  lemma KnownSkusHaveIds(cfg: PipelineConfig)
    requires ConfigOk(cfg)
    ensures forall i :: 0 <= i < |cfg.knownSkus| ==> cfg.knownSkus[i] in cfg.categoryToId
  {
    forall i | 0 <= i < |cfg.knownSkus|
      ensures cfg.knownSkus[i] in cfg.categoryToId
    {
      assert cfg.knownSkus[i] in cfg.knownSkus;
    }
  }

  /** `[{"id": category_to_id[sku], "name": sku, "supercategory": "product"} for sku in KNOWN_PRODUCT_SKUS]`. */
  function Categories(cfg: PipelineConfig): (cs: seq<CocoCategory>)
    requires ConfigOk(cfg)
    ensures |cs| == |cfg.knownSkus|
    ensures forall i :: 0 <= i < |cs| ==>
      cs[i].name == cfg.knownSkus[i] && cs[i].id < |cfg.knownSkus| && cfg.knownSkus[cs[i].id] == cs[i].name
  {
    KnownSkusHaveIds(cfg);
    seq(|cfg.knownSkus|, i requires 0 <= i < |cfg.knownSkus| =>
      CocoCategory(cfg.categoryToId[cfg.knownSkus[i]], cfg.knownSkus[i], "product"))
  }

  /** With distinct SKUs the category ids are exactly the positions. */
  lemma CategoriesDense(cfg: PipelineConfig)
    requires ConfigOk(cfg) && DistinctStrings(cfg.knownSkus)
    ensures forall i :: 0 <= i < |Categories(cfg)| ==> Categories(cfg)[i].id == i
  {
    var cs := Categories(cfg);
    forall i | 0 <= i < |cs|
      ensures cs[i].id == i
    {
      assert cs[i].id < |cfg.knownSkus| && cfg.knownSkus[cs[i].id] == cfg.knownSkus[i];
    }
  }

  /** The annotations of one image, numbered on from those already emitted;
      a SKU without a category id is skipped. */
  function EmitAnnotations(cfg: PipelineConfig, imageId: nat, anns: seq<Confirmed>, out: seq<CocoAnnotation>): (r: seq<CocoAnnotation>)
    decreases |anns|
  {
    if anns == [] then out
    else
      var a := anns[0];
      var next :=
        if a.sku in cfg.categoryToId
        then out + [CocoAnnotation(|out| + 1, imageId, cfg.categoryToId[a.sku], a.bbox, a.bbox.w * a.bbox.h, 0)]
        else out;
      EmitAnnotations(cfg, imageId, anns[1..], next)
  }

  /** One entry of the map: when its file is present, the next image and
      its annotations are added to the document `acc`. */
  function EmitEntry(cfg: PipelineConfig, files: map<string, ImageSize>, entry: (string, seq<Confirmed>), acc: Coco): (r: Coco)
    ensures r.categories == acc.categories
  {
    var name := LastSegment(entry.0);
    if name !in files then acc
    else
      var id := |acc.images|;
      var image := CocoImage(id, entry.0, files[name].width, files[name].height);
      Coco(acc.images + [image], EmitAnnotations(cfg, id, entry.1, acc.annotations), acc.categories)
  }

  /** The entries from `entries` on, after the document `acc` built so far. */
  function EmitImages(cfg: PipelineConfig, files: map<string, ImageSize>, entries: Entries, acc: Coco): (r: Coco)
    decreases |entries|
  {
    if entries == [] then acc
    else EmitImages(cfg, files, entries[1..], EmitEntry(cfg, files, entries[0], acc))
  }

  /** `convert_to_coco_format(confirmed_annotations_map, config, ...)`, for
      the image files present in the training directory with the sizes in
      `files` (a file that is missing or cannot be read is absent). */
  function CocoOf(cfg: PipelineConfig, files: map<string, ImageSize>, entries: Entries): Coco
    requires ConfigOk(cfg)
  {
    EmitImages(cfg, files, entries, Coco([], [], Categories(cfg)))
  }

  /** The ids of a COCO document as the conversion hands them out: images
      numbered from 0 and annotations from 1 in order, every annotation
      pointing at an emitted image and a category of the configuration,
      with its area the box's, and every image sized as its file. */
  predicate CocoOk(cfg: PipelineConfig, files: map<string, ImageSize>, coco: Coco) {
    ImagesOk(files, coco.images) && AnnotationsOk(cfg, |coco.images|, coco.annotations)
  }

  predicate ImagesOk(files: map<string, ImageSize>, images: seq<CocoImage>) {
    forall i :: 0 <= i < |images| ==>
      && images[i].id == i
      && LastSegment(images[i].fileName) in files
      && images[i].width == files[LastSegment(images[i].fileName)].width
      && images[i].height == files[LastSegment(images[i].fileName)].height
  }

  predicate AnnotationsOk(cfg: PipelineConfig, numImages: nat, anns: seq<CocoAnnotation>) {
    forall j :: 0 <= j < |anns| ==> AnnotationOk(cfg, numImages, j, anns[j])
  }

  predicate AnnotationOk(cfg: PipelineConfig, numImages: nat, j: nat, a: CocoAnnotation) {
    && a.id == j + 1 && a.imageId < numImages
    && a.categoryId < |cfg.knownSkus| && a.area == a.bbox.w * a.bbox.h && a.isCrowd == 0
  }

  lemma {:induction false} EmitAnnotationsOk(cfg: PipelineConfig, numImages: nat, imageId: nat, anns: seq<Confirmed>, out: seq<CocoAnnotation>)
    requires ConfigOk(cfg) && imageId < numImages
    requires AnnotationsOk(cfg, numImages, out)
    ensures AnnotationsOk(cfg, numImages, EmitAnnotations(cfg, imageId, anns, out))
    decreases |anns|
  {
    if anns != [] {
      var a := anns[0];
      if a.sku in cfg.categoryToId {
        var added := CocoAnnotation(|out| + 1, imageId, cfg.categoryToId[a.sku], a.bbox, a.bbox.w * a.bbox.h, 0);
        var next := out + [added];
        assert AnnotationOk(cfg, numImages, |out|, added);
        assert AnnotationsOk(cfg, numImages, next) by {
          forall j | 0 <= j < |next| ensures AnnotationOk(cfg, numImages, j, next[j]) {
            if j < |out| { assert next[j] == out[j]; }
          }
        }
        EmitAnnotationsOk(cfg, numImages, imageId, anns[1..], next);
      } else {
        assert EmitAnnotations(cfg, imageId, anns, out) == EmitAnnotations(cfg, imageId, anns[1..], out);
        EmitAnnotationsOk(cfg, numImages, imageId, anns[1..], out);
      }
    }
  }

  /** Adding one image and its annotations keeps the ids as `CocoOk` describes. */
  lemma EmitImageOk(cfg: PipelineConfig, files: map<string, ImageSize>, acc: Coco, path: string, anns: seq<Confirmed>)
    requires ConfigOk(cfg) && CocoOk(cfg, files, acc) && LastSegment(path) in files
    ensures var id := |acc.images|;
      var size := files[LastSegment(path)];
      CocoOk(cfg, files, Coco(acc.images + [CocoImage(id, path, size.width, size.height)],
                              EmitAnnotations(cfg, id, anns, acc.annotations), acc.categories))
  {
    var id := |acc.images|;
    AnnotationsWiden(cfg, id, acc.annotations);
    EmitAnnotationsOk(cfg, id + 1, id, anns, acc.annotations);
    ImagesAppendOk(files, acc.images, path);
  }

  lemma AnnotationsWiden(cfg: PipelineConfig, n: nat, anns: seq<CocoAnnotation>)
    requires AnnotationsOk(cfg, n, anns)
    ensures AnnotationsOk(cfg, n + 1, anns)
  {
    forall j | 0 <= j < |anns|
      ensures AnnotationOk(cfg, n + 1, j, anns[j])
    {
      assert AnnotationOk(cfg, n, j, anns[j]);
    }
  }

  lemma ImagesAppendOk(files: map<string, ImageSize>, images: seq<CocoImage>, path: string)
    requires ImagesOk(files, images) && LastSegment(path) in files
    ensures var size := files[LastSegment(path)];
      ImagesOk(files, images + [CocoImage(|images|, path, size.width, size.height)])
  {
    var size := files[LastSegment(path)];
    var next := images + [CocoImage(|images|, path, size.width, size.height)];
    forall i | 0 <= i < |next|
      ensures next[i].id == i && LastSegment(next[i].fileName) in files
      ensures next[i].width == files[LastSegment(next[i].fileName)].width
      ensures next[i].height == files[LastSegment(next[i].fileName)].height
    {
      if i < |images| { assert next[i] == images[i]; }
    }
  }

  lemma {:induction false} EmitImagesOk(cfg: PipelineConfig, files: map<string, ImageSize>, entries: Entries, acc: Coco)
    requires ConfigOk(cfg) && CocoOk(cfg, files, acc)
    ensures CocoOk(cfg, files, EmitImages(cfg, files, entries, acc))
    decreases |entries|
  {
    if entries != [] {
      if LastSegment(entries[0].0) in files {
        EmitImageOk(cfg, files, acc, entries[0].0, entries[0].1);
      }
      EmitImagesOk(cfg, files, entries[1..], EmitEntry(cfg, files, entries[0], acc));
    }
  }

  /** The converted document hands out its ids as described by `CocoOk`,
      and lists one category per known SKU. */
  lemma CocoOfOk(cfg: PipelineConfig, files: map<string, ImageSize>, entries: Entries)
    requires ConfigOk(cfg)
    ensures CocoOk(cfg, files, CocoOf(cfg, files, entries))
    ensures CocoOf(cfg, files, entries).categories == Categories(cfg)
  {
    EmitImagesOk(cfg, files, entries, Coco([], [], Categories(cfg)));
    EmitImagesKeepsCategories(cfg, files, entries, Coco([], [], Categories(cfg)));
  }

  lemma {:induction false} EmitImagesKeepsCategories(cfg: PipelineConfig, files: map<string, ImageSize>, entries: Entries, acc: Coco)
    ensures EmitImages(cfg, files, entries, acc).categories == acc.categories
    decreases |entries|
  {
    if entries != [] {
      EmitImagesKeepsCategories(cfg, files, entries[1..], EmitEntry(cfg, files, entries[0], acc));
    }
  }

  /** When every referenced file is present, every entry becomes one image. */
  lemma {:induction false} EmitImagesAll(cfg: PipelineConfig, files: map<string, ImageSize>, entries: Entries, acc: Coco)
    requires forall i :: 0 <= i < |entries| ==> LastSegment(entries[i].0) in files
    ensures |EmitImages(cfg, files, entries, acc).images| == |acc.images| + |entries|
    decreases |entries|
  {
    if entries != [] {
      assert LastSegment(entries[0].0) in files;
      assert forall i :: 0 <= i < |entries[1..]| ==> entries[1..][i] == entries[i + 1];
      EmitImagesAll(cfg, files, entries[1..], EmitEntry(cfg, files, entries[0], acc));
    }
  }

  /** The annotation loop of `convert_to_coco_format` for one image, with
      the annotation id counter `nextId`. */
  method EmitImageAnnotations(cfg: PipelineConfig, imageId: nat, anns: seq<Confirmed>, out: seq<CocoAnnotation>)
    returns (result: seq<CocoAnnotation>)
    ensures result == EmitAnnotations(cfg, imageId, anns, out)
  {
    result := out;
    var nextId := |out| + 1;
    var j := 0;
    while j < |anns|
      invariant 0 <= j <= |anns| && nextId == |result| + 1
      invariant EmitAnnotations(cfg, imageId, anns, out) == EmitAnnotations(cfg, imageId, anns[j..], result)
    {
      assert anns[j..][0] == anns[j] && anns[j..][1..] == anns[j + 1..];
      var sku := anns[j].sku;
      if sku in cfg.categoryToId {
        var bbox := anns[j].bbox;
        result := result + [CocoAnnotation(nextId, imageId, cfg.categoryToId[sku], bbox, bbox.w * bbox.h, 0)];
        nextId := nextId + 1;
      }
      j := j + 1;
    }
  }

  /** `convert_to_coco_format(confirmed_annotations_map, config, output_json_path)`
      up to the JSON it writes. */
  method ConvertToCoco(cfg: PipelineConfig, files: map<string, ImageSize>, entries: Entries) returns (coco: Coco)
    requires ConfigOk(cfg)
    ensures coco == CocoOf(cfg, files, entries)
    ensures CocoOk(cfg, files, coco) && coco.categories == Categories(cfg)
  {
    CocoOfOk(cfg, files, entries);
    coco := Coco([], [], Categories(cfg));
    var imageId := 0;
    var todo := entries;
    while todo != []
      invariant imageId == |coco.images|
      invariant CocoOf(cfg, files, entries) == EmitImages(cfg, files, todo, coco)
      decreases |todo|
    {
      var (path, anns) := todo[0];
      var name := LastSegment(path);
      if name in files {
        var current := imageId;
        var size := files[name];
        var images := coco.images + [CocoImage(current, path, size.width, size.height)];
        imageId := imageId + 1;
        var annotations := EmitImageAnnotations(cfg, current, anns, coco.annotations);
        coco := Coco(images, annotations, coco.categories);
      }
      todo := todo[1..];
    }
  }

  // ---------------------------------------------------------------------
  // Training command

  /** The optional arguments of the training command. */
  datatype TrainOptions = TrainOptions(useAmp: bool, seed: Option<string>, checkpoint: Option<string>)

  /** `--use-amp`, then `--seed <seed>`, then `-t <checkpoint>`, each when set. */
  function OptionArgs(o: TrainOptions): seq<string> {
    (if o.useAmp then ["--use-amp"] else [])
    + (if o.seed.Some? then ["--seed", o.seed.value] else [])
    + (if o.checkpoint.Some? then ["-t", o.checkpoint.value] else [])
  }

  /** Reads the optional arguments back, in the order the command writes them. */
  function ParseOptions(args: seq<string>): (r: Option<TrainOptions>) {
    var amp := args != [] && args[0] == "--use-amp";
    var a1 := if amp then args[1..] else args;
    var hasSeed := |a1| >= 2 && a1[0] == "--seed";
    var a2 := if hasSeed then a1[2..] else a1;
    if a2 == [] then Some(TrainOptions(amp, if hasSeed then Some(a1[1]) else None, None))
    else if |a2| == 2 && a2[0] == "-t" then Some(TrainOptions(amp, if hasSeed then Some(a1[1]) else None, Some(a2[1])))
    else None
  }

  /** The optional arguments say exactly which options were set. */
  lemma ParseOptionArgs(o: TrainOptions)
    ensures ParseOptions(OptionArgs(o)) == Some(o)
  {
    var amp := if o.useAmp then ["--use-amp"] else [];
    var seed := if o.seed.Some? then ["--seed", o.seed.value] else [];
    var ck := if o.checkpoint.Some? then ["-t", o.checkpoint.value] else [];
    var args := OptionArgs(o);
    assert args == amp + seed + ck;
    var a1 := if o.useAmp then args[1..] else args;
    assert a1 == seed + ck;
    var a2 := if o.seed.Some? then a1[2..] else a1;
    assert a2 == ck;
  }

  /** The options `run_dfine_training` passes: `--use-amp` when
      `TRAIN_USE_AMP`, the seed unless `TRAIN_SEED` is None, and the
      checkpoint when one is given and exists. */
  function OptionsOf(cfg: PipelineConfig, checkpoint: Option<string>, checkpointExists: bool): TrainOptions {
    TrainOptions(
      cfg.useAmp,
      if cfg.seed.Some? then Some(IntToString(cfg.seed.value)) else None,
      if checkpoint.Some? && checkpointExists then checkpoint else None)
  }

  /** The fixed part: torchrun, its port and process count, the script and
      the model configuration (`str(model_config_file.resolve())`). */
  function TrainPrefix(cfg: PipelineConfig, modelConfig: string): seq<string> {
    ["torchrun", "--master_port=" + cfg.masterPort, "--nproc_per_node=" + IntToString(cfg.nprocPerNode),
     cfg.repoPath + "/train.py", "-c", modelConfig]
  }

  /** The command line `run_dfine_training` executes. */
  function TrainCommand(cfg: PipelineConfig, modelConfig: string, checkpoint: Option<string>, checkpointExists: bool): (cmd: seq<string>)
    ensures |cmd| >= 6 && cmd[..6] == TrainPrefix(cfg, modelConfig)
    ensures ParseOptions(cmd[6..]) == Some(OptionsOf(cfg, checkpoint, checkpointExists))
  {
    var o := OptionsOf(cfg, checkpoint, checkpointExists);
    ParseOptionArgs(o);
    var cmd := TrainPrefix(cfg, modelConfig) + OptionArgs(o);
    assert cmd[6..] == OptionArgs(o);
    cmd
  }

  /** The list `run_dfine_training` builds with `append` and `extend`. */
  method BuildTrainCommand(cfg: PipelineConfig, modelConfig: string, checkpoint: Option<string>, checkpointExists: bool)
    returns (cmd: seq<string>)
    ensures cmd == TrainCommand(cfg, modelConfig, checkpoint, checkpointExists)
  {
    cmd := TrainPrefix(cfg, modelConfig);
    ghost var o := OptionsOf(cfg, checkpoint, checkpointExists);
    ghost var written: seq<string> := [];
    if cfg.useAmp {
      cmd, written := cmd + ["--use-amp"], ["--use-amp"];
    }
    assert written == if o.useAmp then ["--use-amp"] else [];
    if cfg.seed.Some? {
      cmd, written := cmd + ["--seed", IntToString(cfg.seed.value)], written + ["--seed", IntToString(cfg.seed.value)];
    }
    assert written == (if o.useAmp then ["--use-amp"] else []) + (if o.seed.Some? then ["--seed", o.seed.value] else []);
    if checkpoint.Some? && checkpointExists {
      cmd, written := cmd + ["-t", checkpoint.value], written + ["-t", checkpoint.value];
    }
    assert written == OptionArgs(o);
    assert cmd == TrainPrefix(cfg, modelConfig) + written;
  }
}
