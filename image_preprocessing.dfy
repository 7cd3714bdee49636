/**
 * The OCR preprocessing pipeline: the resize rules, the border-crop clamp,
 * the order in which the steps are applied and recorded, and the quality
 * presets. The OpenCV operations themselves (decoding, denoising, CLAHE,
 * thresholding, the Hough-line skew estimate, contours, encoding) are
 * parameters; the model tracks image sizes and the recorded steps.
 */
module ImagePreprocessing {
  import opened Wrappers
  import opened Numeric

  type Bytes = seq<bv8>

  /** The step flags of `preprocess`. */
  datatype PreprocessOptions = PreprocessOptions(
    denoise: bool, enhanceContrast: bool, binarize: bool, deskew: bool, removeBorders: bool)

  const Fast := PreprocessOptions(false, true, false, false, false)
  const Balanced := PreprocessOptions(true, true, false, true, false)
  const Best := PreprocessOptions(true, true, true, true, true)

  /** `preprocess_for_ocr`'s choice of flags. */
  function Preset(quality: string): (o: PreprocessOptions)
    ensures quality == "fast" ==> o == Fast
    ensures quality == "best" ==> o == Best
    ensures quality != "fast" && quality != "best" ==> o == Balanced
    ensures o.enhanceContrast && (o.denoise <==> o.deskew) && (o.binarize <==> o.removeBorders)
  {
    if quality == "fast" then Fast else if quality == "best" then Best else Balanced
  }

  /** The "fast" preset enables contrast enhancement only, "best" every step. */
  lemma PresetSteps()
    ensures var f := Preset("fast");
      f.enhanceContrast && !f.denoise && !f.binarize && !f.deskew && !f.removeBorders
    ensures var b := Preset("best");
      b.enhanceContrast && b.denoise && b.binarize && b.deskew && b.removeBorders
  {
  }

  /** The constructor arguments of `ImagePreprocessor`. */
  datatype Preprocessor = Preprocessor(targetDpi: int, maxDimension: int, minDimension: int)

  const DefaultPreprocessor := Preprocessor(300, 4096, 50)

  /** Images below this longest side are scaled up. */
  const UpscaleBelow: nat := 1000

  function Max(a: int, b: int): int { if a >= b then a else b }
  function Min(a: int, b: int): int { if a <= b then a else b }

  /** `min(2.0, 1000 / m)`, the upscale factor of a longest side `m`. */
  function UpScale(m: nat): real
    requires m > 0
  {
    var up := UpscaleBelow as real / m as real;
    if 2.0 <= up then 2.0 else up
  }

  /** `max_dimension / m`, the downscale factor of a longest side `m`. */
  function DownScale(maxDimension: int, m: nat): real
    requires m > 0
  {
    maxDimension as real / m as real
  }

  /** Both sides multiplied by `scale` and truncated, as `int(w * scale), int(h * scale)`. */
  function Scaled(w: nat, h: nat, scale: real): (int, int)
  {
    (Trunc(w as real * scale), Trunc(h as real * scale))
  }

  /** `_resize_for_ocr` on sizes: the new width and height, None where the division by `max(w, h)` raises. */
  function ResizeDims(p: Preprocessor, w: nat, h: nat): Option<(int, int)>
  {
    if w < p.minDimension || h < p.minDimension then Some((w, h))
    else
      var m := Max(w, h);
      if m > p.maxDimension then
        if m == 0 then None else Some(Scaled(w, h, DownScale(p.maxDimension, m)))
      else if m < UpscaleBelow then
        if m == 0 then None else Some(Scaled(w, h, UpScale(m)))
      else Some((w, h))
  }

  lemma MulNonneg(x: real, y: real)
    requires x >= 0.0 && y >= 0.0
    ensures x * y >= 0.0
  {
  }

  /** The downscale factor undoes the division, is not negative, and is below one for a maximum below `m`. */
  lemma DownScaleRange(M: nat, m: nat)
    requires m > 0
    ensures DownScale(M, m) * m as real == M as real
    ensures DownScale(M, m) >= 0.0
    ensures M < m ==> DownScale(M, m) < 1.0
  {
  }

  /** A side scaled down by `M / m` for a longest side `m > M` shrinks and stays within `M`. */
  lemma ScaleDown(a: nat, m: nat, M: nat)
    requires 0 < m && a <= m && M < m
    ensures 0 <= Trunc(a as real * DownScale(M, m)) <= a
    ensures Trunc(a as real * DownScale(M, m)) <= M
  {
    var s := DownScale(M, m);
    DownScaleRange(M, m);
    TruncBounds(a as real * s);
    MulNonneg(a as real, s);
    MulNonneg(a as real, 1.0 - s);
    MulNonneg(s, m as real - a as real);
    assert a as real - a as real * s == a as real * (1.0 - s);
    assert M as real - a as real * s == s * (m as real - a as real);
  }

  /** A side scaled up for a longest side `m` below the bound grows at most twofold and stays within the bound. */
  lemma ScaleUp(a: nat, m: nat)
    requires 0 < m < UpscaleBelow && a <= m
    ensures a <= Trunc(a as real * UpScale(m)) <= 2 * a
    ensures Trunc(a as real * UpScale(m)) <= UpscaleBelow
  {
    var up := UpscaleBelow as real / m as real;
    var s := UpScale(m);
    assert up * m as real == 1000.0;
    assert (up - 1.0) * m as real == 1000.0 - m as real;
    assert up > 1.0;
    var x := a as real * s;
    TruncBounds(x);
    assert s >= 1.0;
    assert x - a as real == a as real * (s - 1.0);
    MulNonneg(a as real, s - 1.0);
    assert 2.0 * a as real - x == a as real * (2.0 - s);
    MulNonneg(a as real, 2.0 - s);
    MulNonneg(up - s, m as real);
    MulNonneg(s, m as real - a as real);
    assert 1000.0 - x == up * m as real - a as real * s;
    assert up * m as real - a as real * s == (up - s) * m as real + s * (m as real - a as real);
  }

  /** A tiny image is unchanged, and so is one already between the upscale bound and the maximum. */
  lemma ResizeUnchanged(p: Preprocessor, w: nat, h: nat)
    requires w < p.minDimension || h < p.minDimension || UpscaleBelow <= Max(w, h) <= p.maxDimension
    ensures ResizeDims(p, w, h) == Some((w, h))
  {
  }

  /** The width scaled down for a longest side above the maximum shrinks and fits within the maximum. */
  lemma WidthDown(w: nat, h: nat, maxDimension: nat)
    requires Max(w, h) > maxDimension
    ensures var d := Scaled(w, h, DownScale(maxDimension, Max(w, h)));
      0 <= d.0 <= w && d.0 <= maxDimension
  {
    var m := Max(w, h);
    assert w <= m;
    ScaleDown(w, m, maxDimension);
    assert Scaled(w, h, DownScale(maxDimension, m)).0 == Trunc(w as real * DownScale(maxDimension, m));
  }

  /** The height scaled down for a longest side above the maximum shrinks and fits within the maximum. */
  lemma HeightDown(w: nat, h: nat, maxDimension: nat)
    requires Max(w, h) > maxDimension
    ensures var d := Scaled(w, h, DownScale(maxDimension, Max(w, h)));
      0 <= d.1 <= h && d.1 <= maxDimension
  {
    var m := Max(w, h);
    assert h <= m;
    ScaleDown(h, m, maxDimension);
    assert Scaled(w, h, DownScale(maxDimension, m)).1 == Trunc(h as real * DownScale(maxDimension, m));
  }

  /** An image larger than the maximum is scaled down so that its longest side is at most the maximum. */
  lemma ResizeDown(p: Preprocessor, w: nat, h: nat)
    requires w >= p.minDimension && h >= p.minDimension && Max(w, h) > p.maxDimension >= 0
    ensures var r := ResizeDims(p, w, h);
      r.Some? && 0 <= r.value.0 <= w && 0 <= r.value.1 <= h && Max(r.value.0, r.value.1) <= p.maxDimension
  {
    assert ResizeDims(p, w, h) == Some(Scaled(w, h, DownScale(p.maxDimension, Max(w, h))));
    WidthDown(w, h, p.maxDimension);
    HeightDown(w, h, p.maxDimension);
  }

  /** An image below the upscale bound grows by at most a factor of two and to a longest side of at most the bound. */
  lemma ResizeUp(p: Preprocessor, w: nat, h: nat)
    requires w >= p.minDimension && h >= p.minDimension && Max(w, h) <= p.maxDimension
    requires 0 < Max(w, h) < UpscaleBelow
    ensures var r := ResizeDims(p, w, h);
      r.Some? && w <= r.value.0 <= 2 * w && h <= r.value.1 <= 2 * h && Max(r.value.0, r.value.1) <= UpscaleBelow
  {
    var m := Max(w, h);
    assert ResizeDims(p, w, h) == Some(Scaled(w, h, UpScale(m)));
    ScaleUp(w, m);
    ScaleUp(h, m);
  }

  /** The crop of `_remove_borders`: the bounding box widened by the margin and clamped to the image. */
  const Margin: int := 5

  function BorderCrop(width: int, height: int, x: int, y: int, w: int, h: int): (c: (int, int, int, int))
    ensures c.0 >= 0 && c.1 >= 0
    ensures c.0 + c.2 <= width && c.1 + c.3 <= height
  {
    var x' := Max(0, x - Margin);
    var y' := Max(0, y - Margin);
    (x', y', Min(width - x', w + 2 * Margin), Min(height - y', h + 2 * Margin))
  }

  /** A bounding box inside the image gives a crop inside the image that still holds the whole box. */
  lemma BorderCropInside(width: int, height: int, x: int, y: int, w: int, h: int)
    requires 0 <= x && 0 <= y && 0 <= w && 0 <= h && x + w <= width && y + h <= height
    ensures var c := BorderCrop(width, height, x, y, w, h);
      0 <= c.0 <= x && 0 <= c.1 <= y && c.2 >= 0 && c.3 >= 0 &&
      c.0 + c.2 <= width && c.1 + c.3 <= height &&
      x + w <= c.0 + c.2 && y + h <= c.1 + c.3
  {
  }

  /** The length of `a[start:start + len]` for a non-negative start over `n` elements. */
  function SliceLen(start: int, len: int, n: nat): (r: nat)
    requires start >= 0
    ensures 0 <= start && 0 <= len && start + len <= n ==> r == len
  {
    var lo := Min(start, n);
    var hi := Max(Min(start + len, n), lo);
    hi - lo
  }

  // ---------------------------------------------------------------- the pipeline

  /** A frame: its size, whether it has colour channels, and its pixels. */
  datatype Image = Image(width: nat, height: nat, color: bool, pixels: Bytes)

  /**
   * The OpenCV side: whether cv2/numpy/PIL loaded, decoding (None where
   * `imdecode` fails), resizing, each filter on the pixels (size kept),
   * the skew estimate and rotation of `_deskew`, the largest contour's
   * bounding box (None without contours), cropping, and PNG encoding.
   */
  datatype ImageOps = ImageOps(
    depsLoaded: bool,
    decode: Bytes -> Option<Image>,
    resize: (Image, nat, nat) -> Bytes,
    grayscale: Image -> Bytes,
    denoise: Image -> Bytes,
    deskew: Image -> (Bytes, real),
    boundingBox: Image -> Option<(int, int, int, int)>,
    crop: (Image, int, int, int, int) -> Bytes,
    enhance: Image -> Bytes,
    binarize: Image -> Bytes,
    encode: Image -> Option<Bytes>)

  datatype Step = Resize | Grayscale | Denoise | Deskew | RemoveBorders | ContrastEnhancement | Binarize

  /** The position of a step in the pipeline. */
  function Rank(s: Step): nat
  {
    match s
    case Resize => 0
    case Grayscale => 1
    case Denoise => 2
    case Deskew => 3
    case RemoveBorders => 4
    case ContrastEnhancement => 5
    case Binarize => 6
  }

  /** The name `steps_applied` records. */
  function StepName(s: Step): string
  {
    match s
    case Resize => "resize"
    case Grayscale => "grayscale"
    case Denoise => "denoise"
    case Deskew => "deskew"
    case RemoveBorders => "remove_borders"
    case ContrastEnhancement => "contrast_enhancement"
    case Binarize => "binarize"
  }

  /** The names tell the steps apart. */
  lemma StepNamesDistinct(a: Step, b: Step)
    requires StepName(a) == StepName(b)
    ensures a == b
  {
    assert StepName(a)[0] == StepName(b)[0];
  }

  datatype Metadata = Metadata(
    originalWidth: nat, originalHeight: nat, steps: seq<Step>, newSize: Option<(nat, nat)>,
    skewAngle: Option<real>, finalWidth: nat, finalHeight: nat)

  const DepsMissing := "Image preprocessing requires: pip install opencv-python numpy Pillow"
  const DecodeFailed := "Failed to decode image"
  const EncodeFailed := "Failed to encode processed image"
  /** `cv2.resize` raises for a target size with a zero or negative side. */
  const ResizeFailed := "cv2.error: resize to an empty size"
  const ResizeDivision := "division by zero"

  /** Skew below this many degrees is neither corrected nor recorded. */
  const SkewThreshold: real := 0.5

  function Abs(x: real): real { if x < 0.0 then -x else x }

  /** `_resize_for_ocr` on an image. */
  function Resized(p: Preprocessor, img: Image, ops: ImageOps): (r: Result<Image, string>)
    ensures r.Ok? ==> r.value.color == img.color
    ensures r.Ok? && (r.value.width, r.value.height) == (img.width, img.height) ==> r.value == img
  {
    match ResizeDims(p, img.width, img.height)
    case None => Err(ResizeDivision)
    case Some(d) =>
      if d == (img.width, img.height) then Ok(img)
      else if d.0 <= 0 || d.1 <= 0 then Err(ResizeFailed)
      else Ok(Image(d.0, d.1, img.color, ops.resize(img, d.0, d.1)))
  }

  /** `_remove_borders`. */
  function BordersRemoved(gray: Image, ops: ImageOps): (r: Image)
    ensures ops.boundingBox(gray).None? ==> r == gray
  {
    match ops.boundingBox(gray)
    case None => gray
    case Some(b) =>
      var c := BorderCrop(gray.width, gray.height, b.0, b.1, b.2, b.3);
      Image(SliceLen(c.0, c.2, gray.width), SliceLen(c.1, c.3, gray.height), gray.color, ops.crop(gray, c.0, c.1, c.2, c.3))
  }

  /** A step recorded when its condition holds, and nothing otherwise. */
  function Part(enabled: bool, step: Step): seq<Step>
  {
    if enabled then [step] else []
  }

  /** Whether `_deskew`'s angle is recorded. */
  predicate Skewed(angle: real)
  {
    Abs(angle) > SkewThreshold
  }

  /** The steps recorded for a run: the resize and grayscale steps, then the filters. */
  function StepsFor(resized: bool, color: bool, o: PreprocessOptions, skewed: bool): seq<Step>
  {
    HeadSteps(resized, color) + FilterSteps(o.denoise, o.deskew && skewed, o.removeBorders, o.enhanceContrast, o.binarize)
  }

  /** The recorded steps of the resize and the grayscale conversion. */
  function HeadSteps(resized: bool, color: bool): seq<Step>
  {
    Part(resized, Resize) + Part(color, Grayscale)
  }

  /** The recorded steps of the filters after the grayscale conversion. */
  function FilterSteps(denoise: bool, deskew: bool, borders: bool, enhance: bool, binarize: bool): seq<Step>
  {
    CleanupSteps(denoise, deskew, borders) + Part(enhance, ContrastEnhancement) + Part(binarize, Binarize)
  }

  /** The recorded steps of denoising, deskewing and border removal. */
  function CleanupSteps(denoise: bool, deskew: bool, borders: bool): seq<Step>
  {
    Part(denoise, Denoise) + Part(deskew, Deskew) + Part(borders, RemoveBorders)
  }

  /** When a step is recorded, as a reference: each under its own condition. */
  predicate Recorded(x: Step, resized: bool, color: bool, o: PreprocessOptions, skewed: bool)
  {
    match x
    case Resize => resized
    case Grayscale => color
    case Denoise => o.denoise
    case Deskew => o.deskew && skewed
    case RemoveBorders => o.removeBorders
    case ContrastEnhancement => o.enhanceContrast
    case Binarize => o.binarize
  }

  /** Ranks strictly rise from each step to the next. */
  predicate Rising(s: seq<Step>)
  {
    forall i :: 0 <= i < |s| - 1 ==> Rank(s[i]) < Rank(s[i + 1])
  }

  /** The first rank is at least `lo` and the last below `hi`. */
  predicate Within(s: seq<Step>, lo: nat, hi: nat)
  {
    s != [] ==> lo <= Rank(s[0]) && Rank(s[|s| - 1]) < hi
  }

  /** In a rising sequence every earlier step has a smaller rank than every later one. */
  lemma {:induction false} RisingPairs(s: seq<Step>, i: nat, j: nat)
    requires Rising(s) && i < j < |s|
    ensures Rank(s[i]) < Rank(s[j])
    decreases j - i
  {
    if j > i + 1 {
      RisingPairs(s, i, j - 1);
      assert Rank(s[j - 1]) < Rank(s[j]);
    }
  }

  /** Appending a step that may be off to a rising run within `[lo, Rank(step))` keeps it rising, now within `[lo, Rank(step) + 1)`. */
  lemma AppendPart(acc: seq<Step>, b: bool, step: Step, lo: nat)
    requires Rising(acc) && Within(acc, lo, Rank(step)) && lo <= Rank(step)
    ensures Rising(acc + Part(b, step)) && Within(acc + Part(b, step), lo, Rank(step) + 1)
  {
    var s := acc + Part(b, step);
    if b {
      forall i | 0 <= i < |s| - 1 ensures Rank(s[i]) < Rank(s[i + 1]) {
        assert s[i] == acc[i];
        if i + 1 < |acc| {
          assert s[i + 1] == acc[i + 1];
        }
      }
    } else {
      assert s == acc;
    }
  }

  /** Two rising runs, the first below rank `k` and the second from `k` on, rise together. */
  lemma Join(a: seq<Step>, b: seq<Step>, k: nat, hi: nat)
    requires Rising(a) && Within(a, 0, k) && Rising(b) && Within(b, k, hi)
    ensures Rising(a + b)
  {
    var s := a + b;
    forall i | 0 <= i < |s| - 1 ensures Rank(s[i]) < Rank(s[i + 1]) {
      if i + 1 < |a| {
        assert s[i] == a[i] && s[i + 1] == a[i + 1];
      } else if i + 1 == |a| {
        assert s[i] == a[i] && s[i + 1] == b[0];
      } else {
        assert s[i] == b[i - |a|] && s[i + 1] == b[i - |a| + 1];
      }
    }
  }

  lemma HeadOrdered(resized: bool, color: bool)
    ensures Rising(HeadSteps(resized, color)) && Within(HeadSteps(resized, color), 0, 2)
  {
    assert [] + Part(resized, Resize) == Part(resized, Resize);
    AppendPart([], resized, Resize, 0);
    AppendPart(Part(resized, Resize), color, Grayscale, 0);
  }

  lemma CleanupOrdered(denoise: bool, deskew: bool, borders: bool)
    ensures Rising(CleanupSteps(denoise, deskew, borders)) && Within(CleanupSteps(denoise, deskew, borders), 2, 5)
  {
    assert [] + Part(denoise, Denoise) == Part(denoise, Denoise);
    AppendPart([], denoise, Denoise, 2);
    AppendPart(Part(denoise, Denoise), deskew, Deskew, 2);
    AppendPart(Part(denoise, Denoise) + Part(deskew, Deskew), borders, RemoveBorders, 2);
  }

  lemma FilterOrdered(denoise: bool, deskew: bool, borders: bool, enhance: bool, binarize: bool)
    ensures var f := FilterSteps(denoise, deskew, borders, enhance, binarize);
      Rising(f) && Within(f, 2, 7)
  {
    var c := CleanupSteps(denoise, deskew, borders);
    CleanupOrdered(denoise, deskew, borders);
    AppendPart(c, enhance, ContrastEnhancement, 2);
    AppendPart(c + Part(enhance, ContrastEnhancement), binarize, Binarize, 2);
  }

  /** The recorded steps appear in pipeline order, each at most once. */
  lemma StepsOrdered(resized: bool, color: bool, o: PreprocessOptions, skewed: bool)
    ensures var s := StepsFor(resized, color, o, skewed);
      Rising(s) && forall i, j :: 0 <= i < j < |s| ==> s[i] != s[j]
  {
    var h := HeadSteps(resized, color);
    var f := FilterSteps(o.denoise, o.deskew && skewed, o.removeBorders, o.enhanceContrast, o.binarize);
    HeadOrdered(resized, color);
    FilterOrdered(o.denoise, o.deskew && skewed, o.removeBorders, o.enhanceContrast, o.binarize);
    Join(h, f, 2, 7);
    RisingDistinct(h + f);
  }

  /** Strictly rising ranks never repeat a step. */
  lemma RisingDistinct(s: seq<Step>)
    requires Rising(s)
    ensures forall i, j :: 0 <= i < j < |s| ==> s[i] != s[j]
  {
    forall i, j | 0 <= i < j < |s| ensures s[i] != s[j] {
      RisingPairs(s, i, j);
    }
  }

  lemma HeadIn(resized: bool, color: bool)
    ensures forall x :: x in HeadSteps(resized, color) <==> (resized && x == Resize) || (color && x == Grayscale)
  {
  }

  lemma CleanupIn(denoise: bool, deskew: bool, borders: bool)
    ensures forall x :: x in CleanupSteps(denoise, deskew, borders) <==>
      (denoise && x == Denoise) || (deskew && x == Deskew) || (borders && x == RemoveBorders)
  {
  }

  lemma FilterIn(denoise: bool, deskew: bool, borders: bool, enhance: bool, binarize: bool)
    ensures forall x :: x in FilterSteps(denoise, deskew, borders, enhance, binarize) <==>
      (denoise && x == Denoise) || (deskew && x == Deskew) || (borders && x == RemoveBorders) ||
      (enhance && x == ContrastEnhancement) || (binarize && x == Binarize)
  {
    CleanupIn(denoise, deskew, borders);
  }

  /** A step is recorded exactly when its condition holds; deskew only for a skew above the threshold. */
  lemma StepsPresence(resized: bool, color: bool, o: PreprocessOptions, skewed: bool)
    ensures forall x :: x in StepsFor(resized, color, o, skewed) <==> Recorded(x, resized, color, o, skewed)
  {
    HeadIn(resized, color);
    FilterIn(o.denoise, o.deskew && skewed, o.removeBorders, o.enhanceContrast, o.binarize);
  }

  /** The flags with the filters applied, and the skew angle `_deskew` reported (0 when deskew is off). */
  function Filtered(gray: Image, o: PreprocessOptions, ops: ImageOps): (r: (Image, real))
    ensures !o.removeBorders ==> r.0.width == gray.width && r.0.height == gray.height
    ensures !o.deskew ==> r.1 == 0.0
  {
    var g2 := if o.denoise then gray.(pixels := ops.denoise(gray)) else gray;
    var g3 := if o.deskew then g2.(pixels := ops.deskew(g2).0) else g2;
    var angle := if o.deskew then ops.deskew(g2).1 else 0.0;
    var g4 := if o.removeBorders then BordersRemoved(g3, ops) else g3;
    var g5 := if o.enhanceContrast then g4.(pixels := ops.enhance(g4)) else g4;
    var g6 := if o.binarize then g5.(pixels := ops.binarize(g5)) else g5;
    (g6, angle)
  }

  /** `preprocess`: the encoded image and its metadata, or the message of the error it raises. */
  function PreprocessOutcome(p: Preprocessor, imageBytes: Bytes, o: PreprocessOptions, ops: ImageOps): (r: Result<(Bytes, Metadata), string>)
    ensures !ops.depsLoaded ==> r == Err(DepsMissing)
    ensures ops.depsLoaded && ops.decode(imageBytes).None? ==> r == Err(DecodeFailed)
    ensures r.Ok? ==>
      (ops.decode(imageBytes).Some? &&
       r.value.1.originalWidth == ops.decode(imageBytes).value.width &&
       r.value.1.originalHeight == ops.decode(imageBytes).value.height)
  {
    if !ops.depsLoaded then Err(DepsMissing)
    else match ops.decode(imageBytes)
      case None => Err(DecodeFailed)
      case Some(img) =>
        match Resized(p, img, ops)
        case Err(e) => Err(e)
        case Ok(sized) =>
          var resized := (sized.width, sized.height) != (img.width, img.height);
          var gray := if sized.color then Image(sized.width, sized.height, false, ops.grayscale(sized)) else sized;
          var (final, angle) := Filtered(gray, o, ops);
          match ops.encode(final)
          case None => Err(EncodeFailed)
          case Some(encoded) =>
            Ok((encoded, Metadata(
              img.width, img.height, StepsFor(resized, sized.color, o, Skewed(angle)),
              if resized then Some((sized.width, sized.height)) else None,
              if o.deskew && Skewed(angle) then Some(angle) else None,
              final.width, final.height)))
  }

  /** Without border removal the final size is the resized one, and the original one when nothing was resized. */
  lemma FinalSize(p: Preprocessor, imageBytes: Bytes, o: PreprocessOptions, ops: ImageOps)
    requires PreprocessOutcome(p, imageBytes, o, ops).Ok? && !o.removeBorders
    ensures var m := PreprocessOutcome(p, imageBytes, o, ops).value.1;
      (m.newSize.Some? ==> (m.finalWidth, m.finalHeight) == m.newSize.value) &&
      (m.newSize.None? ==> (m.finalWidth, m.finalHeight) == (m.originalWidth, m.originalHeight)) &&
      (Resize in m.steps <==> m.newSize.Some?)
  {
    var m := PreprocessOutcome(p, imageBytes, o, ops).value.1;
    var img := ops.decode(imageBytes).value;
    var sized := Resized(p, img, ops).value;
    var resized := (sized.width, sized.height) != (img.width, img.height);
    var gray := if sized.color then Image(sized.width, sized.height, false, ops.grayscale(sized)) else sized;
    StepsPresence(resized, sized.color, o, Skewed(Filtered(gray, o, ops).1));
  }

  /** `preprocess`, recording its steps as it goes. */
  method Preprocess(p: Preprocessor, imageBytes: Bytes, o: PreprocessOptions, ops: ImageOps) returns (r: Result<(Bytes, Metadata), string>)
    ensures r == PreprocessOutcome(p, imageBytes, o, ops)
  {
    if !ops.depsLoaded {
      return Err(DepsMissing);
    }
    var decoded := ops.decode(imageBytes);
    if decoded.None? {
      return Err(DecodeFailed);
    }
    var img := decoded.value;
    var steps: seq<Step> := [];
    var newSize: Option<(nat, nat)> := None;
    var sizedOrError := Resized(p, img, ops);
    if sizedOrError.Err? {
      return Err(sizedOrError.error);
    }
    var gray := sizedOrError.value;
    var resized := (gray.width, gray.height) != (img.width, img.height);
    var color := gray.color;
    if resized {
      steps := steps + [Resize];
      newSize := Some((gray.width, gray.height));
    }
    if gray.color {
      gray := Image(gray.width, gray.height, false, ops.grayscale(gray));
      steps := steps + [Grayscale];
    }
    assert steps == HeadSteps(resized, color);
    var angle, filterSteps, skew;
    gray, angle, filterSteps, skew := ApplyFilters(gray, o, ops);
    steps := steps + filterSteps;
    assert steps == StepsFor(resized, color, o, Skewed(angle));
    var encoded := ops.encode(gray);
    if encoded.None? {
      return Err(EncodeFailed);
    }
    r := Ok((encoded.value, Metadata(img.width, img.height, steps, newSize, skew, gray.width, gray.height)));
  }

  /** Steps 3 to 7 of `preprocess`: each enabled filter applied and recorded in turn. */
  method ApplyFilters(start: Image, o: PreprocessOptions, ops: ImageOps)
    returns (gray: Image, angle: real, steps: seq<Step>, skew: Option<real>)
    ensures (gray, angle) == Filtered(start, o, ops)
    ensures steps == FilterSteps(o.denoise, o.deskew && Skewed(angle), o.removeBorders, o.enhanceContrast, o.binarize)
    ensures skew == if o.deskew && Skewed(angle) then Some(angle) else None
  {
    gray := start;
    steps := [];
    if o.denoise {
      gray := gray.(pixels := ops.denoise(gray));
      steps := steps + [Denoise];
    }
    assert steps == Part(o.denoise, Denoise);
    angle := 0.0;
    skew := None;
    if o.deskew {
      var rotated: Bytes;
      rotated, angle := ops.deskew(gray).0, ops.deskew(gray).1;
      gray := gray.(pixels := rotated);
      if Skewed(angle) {
        steps := steps + [Deskew];
        skew := Some(angle);
      }
    }
    assert steps == Part(o.denoise, Denoise) + Part(o.deskew && Skewed(angle), Deskew);
    if o.removeBorders {
      gray := BordersRemoved(gray, ops);
      steps := steps + [RemoveBorders];
    }
    assert steps == CleanupSteps(o.denoise, o.deskew && Skewed(angle), o.removeBorders);
    if o.enhanceContrast {
      gray := gray.(pixels := ops.enhance(gray));
      steps := steps + [ContrastEnhancement];
    }
    if o.binarize {
      gray := gray.(pixels := ops.binarize(gray));
      steps := steps + [Binarize];
    }
  }

  /** `preprocess_url`: the download's error, else `preprocess` of its bytes. */
  method PreprocessUrl(p: Preprocessor, url: string, fetch: string -> Result<Bytes, string>, o: PreprocessOptions, ops: ImageOps)
    returns (r: Result<(Bytes, Metadata), string>)
    ensures fetch(url).Err? ==> r == Err(fetch(url).error)
    ensures fetch(url).Ok? ==> r == PreprocessOutcome(p, fetch(url).value, o, ops)
  {
    var response := fetch(url);
    if response.Err? {
      return Err(response.error);
    }
    r := Preprocess(p, response.value, o, ops);
  }

  /** `preprocess_for_ocr`: a default preprocessor with the flags of the quality preset. */
  method PreprocessForOcr(imageBytes: Bytes, quality: string, ops: ImageOps) returns (r: Result<(Bytes, Metadata), string>)
    ensures r == PreprocessOutcome(DefaultPreprocessor, imageBytes, Preset(quality), ops)
  {
    r := Preprocess(DefaultPreprocessor, imageBytes, Preset(quality), ops);
  }
}
