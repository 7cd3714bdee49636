/**
 * OCR: per-source extraction with EasyOCR (detections above the
 * confidence floor), the Tesseract fallback, the preprocessing settings by
 * quality, and the aggregation over the first five sources. The engines,
 * downloads and file reads are parameters.
 */
module Ocr {
  import opened Wrappers
  import opened Json
  import Text
  import ImagePreprocessing

  type Bytes = ImagePreprocessing.Bytes
  type PreprocessOptions = ImagePreprocessing.PreprocessOptions

  /** One `(bbox, text, confidence)` of `reader.readtext`. */
  datatype Detection = Detection(bbox: Value, text: string, confidence: real)

  /** A region of a result; EasyOCR regions of a source carry their box. */
  datatype Region = Region(text: string, confidence: real, bbox: Option<Value>)

  datatype OcrResult = OcrResult(text: string, confidence: real, regions: seq<Region>)

  const Empty := OcrResult("", 0.0, [])

  /** Detections at or below this confidence are dropped. */
  const MinConfidence: real := 0.3

  /** The confidence reported for any Tesseract result. */
  const TesseractConfidence: real := 0.7

  /** How many sources one extraction looks at. */
  const MaxSources: nat := 5

  /** The flags of `_preprocess_image` by quality level. */
  const SettingsTable: map<string, PreprocessOptions> := map[
    "fast" := ImagePreprocessing.Fast,
    "balanced" := ImagePreprocessing.Balanced,
    "best" := ImagePreprocessing.Best]

  /** `settings.get(quality, settings["balanced"])`. */
  function Settings(quality: string): (o: PreprocessOptions)
    ensures quality !in SettingsTable ==> o == ImagePreprocessing.Balanced
    ensures o.enhanceContrast
    ensures o.binarize ==> o.denoise && o.deskew && o.removeBorders
  {
    if quality in SettingsTable then SettingsTable[quality] else SettingsTable["balanced"]
  }

  /** The OCR service's table and the preprocessor's own quality presets agree on every quality string. */
  lemma SettingsAgree(quality: string)
    ensures Settings(quality) == ImagePreprocessing.Preset(quality)
  {
    if quality == "fast" {
    } else if quality == "best" {
    } else if quality == "balanced" {
    } else {
      assert quality !in SettingsTable;
    }
  }

  /**
   * The engines and I/O: whether the EasyOCR reader and the preprocessor
   * loaded, the quality setting, the image bytes of a source (None where the
   * download or the read raises), the OpenCV operations of the preprocessor,
   * the preprocessor's outcome on an image, EasyOCR's `readtext` and
   * Tesseract's text of a source; None wherever the call raises.
   */
  datatype OcrEnv = OcrEnv(
    reader: bool,
    preprocessor: bool,
    quality: string,
    load: string -> Option<Bytes>,
    ops: ImagePreprocessing.ImageOps,
    preprocess: Bytes -> Result<(Bytes, ImagePreprocessing.Metadata), string>,
    readtext: Bytes -> Option<seq<Detection>>,
    tesseract: string -> Option<string>)

  /**
   * The preprocessor is the default `ImagePreprocessor` run with the flags of
   * the configured quality over the environment's OpenCV operations.
   */
  ghost predicate DefaultPipeline(env: OcrEnv)
  {
    forall image :: env.preprocess(image) ==
      ImagePreprocessing.PreprocessOutcome(ImagePreprocessing.DefaultPreprocessor, image, Settings(env.quality), env.ops)
  }

  /** `_fallback_ocr`: the stripped Tesseract text at 0.7, a region only when that text is not empty. */
  function Fallback(env: OcrEnv, source: string): (r: OcrResult)
    ensures env.tesseract(source).None? ==> r == Empty
    ensures env.tesseract(source).Some? ==>
      (r.confidence == TesseractConfidence && r.text == Text.Strip(env.tesseract(source).value))
    ensures r.regions == [] <==> r.text == []
    ensures r.regions != [] ==> r.regions == [Region(r.text, TesseractConfidence, None)]
  {
    match env.tesseract(source)
    case None => Empty
    case Some(text) =>
      var t := Text.Strip(text);
      OcrResult(t, TesseractConfidence, if t != [] then [Region(t, TesseractConfidence, None)] else [])
  }

  /** The detections above the confidence floor, in order. */
  function Kept(ds: seq<Detection>): (k: seq<Detection>)
    ensures |k| <= |ds|
    ensures forall i :: 0 <= i < |k| ==> k[i].confidence > MinConfidence
  {
    if ds == [] then []
    else
      var init := Kept(ds[..|ds| - 1]);
      var d := ds[|ds| - 1];
      if d.confidence > MinConfidence then init + [d] else init
  }

  function TextsOf(ds: seq<Detection>): (ts: seq<string>)
    ensures |ts| == |ds|
  {
    if ds == [] then [] else TextsOf(ds[..|ds| - 1]) + [ds[|ds| - 1].text]
  }

  function RegionOf(d: Detection, withBox: bool): Region
  {
    Region(d.text, d.confidence, if withBox then Some(d.bbox) else None)
  }

  function RegionsOf(ds: seq<Detection>, withBox: bool): (rs: seq<Region>)
    ensures |rs| == |ds|
  {
    if ds == [] then [] else RegionsOf(ds[..|ds| - 1], withBox) + [RegionOf(ds[|ds| - 1], withBox)]
  }

  lemma {:induction false} RegionsOfAt(ds: seq<Detection>, withBox: bool, i: nat)
    requires i < |ds|
    ensures RegionsOf(ds, withBox)[i] == RegionOf(ds[i], withBox)
    decreases |ds|
  {
    if i < |ds| - 1 {
      RegionsOfAt(ds[..|ds| - 1], withBox, i);
    }
  }

  function SumConfidence(ds: seq<Detection>): real
  {
    if ds == [] then 0.0 else SumConfidence(ds[..|ds| - 1]) + ds[|ds| - 1].confidence
  }

  /** `sum(xs) / len(xs) if xs else 0.0`. */
  function Mean(total: real, n: nat): real
  {
    if n > 0 then total / n as real else 0.0
  }

  /** The result of one source's detections: the kept texts space-joined, their mean confidence and their regions. */
  function FromDetections(ds: seq<Detection>, withBox: bool): (r: OcrResult)
    ensures |r.regions| == |Kept(ds)|
    ensures Kept(ds) == [] ==> r == Empty
  {
    var k := Kept(ds);
    OcrResult(Text.Join(TextsOf(k), " "), Mean(SumConfidence(k), |k|), RegionsOf(k, withBox))
  }

  /** Every region of a source is a kept detection, above the floor, with its box where asked for. */
  lemma FromDetectionsRegions(ds: seq<Detection>, withBox: bool, i: nat)
    requires i < |FromDetections(ds, withBox).regions|
    ensures FromDetections(ds, withBox).regions[i] == RegionOf(Kept(ds)[i], withBox)
    ensures FromDetections(ds, withBox).regions[i].confidence > MinConfidence
    ensures FromDetections(ds, withBox).regions[i].bbox.Some? == withBox
  {
    RegionsOfAt(Kept(ds), withBox, i);
  }

  /** The sum of confidences each above the floor and at most one. */
  lemma {:induction false} SumConfidenceBounds(ds: seq<Detection>)
    requires forall i :: 0 <= i < |ds| ==> MinConfidence < ds[i].confidence <= 1.0
    ensures MinConfidence * |ds| as real <= SumConfidence(ds) <= |ds| as real
    ensures ds != [] ==> MinConfidence * |ds| as real < SumConfidence(ds)
    decreases |ds|
  {
    if ds != [] {
      SumConfidenceBounds(ds[..|ds| - 1]);
    }
  }

  /** A mean of values strictly above `lo` and at most one. */
  lemma MeanBetween(total: real, n: nat, lo: real)
    requires n > 0 && lo * n as real < total <= n as real
    ensures lo < Mean(total, n) <= 1.0
  {
    var x := n as real;
    var m := total / x;
    assert m * x == total;
    assert (m - lo) * x > 0.0;
    assert (1.0 - m) * x >= 0.0;
  }

  /** The mean of confidences each above the floor and at most one lies in the same range. */
  lemma ConfidenceMean(k: seq<Detection>)
    requires k != [] && forall i :: 0 <= i < |k| ==> MinConfidence < k[i].confidence <= 1.0
    ensures MinConfidence < Mean(SumConfidence(k), |k|) <= 1.0
  {
    SumConfidenceBounds(k);
    MeanBetween(SumConfidence(k), |k|, MinConfidence);
  }

  /** A source's confidence is above the floor and at most one when it kept anything and every confidence is at most one. */
  lemma FromDetectionsConfidence(ds: seq<Detection>, withBox: bool)
    requires forall i :: 0 <= i < |ds| ==> ds[i].confidence <= 1.0
    requires Kept(ds) != []
    ensures MinConfidence < FromDetections(ds, withBox).confidence <= 1.0
  {
    KeptBounded(ds);
    ConfidenceMean(Kept(ds));
  }

  /** Every kept detection comes from the input. */
  lemma {:induction false} KeptFrom(ds: seq<Detection>)
    ensures forall i :: 0 <= i < |Kept(ds)| ==> Kept(ds)[i] in ds
    decreases |ds|
  {
    if ds != [] {
      KeptFrom(ds[..|ds| - 1]);
      assert ds == ds[..|ds| - 1] + [ds[|ds| - 1]];
    }
  }

  /** With every detection above the floor, all are kept. */
  lemma {:induction false} KeptAll(ds: seq<Detection>)
    requires forall i :: 0 <= i < |ds| ==> ds[i].confidence > MinConfidence
    ensures Kept(ds) == ds
    decreases |ds|
  {
    if ds != [] {
      KeptAll(ds[..|ds| - 1]);
      assert ds == ds[..|ds| - 1] + [ds[|ds| - 1]];
    }
  }

  lemma {:induction false} KeptBounded(ds: seq<Detection>)
    requires forall i :: 0 <= i < |ds| ==> ds[i].confidence <= 1.0
    ensures forall i :: 0 <= i < |Kept(ds)| ==> Kept(ds)[i].confidence <= 1.0
    decreases |ds|
  {
    if ds != [] {
      KeptBounded(ds[..|ds| - 1]);
    }
  }

  /** Regions carry a box exactly when asked for. */
  lemma BoxedRegions(ds: seq<Detection>, withBox: bool)
    ensures forall i :: 0 <= i < |FromDetections(ds, withBox).regions| ==>
      FromDetections(ds, withBox).regions[i].bbox.Some? == withBox
  {
    forall i | 0 <= i < |FromDetections(ds, withBox).regions| {
      FromDetectionsRegions(ds, withBox, i);
    }
  }

  /** One more detection is kept exactly when it is above the floor. */
  lemma KeptNext(ds: seq<Detection>, i: nat)
    requires i < |ds|
    ensures Kept(ds[..i + 1]) == if ds[i].confidence > MinConfidence then Kept(ds[..i]) + [ds[i]] else Kept(ds[..i])
  {
    assert ds[..i + 1][..i] == ds[..i];
  }

  /** A kept detection adds its text, its region and its confidence at the end. */
  lemma KeptSnoc(k: seq<Detection>, d: Detection, withBox: bool)
    ensures TextsOf(k + [d]) == TextsOf(k) + [d.text]
    ensures RegionsOf(k + [d], withBox) == RegionsOf(k, withBox) + [RegionOf(d, withBox)]
    ensures SumConfidence(k + [d]) == SumConfidence(k) + d.confidence
  {
    assert (k + [d])[..|k|] == k;
  }

  /** The texts, confidences and regions of the detections above the floor, collected in a loop. */
  method ProcessDetections(ds: seq<Detection>, withBox: bool) returns (r: OcrResult)
    ensures r == FromDetections(ds, withBox)
  {
    var texts: seq<string> := [];
    var regions: seq<Region> := [];
    var total: real := 0.0;
    var count: nat := 0;
    ghost var k: seq<Detection> := [];
    var i := 0;
    while i < |ds|
      invariant 0 <= i <= |ds| && k == Kept(ds[..i])
      invariant texts == TextsOf(k) && regions == RegionsOf(k, withBox)
      invariant total == SumConfidence(k) && count == |k|
    {
      KeptNext(ds, i);
      var d := ds[i];
      if d.confidence > MinConfidence {
        KeptSnoc(k, d, withBox);
        texts := texts + [d.text];
        regions := regions + [RegionOf(d, withBox)];
        total := total + d.confidence;
        count := count + 1;
        k := k + [d];
      }
      i := i + 1;
    }
    assert ds[..i] == ds;
    r := OcrResult(Text.Join(texts, " "), Mean(total, count), regions);
  }

  /** `_preprocess_image`: the original bytes where the preprocessor is missing or raises. */
  function Preprocessed(env: OcrEnv, image: Bytes): (b: Bytes)
    ensures !env.preprocessor || env.preprocess(image).Err? ==> b == image
    ensures env.preprocessor && env.preprocess(image).Ok? ==> b == env.preprocess(image).value.0
  {
    if !env.preprocessor then image
    else
      match env.preprocess(image)
      case Err(_) => image
      case Ok(out) => out.0
  }

  /** With the default pipeline, the bytes handed to EasyOCR are the preprocessor's output, or the original ones where it fails. */
  lemma PreprocessedByDefault(env: OcrEnv, image: Bytes)
    requires DefaultPipeline(env) && env.preprocessor
    ensures var o := ImagePreprocessing.PreprocessOutcome(ImagePreprocessing.DefaultPreprocessor, image, Settings(env.quality), env.ops);
      Preprocessed(env, image) == if o.Ok? then o.value.0 else image
  {
  }

  /**
   * `_extract_from_source`: the fallback when the reader is missing or
   * loading or reading the image raises, else the source's detections.
   */
  function SourceResult(env: OcrEnv, source: string): OcrResult
  {
    if !env.reader then Fallback(env, source)
    else
      match env.load(source)
      case None => Fallback(env, source)
      case Some(image) =>
        match env.readtext(Preprocessed(env, image))
        case None => Fallback(env, source)
        case Some(ds) => FromDetections(ds, true)
  }

  method ExtractFromSource(env: OcrEnv, source: string) returns (r: OcrResult)
    ensures r == SourceResult(env, source)
  {
    if !env.reader {
      return Fallback(env, source);
    }
    var image := env.load(source);
    if image.None? {
      return Fallback(env, source);
    }
    var data := Preprocessed(env, image.value);
    var ds := env.readtext(data);
    if ds.None? {
      return Fallback(env, source);
    }
    r := ProcessDetections(ds.value, true);
  }

  /** The results that contribute to an extraction: those with some text. */
  function Contributing(rs: seq<OcrResult>): (cs: seq<OcrResult>)
    ensures |cs| <= |rs|
    ensures forall i :: 0 <= i < |cs| ==> cs[i].text != []
  {
    if rs == [] then []
    else
      var init := Contributing(rs[..|rs| - 1]);
      var x := rs[|rs| - 1];
      if x.text != [] then init + [x] else init
  }

  lemma {:induction false} ContributingFrom(rs: seq<OcrResult>)
    ensures forall i :: 0 <= i < |Contributing(rs)| ==> Contributing(rs)[i] in rs
    decreases |rs|
  {
    if rs != [] {
      ContributingFrom(rs[..|rs| - 1]);
      assert rs == rs[..|rs| - 1] + [rs[|rs| - 1]];
    }
  }

  lemma {:induction false} ContributingBounded(rs: seq<OcrResult>)
    requires forall i :: 0 <= i < |rs| ==> 0.0 <= rs[i].confidence <= 1.0
    ensures forall i :: 0 <= i < |Contributing(rs)| ==> 0.0 <= Contributing(rs)[i].confidence <= 1.0
    decreases |rs|
  {
    if rs != [] {
      ContributingBounded(rs[..|rs| - 1]);
    }
  }

  /** One more result extends the contributing ones by itself when it has text. */
  lemma ContributingSnoc(rs: seq<OcrResult>, x: OcrResult)
    ensures Contributing(rs + [x]) == Contributing(rs) + (if x.text != [] then [x] else [])
  {
    assert (rs + [x])[..|rs|] == rs;
  }

  /** Appending one contributing result appends its text, regions and confidence. */
  lemma AppendResult(cs: seq<OcrResult>, x: OcrResult)
    ensures ResultTexts(cs + [x]) == ResultTexts(cs) + [x.text]
    ensures AllRegions(cs + [x]) == AllRegions(cs) + x.regions
    ensures TotalConfidence(cs + [x]) == TotalConfidence(cs) + x.confidence
  {
    assert (cs + [x])[..|cs|] == cs;
  }

  function ResultTexts(cs: seq<OcrResult>): (ts: seq<string>)
    ensures |ts| == |cs|
  {
    if cs == [] then [] else ResultTexts(cs[..|cs| - 1]) + [cs[|cs| - 1].text]
  }

  function AllRegions(cs: seq<OcrResult>): seq<Region>
  {
    if cs == [] then [] else AllRegions(cs[..|cs| - 1]) + cs[|cs| - 1].regions
  }

  function TotalConfidence(cs: seq<OcrResult>): real
  {
    if cs == [] then 0.0 else TotalConfidence(cs[..|cs| - 1]) + cs[|cs| - 1].confidence
  }

  /** The aggregate of per-source results: contributing texts space-joined, their mean confidence, their regions in order. */
  function Aggregate(rs: seq<OcrResult>): OcrResult
  {
    var cs := Contributing(rs);
    OcrResult(Text.Join(ResultTexts(cs), " "), Mean(TotalConfidence(cs), |cs|), AllRegions(cs))
  }

  /** The sources `extract_text` looks at: the first five. */
  function Head(sources: seq<string>): seq<string>
  {
    if |sources| < MaxSources then sources else sources[..MaxSources]
  }

  /** The result of each source, in order. */
  function SourceResults(env: OcrEnv, sources: seq<string>): seq<OcrResult>
    decreases |sources|
  {
    if sources == [] then [] else SourceResults(env, sources[..|sources| - 1]) + [SourceResult(env, sources[|sources| - 1])]
  }

  /** Each source has the result `_extract_from_source` gives it, at its own position. */
  lemma {:induction false} SourceResultsAt(env: OcrEnv, sources: seq<string>, i: nat)
    requires i < |sources|
    ensures |SourceResults(env, sources)| == |sources|
    ensures SourceResults(env, sources)[i] == SourceResult(env, sources[i])
    decreases |sources|
  {
    var init := sources[..|sources| - 1];
    if i < |init| {
      SourceResultsAt(env, init, i);
    } else if init != [] {
      SourceResultsAt(env, init, 0);
    }
  }

  /** One more source adds its own result at the end. */
  lemma SourceResultsNext(env: OcrEnv, sources: seq<string>, i: nat)
    requires i < |sources|
    ensures SourceResults(env, sources[..i + 1]) == SourceResults(env, sources[..i]) + [SourceResult(env, sources[i])]
  {
    assert sources[..i + 1][..i] == sources[..i];
  }

  /** `extract_text`. */
  function ExtractTextOf(env: OcrEnv, sources: seq<string>): (r: OcrResult)
    ensures sources == [] ==> r == Empty
  {
    if sources == [] then Empty else Aggregate(SourceResults(env, Head(sources)))
  }

  /** The accumulators of `extract_text` after the results `rs`. */
  predicate Collected(rs: seq<OcrResult>, texts: seq<string>, regions: seq<Region>, total: real, count: nat)
  {
    var cs := Contributing(rs);
    texts == ResultTexts(cs) && regions == AllRegions(cs) && total == TotalConfidence(cs) && count == |cs|
  }

  lemma CollectStep(rs: seq<OcrResult>, x: OcrResult, texts: seq<string>, regions: seq<Region>, total: real, count: nat)
    requires Collected(rs, texts, regions, total, count)
    ensures x.text != [] ==>
      Collected(rs + [x], texts + [x.text], regions + x.regions, total + x.confidence, count + 1)
    ensures x.text == [] ==> Collected(rs + [x], texts, regions, total, count)
  {
    ContributingSnoc(rs, x);
    if x.text != [] {
      AppendResult(Contributing(rs), x);
    }
  }

  /** The accumulators describe the aggregate of the results behind them. */
  lemma CollectedAggregate(rs: seq<OcrResult>, texts: seq<string>, regions: seq<Region>, total: real, count: nat)
    requires Collected(rs, texts, regions, total, count)
    ensures OcrResult(Text.Join(texts, " "), Mean(total, count), regions) == Aggregate(rs)
  {
  }

  /** One round of `extract_text`'s loop: a result with text joins the accumulators. */
  method Accumulate(ghost done: seq<OcrResult>, x: OcrResult, texts: seq<string>, regions: seq<Region>, total: real, count: nat)
    returns (texts': seq<string>, regions': seq<Region>, total': real, count': nat)
    requires Collected(done, texts, regions, total, count)
    ensures Collected(done + [x], texts', regions', total', count')
    ensures x.text == [] ==> texts' == texts && regions' == regions && total' == total && count' == count
  {
    CollectStep(done, x, texts, regions, total, count);
    texts', regions', total', count' := texts, regions, total, count;
    if x.text != [] {
      texts' := texts + [x.text];
      regions' := regions + x.regions;
      total' := total + x.confidence;
      count' := count + 1;
    }
  }

  /** One round of `extract_text`'s loop: the next source is read and its result collected. */
  method CollectSource(env: OcrEnv, head: seq<string>, i: nat, ghost done: seq<OcrResult>,
                       texts: seq<string>, regions: seq<Region>, total: real, count: nat)
    returns (ghost done': seq<OcrResult>, texts': seq<string>, regions': seq<Region>, total': real, count': nat)
    requires i < |head| && done == SourceResults(env, head[..i])
    requires Collected(done, texts, regions, total, count)
    ensures done' == SourceResults(env, head[..i + 1])
    ensures Collected(done', texts', regions', total', count')
  {
    var result := ExtractFromSource(env, head[i]);
    texts', regions', total', count' := Accumulate(done, result, texts, regions, total, count);
    SourceResultsNext(env, head, i);
    done' := done + [result];
  }

  /** `extract_text`'s loop over the sources it looks at. */
  method CollectAll(env: OcrEnv, head: seq<string>) returns (texts: seq<string>, regions: seq<Region>, total: real, count: nat)
    ensures Collected(SourceResults(env, head), texts, regions, total, count)
  {
    texts, regions, total, count := [], [], 0.0, 0;
    ghost var done: seq<OcrResult> := [];
    var i := 0;
    while i < |head|
      invariant 0 <= i <= |head| && done == SourceResults(env, head[..i])
      invariant Collected(done, texts, regions, total, count)
    {
      done, texts, regions, total, count := CollectSource(env, head, i, done, texts, regions, total, count);
      i := i + 1;
    }
    assert head[..i] == head;
  }

  /** `extract_text`, collecting the contributing sources in a loop. */
  method ExtractText(env: OcrEnv, sources: seq<string>) returns (r: OcrResult)
    ensures r == ExtractTextOf(env, sources)
  {
    if sources == [] {
      return Empty;
    }
    var allText, allRegions, total, count := CollectAll(env, Head(sources));
    r := OcrResult(Text.Join(allText, " "), Mean(total, count), allRegions);
    CollectedAggregate(SourceResults(env, Head(sources)), allText, allRegions, total, count);
  }

  /** Only the first five sources are looked at. */
  lemma FirstFiveOnly(env: OcrEnv, sources: seq<string>)
    requires |sources| > MaxSources
    ensures ExtractTextOf(env, sources) == ExtractTextOf(env, sources[..MaxSources])
  {
    assert Head(sources) == Head(sources[..MaxSources]);
  }

  /** With no source that yields text, the extraction is empty. */
  lemma {:induction false} NothingContributes(rs: seq<OcrResult>)
    requires forall i :: 0 <= i < |rs| ==> rs[i].text == []
    ensures Aggregate(rs) == Empty
    decreases |rs|
  {
    if rs != [] {
      NothingContributes(rs[..|rs| - 1]);
      assert Contributing(rs) == Contributing(rs[..|rs| - 1]);
    }
  }

  /** A single source that yields text is the whole result. */
  lemma SingleSource(env: OcrEnv, source: string)
    requires SourceResult(env, source).text != []
    ensures ExtractTextOf(env, [source]) == SourceResult(env, source)
  {
    var x := SourceResult(env, source);
    assert [source][..0] == [];
    assert SourceResults(env, [source]) == [x];
    AggregateSingle(x);
  }

  /** The aggregate of one result with text is that result. */
  lemma AggregateSingle(x: OcrResult)
    requires x.text != []
    ensures Aggregate([x]) == x
  {
    assert [x][..0] == [];
    assert Contributing([x]) == [x];
    assert ResultTexts([x]) == [x.text];
    assert AllRegions([x]) == [] + x.regions;
    assert TotalConfidence([x]) == x.confidence;
  }

  lemma {:induction false} ContributingIncludes(rs: seq<OcrResult>, i: nat)
    requires i < |rs| && rs[i].text != []
    ensures rs[i] in Contributing(rs)
    decreases |rs|
  {
    if i < |rs| - 1 {
      ContributingIncludes(rs[..|rs| - 1], i);
    }
  }

  lemma {:induction false} ResultTextsAt(cs: seq<OcrResult>, j: nat)
    requires j < |cs|
    ensures ResultTexts(cs)[j] == cs[j].text
    decreases |cs|
  {
    if j < |cs| - 1 {
      ResultTextsAt(cs[..|cs| - 1], j);
    }
  }

  /** The text of every source that yields text appears in the combined text. */
  lemma AggregateContains(rs: seq<OcrResult>, i: nat)
    requires i < |rs| && rs[i].text != []
    ensures Text.Contains(Aggregate(rs).text, rs[i].text)
  {
    var cs := Contributing(rs);
    ContributingIncludes(rs, i);
    var j :| 0 <= j < |cs| && cs[j] == rs[i];
    ResultTextsAt(cs, j);
    Text.JoinContains(ResultTexts(cs), " ", j);
  }

  /** The aggregate confidence is a mean: at most one when every contributing confidence is. */
  lemma {:induction false} TotalConfidenceBound(cs: seq<OcrResult>)
    requires forall i :: 0 <= i < |cs| ==> 0.0 <= cs[i].confidence <= 1.0
    ensures 0.0 <= TotalConfidence(cs) <= |cs| as real
    decreases |cs|
  {
    if cs != [] {
      TotalConfidenceBound(cs[..|cs| - 1]);
    }
  }

  lemma AggregateConfidence(rs: seq<OcrResult>)
    requires forall i :: 0 <= i < |rs| ==> 0.0 <= rs[i].confidence <= 1.0
    ensures 0.0 <= Aggregate(rs).confidence <= 1.0
  {
    var cs := Contributing(rs);
    ContributingBounded(rs);
    TotalConfidenceBound(cs);
    if cs != [] {
      MeanBetween(TotalConfidence(cs), |cs|, -1.0);
    }
  }

  /** `extract_text_from_bytes`: no fallback; empty when the reader is missing or raises, and regions carry no box. */
  function ExtractFromBytes(env: OcrEnv, image: Bytes): (r: OcrResult)
    ensures !env.reader || env.readtext(image).None? ==> r == Empty
    ensures forall i :: 0 <= i < |r.regions| ==> r.regions[i].bbox.None?
  {
    if !env.reader then Empty
    else
      match env.readtext(image)
      case None => Empty
      case Some(ds) => BoxedRegions(ds, false); FromDetections(ds, false)
  }
}
