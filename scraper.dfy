/**
 * The web scraper: per-URL records with error records in place of
 * exceptions, the per-domain rate limit, platform detection by substring,
 * the image and truncation rules of one page, and the Reddit and YouTube
 * connectors. HTTP, HTML parsing, MD5 and the clock are parameters.
 */
module Scraper {
  import opened Wrappers
  import opened Json
  import Text
  import Seqs

  /** At most this many characters of page text are kept. */
  const MaxContent: nat := 50000

  /** At most this many image URLs are kept. */
  const MaxImages: nat := 10

  /** The generated id is this many hex digits of the URL's MD5. */
  const IdLength: nat := 16

  const ScrapedConfidence: real := 0.8

  /** `str(e)` of the ZeroDivisionError a zero rate limit raises. */
  const DivisionByZero := "float division by zero"

  /** The message of a JSON response whose shape makes `.get` or iteration raise. */
  const Malformed := "malformed response"

  // ---------------------------------------------------------------- URLs

  /** The first position of `c` in `s`. */
  function IndexOf(s: string, c: char): (r: Option<nat>)
    ensures r.Some? ==> r.value < |s| && s[r.value] == c && c !in s[..r.value]
    ensures r.None? ==> c !in s
  {
    if s == [] then None
    else if s[0] == c then Some(0)
    else
      var rest := IndexOf(s[1..], c);
      assert s == [s[0]] + s[1..];
      if rest.None? then None else Some(rest.value + 1)
  }

  predicate IsDelimiter(c: char) { c == '/' || c == '?' || c == '#' }

  /** The prefix of `s` before its first '/', '?' or '#'. */
  function Host(s: string): (h: string)
    ensures Text.StartsWith(s, h)
    ensures forall i :: 0 <= i < |h| ==> !IsDelimiter(h[i])
    ensures |h| < |s| ==> IsDelimiter(s[|h|])
  {
    if s == [] || IsDelimiter(s[0]) then [] else [s[0]] + Host(s[1..])
  }

  /** `urlparse(url).scheme` and `.netloc` of an absolute `scheme://host/...` URL; empty for others. */
  function Scheme(url: string): string
  {
    var i := IndexOf(url, ':');
    if i.Some? && Text.StartsWith(url[i.value..], "://") then url[..i.value] else []
  }

  function Netloc(url: string): string
  {
    var i := IndexOf(url, ':');
    if i.Some? && Text.StartsWith(url[i.value..], "://") then Host(url[i.value + 3..]) else []
  }

  /** The parts of `scheme + "://" + host + rest` when the scheme has no ':' and the host no delimiter. */
  lemma {:induction false} UrlParts(scheme: string, host: string, rest: string)
    requires ':' !in scheme && forall i :: 0 <= i < |host| ==> !IsDelimiter(host[i])
    requires rest == [] || IsDelimiter(rest[0])
    ensures Scheme(scheme + "://" + host + rest) == scheme
    ensures Netloc(scheme + "://" + host + rest) == host
  {
    var after := host + rest;
    var tail := "://" + after;
    var url := scheme + tail;
    assert url == scheme + "://" + host + rest;
    IndexOfAfter(scheme, tail, ':');
    ConcatParts(scheme, tail);
    ConcatParts("://", after);
    assert url[|scheme| + 3..] == tail[3..];
    SeparatorParts(url, |scheme|);
    HostOf(host, rest);
  }

  lemma ConcatParts(a: string, b: string)
    ensures (a + b)[..|a|] == a && (a + b)[|a|..] == b
  {
  }

  /** With its first ':' opening a "://", a URL splits into the scheme before it and the host after it. */
  lemma SeparatorParts(url: string, i: nat)
    requires IndexOf(url, ':') == Some(i) && i + 3 <= |url| && url[i..][..3] == "://"
    ensures Scheme(url) == url[..i]
    ensures Netloc(url) == Host(url[i + 3..])
  {
    assert Text.StartsWith(url[i..], "://");
  }

  lemma {:induction false} IndexOfAfter(a: string, b: string, c: char)
    requires c !in a && b != [] && b[0] == c
    ensures IndexOf(a + b, c) == Some(|a|)
    decreases |a|
  {
    if a != [] {
      assert (a + b)[1..] == a[1..] + b;
      IndexOfAfter(a[1..], b, c);
    }
  }

  lemma {:induction false} HostOf(host: string, rest: string)
    requires forall i :: 0 <= i < |host| ==> !IsDelimiter(host[i])
    requires rest == [] || IsDelimiter(rest[0])
    ensures Host(host + rest) == host
    decreases |host|
  {
    if host != [] {
      assert (host + rest)[1..] == host[1..] + rest;
      HostOf(host[1..], rest);
    } else {
      assert host + rest == rest;
    }
  }

  // ---------------------------------------------------------------- platforms

  /** The pattern table of `_detect_platform`, in its iteration order. */
  const PlatformTable: seq<(string, string)> := [
    ("twitter.com", "twitter"),
    ("x.com", "twitter"),
    ("reddit.com", "reddit"),
    ("linkedin.com", "linkedin"),
    ("instagram.com", "instagram"),
    ("facebook.com", "facebook"),
    ("youtube.com", "youtube"),
    ("tiktok.com", "tiktok"),
    ("medium.com", "medium")
  ]

  const Web := "web"

  /** The platform of the first pattern that occurs in `domain`, else "web". */
  function FirstPlatform(table: seq<(string, string)>, domain: string): string
  {
    if table == [] then Web
    else if Text.Contains(domain, table[0].0) then table[0].1
    else FirstPlatform(table[1..], domain)
  }

  /** No pattern before position `k` occurs in the domain. */
  predicate NoneBefore(table: seq<(string, string)>, domain: string, k: nat)
    requires k <= |table|
  {
    forall j :: 0 <= j < k ==> !Text.Contains(domain, table[j].0)
  }

  /** The table lookup finds the first matching pattern, or none at all and says "web". */
  lemma {:induction false} FirstPlatformSpec(table: seq<(string, string)>, domain: string) returns (k: int)
    ensures -1 <= k < |table|
    ensures k == -1 ==> NoneBefore(table, domain, |table|) && FirstPlatform(table, domain) == Web
    ensures k >= 0 ==>
      (Text.Contains(domain, table[k].0) && NoneBefore(table, domain, k) && FirstPlatform(table, domain) == table[k].1)
    decreases |table|
  {
    if table == [] {
      k := -1;
    } else if Text.Contains(domain, table[0].0) {
      k := 0;
    } else {
      var k' := FirstPlatformSpec(table[1..], domain);
      k := if k' == -1 then -1 else k' + 1;
      forall j | 0 <= j < (if k == -1 then |table| else k) ensures !Text.Contains(domain, table[j].0) {
        if j > 0 {
          assert table[j] == table[1..][j - 1];
        }
      }
    }
  }

  /** `_detect_platform`. */
  function DetectPlatform(url: string): string
  {
    FirstPlatform(PlatformTable, Text.Lower(Netloc(url)))
  }

  /** Substring matching: any domain containing "x.com" and not "twitter.com" counts as twitter. */
  lemma ContainingXComIsTwitter(url: string)
    requires Text.Contains(Text.Lower(Netloc(url)), "x.com")
    requires !Text.Contains(Text.Lower(Netloc(url)), "twitter.com")
    ensures DetectPlatform(url) == "twitter"
  {
    var d := Text.Lower(Netloc(url));
    assert PlatformTable[0].0 == "twitter.com" && PlatformTable[1..][0] == ("x.com", "twitter");
    assert FirstPlatform(PlatformTable, d) == FirstPlatform(PlatformTable[1..], d);
  }

  /** A domain that contains none of the patterns is "web". */
  lemma NoPatternIsWeb(url: string)
    requires forall k :: 0 <= k < |PlatformTable| ==> !Text.Contains(Text.Lower(Netloc(url)), PlatformTable[k].0)
    ensures DetectPlatform(url) == Web
  {
    var k := FirstPlatformSpec(PlatformTable, Text.Lower(Netloc(url)));
  }

  // ---------------------------------------------------------------- one page

  /** One `<meta>` tag: its `name`, `property` and `content` attributes. */
  datatype Meta = Meta(name: Option<string>, property: Option<string>, content: Option<string>)

  /** What BeautifulSoup yields of a page: whitespace-normalised text, title, meta tags and `img` sources. */
  datatype Html = Html(text: string, title: Option<string>, metas: seq<Meta>, images: seq<string>)

  datatype MetaKind = Description | Author | Published | OtherMeta

  /** The `if / elif` chain a meta tag goes through. */
  function KindOf(m: Meta): MetaKind
  {
    if m.name == Some("description") then Description
    else if m.name == Some("author") then Author
    else if m.property == Some("article:published_time") then Published
    else OtherMeta
  }

  /** The content of the last meta tag of kind `k`, or None when there is none. */
  function LastOf(metas: seq<Meta>, k: MetaKind): (r: Option<string>)
    ensures (forall j :: 0 <= j < |metas| ==> KindOf(metas[j]) != k) ==> r == None
  {
    if metas == [] then None
    else if KindOf(metas[|metas| - 1]) == k then metas[|metas| - 1].content
    else LastOf(metas[..|metas| - 1], k)
  }

  /** The last meta tag of a kind decides, whatever came before it. */
  lemma {:induction false} LastOfIndex(metas: seq<Meta>, k: MetaKind, j: nat)
    requires j < |metas| && KindOf(metas[j]) == k
    requires forall i :: j < i < |metas| ==> KindOf(metas[i]) != k
    ensures LastOf(metas, k) == metas[j].content
    decreases |metas|
  {
    if j < |metas| - 1 {
      LastOfIndex(metas[..|metas| - 1], k, j);
    }
  }

  /** The description, author and published time of the meta tags, the later tag winning. */
  method CollectMeta(metas: seq<Meta>) returns (description: Option<string>, author: Option<string>, published: Option<string>)
    ensures description == LastOf(metas, Description)
    ensures author == LastOf(metas, Author)
    ensures published == LastOf(metas, Published)
  {
    description, author, published := None, None, None;
    var i := 0;
    while i < |metas|
      invariant 0 <= i <= |metas|
      invariant description == LastOf(metas[..i], Description)
      invariant author == LastOf(metas[..i], Author)
      invariant published == LastOf(metas[..i], Published)
    {
      assert metas[..i + 1][..i] == metas[..i];
      var m := metas[i];
      if m.name == Some("description") {
        description := m.content;
      } else if m.name == Some("author") {
        author := m.content;
      } else if m.property == Some("article:published_time") {
        published := m.content;
      }
      i := i + 1;
    }
    assert metas[..i] == metas;
  }

  /** An image source as stored: root-relative sources get the page's scheme and host. */
  function Absolute(url: string, src: string): (r: string)
    ensures Text.StartsWith(src, "/") ==> Text.StartsWith(r, Scheme(url) + "://" + Netloc(url)) && Text.EndsWith(r, src)
    ensures !Text.StartsWith(src, "/") ==> r == src
  {
    if Text.StartsWith(src, "/") then Scheme(url) + "://" + Netloc(url) + src else src
  }

  /** The image URLs of a page: `data:` sources dropped, the rest made absolute, in order. */
  function Images(url: string, srcs: seq<string>): (r: seq<string>)
    ensures |r| <= |srcs|
  {
    if srcs == [] then []
    else
      var init := Images(url, srcs[..|srcs| - 1]);
      var src := srcs[|srcs| - 1];
      if Text.StartsWith(src, "data:") then init else init + [Absolute(url, src)]
  }

  /** Every stored image comes from a source that is not `data:`, and every such source is stored. */
  lemma {:induction false} ImagesSpec(url: string, srcs: seq<string>)
    ensures forall r :: r in Images(url, srcs) ==>
      exists s :: s in srcs && !Text.StartsWith(s, "data:") && r == Absolute(url, s)
    ensures forall s :: s in srcs && !Text.StartsWith(s, "data:") ==> Absolute(url, s) in Images(url, srcs)
    decreases |srcs|
  {
    if srcs != [] {
      var init := srcs[..|srcs| - 1];
      ImagesSpec(url, init);
      assert srcs == init + [srcs[|srcs| - 1]];
      forall s | s in srcs ensures s in init || s == srcs[|srcs| - 1] {
      }
    }
  }

  method CollectImages(url: string, srcs: seq<string>) returns (images: seq<string>)
    ensures images == Images(url, srcs)
  {
    images := [];
    var i := 0;
    while i < |srcs|
      invariant 0 <= i <= |srcs|
      invariant images == Images(url, srcs[..i])
    {
      assert srcs[..i + 1][..i] == srcs[..i];
      var src := srcs[i];
      if !Text.StartsWith(src, "data:") {
        if Text.StartsWith(src, "/") {
          src := Scheme(url) + "://" + Netloc(url) + src;
        }
        images := images + [src];
      }
      i := i + 1;
    }
    assert srcs[..i] == srcs;
  }

  /** The HTTP fetch and parse of a page (Err with `str(e)` where it raises), the MD5 hex digest and the fetch time. */
  datatype ScrapeEnv = ScrapeEnv(fetch: string -> Result<Html, string>, md5: string -> string, fetchedAt: string)

  /** A record of `scrape_urls`: a scraped page, or the error record of a URL whose scrape raised. */
  datatype ScrapeRecord =
    | Scraped(id: string, url: string, content: string, title: Option<string>, description: Option<string>,
              author: Option<string>, timestamp: Option<string>, media: seq<string>, platform: string,
              fetchedAt: string, confidence: real)
    | Failed(url: string, error: string, fetchedAt: string)

  /** `_scrape_url` on a parsed page. */
  function PageRecord(url: string, includeImages: bool, page: Html, env: ScrapeEnv): (r: ScrapeRecord)
    ensures r.Scraped? && r.url == url && |r.id| <= IdLength
    ensures |r.content| <= MaxContent && Text.StartsWith(page.text, r.content)
    ensures |page.text| <= MaxContent ==> r.content == page.text
    ensures |r.media| <= MaxImages
    ensures includeImages ==>
      (|r.media| <= |Images(url, page.images)| && forall i :: 0 <= i < |r.media| ==> r.media[i] == Images(url, page.images)[i])
    ensures !includeImages ==> r.media == []
    ensures r.description == LastOf(page.metas, Description) && r.author == LastOf(page.metas, Author)
    ensures r.timestamp == LastOf(page.metas, Published)
  {
    Scraped(
      Seqs.Take(env.md5(url), IdLength), url, Seqs.Take(page.text, MaxContent), page.title,
      LastOf(page.metas, Description), LastOf(page.metas, Author), LastOf(page.metas, Published),
      if includeImages then Seqs.Take(Images(url, page.images), MaxImages) else [],
      DetectPlatform(url), env.fetchedAt, ScrapedConfidence)
  }

  /** `_scrape_url`: Err with the message of whatever the fetch or the parse raised. */
  function ScrapeOutcome(url: string, includeImages: bool, env: ScrapeEnv): Result<ScrapeRecord, string>
  {
    match env.fetch(url)
    case Err(e) => Err(e)
    case Ok(page) => Ok(PageRecord(url, includeImages, page, env))
  }

  method ScrapeUrl(url: string, includeImages: bool, env: ScrapeEnv) returns (r: Result<ScrapeRecord, string>)
    ensures r == ScrapeOutcome(url, includeImages, env)
  {
    var fetched := env.fetch(url);
    if fetched.Err? {
      return Err(fetched.error);
    }
    var page := fetched.value;
    var description, author, published := CollectMeta(page.metas);
    var images: seq<string> := [];
    if includeImages {
      images := CollectImages(url, page.images);
    }
    r := Ok(Scraped(
      Seqs.Take(env.md5(url), IdLength), url, Seqs.Take(page.text, MaxContent), page.title,
      description, author, published, Seqs.Take(images, MaxImages),
      DetectPlatform(url), env.fetchedAt, ScrapedConfidence));
  }

  // ---------------------------------------------------------------- rate limit and the URL loop

  /** `max(0, 1/rate - (now - last))`: how long a request to a domain waits. */
  function WaitTime(rate: real, now: real, last: real): (w: real)
    requires rate != 0.0
    ensures w >= 0.0
    ensures now - last >= 1.0 / rate ==> w == 0.0
  {
    var t := 1.0 / rate - (now - last);
    if t > 0.0 then t else 0.0
  }

  /** With a positive rate, a request starts at least `1/rate` after the domain's last one. */
  lemma WaitSpacing(rate: real, now: real, last: real)
    requires rate > 0.0
    ensures (now + WaitTime(rate, now, last)) - last >= 1.0 / rate
  {
  }

  /** The clock readings of one iteration: before the wait and after it. */
  datatype Stamp = Stamp(now: real, after: real)

  /** `last_request_time.get(domain, 0)`. */
  function LastRequest(times: map<string, real>, domain: string): real
  {
    if domain in times then times[domain] else 0.0
  }

  /** The record of one URL; a zero rate raises before anything is fetched. */
  function RecordFor(url: string, includeImages: bool, rate: real, env: ScrapeEnv): (r: ScrapeRecord)
    ensures r.url == url
    ensures rate == 0.0 ==> r == Failed(url, DivisionByZero, env.fetchedAt)
    ensures rate != 0.0 && env.fetch(url).Err? ==> r == Failed(url, env.fetch(url).error, env.fetchedAt)
    ensures rate != 0.0 && env.fetch(url).Ok? ==> r == PageRecord(url, includeImages, env.fetch(url).value, env)
  {
    if rate == 0.0 then Failed(url, DivisionByZero, env.fetchedAt)
    else
      match ScrapeOutcome(url, includeImages, env)
      case Ok(record) => record
      case Err(e) => Failed(url, e, env.fetchedAt)
  }

  /** The records of `scrape_urls`: exactly one per URL, in order. */
  function Recorder(includeImages: bool, rate: real, env: ScrapeEnv): string -> ScrapeRecord
  {
    url => RecordFor(url, includeImages, rate, env)
  }

  function Records(urls: seq<string>, includeImages: bool, rate: real, env: ScrapeEnv): seq<ScrapeRecord>
  {
    Seqs.Mapped(urls, Recorder(includeImages, rate, env))
  }

  /** Each record belongs to the URL at its position. */
  lemma RecordsFollowUrls(urls: seq<string>, includeImages: bool, rate: real, env: ScrapeEnv)
    ensures forall i :: 0 <= i < |urls| ==> Records(urls, includeImages, rate, env)[i].url == urls[i]
  {
  }

  /** The last-request table after the URLs: each one's domain set to its post-wait time. */
  function LastTimes(times: map<string, real>, rate: real, urls: seq<string>, clock: seq<Stamp>): map<string, real>
    requires |clock| == |urls|
  {
    if urls == [] || rate == 0.0 then times
    else
      var n := |urls| - 1;
      LastTimes(times, rate, urls[..n], clock[..n])[Netloc(urls[n]) := clock[n].after]
  }

  /** The waits of the URLs: None where a zero rate raises. */
  function Waits(times: map<string, real>, rate: real, urls: seq<string>, clock: seq<Stamp>): (ws: seq<Option<real>>)
    requires |clock| == |urls|
    ensures |ws| == |urls|
  {
    if urls == [] then []
    else
      var n := |urls| - 1;
      var before := LastTimes(times, rate, urls[..n], clock[..n]);
      Waits(times, rate, urls[..n], clock[..n]) +
      [if rate == 0.0 then None else Some(WaitTime(rate, clock[n].now, LastRequest(before, Netloc(urls[n]))))]
  }

  /** A domain none of the URLs is on keeps its last-request time. */
  lemma {:induction false} LastTimesOtherDomains(times: map<string, real>, rate: real, urls: seq<string>, clock: seq<Stamp>, d: string)
    requires |clock| == |urls|
    requires forall i :: 0 <= i < |urls| ==> Netloc(urls[i]) != d
    ensures (d in LastTimes(times, rate, urls, clock)) == (d in times)
    ensures d in times ==> LastTimes(times, rate, urls, clock)[d] == times[d]
    decreases |urls|
  {
    if urls != [] && rate != 0.0 {
      var n := |urls| - 1;
      LastTimesOtherDomains(times, rate, urls[..n], clock[..n], d);
    }
  }

  /** After a URL, its domain's last-request time is that iteration's post-wait time. */
  lemma LastTimesOfLast(times: map<string, real>, rate: real, urls: seq<string>, clock: seq<Stamp>)
    requires |clock| == |urls| && urls != [] && rate != 0.0
    ensures LastTimes(times, rate, urls, clock)[Netloc(urls[|urls| - 1])] == clock[|urls| - 1].after
  {
  }

  /** The state of `scrape_urls` after its first `i` URLs. */
  predicate Progress(urls: seq<string>, includeImages: bool, rate: real, env: ScrapeEnv, times0: map<string, real>,
                     clock: seq<Stamp>, i: nat, records: seq<ScrapeRecord>, waits: seq<Option<real>>, times: map<string, real>)
    requires i <= |urls| == |clock|
  {
    records == Records(urls[..i], includeImages, rate, env) &&
    waits == Waits(times0, rate, urls[..i], clock[..i]) &&
    times == LastTimes(times0, rate, urls[..i], clock[..i])
  }

  lemma ProgressStep(urls: seq<string>, includeImages: bool, rate: real, env: ScrapeEnv, times0: map<string, real>,
                     clock: seq<Stamp>, i: nat, records: seq<ScrapeRecord>, waits: seq<Option<real>>, times: map<string, real>)
    requires i < |urls| == |clock|
    requires Progress(urls, includeImages, rate, env, times0, clock, i, records, waits, times)
    ensures Progress(urls, includeImages, rate, env, times0, clock, i + 1,
      records + [RecordFor(urls[i], includeImages, rate, env)],
      waits + [if rate == 0.0 then None else Some(WaitTime(rate, clock[i].now, LastRequest(times, Netloc(urls[i]))))],
      if rate == 0.0 then times else times[Netloc(urls[i]) := clock[i].after])
  {
    RecordsSnoc(urls, includeImages, rate, env, i);
    TimesSnoc(times0, rate, urls, clock, i);
  }

  lemma RecordsSnoc(urls: seq<string>, includeImages: bool, rate: real, env: ScrapeEnv, i: nat)
    requires i < |urls|
    ensures Records(urls[..i + 1], includeImages, rate, env) == Records(urls[..i], includeImages, rate, env) + [RecordFor(urls[i], includeImages, rate, env)]
  {
    Seqs.MappedSnoc(urls, Recorder(includeImages, rate, env), i);
  }

  lemma TimesSnoc(times0: map<string, real>, rate: real, urls: seq<string>, clock: seq<Stamp>, i: nat)
    requires i < |urls| == |clock|
    ensures var times := LastTimes(times0, rate, urls[..i], clock[..i]);
      Waits(times0, rate, urls[..i + 1], clock[..i + 1]) == Waits(times0, rate, urls[..i], clock[..i]) +
        [if rate == 0.0 then None else Some(WaitTime(rate, clock[i].now, LastRequest(times, Netloc(urls[i]))))] &&
      LastTimes(times0, rate, urls[..i + 1], clock[..i + 1]) == if rate == 0.0 then times else times[Netloc(urls[i]) := clock[i].after]
  {
    var u, c := urls[..i + 1], clock[..i + 1];
    assert u[..i] == urls[..i] && c[..i] == clock[..i];
    assert u[i] == urls[i] && c[i] == clock[i];
  }

  lemma ProgressDone(urls: seq<string>, includeImages: bool, rate: real, env: ScrapeEnv, times0: map<string, real>,
                     clock: seq<Stamp>, records: seq<ScrapeRecord>, waits: seq<Option<real>>, times: map<string, real>)
    requires |urls| == |clock|
    requires Progress(urls, includeImages, rate, env, times0, clock, |urls|, records, waits, times)
    ensures records == Records(urls, includeImages, rate, env)
    ensures waits == Waits(times0, rate, urls, clock)
    ensures times == LastTimes(times0, rate, urls, clock)
  {
    assert urls[..|urls|] == urls && clock[..|clock|] == clock;
  }

  class ScraperService {
    var rateLimit: real
    var lastRequestTime: map<string, real>

    constructor(rate: real)
      ensures rateLimit == rate && lastRequestTime == map[]
    {
      rateLimit := rate;
      lastRequestTime := map[];
    }

    /** `_rate_limit`: the wait, then the domain's time recorded; None where `1/rate` raises. */
    method RateLimit(domain: string, stamp: Stamp) returns (wait: Option<real>)
      modifies this
      ensures rateLimit == old(rateLimit)
      ensures rateLimit == 0.0 ==> wait == None && lastRequestTime == old(lastRequestTime)
      ensures rateLimit != 0.0 ==>
        (wait == Some(WaitTime(rateLimit, stamp.now, LastRequest(old(lastRequestTime), domain))) &&
         lastRequestTime == old(lastRequestTime)[domain := stamp.after])
    {
      if rateLimit == 0.0 {
        return None;
      }
      var last := LastRequest(lastRequestTime, domain);
      var waitTime := 1.0 / rateLimit - (stamp.now - last);
      wait := Some(0.0);
      if waitTime > 0.0 {
        wait := Some(waitTime);
      }
      lastRequestTime := lastRequestTime[domain := stamp.after];
    }

    /** `scrape_urls`: one record per URL in order, an error record where its scrape raised. */
    method ScrapeUrls(urls: seq<string>, includeImages: bool, clock: seq<Stamp>, env: ScrapeEnv)
      returns (records: seq<ScrapeRecord>, waits: seq<Option<real>>)
      requires |clock| == |urls|
      modifies this
      ensures rateLimit == old(rateLimit)
      ensures records == Records(urls, includeImages, rateLimit, env)
      ensures waits == Waits(old(lastRequestTime), rateLimit, urls, clock)
      ensures lastRequestTime == LastTimes(old(lastRequestTime), rateLimit, urls, clock)
    {
      records, waits := [], [];
      ghost var times0 := lastRequestTime;
      var i := 0;
      while i < |urls|
        invariant 0 <= i <= |urls| && rateLimit == old(rateLimit) && times0 == old(lastRequestTime)
        invariant Progress(urls, includeImages, rateLimit, env, times0, clock, i, records, waits, lastRequestTime)
      {
        var url := urls[i];
        ghost var before := lastRequestTime;
        var wait := RateLimit(Netloc(url), clock[i]);
        var record: ScrapeRecord;
        if wait.None? {
          record := Failed(url, DivisionByZero, env.fetchedAt);
        } else if !CheckRobots(url) {
          assert false;
        } else {
          var content := ScrapeUrl(url, includeImages, env);
          match content
          case Ok(r) => record := r;
          case Err(e) => record := Failed(url, e, env.fetchedAt);
        }
        ProgressStep(urls, includeImages, rateLimit, env, times0, clock, i, records, waits, before);
        records := records + [record];
        waits := waits + [wait];
        i := i + 1;
      }
      ProgressDone(urls, includeImages, rateLimit, env, times0, clock, records, waits, lastRequestTime);
    }

    /** `scrape_twitter_profile`: the profile page through `scrape_urls`. */
    method ScrapeTwitterProfile(username: string, stamp: Stamp, env: ScrapeEnv)
      returns (records: seq<ScrapeRecord>, waits: seq<Option<real>>)
      modifies this
      ensures rateLimit == old(rateLimit)
      ensures records == Records([TwitterUrl(username)], true, rateLimit, env)
      ensures waits == Waits(old(lastRequestTime), rateLimit, [TwitterUrl(username)], [stamp])
      ensures lastRequestTime == LastTimes(old(lastRequestTime), rateLimit, [TwitterUrl(username)], [stamp])
    {
      records, waits := ScrapeUrls([TwitterUrl(username)], true, [stamp], env);
    }
  }

  /** Lower-casing leaves a string without capitals as it is. */
  lemma LowerUnchanged(s: string)
    requires forall i :: 0 <= i < |s| ==> !('A' <= s[i] <= 'Z')
    ensures Text.Lower(s) == s
  {
  }

  /** `_check_robots`, which allows every URL. */
  function CheckRobots(url: string): bool
  {
    true
  }

  function TwitterUrl(username: string): string
  {
    "https://twitter.com/" + username
  }

  lemma TwitterUrlShape(username: string)
    ensures TwitterUrl(username) == "https" + "://" + "twitter.com" + ("/" + username)
  {
  }

  lemma TwitterProfileHost(username: string)
    ensures Netloc(TwitterUrl(username)) == "twitter.com"
  {
    assert forall i :: 0 <= i < |"twitter.com"| ==> !IsDelimiter("twitter.com"[i]);
    assert ':' !in "https";
    UrlParts("https", "twitter.com", "/" + username);
    TwitterUrlShape(username);
  }

  /** A profile page is on twitter.com and detected as twitter, whatever the user name. */
  lemma TwitterProfilePlatform(username: string)
    ensures DetectPlatform(TwitterUrl(username)) == "twitter"
  {
    TwitterProfileHost(username);
    TwitterLower();
    TwitterMatches();
  }

  /** Proof step: the host twitter.com is already lower case. */
  lemma TwitterLower()
    ensures Text.Lower("twitter.com") == "twitter.com"
  {
    LowerUnchanged("twitter.com");
  }

  /** Proof step: the host twitter.com matches the table's first pattern. */
  lemma TwitterMatches()
    ensures FirstPlatform(PlatformTable, "twitter.com") == "twitter"
  {
    assert Text.StartsWith("twitter.com", PlatformTable[0].0);
  }

  // ---------------------------------------------------------------- Reddit and YouTube

  /** Python truthiness of a decoded JSON value. */
  predicate Truthy(v: Value)
  {
    match v
    case Null => false
    case Bool(b) => b
    case Num(n) => n != 0.0
    case Str(t) => t != []
    case List(items) => items != []
    case Object(fields) => fields != map[]
  }

  /** `_unix_to_iso`: None for a missing or zero timestamp, else its ISO form. */
  function UnixToIso(ts: Option<real>, iso: real -> string): (r: Option<string>)
    ensures r.None? <==> ts == None || ts == Some(0.0)
    ensures r.Some? ==> r.value == iso(ts.value)
  {
    if ts.Some? && ts.value != 0.0 then Some(iso(ts.value)) else None
  }

  /**
   * `_unix_to_iso` of a decoded `created_utc`: falsy values give None,
   * numbers (and `true`, which is 1) their ISO form; other truthy values make
   * `utcfromtimestamp` raise (None on the outside).
   */
  function TimestampOf(v: Value, iso: real -> string): (r: Option<Option<string>>)
    ensures !Truthy(v) ==> r == Some(None)
    ensures v.Num? ==> r == Some(UnixToIso(Some(v.n), iso))
  {
    if !Truthy(v) then Some(None)
    else match v
      case Num(n) => Some(UnixToIso(Some(n), iso))
      case Bool(_) => Some(Some(iso(1.0)))
      case _ => None
  }

  /** What an f-string makes of a value: a string as it is, anything else by `str()`. */
  function Format(v: Value, show: Value -> string): string
  {
    if v.Str? then v.s else show(v)
  }

  datatype RedditPost = RedditPost(
    id: Value, url: string, content: string, title: Value, author: Value, timestamp: Option<string>,
    fetchedAt: string, score: Value, numComments: Value, subreddit: string)

  /** `str(limit)` of an `int`. */
  function IntToString(i: int): string
  {
    if i < 0 then "-" + Text.NatToString(-i) else Text.NatToString(i)
  }

  function RedditUrl(subreddit: string, sort: string, limit: int): string
  {
    "https://www.reddit.com/r/" + subreddit + "/" + sort + ".json?limit=" + IntToString(limit)
  }

  /** `data.get('data', {}).get('children', [])`, iterated; None where a `.get` or the iteration raises. */
  function Children(data: Value): Option<seq<Value>>
  {
    if !data.Object? then None
    else
      var inner := Get(data.fields, "data", Object(map[]));
      if !inner.Object? then None else Iterated(Get(inner.fields, "children", List([])))
  }

  /** The post of one child; None where `.get` on it or its timestamp raises. */
  function PostOf(child: Value, subreddit: string, iso: real -> string, show: Value -> string, fetchedAt: string): (r: Option<RedditPost>)
    ensures r.Some? ==> r.value.subreddit == subreddit && Text.StartsWith(r.value.url, "https://reddit.com")
    ensures !child.Object? ==> r == None
  {
    if !child.Object? then None
    else
      var d := Get(child.fields, "data", Object(map[]));
      if !d.Object? then None
      else
        var pd := d.fields;
        var ts := TimestampOf(Get(pd, "created_utc", Null), iso);
        if ts.None? then None
        else
          Some(RedditPost(
            Get(pd, "id", Null),
            "https://reddit.com" + Format(Get(pd, "permalink", Str("")), show),
            Format(Get(pd, "title", Str("")), show) + " " + Format(Get(pd, "selftext", Str("")), show),
            Get(pd, "title", Null), Get(pd, "author", Null), ts.value, fetchedAt,
            Get(pd, "score", Null), Get(pd, "num_comments", Null), subreddit))
  }

  function Poster(subreddit: string, iso: real -> string, show: Value -> string, fetchedAt: string): Value -> Option<RedditPost>
  {
    child => PostOf(child, subreddit, iso, show, fetchedAt)
  }

  /** The posts of the children, one per child in order; None as soon as one raises. */
  function Posts(children: seq<Value>, subreddit: string, iso: real -> string, show: Value -> string, fetchedAt: string): Option<seq<RedditPost>>
  {
    Seqs.AllOrNone(children, Poster(subreddit, iso, show, fetchedAt))
  }

  /** The posts exist exactly when every child gives one, and then each post is its own child's. */
  lemma PostsMeans(children: seq<Value>, subreddit: string, iso: real -> string, show: Value -> string, fetchedAt: string)
    ensures var r := Posts(children, subreddit, iso, show, fetchedAt);
      (r.Some? <==> forall i :: 0 <= i < |children| ==> PostOf(children[i], subreddit, iso, show, fetchedAt).Some?) &&
      (r.Some? ==> (|r.value| == |children| &&
        forall i :: 0 <= i < |children| ==> r.value[i] == PostOf(children[i], subreddit, iso, show, fetchedAt).value))
  {
    Seqs.AllOrNoneMeans(children, Poster(subreddit, iso, show, fetchedAt));
  }

  /** A post's content is its title, a space and its text; with both missing, a single space. */
  lemma RedditContent(child: Value, subreddit: string, iso: real -> string, show: Value -> string, fetchedAt: string)
    requires PostOf(child, subreddit, iso, show, fetchedAt).Some?
    ensures var pd := Get(child.fields, "data", Object(map[])).fields;
      var t := Get(pd, "title", Str(""));
      var b := Get(pd, "selftext", Str(""));
      t.Str? && b.Str? ==> PostOf(child, subreddit, iso, show, fetchedAt).value.content == t.s + " " + b.s
  {
  }

  /** `scrape_reddit_subreddit` on the response: the fetch error, a malformed response, or one post per child. */
  function RedditOutcome(response: Result<Value, string>, subreddit: string, iso: real -> string, show: Value -> string,
                         fetchedAt: string): (r: Result<seq<RedditPost>, string>)
    ensures response.Err? ==> r == Err(response.error)
    ensures response.Ok? && Children(response.value).None? ==> r == Err(Malformed)
    ensures r.Ok? ==> Children(response.value).Some? && |r.value| == |Children(response.value).value|
  {
    if response.Err? then Err(response.error)
    else
      var children := Children(response.value);
      if children.None? then Err(Malformed) else PostsOutcome(children.value, subreddit, iso, show, fetchedAt)
  }

  function PostsOutcome(children: seq<Value>, subreddit: string, iso: real -> string, show: Value -> string,
                        fetchedAt: string): (r: Result<seq<RedditPost>, string>)
    ensures r.Ok? ==> |r.value| == |children|
  {
    var posts := Posts(children, subreddit, iso, show, fetchedAt);
    PostsMeans(children, subreddit, iso, show, fetchedAt);
    if posts.None? then Err(Malformed) else Ok(posts.value)
  }

  method ScrapeRedditSubreddit(subreddit: string, sort: string, limit: int, fetch: string -> Result<Value, string>,
                               iso: real -> string, show: Value -> string, fetchedAt: string)
    returns (r: Result<seq<RedditPost>, string>)
    ensures r == RedditOutcome(fetch(RedditUrl(subreddit, sort, limit)), subreddit, iso, show, fetchedAt)
  {
    var response := fetch(RedditUrl(subreddit, sort, limit));
    if response.Err? {
      return Err(response.error);
    }
    var children := Children(response.value);
    if children.None? {
      return Err(Malformed);
    }
    r := CollectPosts(children.value, subreddit, iso, show, fetchedAt);
  }

  method CollectPosts(cs: seq<Value>, subreddit: string, iso: real -> string, show: Value -> string, fetchedAt: string)
    returns (r: Result<seq<RedditPost>, string>)
    ensures r == PostsOutcome(cs, subreddit, iso, show, fetchedAt)
  {
    var posts: seq<RedditPost> := [];
    var i := 0;
    while i < |cs|
      invariant 0 <= i <= |cs|
      invariant Posts(cs[..i], subreddit, iso, show, fetchedAt) == Some(posts)
    {
      var post := PostOf(cs[i], subreddit, iso, show, fetchedAt);
      PostsStep(cs, subreddit, iso, show, fetchedAt, i);
      if post.None? {
        PostsFail(cs, subreddit, iso, show, fetchedAt, i + 1);
        return Err(Malformed);
      }
      posts := posts + [post.value];
      i := i + 1;
    }
    assert cs[..i] == cs;
    r := Ok(posts);
  }

  lemma PostsStep(cs: seq<Value>, subreddit: string, iso: real -> string, show: Value -> string, fetchedAt: string, i: nat)
    requires i < |cs| && Posts(cs[..i], subreddit, iso, show, fetchedAt).Some?
    ensures var post := PostOf(cs[i], subreddit, iso, show, fetchedAt);
      Posts(cs[..i + 1], subreddit, iso, show, fetchedAt) ==
        if post.None? then None else Some(Posts(cs[..i], subreddit, iso, show, fetchedAt).value + [post.value])
  {
    Seqs.AllOrNoneStep(cs, Poster(subreddit, iso, show, fetchedAt), i);
  }

  /** A prefix that raises makes the whole list raise. */
  lemma PostsFail(cs: seq<Value>, subreddit: string, iso: real -> string, show: Value -> string, fetchedAt: string, i: nat)
    requires i <= |cs| && Posts(cs[..i], subreddit, iso, show, fetchedAt).None?
    ensures Posts(cs, subreddit, iso, show, fetchedAt).None?
  {
    PostsMeans(cs[..i], subreddit, iso, show, fetchedAt);
    PostsMeans(cs, subreddit, iso, show, fetchedAt);
    var j :| 0 <= j < i && PostOf(cs[..i][j], subreddit, iso, show, fetchedAt).None?;
    assert cs[..i][j] == cs[j];
  }

  datatype VideoRecord = VideoRecord(
    id: string, url: string, content: Value, title: Value, author: Value, fetchedAt: string, media: seq<Value>)

  /** The public page of a video. */
  function WatchUrl(videoId: string): string
  {
    "https://www.youtube.com/watch?v=" + videoId
  }

  /** The oEmbed endpoint asked for the video's metadata as JSON. */
  function OembedUrl(videoId: string): string
  {
    "https://www.youtube.com/oembed?url=" + WatchUrl(videoId) + "&format=json"
  }

  /** `scrape_youtube_video`: the oEmbed title as content, the thumbnail as the only media when there is one. */
  function ScrapeYoutubeVideo(videoId: string, fetch: string -> Result<Value, string>, fetchedAt: string): (r: Result<VideoRecord, string>)
    ensures fetch(OembedUrl(videoId)).Err? ==> r == Err(fetch(OembedUrl(videoId)).error)
    ensures fetch(OembedUrl(videoId)).Ok? && !fetch(OembedUrl(videoId)).value.Object? ==> r == Err(Malformed)
    ensures fetch(OembedUrl(videoId)).Ok? && fetch(OembedUrl(videoId)).value.Object? ==>
      (var d := fetch(OembedUrl(videoId)).value.fields;
       r.Ok? && r.value.id == videoId && r.value.url == WatchUrl(videoId) &&
       |r.value.media| <= 1 && (r.value.media == [] <==> !Truthy(Get(d, "thumbnail_url", Null))) &&
       ("title" !in d ==> r.value.content == Str("") && r.value.title == Null))
  {
    match fetch(OembedUrl(videoId))
    case Err(e) => Err(e)
    case Ok(data) =>
      if !data.Object? then Err(Malformed)
      else
        var d := data.fields;
        var thumb := Get(d, "thumbnail_url", Null);
        Ok(VideoRecord(videoId, WatchUrl(videoId), Get(d, "title", Str("")),
          Get(d, "title", Null), Get(d, "author_name", Null), fetchedAt, if Truthy(thumb) then [thumb] else []))
  }
}
