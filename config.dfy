/** The settings the core reads, with the defaults and derived values of the settings class. */
module Config {
  import opened Wrappers
  import Text

  datatype Settings = Settings(
    environment: string,
    debug: bool,
    databaseUrl: string,
    redisUrl: string,
    celeryBrokerUrl: Option<string>,
    celeryResultBackend: Option<string>,
    ocrLanguages: string,
    ocrPreprocess: bool,
    ocrPreprocessQuality: string,
    rateLimitPerMinute: int)

  /** Settings with every default applied; the database URL has no default and must be given. */
  function DefaultSettings(databaseUrl: string): (s: Settings)
    ensures s.debug && s.environment == "development"
    ensures s.redisUrl == "redis://localhost:6379"
    ensures s.celeryBrokerUrl.None? && s.celeryResultBackend.None?
    ensures s.ocrLanguages == "en" && s.ocrPreprocess && s.ocrPreprocessQuality == "balanced"
    ensures s.rateLimitPerMinute == 60 && s.databaseUrl == databaseUrl
  {
    Settings("development", true, databaseUrl, "redis://localhost:6379", None, None, "en", true, "balanced", 60)
  }

  /** `[lang.strip() for lang in ocr_languages.split(",")]`. */
  function OcrLanguagesList(s: Settings): (langs: seq<string>)
    ensures |langs| == |Text.SplitOn(s.ocrLanguages, ',')|
    ensures forall i :: 0 <= i < |langs| ==> langs[i] == Text.Strip(Text.SplitOn(s.ocrLanguages, ',')[i])
    ensures forall i, j :: 0 <= i < |langs| && 0 <= j < |langs[i]| ==> langs[i][j] != ','
  {
    var pieces := Text.SplitOn(s.ocrLanguages, ',');
    seq(|pieces|, i requires 0 <= i < |pieces| => Text.Strip(pieces[i]))
  }

  /** `x or fallback` for an optional string: None and "" both fall back. */
  function OrDefault(o: Option<string>, fallback: string): (r: string)
    ensures o.Some? && o.value != "" ==> r == o.value
    ensures o.None? || o.value == "" ==> r == fallback
  {
    if o.Some? && o.value != "" then o.value else fallback
  }

  function CeleryBroker(s: Settings): (url: string)
    ensures s.celeryBrokerUrl.Some? && s.celeryBrokerUrl.value != "" ==> url == s.celeryBrokerUrl.value
    ensures s.celeryBrokerUrl.None? || s.celeryBrokerUrl.value == "" ==> url == s.redisUrl
  {
    OrDefault(s.celeryBrokerUrl, s.redisUrl)
  }

  function CeleryBackend(s: Settings): (url: string)
    ensures s.celeryResultBackend.Some? && s.celeryResultBackend.value != "" ==> url == s.celeryResultBackend.value
    ensures s.celeryResultBackend.None? || s.celeryResultBackend.value == "" ==> url == s.redisUrl
  {
    OrDefault(s.celeryResultBackend, s.redisUrl)
  }

  /** With the defaults, Celery's broker and result backend are both the Redis URL, and OCR reads English only. */
  lemma DefaultsShareRedis(databaseUrl: string)
    ensures CeleryBroker(DefaultSettings(databaseUrl)) == CeleryBackend(DefaultSettings(databaseUrl)) == "redis://localhost:6379"
    ensures OcrLanguagesList(DefaultSettings(databaseUrl)) == ["en"]
  {
    Text.SplitOnWithout("en", ',');
    assert Text.Strip("en") == "en" by {
      assert Text.TrimLeft("en") == "en";
      assert Text.TrimRight("en") == "en";
    }
  }
}
