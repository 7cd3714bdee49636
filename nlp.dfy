/**
 * The rule-based parts of the NLP service: the empty-input result, the
 * VADER threshold rule and the word-list fallback sentiment, entity
 * post-processing, keyword extraction by frequency, table-driven topic
 * detection and the language default. The models themselves (VADER,
 * spaCy, langdetect) and the regular-expression text cleaning are
 * parameters.
 */
module Nlp {
  import opened Wrappers
  import opened Seqs
  import Text
  import Counting
  import Sorting
  import InsightsRoute

  type SentimentType = InsightsRoute.SentimentType

  /** The part of VADER's `polarity_scores` the rule reads. */
  datatype VaderScores = VaderScores(compound: real, pos: real, neg: real)

  datatype SentimentResult = SentimentResult(
    kind: SentimentType,
    score: real,
    confidence: real,
    scores: Option<VaderScores>)

  /** A named entity as spaCy reports it: its text and its tag. */
  datatype SpacyEntity = SpacyEntity(text: string, tag: string)

  /**
   * What langdetect yields for a text: the detected code (None when
   * `detect` raises) and the probabilities (None when `detect_langs` raises).
   */
  datatype Detection = Detection(code: Option<string>, probs: Option<seq<real>>)

  datatype LanguageResult = LanguageResult(code: string, name: string, confidence: real)

  /** The foreign engines; a missing model is None. */
  datatype Engines = Engines(
    clean: string -> string,
    vader: Option<string -> VaderScores>,
    spacy: Option<string -> seq<SpacyEntity>>,
    detector: Option<string -> Detection>)

  datatype NlpResult = NlpResult(
    sentiment: SentimentResult,
    entities: seq<InsightsRoute.Entity>,
    topics: seq<string>,
    keywords: seq<string>,
    language: LanguageResult)

  // ------------------------------------------------------------ sentiment

  function Abs(x: real): real { if x < 0.0 then -x else x }

  function MinReal(a: real, b: real): real { if a <= b then a else b }

  predicate IsMixed(s: VaderScores) { s.pos > 0.2 && s.neg > 0.2 }

  /** The threshold rule on the compound score, with mixed overriding it. */
  function Classify(s: VaderScores): (t: SentimentType)
    ensures t == InsightsRoute.Mixed <==> IsMixed(s)
    ensures t == InsightsRoute.Positive <==> !IsMixed(s) && s.compound >= 0.05
    ensures t == InsightsRoute.Negative <==> !IsMixed(s) && s.compound <= -0.05
    ensures t == InsightsRoute.Neutral <==> !IsMixed(s) && -0.05 < s.compound < 0.05
  {
    var t := if s.compound >= 0.05 then InsightsRoute.Positive
             else if s.compound <= -0.05 then InsightsRoute.Negative
             else InsightsRoute.Neutral;
    if IsMixed(s) then InsightsRoute.Mixed else t
  }

  function VaderSentiment(s: VaderScores): (r: SentimentResult)
    ensures r.kind == Classify(s) && r.score == s.compound && r.scores == Some(s)
    ensures 0.5 <= r.confidence <= 1.0
    ensures r.confidence == 1.0 <==> Abs(s.compound) >= 0.5
  {
    SentimentResult(Classify(s), s.compound, MinReal(Abs(s.compound) + 0.5, 1.0), Some(s))
  }

  function Mirror(t: SentimentType): SentimentType
  {
    match t
    case Positive => InsightsRoute.Negative
    case Negative => InsightsRoute.Positive
    case Neutral => InsightsRoute.Neutral
    case Mixed => InsightsRoute.Mixed
  }

  /** Negating the compound score and swapping pos and neg swaps positive and negative. */
  lemma ClassifyMirror(s: VaderScores)
    ensures Classify(VaderScores(-s.compound, s.neg, s.pos)) == Mirror(Classify(s))
    ensures VaderSentiment(VaderScores(-s.compound, s.neg, s.pos)).confidence == VaderSentiment(s).confidence
  {
  }

  const PositiveWords: set<string> := {"good", "great", "excellent", "amazing", "love", "best", "happy", "wonderful"}
  const NegativeWords: set<string> := {"bad", "terrible", "awful", "hate", "worst", "sad", "angry", "disappointed"}

  /** `set(text.lower().split())`. */
  function WordSet(text: string): set<string>
  {
    set w | w in Text.Split(Text.Lower(text))
  }

  /** The word-list fallback: distinct positive against distinct negative words. */
  function FallbackSentiment(text: string): (r: SentimentResult)
    ensures var p := |WordSet(text) * PositiveWords|; var n := |WordSet(text) * NegativeWords|;
      (r.kind == InsightsRoute.Positive <==> p > n) &&
      (r.kind == InsightsRoute.Negative <==> n > p) &&
      (r.kind == InsightsRoute.Neutral <==> p == n)
    ensures r.kind == InsightsRoute.Positive ==> r.score == 0.5
    ensures r.kind == InsightsRoute.Negative ==> r.score == -0.5
    ensures r.kind == InsightsRoute.Neutral ==> r.score == 0.0
    ensures r.confidence == 0.3 && r.scores.None?
  {
    var words := WordSet(text);
    var p := |words * PositiveWords|;
    var n := |words * NegativeWords|;
    if p > n then SentimentResult(InsightsRoute.Positive, 0.5, 0.3, None)
    else if n > p then SentimentResult(InsightsRoute.Negative, -0.5, 0.3, None)
    else SentimentResult(InsightsRoute.Neutral, 0.0, 0.3, None)
  }

  /** Two texts with the same words get the same fallback sentiment, however often each occurs. */
  lemma FallbackOnlyWordsMatter(a: string, b: string)
    requires WordSet(a) == WordSet(b)
    ensures FallbackSentiment(a) == FallbackSentiment(b)
  {
  }

  /** VADER when it is loaded, the word lists otherwise. */
  function SentimentOf(text: string, vader: Option<string -> VaderScores>): (r: SentimentResult)
    ensures vader.Some? ==> r == VaderSentiment(vader.value(text))
    ensures vader.None? ==> r == FallbackSentiment(text)
  {
    if vader.Some? then VaderSentiment(vader.value(text)) else FallbackSentiment(text)
  }

  // ------------------------------------------------------------ entities

  /** spaCy's tag mapped to the entity type; unknown labels are "other". */
  function TagType(tag: string): string
  {
    if tag == "PERSON" then "person"
    else if tag == "ORG" then "organization"
    else if tag == "GPE" || tag == "LOC" then "location"
    else if tag == "PRODUCT" then "product"
    else if tag == "EVENT" then "event"
    else if tag == "WORK_OF_ART" then "work"
    else if tag == "LAW" then "law"
    else if tag == "LANGUAGE" then "language"
    else if tag == "DATE" then "date"
    else if tag == "TIME" then "time"
    else if tag == "MONEY" then "money"
    else if tag == "QUANTITY" then "quantity"
    else if tag == "PERCENT" then "percent"
    else "other"
  }

  const EntityConfidence: real := 0.85
  const MaxEntities: nat := 20
  const EntityTextLimit: nat := 10000

  /** The entities the loop keeps after having seen the names in `seen`. */
  function Kept(ents: seq<SpacyEntity>, seen: set<string>): (r: seq<InsightsRoute.Entity>)
    ensures |r| <= |ents|
    ensures forall i :: 0 <= i < |r| ==> |r[i].name| > 1 && r[i].name !in seen && r[i].confidence == EntityConfidence
    ensures forall i, j :: 0 <= i < j < |r| ==> r[i].name != r[j].name
    decreases |ents|
  {
    if ents == [] then []
    else if ents[0].text !in seen && |ents[0].text| > 1 then
      [InsightsRoute.Entity(TagType(ents[0].tag), ents[0].text, EntityConfidence)] + Kept(ents[1..], seen + {ents[0].text})
    else Kept(ents[1..], seen)
  }

  /** `e` is typed by the first entity of `ents` carrying its name. */
  predicate FirstOccurrence(ents: seq<SpacyEntity>, e: InsightsRoute.Entity)
  {
    exists j :: 0 <= j < |ents| && ents[j].text == e.name && e.kind == TagType(ents[j].tag) &&
      (forall j' :: 0 <= j' < j ==> ents[j'].text != e.name)
  }

  /** A first occurrence after a differently named head is a first occurrence of the whole. */
  lemma FirstOccurrenceTail(ents: seq<SpacyEntity>, e: InsightsRoute.Entity)
    requires ents != [] && ents[0].text != e.name && FirstOccurrence(ents[1..], e)
    ensures FirstOccurrence(ents, e)
  {
    var tail := ents[1..];
    var j :| 0 <= j < |tail| && tail[j].text == e.name && e.kind == TagType(tail[j].tag) &&
      (forall j' :: 0 <= j' < j ==> tail[j'].text != e.name);
    forall j' | 0 <= j' < j + 1 ensures ents[j'].text != e.name {
      if j' > 0 {
        assert ents[j'] == tail[j' - 1];
      }
    }
    assert ents[j + 1] == tail[j];
  }

  /** A kept entity is the first occurrence of its name, typed by that occurrence's tag. */
  lemma {:induction false} KeptFirstOccurrence(ents: seq<SpacyEntity>, seen: set<string>)
    ensures forall i :: 0 <= i < |Kept(ents, seen)| ==> FirstOccurrence(ents, Kept(ents, seen)[i])
    decreases |ents|
  {
    if ents != [] {
      var r := Kept(ents, seen);
      var kept := ents[0].text !in seen && |ents[0].text| > 1;
      var seen' := if kept then seen + {ents[0].text} else seen;
      var rest := Kept(ents[1..], seen');
      assert r == if kept then [r[0]] + rest else rest;
      KeptFirstOccurrence(ents[1..], seen');
      forall i | 0 <= i < |r| ensures FirstOccurrence(ents, r[i]) {
        if kept && i == 0 {
          assert ents[0].text == r[0].name;
        } else {
          var i' := if kept then i - 1 else i;
          assert 0 <= i' < |rest| && r[i] == rest[i'];
          assert FirstOccurrence(ents[1..], rest[i']);
          assert ents[0].text != r[i].name;
          FirstOccurrenceTail(ents, r[i]);
        }
      }
    }
  }

  /** Every name longer than one character and not seen before is kept. */
  lemma {:induction false} KeptComplete(ents: seq<SpacyEntity>, seen: set<string>, j: nat)
    requires j < |ents| && |ents[j].text| > 1 && ents[j].text !in seen
    ensures exists i :: 0 <= i < |Kept(ents, seen)| && Kept(ents, seen)[i].name == ents[j].text
    decreases |ents|
  {
    var r := Kept(ents, seen);
    var kept := ents[0].text !in seen && |ents[0].text| > 1;
    if kept && ents[0].text == ents[j].text {
      assert r[0].name == ents[j].text;
    } else if j == 0 {
      assert false;
    } else {
      var seen' := if kept then seen + {ents[0].text} else seen;
      var rest := Kept(ents[1..], seen');
      assert r == if kept then [r[0]] + rest else rest;
      assert ents[1..][j - 1] == ents[j];
      KeptComplete(ents[1..], seen', j - 1);
      var i :| 0 <= i < |rest| && rest[i].name == ents[j].text;
      var i' := if kept then i + 1 else i;
      assert r[i'] == rest[i];
    }
  }

  /** `_extract_entities`: no spaCy gives no entities; the loop's list is capped at 20. */
  function EntitiesOf(text: string, spacy: Option<string -> seq<SpacyEntity>>): (r: seq<InsightsRoute.Entity>)
    ensures |r| <= MaxEntities
    ensures spacy.None? ==> r == []
  {
    if spacy.None? then [] else Take(Kept(spacy.value(Take(text, EntityTextLimit)), {}), MaxEntities)
  }

  /** One step of the loop of `_extract_entities`. */
  lemma KeptStep(ents: seq<SpacyEntity>, i: nat, seen: set<string>)
    requires i < |ents|
    ensures Kept(ents[i..], seen) ==
      if ents[i].text !in seen && |ents[i].text| > 1
      then [InsightsRoute.Entity(TagType(ents[i].tag), ents[i].text, EntityConfidence)] + Kept(ents[i + 1..], seen + {ents[i].text})
      else Kept(ents[i + 1..], seen)
  {
    assert ents[i..][1..] == ents[i + 1..];
  }

  /** The loop of `_extract_entities`: keep the first entity of each name longer than one character. */
  method KeepEntities(ents: seq<SpacyEntity>) returns (entities: seq<InsightsRoute.Entity>)
    ensures entities == Kept(ents, {})
  {
    var seen: set<string> := {};
    entities := [];
    var i := 0;
    while i < |ents|
      invariant 0 <= i <= |ents|
      invariant entities + Kept(ents[i..], seen) == Kept(ents, {})
    {
      KeptStep(ents, i, seen);
      var ent := ents[i];
      if ent.text !in seen && |ent.text| > 1 {
        var e := InsightsRoute.Entity(TagType(ent.tag), ent.text, EntityConfidence);
        ghost var rest := Kept(ents[i + 1..], seen + {ent.text});
        assert entities + ([e] + rest) == (entities + [e]) + rest;
        seen := seen + {ent.text};
        entities := entities + [e];
      }
      i := i + 1;
    }
    assert ents[i..] == [];
  }

  method ExtractEntities(text: string, spacy: Option<string -> seq<SpacyEntity>>) returns (entities: seq<InsightsRoute.Entity>)
    ensures entities == EntitiesOf(text, spacy)
  {
    if spacy.None? {
      return [];
    }
    var ents := spacy.value(Take(text, EntityTextLimit));
    entities := KeepEntities(ents);
    entities := Take(entities, MaxEntities);
  }

  // ------------------------------------------------------------ keywords

  const Stopwords: set<string> := {
    "the", "a", "an", "and", "or", "but", "in", "on", "at", "to", "for", "of", "with", "by",
    "from", "as", "is", "was", "are", "were", "been", "be", "have", "has", "had", "do", "does",
    "did", "will", "would", "could", "should", "may", "might", "must", "can", "this", "that",
    "these", "those", "i", "you", "he", "she", "it", "we", "they", "what", "which", "who", "when",
    "where", "why", "how", "all", "each", "every", "both", "few", "more", "most", "other", "some",
    "such", "no", "not", "only", "same", "so", "than", "too", "very", "just", "about", "also",
    "back", "being", "here", "into", "made", "many", "much", "new", "now", "over", "our", "out",
    "own", "said", "them", "then", "there", "up", "use", "used", "well", "your"
  }

  const MaxKeywords: nat := 15

  /** The regular-expression word characters, restricted to ASCII (Python's `\w` also takes non-ASCII letters). */
  predicate IsWordChar(c: char)
  {
    'a' <= c <= 'z' || 'A' <= c <= 'Z' || '0' <= c <= '9' || c == '_'
  }

  /** The run of word characters at the start of `s`. */
  function RunAt(s: string): (w: string)
    ensures |w| <= |s| && forall i :: 0 <= i < |w| ==> w[i] == s[i] && IsWordChar(w[i])
    ensures |w| < |s| ==> !IsWordChar(s[|w|])
    ensures s != [] && IsWordChar(s[0]) ==> |w| >= 1
  {
    if s == [] || !IsWordChar(s[0]) then [] else [s[0]] + RunAt(s[1..])
  }

  /** The maximal runs of word characters, left to right. */
  function Runs(s: string): (rs: seq<string>)
    ensures forall k :: 0 <= k < |rs| ==> rs[k] != [] && forall i :: 0 <= i < |rs[k]| ==> IsWordChar(rs[k][i])
    decreases |s|
  {
    if s == [] then []
    else if !IsWordChar(s[0]) then Runs(s[1..])
    else
      var w := RunAt(s);
      [w] + Runs(s[|w|..])
  }

  /** A `\b[a-z]{3,}\b` match: a whole run of at least three lowercase letters. */
  predicate IsToken(w: string)
  {
    |w| >= 3 && forall i :: 0 <= i < |w| ==> 'a' <= w[i] <= 'z'
  }

  function TokenRuns(rs: seq<string>): (ts: seq<string>)
    ensures forall w :: w in ts <==> w in rs && IsToken(w)
  {
    if rs == [] then []
    else (if IsToken(rs[0]) then [rs[0]] else []) + TokenRuns(rs[1..])
  }

  /** `re.findall(r'\b[a-z]{3,}\b', text.lower())`. */
  function Tokens(text: string): (ts: seq<string>)
    ensures forall w :: w in ts ==> IsToken(w)
  {
    TokenRuns(Runs(Text.Lower(text)))
  }

  /** The tokens the loop counts: those that are not in `stop`, in order. */
  function NonStop(ws: seq<string>, stop: set<string>): (r: seq<string>)
    ensures forall w :: w in r <==> w in ws && w !in stop
  {
    if ws == [] then []
    else
      var init := ws[..|ws| - 1];
      assert ws == init + [ws[|ws| - 1]];
      NonStop(init, stop) + (if ws[|ws| - 1] !in stop then [ws[|ws| - 1]] else [])
  }

  lemma NonStopStep(ws: seq<string>, i: nat, stop: set<string>)
    requires i < |ws|
    ensures NonStop(ws[..i + 1], stop) == NonStop(ws[..i], stop) + (if ws[i] !in stop then [ws[i]] else [])
  {
    assert ws[..i + 1][..i] == ws[..i];
  }

  /** The frequency table after counting the words of `ws` outside `stop`. */
  function CountedIn(ws: seq<string>, stop: set<string>): (c: Counting.Counter)
    ensures Counting.WellFormed(c)
  {
    Counting.BumpAll(Counting.Empty(), NonStop(ws, stop))
  }

  lemma CountedStep(ws: seq<string>, i: nat, stop: set<string>)
    requires i < |ws|
    ensures CountedIn(ws[..i + 1], stop) ==
      if ws[i] in stop then CountedIn(ws[..i], stop) else Counting.Bump(CountedIn(ws[..i], stop), ws[i])
  {
    var before := NonStop(ws[..i], stop);
    var after := NonStop(ws[..i + 1], stop);
    NonStopStep(ws, i, stop);
    if ws[i] in stop {
      assert after == before;
    } else {
      assert after == before + [ws[i]];
      Counting.BumpAllSnoc(Counting.Empty(), before, ws[i]);
    }
  }

  /** The frequency table of the counted tokens. */
  function KeywordCounter(text: string, stop: set<string>): (c: Counting.Counter)
    ensures Counting.WellFormed(c)
  {
    CountedIn(Tokens(text), stop)
  }

  function Words(es: seq<(string, int)>): (ws: seq<string>)
    ensures |ws| == |es| && forall i :: 0 <= i < |es| ==> ws[i] == es[i].0
  {
    if es == [] then [] else [es[0].0] + Words(es[1..])
  }

  /**
   * The fifteen most frequent counted tokens: `sorted(word_counts.items(),
   * key=count, reverse=True)[:15]`, words only.
   */
  function KeywordsAvoiding(text: string, stop: set<string>): (ks: seq<string>)
    ensures var n := |KeywordCounter(text, stop).keys|; |ks| == if MaxKeywords < n then MaxKeywords else n
  {
    Words(Counting.Top(KeywordCounter(text, stop), MaxKeywords))
  }

  /** `_extract_keywords` with its stopword list. */
  function Keywords(text: string): (ks: seq<string>)
    ensures |ks| <= MaxKeywords
  {
    KeywordsAvoiding(text, Stopwords)
  }

  /** The counting loop of `_extract_keywords`, for a given stopword set. */
  method CountKeywords(text: string, stop: set<string>) returns (keywords: seq<string>)
    ensures keywords == KeywordsAvoiding(text, stop)
  {
    var words := Tokens(text);
    var counts := Counting.Empty();
    var i := 0;
    while i < |words|
      invariant 0 <= i <= |words|
      invariant Counting.WellFormed(counts)
      invariant counts == CountedIn(words[..i], stop)
    {
      CountedStep(words, i, stop);
      if words[i] !in stop {
        counts := Counting.Bump(counts, words[i]);
      }
      i := i + 1;
    }
    assert words[..i] == words;
    keywords := Words(Counting.Top(counts, MaxKeywords));
  }

  method ExtractKeywords(text: string) returns (keywords: seq<string>)
    ensures keywords == Keywords(text)
  {
    keywords := CountKeywords(text, Stopwords);
  }

  /** Every keyword is a counted token: at least three lowercase letters and not a stopword. */
  lemma KeywordsAreTokens(text: string, stop: set<string>)
    ensures var ks := KeywordsAvoiding(text, stop);
      forall i :: 0 <= i < |ks| ==> IsToken(ks[i]) && ks[i] !in stop && ks[i] in Tokens(text)
  {
    var c := KeywordCounter(text, stop);
    var counted := NonStop(Tokens(text), stop);
    var ranked := Counting.Ranked(c);
    var ks := Words(Counting.Top(c, MaxKeywords));
    Counting.RankedEntries(c);
    Counting.BumpAllKeys(counted);
    assert c.keys == Dedup(counted);
    forall i | 0 <= i < |ks| ensures ks[i] in counted {
      assert ks[i] == ranked[i].0;
    }
  }

  /** No keyword is listed twice. */
  lemma KeywordsDistinct(text: string, stop: set<string>)
    ensures Distinct(KeywordsAvoiding(text, stop))
  {
    var c := KeywordCounter(text, stop);
    var ranked := Counting.Ranked(c);
    var ks := Words(Counting.Top(c, MaxKeywords));
    Counting.RankedDistinct(c);
    forall i, j | 0 <= i < j < |ks| ensures ks[i] != ks[j] {
      assert ks[i] == ranked[i].0 && ks[j] == ranked[j].0;
    }
  }

  /** The counter holds, for every word, its number of occurrences among the counted tokens. */
  lemma KeywordCounts(text: string, stop: set<string>, w: string)
    ensures Counting.CountOf(KeywordCounter(text, stop), w) == Counting.Occurrences(NonStop(Tokens(text), stop), w)
  {
    assert Counting.CountOf(Counting.Empty(), w) == 0;
  }

  /** Keywords come by non-increasing count. */
  lemma KeywordsByFrequency(text: string, stop: set<string>)
    ensures var ks := KeywordsAvoiding(text, stop); var c := KeywordCounter(text, stop);
      forall i, j :: 0 <= i < j < |ks| ==> Counting.CountOf(c, ks[i]) >= Counting.CountOf(c, ks[j])
  {
    var c := KeywordCounter(text, stop);
    var top := Counting.Top(c, MaxKeywords);
    var ks := Words(top);
    forall i, j | 0 <= i < j < |ks| ensures Counting.CountOf(c, ks[i]) >= Counting.CountOf(c, ks[j]) {
      Counting.EntryCountOf(c, top[i]);
      Counting.EntryCountOf(c, top[j]);
    }
  }

  /**
   * Ties in frequency keep the order of first occurrence. The dictionary lists
   * the counted words in the order the text first uses them; the ranking keeps
   * that order among the words of each frequency `n`; and the keywords of
   * frequency `n` are the first words of that frequency in it, so a tie at the
   * cut is won by the words the text uses first.
   */
  lemma KeywordTies(text: string, stop: set<string>, n: real)
    ensures var c := KeywordCounter(text, stop);
      Words(Counting.Entries(c)) == Dedup(NonStop(Tokens(text), stop)) &&
      Sorting.WithKey(Counting.Ranked(c), Counting.EntryCount, n) == Sorting.WithKey(Counting.Entries(c), Counting.EntryCount, n) &&
      Sorting.WithKey(Counting.Top(c, MaxKeywords), Counting.EntryCount, n) <= Sorting.WithKey(Counting.Entries(c), Counting.EntryCount, n)
  {
    var c := KeywordCounter(text, stop);
    Counting.BumpAllKeys(NonStop(Tokens(text), stop));
    assert c == Counting.BumpAll(Counting.Empty(), NonStop(Tokens(text), stop));
    Sorting.SortDescStable(Counting.Entries(c), Counting.EntryCount, n);
    Counting.TopTies(c, MaxKeywords, n);
  }

  /** There are fifteen keywords, or as many as there are distinct counted tokens when they are fewer. */
  lemma KeywordsCount(text: string, stop: set<string>)
    ensures var d := |Dedup(NonStop(Tokens(text), stop))|;
      |KeywordsAvoiding(text, stop)| == if MaxKeywords < d then MaxKeywords else d
  {
    Counting.BumpAllKeys(NonStop(Tokens(text), stop));
  }

  /** A counted token that is not a keyword occurs no more often than any keyword. */
  lemma KeywordsMostFrequent(text: string, stop: set<string>, w: string)
    requires w in NonStop(Tokens(text), stop) && w !in KeywordsAvoiding(text, stop)
    ensures var counted := NonStop(Tokens(text), stop); var ks := KeywordsAvoiding(text, stop);
      forall i :: 0 <= i < |ks| ==> Counting.Occurrences(counted, w) <= Counting.Occurrences(counted, ks[i])
  {
    var counted := NonStop(Tokens(text), stop);
    var c := KeywordCounter(text, stop);
    var top := Counting.Top(c, MaxKeywords);
    var ks := KeywordsAvoiding(text, stop);
    LeftOutKey(text, stop, w);
    Counting.TopKeyMostFrequent(c, MaxKeywords, w);
    KeywordCounts(text, stop, w);
    forall i | 0 <= i < |ks| ensures Counting.Occurrences(counted, w) <= Counting.Occurrences(counted, ks[i]) {
      assert ks[i] == top[i].0;
      KeywordCounts(text, stop, ks[i]);
    }
  }

  /** A counted token that is not a keyword is a key of the table missing from its top entries. */
  lemma LeftOutKey(text: string, stop: set<string>, w: string)
    requires w in NonStop(Tokens(text), stop) && w !in KeywordsAvoiding(text, stop)
    ensures var c := KeywordCounter(text, stop); var top := Counting.Top(c, MaxKeywords);
      w in c.keys && forall i :: 0 <= i < |top| ==> top[i].0 != w
  {
    var c := KeywordCounter(text, stop);
    var top := Counting.Top(c, MaxKeywords);
    var ks := Words(top);
    Counting.BumpAllKeys(NonStop(Tokens(text), stop));
    forall i | 0 <= i < |top| ensures top[i].0 != w {
      assert top[i].0 == ks[i] && ks[i] in ks;
    }
  }

  // ------------------------------------------------------------ topics

  type TopicRow = (string, seq<string>)

  const TopicTable: seq<(string, seq<string>)> := [
    ("Technology", ["tech", "software", "app", "digital", "computer", "ai", "data", "cloud", "cyber"]),
    ("Business", ["business", "company", "market", "finance", "investment", "startup", "revenue", "profit"]),
    ("Politics", ["politics", "government", "policy", "election", "vote", "president", "congress", "law"]),
    ("Health", ["health", "medical", "doctor", "hospital", "vaccine", "covid", "medicine", "treatment"]),
    ("Sports", ["sports", "game", "team", "player", "match", "win", "championship", "score"]),
    ("Entertainment", ["movie", "music", "celebrity", "film", "actor", "singer", "streaming", "show"]),
    ("Science", ["science", "research", "study", "discovery", "experiment", "scientist", "nasa", "space"]),
    ("Environment", ["climate", "environment", "green", "sustainable", "carbon", "pollution", "energy"]),
    ("Education", ["education", "school", "university", "student", "learning", "teacher", "college"]),
    ("Social", ["social", "community", "culture", "people", "society", "family", "relationship"])
  ]

  const MaxTopics: nat := 5

  /** `any(word in text_lower or word in keywords_set for word in topic_words)`. */
  function AnyHit(words: seq<string>, textLower: string, keywords: set<string>): (b: bool)
    ensures b <==> exists k :: 0 <= k < |words| && (Text.Contains(textLower, words[k]) || words[k] in keywords)
  {
    if words == [] then false
    else if Text.Contains(textLower, words[0]) || words[0] in keywords then true
    else
      assert forall k :: 1 <= k < |words| ==> words[k] == words[1..][k - 1];
      AnyHit(words[1..], textLower, keywords)
  }

  /** The indices below `n` of the rows that match, in table order. */
  function MatchBelow(table: seq<TopicRow>, textLower: string, keywords: set<string>, n: nat): (idx: seq<nat>)
    requires n <= |table|
    ensures forall i :: 0 <= i < |idx| ==> idx[i] < n && AnyHit(table[idx[i]].1, textLower, keywords)
    ensures forall i, j :: 0 <= i < j < |idx| ==> idx[i] < idx[j]
    ensures forall j :: 0 <= j < n && AnyHit(table[j].1, textLower, keywords) ==> j in idx
  {
    if n == 0 then []
    else MatchBelow(table, textLower, keywords, n - 1) + (if AnyHit(table[n - 1].1, textLower, keywords) then [n - 1] else [])
  }

  /** The names of the rows at `idx`. */
  function Names(table: seq<TopicRow>, idx: seq<nat>): (ns: seq<string>)
    requires forall i :: 0 <= i < |idx| ==> idx[i] < |table|
    ensures |ns| == |idx| && forall i :: 0 <= i < |idx| ==> ns[i] == table[idx[i]].0
  {
    if idx == [] then [] else Names(table, idx[..|idx| - 1]) + [table[idx[|idx| - 1]].0]
  }

  /** The names of the matching rows, as the loop of `_detect_topics` collects them. */
  function Matching(table: seq<TopicRow>, textLower: string, keywords: set<string>): seq<string>
  {
    Names(table, MatchBelow(table, textLower, keywords, |table|))
  }

  /** `topics[:5] if topics else ["General"]` over the matching rows of `table`. */
  function TopicsIn(table: seq<TopicRow>, text: string, keywords: seq<string>): (ts: seq<string>)
    ensures ts != [] && |ts| <= MaxTopics
  {
    var matching := Matching(table, Text.Lower(text), set w | w in keywords);
    if matching == [] then ["General"] else Take(matching, MaxTopics)
  }

  /** `_detect_topics` with its topic table. */
  function TopicsOf(text: string, keywords: seq<string>): (ts: seq<string>)
    ensures ts != [] && |ts| <= MaxTopics
  {
    TopicsIn(TopicTable, text, keywords)
  }

  /** One more row: its name joins the collected names exactly when it matches. */
  lemma NamesStep(table: seq<TopicRow>, textLower: string, keywords: set<string>, j: nat)
    requires j < |table|
    ensures Names(table, MatchBelow(table, textLower, keywords, j + 1)) ==
      Names(table, MatchBelow(table, textLower, keywords, j)) +
      (if AnyHit(table[j].1, textLower, keywords) then [table[j].0] else [])
  {
    var before := MatchBelow(table, textLower, keywords, j);
    if AnyHit(table[j].1, textLower, keywords) {
      assert MatchBelow(table, textLower, keywords, j + 1) == before + [j];
      assert (before + [j])[..|before|] == before;
    } else {
      assert MatchBelow(table, textLower, keywords, j + 1) == before;
    }
  }

  /** The loop of `_detect_topics` over a given table. */
  method MatchTopics(table: seq<TopicRow>, text: string, keywords: seq<string>) returns (topics: seq<string>)
    ensures topics == TopicsIn(table, text, keywords)
  {
    var textLower := Text.Lower(text);
    var keywordSet := set w | w in keywords;
    topics := [];
    var j := 0;
    while j < |table|
      invariant 0 <= j <= |table|
      invariant topics == Names(table, MatchBelow(table, textLower, keywordSet, j))
    {
      NamesStep(table, textLower, keywordSet, j);
      if AnyHit(table[j].1, textLower, keywordSet) {
        topics := topics + [table[j].0];
      }
      j := j + 1;
    }
    if topics == [] {
      topics := ["General"];
    } else {
      topics := Take(topics, MaxTopics);
    }
  }

  method DetectTopics(text: string, keywords: seq<string>) returns (topics: seq<string>)
    ensures topics == TopicsOf(text, keywords)
  {
    topics := MatchTopics(TopicTable, text, keywords);
  }

  /**
   * For a table without a "General" row, the topics are ["General"] exactly
   * when no word of any row occurs in the text or among the keywords.
   */
  lemma TopicsGeneralIff(table: seq<TopicRow>, text: string, keywords: seq<string>)
    requires forall j :: 0 <= j < |table| ==> table[j].0 != "General"
    ensures TopicsIn(table, text, keywords) == ["General"] <==>
      forall j :: 0 <= j < |table| ==> !AnyHit(table[j].1, Text.Lower(text), set w | w in keywords)
  {
    var kws := set w | w in keywords;
    var idx := MatchBelow(table, Text.Lower(text), kws, |table|);
    if idx != [] {
      var ts := TopicsIn(table, text, keywords);
      assert ts[0] == table[idx[0]].0;
    }
  }

  /**
   * Otherwise the topics are the names of the first matching rows, at most
   * five of them, in table order.
   */
  lemma TopicsInTableOrder(table: seq<TopicRow>, text: string, keywords: seq<string>)
    requires exists j :: 0 <= j < |table| && AnyHit(table[j].1, Text.Lower(text), set w | w in keywords)
    ensures var idx := Take(MatchBelow(table, Text.Lower(text), set w | w in keywords, |table|), MaxTopics);
      TopicsIn(table, text, keywords) == Names(table, idx) && idx != [] &&
      (forall i, j :: 0 <= i < j < |idx| ==> idx[i] < idx[j]) &&
      (forall i :: 0 <= i < |idx| ==> AnyHit(table[idx[i]].1, Text.Lower(text), set w | w in keywords))
  {
    var textLower := Text.Lower(text);
    var kws := set w | w in keywords;
    var all := MatchBelow(table, textLower, kws, |table|);
    var j :| 0 <= j < |table| && AnyHit(table[j].1, textLower, kws);
    SomeMatch(table, textLower, kws, j);
    assert TopicsIn(table, text, keywords) == Take(Names(table, all), MaxTopics);
    TakeNames(table, all, MaxTopics);
    FirstMatches(table, textLower, kws, MaxTopics);
  }

  /** A matching row makes the matches non-empty. */
  lemma SomeMatch(table: seq<TopicRow>, textLower: string, keywords: set<string>, j: nat)
    requires j < |table| && AnyHit(table[j].1, textLower, keywords)
    ensures MatchBelow(table, textLower, keywords, |table|) != []
  {
    assert j in MatchBelow(table, textLower, keywords, |table|);
  }

  /** The first `n` matches are increasing row indices of matching rows. */
  lemma FirstMatches(table: seq<TopicRow>, textLower: string, keywords: set<string>, n: nat)
    ensures var idx := Take(MatchBelow(table, textLower, keywords, |table|), n);
      (forall i, j :: 0 <= i < j < |idx| ==> idx[i] < idx[j]) &&
      (forall i :: 0 <= i < |idx| ==> AnyHit(table[idx[i]].1, textLower, keywords))
  {
    var all := MatchBelow(table, textLower, keywords, |table|);
    var idx := Take(all, n);
    assert forall i :: 0 <= i < |idx| ==> idx[i] == all[i];
  }

  lemma TakeNames(table: seq<TopicRow>, idx: seq<nat>, n: nat)
    requires forall i :: 0 <= i < |idx| ==> idx[i] < |table|
    ensures Take(Names(table, idx), n) == Names(table, Take(idx, n))
  {
    var a := Take(Names(table, idx), n);
    var b := Names(table, Take(idx, n));
    assert |a| == |b|;
    forall i | 0 <= i < |a| ensures a[i] == b[i] {
      assert a[i] == table[idx[i]].0;
    }
  }

  /** The source's table has no "General" row, so the lemma above applies to it. */
  lemma TopicTableHasNoGeneral()
    ensures forall j :: 0 <= j < |TopicTable| ==> TopicTable[j].0 != "General"
  {
  }

  // ------------------------------------------------------------ language

  const LanguageNames: map<string, string> := map[
    "en" := "English", "es" := "Spanish", "fr" := "French",
    "de" := "German", "it" := "Italian", "pt" := "Portuguese",
    "nl" := "Dutch", "ru" := "Russian", "ja" := "Japanese",
    "zh-cn" := "Chinese", "ko" := "Korean", "ar" := "Arabic"]

  const DefaultLanguage: LanguageResult := LanguageResult("en", "English", 0.5)

  /** `lang_names.get(code, code.upper())`. */
  function LanguageName(code: string): string
  {
    if code in LanguageNames then LanguageNames[code] else Text.Upper(code)
  }

  /** The detected language, or English with confidence 0.5 for short text or a failed detector. */
  function LanguageOf(text: string, detector: Option<string -> Detection>): (r: LanguageResult)
    ensures detector.None? || |text| <= 10 ==> r == DefaultLanguage
    ensures detector.Some? && |text| > 10 ==>
      var d := detector.value(text);
      (d.code.None? ==> r == DefaultLanguage) &&
      (d.code.Some? ==>
        (r.code == d.code.value && r.name == LanguageName(d.code.value) &&
         r.confidence == (if d.probs.Some? && d.probs.value != [] then d.probs.value[0] else 0.9)))
  {
    if detector.None? || |text| <= 10 then DefaultLanguage
    else
      var d := detector.value(text);
      if d.code.None? then DefaultLanguage
      else
        var confidence := if d.probs.Some? && d.probs.value != [] then d.probs.value[0] else 0.9;
        LanguageResult(d.code.value, LanguageName(d.code.value), confidence)
  }

  // ------------------------------------------------------------ analyze

  /** The result for empty or whitespace-only text. */
  function EmptyResult(): NlpResult
  {
    NlpResult(SentimentResult(InsightsRoute.Neutral, 0.0, 0.0, None), [], [], [],
              LanguageResult("unknown", "Unknown", 0.0))
  }

  predicate Blank(text: string) { Text.Strip(text) == [] }

  /** The full analysis of cleaned text. */
  function AnalysisOf(clean: string, e: Engines): NlpResult
  {
    var keywords := Keywords(clean);
    NlpResult(SentimentOf(clean, e.vader), EntitiesOf(clean, e.spacy), TopicsOf(clean, keywords),
              keywords, LanguageOf(clean, e.detector))
  }

  function AnalyzeSpec(text: string, e: Engines): NlpResult
  {
    if Blank(text) then EmptyResult() else AnalysisOf(e.clean(text), e)
  }

  /** `analyze`: the empty result for blank text, else every analysis on the cleaned text. */
  method Analyze(text: string, e: Engines) returns (r: NlpResult)
    ensures r == AnalyzeSpec(text, e)
  {
    if Blank(text) {
      return EmptyResult();
    }
    var clean := e.clean(text);
    var entities := ExtractEntities(clean, e.spacy);
    var keywords := ExtractKeywords(clean);
    var topics := DetectTopics(clean, keywords);
    r := NlpResult(SentimentOf(clean, e.vader), entities, topics, keywords, LanguageOf(clean, e.detector));
  }

  /**
   * The topic list is empty exactly for blank input; blank input is neutral
   * with no confidence and an unknown language.
   */
  lemma AnalyzeTopicsEmptyIffBlank(text: string, e: Engines)
    ensures AnalyzeSpec(text, e).topics == [] <==> Blank(text)
    ensures Blank(text) ==> var r := AnalyzeSpec(text, e);
      r.sentiment.kind == InsightsRoute.Neutral && r.sentiment.score == 0.0 && r.sentiment.confidence == 0.0 &&
      r.entities == [] && r.keywords == [] && r.language.code == "unknown" && r.language.confidence == 0.0
  {
  }
}
