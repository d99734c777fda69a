/**
 * The aggregation engine: turns per-comment extraction records into weighted
 * city- and country-level signals, and reads the stores back as ranked
 * tables, a viewer distribution and a per-type signal breakdown.
 */
module Aggregator {
  import opened Wrappers
  import opened Signals
  import opened Ranking
  import Nlp

  /**
   * One comment's extraction record. A missing `cities_mentioned` or
   * `countries_mentioned` entry reads as an empty list.
   */
  datatype Analysis = Analysis(
    commentId: Option<string>,
    language: Option<string>,
    citiesMentioned: seq<string>,
    countriesMentioned: seq<string>)

  /** `metadata or {}`: the metadata given, else an empty one. */
  function MetadataOrEmpty(metadata: Option<Metadata>): Metadata {
    if metadata.Some? then metadata.value else map[]
  }

  /** The signal `add_signal` records. */
  function SignalOf(signalType: string, confidence: Option<real>, metadata: Option<Metadata>): (s: Signal)
    ensures s.kind == signalType
    ensures s.confidence == ResolveConfidence(signalType, confidence)
    ensures metadata.Some? ==> s.metadata == metadata.value
    ensures metadata.None? ==> s.metadata == map[]
  {
    Signal(signalType, ResolveConfidence(signalType, confidence), MetadataOrEmpty(metadata))
  }

  /** The metadata of a mention signal: the comment it came from, or None. */
  function CommentMetadata(commentId: Option<string>): Metadata {
    map["comment_id" := if commentId.Some? then Text(commentId.value) else Missing]
  }

  /** The metadata of a geocoded signal: coordinates and the geocoded country. */
  function GeocodeMetadata(g: Nlp.GeocodeResult): Metadata {
    map["lat" := Number(g.latitude), "lon" := Number(g.longitude), "country" := Text(g.country)]
  }

  /** The metadata of a language-inferred signal. */
  function LanguageMetadata(language: string): Metadata {
    map["language" := Text(language)]
  }

  /** A signal of a known type at its default confidence. */
  function DefaultSignal(kind: string, metadata: Metadata): Signal {
    SignalOf(kind, None, Some(metadata))
  }

  /**
   * The city-level signals of a comment, given what geocoding returned for each
   * mentioned city: per city, its mention and, when the city geocoded, a signal
   * for the geocoded city.
   */
  function CityAdditions(cities: seq<string>, commentId: Option<string>, geocoded: seq<Option<Nlp.GeocodeResult>>): seq<Addition>
    requires |geocoded| == |cities|
    decreases |cities|
  {
    if cities == [] then []
    else
      var n := |cities| - 1;
      CityAdditions(cities[..n], commentId, geocoded[..n])
        + [CityMention(cities[n], commentId)] + GeocodedAddition(geocoded[n])
  }

  /** The country-level mention signals of a comment. */
  function CountryAdditions(countries: seq<string>, commentId: Option<string>): seq<Addition>
    decreases |countries|
  {
    if countries == [] then []
    else
      var n := |countries| - 1;
      CountryAdditions(countries[..n], commentId)
        + [(countries[n], DefaultSignal("country_mentioned", CommentMetadata(commentId)))]
  }

  /** Python's truth test on the language, and not the `unknown` marker. */
  predicate UsableLanguage(language: Option<string>) {
    language.Some? && language.value != "" && language.value != "unknown"
  }

  /** The language-inferred country signal of a comment, if any. */
  function LanguageAdditions(language: Option<string>, withAnalyzer: bool): seq<Addition> {
    if withAnalyzer && UsableLanguage(language) && Nlp.InferCountryFromLanguage(language.value).Some? then
      [(Nlp.InferCountryFromLanguage(language.value).value,
        DefaultSignal("language_to_country", LanguageMetadata(language.value)))]
    else []
  }

  /** The locations that the additions of type `kind` go to, in order. */
  function LocationsOfKind(adds: seq<Addition>, kind: string): seq<string>
    decreases |adds|
  {
    if adds == [] then []
    else
      var n := |adds| - 1;
      LocationsOfKind(adds[..n], kind) + (if adds[n].1.kind == kind then [adds[n].0] else [])
  }

  /** The cities the successful geocodes name, in order. */
  function GeocodedCities(geocoded: seq<Option<Nlp.GeocodeResult>>): seq<string>
    decreases |geocoded|
  {
    if geocoded == [] then []
    else
      var n := |geocoded| - 1;
      GeocodedCities(geocoded[..n]) + (if geocoded[n].Some? then [geocoded[n].value.city] else [])
  }

  /** Selecting by type distributes over concatenation. */
  lemma {:induction false} LocationsOfKindConcat(a: seq<Addition>, b: seq<Addition>, kind: string)
    ensures LocationsOfKind(a + b, kind) == LocationsOfKind(a, kind) + LocationsOfKind(b, kind)
    decreases |b|
  {
    if b == [] {
      assert a + b == a;
    } else {
      var n := |b| - 1;
      assert (a + b)[..|a + b| - 1] == a + b[..n];
      LocationsOfKindConcat(a, b[..n], kind);
    }
  }

  /** The mention signal of a city. */
  function CityMention(city: string, commentId: Option<string>): Addition {
    (city, DefaultSignal("city_mentioned", CommentMetadata(commentId)))
  }

  /** The geocoded signal of a city, when its geocode succeeded. */
  function GeocodedAddition(g: Option<Nlp.GeocodeResult>): seq<Addition> {
    if g.Some? then [(g.value.city, DefaultSignal("geocoded_location", GeocodeMetadata(g.value)))] else []
  }

  /** The last city's signals come after the others'. */
  lemma CityAdditionsLast(cities: seq<string>, commentId: Option<string>, geocoded: seq<Option<Nlp.GeocodeResult>>)
    requires |geocoded| == |cities| > 0
    ensures CityAdditions(cities, commentId, geocoded) ==
      CityAdditions(cities[..|cities| - 1], commentId, geocoded[..|cities| - 1])
        + [CityMention(cities[|cities| - 1], commentId)] + GeocodedAddition(geocoded[|cities| - 1])
  {
  }

  /** Exactly one `city_mentioned` signal per mentioned city, in order. */
  lemma {:induction false} CityMentionsInOrder(cities: seq<string>, commentId: Option<string>, geocoded: seq<Option<Nlp.GeocodeResult>>)
    requires |geocoded| == |cities|
    ensures LocationsOfKind(CityAdditions(cities, commentId, geocoded), "city_mentioned") == cities
    decreases |cities|
  {
    if cities != [] {
      var n := |cities| - 1;
      var prev := CityAdditions(cities[..n], commentId, geocoded[..n]);
      var mention := [CityMention(cities[n], commentId)];
      var geo := GeocodedAddition(geocoded[n]);
      CityAdditionsLast(cities, commentId, geocoded);
      CityMentionsInOrder(cities[..n], commentId, geocoded[..n]);
      LocationsOfKindConcat(prev + mention, geo, "city_mentioned");
      LocationsOfKindConcat(prev, mention, "city_mentioned");
      assert LocationsOfKind(mention, "city_mentioned") == [cities[n]] by {
        assert mention[..0] == [];
      }
      assert LocationsOfKind(geo, "city_mentioned") == [] by {
        if geo != [] { assert geo[..0] == []; }
      }
      assert cities[..n] + [cities[n]] == cities;
    }
  }

  /** Exactly one `geocoded_location` signal per successful geocode, keyed by the geocoded city, in order. */
  lemma {:induction false} GeocodedSignalsInOrder(cities: seq<string>, commentId: Option<string>, geocoded: seq<Option<Nlp.GeocodeResult>>)
    requires |geocoded| == |cities|
    ensures LocationsOfKind(CityAdditions(cities, commentId, geocoded), "geocoded_location") == GeocodedCities(geocoded)
    decreases |cities|
  {
    if cities != [] {
      var n := |cities| - 1;
      var prev := CityAdditions(cities[..n], commentId, geocoded[..n]);
      var mention := [CityMention(cities[n], commentId)];
      var geo := GeocodedAddition(geocoded[n]);
      CityAdditionsLast(cities, commentId, geocoded);
      GeocodedSignalsInOrder(cities[..n], commentId, geocoded[..n]);
      LocationsOfKindConcat(prev + mention, geo, "geocoded_location");
      LocationsOfKindConcat(prev, mention, "geocoded_location");
      assert LocationsOfKind(mention, "geocoded_location") == [] by {
        assert mention[..0] == [];
      }
      assert LocationsOfKind(geo, "geocoded_location") == (if geocoded[n].Some? then [geocoded[n].value.city] else []) by {
        if geo != [] { assert geo[..0] == []; }
      }
    }
  }

  /**
   * A comment's city signals number one per city plus one per successful
   * geocode, are all of those two types, and each carries its type's default
   * confidence.
   */
  lemma {:induction false} CityAdditionsShape(cities: seq<string>, commentId: Option<string>, geocoded: seq<Option<Nlp.GeocodeResult>>)
    requires |geocoded| == |cities|
    ensures |CityAdditions(cities, commentId, geocoded)| == |cities| + |GeocodedCities(geocoded)|
    ensures forall i :: 0 <= i < |CityAdditions(cities, commentId, geocoded)| ==>
      var s := CityAdditions(cities, commentId, geocoded)[i].1;
      (s.kind == "city_mentioned" || s.kind == "geocoded_location") && s.confidence == DefaultWeight(s.kind)
    decreases |cities|
  {
    if cities != [] {
      var n := |cities| - 1;
      CityAdditionsLast(cities, commentId, geocoded);
      CityAdditionsShape(cities[..n], commentId, geocoded[..n]);
    }
  }

  /**
   * The country signals of a comment: exactly one `country_mentioned` signal
   * per mentioned country, in order, each at that type's default confidence.
   */
  lemma {:induction false} CountryAdditionsSpec(countries: seq<string>, commentId: Option<string>)
    ensures LocationsOfKind(CountryAdditions(countries, commentId), "country_mentioned") == countries
    ensures |CountryAdditions(countries, commentId)| == |countries|
    ensures forall i :: 0 <= i < |countries| ==>
      CountryAdditions(countries, commentId)[i].1.kind == "country_mentioned" &&
      CountryAdditions(countries, commentId)[i].1.confidence == 0.7
    decreases |countries|
  {
    if countries != [] {
      var n := |countries| - 1;
      var prev := CountryAdditions(countries[..n], commentId);
      var mention := [(countries[n], DefaultSignal("country_mentioned", CommentMetadata(commentId)))];
      CountryAdditionsSpec(countries[..n], commentId);
      LocationsOfKindConcat(prev, mention, "country_mentioned");
      assert LocationsOfKind(mention, "country_mentioned") == [countries[n]] by {
        assert mention[..0] == [];
      }
      assert countries[..n] + [countries[n]] == countries;
    }
  }

  /**
   * A comment yields a `language_to_country` signal exactly when an analyzer
   * is present and its language is usable and in the table; the signal goes
   * to the table's country at confidence 0.3.
   */
  lemma LanguageAdditionsSpec(language: Option<string>, withAnalyzer: bool)
    ensures |LanguageAdditions(language, withAnalyzer)| <= 1
    ensures |LanguageAdditions(language, withAnalyzer)| == 1 <==>
      withAnalyzer && UsableLanguage(language) && language.value in Nlp.LanguageToCountry
    ensures |LanguageAdditions(language, withAnalyzer)| == 1 ==>
      && LanguageAdditions(language, withAnalyzer)[0].0 == Nlp.LanguageToCountry[language.value]
      && LanguageAdditions(language, withAnalyzer)[0].1.kind == "language_to_country"
      && LanguageAdditions(language, withAnalyzer)[0].1.confidence == 0.3
  {
  }

  /** Geocoding each of `names` in turn, with `retry` attempts each: the results and the final state. */
  function GeocodeAll(remote: Nlp.Remote, st: Nlp.GeocodeState, names: seq<string>, retry: int): (out: (seq<Option<Nlp.GeocodeResult>>, Nlp.GeocodeState))
    ensures |out.0| == |names|
    decreases |names|
  {
    if names == [] then ([], st)
    else
      var n := |names| - 1;
      var prev := GeocodeAll(remote, st, names[..n], retry);
      var step := Nlp.GeocodeStep(remote, prev.1, names[n], retry);
      (prev.0 + [step.0], step.1)
  }

  /** Geocoding a list of names keeps the cache consistent, and each result is for the name asked. */
  lemma {:induction false} GeocodeAllValid(remote: Nlp.Remote, st: Nlp.GeocodeState, names: seq<string>, retry: int)
    requires Nlp.CacheValid(st.cache)
    ensures Nlp.CacheValid(GeocodeAll(remote, st, names, retry).1.cache)
    ensures forall i :: 0 <= i < |names| && GeocodeAll(remote, st, names, retry).0[i].Some? ==>
      GeocodeAll(remote, st, names, retry).0[i].value.name == names[i]
    decreases |names|
  {
    if names != [] {
      var n := |names| - 1;
      var prev := GeocodeAll(remote, st, names[..n], retry);
      GeocodeAllValid(remote, st, names[..n], retry);
      Nlp.GeocodeStepValid(remote, prev.1, names[n], retry);
    }
  }

  /** Geocoding a list of names never overwrites a cached entry. */
  lemma {:induction false} GeocodeAllKeepsCache(remote: Nlp.Remote, st: Nlp.GeocodeState, names: seq<string>, retry: int)
    ensures forall n :: n in st.cache ==>
      n in GeocodeAll(remote, st, names, retry).1.cache && GeocodeAll(remote, st, names, retry).1.cache[n] == st.cache[n]
    decreases |names|
  {
    if names != [] {
      var n := |names| - 1;
      var prev := GeocodeAll(remote, st, names[..n], retry);
      GeocodeAllKeepsCache(remote, st, names[..n], retry);
      Nlp.GeocodeStepKeepsCache(remote, prev.1, names[n], retry);
    }
  }

  /** Geocoding a list of names sends at most `retry` requests per name. */
  lemma {:induction false} GeocodeAllRequests(remote: Nlp.Remote, st: Nlp.GeocodeState, names: seq<string>, retry: int)
    ensures st.requestsSent <= GeocodeAll(remote, st, names, retry).1.requestsSent <= st.requestsSent + |names| * Nlp.Attempts(retry)
    decreases |names|
  {
    if names != [] {
      var n := |names| - 1;
      var a := Nlp.Attempts(retry);
      var prev := GeocodeAll(remote, st, names[..n], retry).1;
      var next := Nlp.GeocodeStep(remote, prev, names[n], retry).1;
      assert GeocodeAll(remote, st, names, retry).1 == next;
      GeocodeAllRequests(remote, st, names[..n], retry);
      Nlp.GeocodeStepKeepsCache(remote, prev, names[n], retry);
      assert prev.requestsSent <= next.requestsSent <= prev.requestsSent + a;
      assert (n + 1) * a == n * a + a;
    }
  }

  /** What a comment looks like to the geocoder when no analyzer is passed: no result for any city. */
  function NoGeocodes(n: nat): (g: seq<Option<Nlp.GeocodeResult>>)
    ensures |g| == n && forall i :: 0 <= i < n ==> g[i].None?
    ensures GeocodedCities(g) == []
  {
    if n == 0 then [] else NoGeocodes(n - 1) + [None]
  }

  /** Everything a comment adds to the country store. */
  function CountryLevelAdditions(analysis: Analysis, withAnalyzer: bool): seq<Addition> {
    CountryAdditions(analysis.countriesMentioned, analysis.commentId) + LanguageAdditions(analysis.language, withAnalyzer)
  }

  /** Every signal a comment adds to the country store carries a positive confidence. */
  lemma CountryLevelConfidencesPositive(analysis: Analysis, withAnalyzer: bool)
    ensures forall i :: 0 <= i < |CountryLevelAdditions(analysis, withAnalyzer)| ==>
      CountryLevelAdditions(analysis, withAnalyzer)[i].1.confidence > 0.0
  {
    var c: seq<Addition> := CountryAdditions(analysis.countriesMentioned, analysis.commentId);
    var l: seq<Addition> := LanguageAdditions(analysis.language, withAnalyzer);
    CountryAdditionsSpec(analysis.countriesMentioned, analysis.commentId);
    LanguageAdditionsSpec(analysis.language, withAnalyzer);
    forall i | 0 <= i < |c + l| ensures (c + l)[i].1.confidence > 0.0 {
      if i < |c| {
        assert (c + l)[i] == c[i];
      } else {
        assert (c + l)[i] == l[i - |c|];
      }
    }
  }

  /** Each comment's geocode results line up with its mentioned cities. */
  predicate GeocodesFit(analyses: seq<Analysis>, geocodes: seq<seq<Option<Nlp.GeocodeResult>>>) {
    && |geocodes| == |analyses|
    && forall i :: 0 <= i < |analyses| ==> |geocodes[i]| == |analyses[i].citiesMentioned|
  }

  /** The city-level additions of a batch of comments, comment by comment. */
  function BatchCityAdditions(analyses: seq<Analysis>, geocodes: seq<seq<Option<Nlp.GeocodeResult>>>): seq<Addition>
    requires GeocodesFit(analyses, geocodes)
    decreases |analyses|
  {
    if analyses == [] then []
    else
      var n := |analyses| - 1;
      BatchCityAdditions(analyses[..n], geocodes[..n]) +
        CityAdditions(analyses[n].citiesMentioned, analyses[n].commentId, geocodes[n])
  }

  /** The country-level additions of a batch of comments, comment by comment. */
  function BatchCountryAdditions(analyses: seq<Analysis>, withAnalyzer: bool): seq<Addition>
    decreases |analyses|
  {
    if analyses == [] then []
    else
      var n := |analyses| - 1;
      BatchCountryAdditions(analyses[..n], withAnalyzer) + CountryLevelAdditions(analyses[n], withAnalyzer)
  }

  /** The geocode lookups of a batch: every comment's cities in turn, three attempts each. */
  function GeocodeBatch(remote: Nlp.Remote, st: Nlp.GeocodeState, analyses: seq<Analysis>)
    : (out: (seq<seq<Option<Nlp.GeocodeResult>>>, Nlp.GeocodeState))
    ensures GeocodesFit(analyses, out.0)
    decreases |analyses|
  {
    if analyses == [] then ([], st)
    else
      var n := |analyses| - 1;
      var prev := GeocodeBatch(remote, st, analyses[..n]);
      var step := GeocodeAll(remote, prev.1, analyses[n].citiesMentioned, 3);
      (prev.0 + [step.0], step.1)
  }

  /** The geocode results of a batch processed without an analyzer: none at all. */
  function NoGeocodesBatch(analyses: seq<Analysis>): (g: seq<seq<Option<Nlp.GeocodeResult>>>)
    ensures GeocodesFit(analyses, g)
    ensures forall i :: 0 <= i < |analyses| ==> g[i] == NoGeocodes(|analyses[i].citiesMentioned|)
    decreases |analyses|
  {
    if analyses == [] then []
    else
      var n := |analyses| - 1;
      NoGeocodesBatch(analyses[..n]) + [NoGeocodes(|analyses[n].citiesMentioned|)]
  }

  /** Every city a batch mentions, comment by comment. */
  function AllCities(analyses: seq<Analysis>): seq<string>
    decreases |analyses|
  {
    if analyses == [] then []
    else
      var n := |analyses| - 1;
      AllCities(analyses[..n]) + analyses[n].citiesMentioned
  }

  /** Every country a batch mentions, comment by comment. */
  function AllCountries(analyses: seq<Analysis>): seq<string>
    decreases |analyses|
  {
    if analyses == [] then []
    else
      var n := |analyses| - 1;
      AllCountries(analyses[..n]) + analyses[n].countriesMentioned
  }

  /** A batch yields one `city_mentioned` signal per mentioned city, in order. */
  lemma {:induction false} BatchCityMentions(analyses: seq<Analysis>, geocodes: seq<seq<Option<Nlp.GeocodeResult>>>)
    requires GeocodesFit(analyses, geocodes)
    ensures LocationsOfKind(BatchCityAdditions(analyses, geocodes), "city_mentioned") == AllCities(analyses)
    decreases |analyses|
  {
    if analyses != [] {
      var n := |analyses| - 1;
      BatchCityMentions(analyses[..n], geocodes[..n]);
      LocationsOfKindConcat(BatchCityAdditions(analyses[..n], geocodes[..n]),
                            CityAdditions(analyses[n].citiesMentioned, analyses[n].commentId, geocodes[n]), "city_mentioned");
      CityMentionsInOrder(analyses[n].citiesMentioned, analyses[n].commentId, geocodes[n]);
    }
  }

  /** A batch yields one `country_mentioned` signal per mentioned country, in order. */
  lemma {:induction false} BatchCountryMentions(analyses: seq<Analysis>, withAnalyzer: bool)
    ensures LocationsOfKind(BatchCountryAdditions(analyses, withAnalyzer), "country_mentioned") == AllCountries(analyses)
    decreases |analyses|
  {
    if analyses != [] {
      var n := |analyses| - 1;
      var a := analyses[n];
      BatchCountryMentions(analyses[..n], withAnalyzer);
      LocationsOfKindConcat(BatchCountryAdditions(analyses[..n], withAnalyzer), CountryLevelAdditions(a, withAnalyzer), "country_mentioned");
      CountryLevelMentions(a, withAnalyzer);
    }
  }

  /** A comment's country-level `country_mentioned` signals are its mentioned countries. */
  lemma CountryLevelMentions(a: Analysis, withAnalyzer: bool)
    ensures LocationsOfKind(CountryLevelAdditions(a, withAnalyzer), "country_mentioned") == a.countriesMentioned
  {
    var lang := LanguageAdditions(a.language, withAnalyzer);
    LocationsOfKindConcat(CountryAdditions(a.countriesMentioned, a.commentId), lang, "country_mentioned");
    CountryAdditionsSpec(a.countriesMentioned, a.commentId);
    if lang != [] {
      assert lang[..0] == [];
      assert LocationsOfKind(lang, "country_mentioned") == [];
    }
  }

  /** One more comment extends a batch's geocodes by that comment's lookups. */
  lemma GeocodeBatchStep(remote: Nlp.Remote, st: Nlp.GeocodeState, analyses: seq<Analysis>, i: nat)
    requires i < |analyses|
    ensures GeocodeBatch(remote, st, analyses[..i + 1]) ==
      var prev := GeocodeBatch(remote, st, analyses[..i]);
      var step := GeocodeAll(remote, prev.1, analyses[i].citiesMentioned, 3);
      (prev.0 + [step.0], step.1)
  {
    assert analyses[..i + 1][..i] == analyses[..i];
  }

  /** One more comment extends a batch's empty geocodes by that comment's. */
  lemma NoGeocodesBatchStep(analyses: seq<Analysis>, i: nat)
    requires i < |analyses|
    ensures NoGeocodesBatch(analyses[..i + 1]) == NoGeocodesBatch(analyses[..i]) + [NoGeocodes(|analyses[i].citiesMentioned|)]
  {
    assert analyses[..i + 1][..i] == analyses[..i];
  }

  /** The number of additions of a type is the number of locations they go to. */
  lemma {:induction false} KindCount(adds: seq<Addition>, kind: string)
    ensures AdditionKinds(adds)[kind] == |LocationsOfKind(adds, kind)|
    decreases |adds|
  {
    if adds != [] {
      KindCount(adds[..|adds| - 1], kind);
    }
  }

  /** Additions none of which has type `kind` go to no location under that type. */
  lemma {:induction false} AbsentKind(adds: seq<Addition>, kind: string)
    requires forall i :: 0 <= i < |adds| ==> adds[i].1.kind != kind
    ensures LocationsOfKind(adds, kind) == []
    decreases |adds|
  {
    if adds != [] {
      AbsentKind(adds[..|adds| - 1], kind);
    }
  }

  /** A batch puts no `country_mentioned` signal in the city store. */
  lemma {:induction false} BatchCitiesHaveNoCountryMentions(analyses: seq<Analysis>, geocodes: seq<seq<Option<Nlp.GeocodeResult>>>)
    requires GeocodesFit(analyses, geocodes)
    ensures LocationsOfKind(BatchCityAdditions(analyses, geocodes), "country_mentioned") == []
    decreases |analyses|
  {
    if analyses != [] {
      var n := |analyses| - 1;
      var last := CityAdditions(analyses[n].citiesMentioned, analyses[n].commentId, geocodes[n]);
      BatchCitiesHaveNoCountryMentions(analyses[..n], geocodes[..n]);
      CityAdditionsShape(analyses[n].citiesMentioned, analyses[n].commentId, geocodes[n]);
      AbsentKind(last, "country_mentioned");
      LocationsOfKindConcat(BatchCityAdditions(analyses[..n], geocodes[..n]), last, "country_mentioned");
    }
  }

  /** A comment puts no `city_mentioned` signal in the country store. */
  lemma CountryLevelHasNoCityMentions(a: Analysis, withAnalyzer: bool)
    ensures LocationsOfKind(CountryLevelAdditions(a, withAnalyzer), "city_mentioned") == []
  {
    var countries := CountryAdditions(a.countriesMentioned, a.commentId);
    var lang := LanguageAdditions(a.language, withAnalyzer);
    CountryAdditionsSpec(a.countriesMentioned, a.commentId);
    LanguageAdditionsSpec(a.language, withAnalyzer);
    AbsentKind(countries, "city_mentioned");
    AbsentKind(lang, "city_mentioned");
    LocationsOfKindConcat(countries, lang, "city_mentioned");
  }

  /** A batch puts no `city_mentioned` signal in the country store. */
  lemma {:induction false} BatchCountriesHaveNoCityMentions(analyses: seq<Analysis>, withAnalyzer: bool)
    ensures LocationsOfKind(BatchCountryAdditions(analyses, withAnalyzer), "city_mentioned") == []
    decreases |analyses|
  {
    if analyses != [] {
      var n := |analyses| - 1;
      BatchCountriesHaveNoCityMentions(analyses[..n], withAnalyzer);
      CountryLevelHasNoCityMentions(analyses[n], withAnalyzer);
      LocationsOfKindConcat(BatchCountryAdditions(analyses[..n], withAnalyzer), CountryLevelAdditions(analyses[n], withAnalyzer), "city_mentioned");
    }
  }

  /**
   * After a batch is processed by a fresh aggregator, the signal types of
   * the two stores count one `city_mentioned` per mentioned city and one
   * `country_mentioned` per mentioned country.
   */
  lemma BatchMentionTotals(analyses: seq<Analysis>, geocodes: seq<seq<Option<Nlp.GeocodeResult>>>, withAnalyzer: bool)
    requires GeocodesFit(analyses, geocodes)
    ensures
      var bag := StoreKinds(Accumulate(map[], BatchCityAdditions(analyses, geocodes))) +
                 StoreKinds(Accumulate(map[], BatchCountryAdditions(analyses, withAnalyzer)));
      bag["city_mentioned"] == |AllCities(analyses)| && bag["country_mentioned"] == |AllCountries(analyses)|
  {
    var cities := BatchCityAdditions(analyses, geocodes);
    var countries := BatchCountryAdditions(analyses, withAnalyzer);
    StoreKindsAccumulate(map[], cities);
    StoreKindsAccumulate(map[], countries);
    KindCount(cities, "city_mentioned");
    KindCount(cities, "country_mentioned");
    KindCount(countries, "city_mentioned");
    KindCount(countries, "country_mentioned");
    BatchCityMentions(analyses, geocodes);
    BatchCountryMentions(analyses, withAnalyzer);
    BatchCitiesHaveNoCountryMentions(analyses, geocodes);
    BatchCountriesHaveNoCityMentions(analyses, withAnalyzer);
  }

  /** `count == |signals|` and `score == sum of confidences` in both stores. */
  ghost predicate StoresValid(cities: Store, countries: Store) {
    StoreValid(cities) && StoreValid(countries)
  }

  /** The per-type summary of a signal breakdown: type to number of signals of that type. */
  ghost predicate Tallies(counts: map<string, nat>, bag: multiset<string>) {
    && (forall t :: t in counts ==> counts[t] == bag[t] && counts[t] > 0)
    && (forall t :: t in bag ==> t in counts)
  }

  /** The sum of a map's values. */
  ghost function ValueSum(m: map<string, nat>): nat
    decreases |m|
  {
    if m == map[] then 0
    else
      var t :| t in m;
      m[t] + ValueSum(m - {t})
  }

  /** `ValueSum` may take the keys in any order. */
  lemma {:induction false} ValueSumRemove(m: map<string, nat>, t: string)
    requires t in m
    ensures ValueSum(m) == m[t] + ValueSum(m - {t})
    decreases |m|
  {
    var other :| other in m && ValueSum(m) == m[other] + ValueSum(m - {other});
    if other != t {
      ValueSumRemove(m - {other}, t);
      ValueSumRemove(m - {t}, other);
      assert m - {other} - {t} == m - {t} - {other};
    }
  }

  /** The counts of a breakdown add up to the number of signals it counts. */
  lemma {:induction false} TalliedTotal(counts: map<string, nat>, bag: multiset<string>)
    requires Tallies(counts, bag)
    ensures ValueSum(counts) == |bag|
    decreases |counts|
  {
    if counts != map[] {
      var t :| t in counts;
      ValueSumRemove(counts, t);
      var rest := bag[t := 0];
      assert Tallies(counts - {t}, rest);
      TalliedTotal(counts - {t}, rest);
      var copies := multiset{}[t := bag[t]];
      assert bag == rest + copies;
      assert |copies| == bag[t] by {
        CopiesSize(t, bag[t]);
      }
    }
  }

  /** `n` copies of one value make a multiset of size `n`. */
  lemma {:induction false} CopiesSize(t: string, n: nat)
    ensures |multiset{}[t := n]| == n
    decreases n
  {
    if n > 0 {
      CopiesSize(t, n - 1);
      assert multiset{}[t := n] == multiset{}[t := n - 1] + multiset{t};
    }
  }

  /** The summary block of a distribution estimate. */
  datatype Summary = Summary(
    totalCitiesIdentified: nat,
    totalCountriesIdentified: nat,
    topCity: Option<string>,
    topCountry: Option<string>)

  /** A distribution estimate: the ranked city and country tables and their summary. */
  datatype Distribution = Distribution(cities: seq<RankedRow>, countries: seq<RankedRow>, summary: Summary)

  /** The location of a table's first row, or None for an empty table. */
  function TopLocation(ranked: seq<RankedRow>): (top: Option<string>)
    ensures top.None? <==> ranked == []
    ensures top.Some? ==> top.value == ranked[0].row.location
    ensures top.Some? ==> top.value in Listed(RowsOf(ranked))
  {
    if ranked == [] then None else Some(ranked[0].row.location)
  }

  /** Counting one more signal of type `t` keeps a breakdown exact. */
  lemma TalliesAdd(counts: map<string, nat>, bag: multiset<string>, t: string)
    requires Tallies(counts, bag)
    ensures Tallies(counts[t := if t in counts then counts[t] + 1 else 1], bag + multiset{t})
  {
  }

  /** Counting the type of the next signal extends a breakdown of the signals before it. */
  lemma TallyStep(counts: map<string, nat>, base: multiset<string>, signals: seq<Signal>, j: nat)
    requires j < |signals| && Tallies(counts, base + Kinds(signals[..j]))
    ensures var t := signals[j].kind;
      Tallies(counts[t := if t in counts then counts[t] + 1 else 1], base + Kinds(signals[..j + 1]))
  {
    var t := signals[j].kind;
    assert signals[..j + 1][..j] == signals[..j];
    assert base + Kinds(signals[..j + 1]) == (base + Kinds(signals[..j])) + multiset{t};
    TalliesAdd(counts, base + Kinds(signals[..j]), t);
  }

  /** Counts `signals`' types into `counts`. */
  method TallySignals(counts: map<string, nat>, signals: seq<Signal>, ghost base: multiset<string>) returns (r: map<string, nat>)
    requires Tallies(counts, base)
    ensures Tallies(r, base + Kinds(signals))
  {
    r := counts;
    var j := 0;
    while j < |signals|
      invariant 0 <= j <= |signals|
      invariant Tallies(r, base + Kinds(signals[..j]))
    {
      var t := signals[j].kind;
      TallyStep(r, base, signals, j);
      r := r[t := if t in r then r[t] + 1 else 1];
      j := j + 1;
    }
    assert signals[..|signals|] == signals;
  }

  /** Moving one location's signal types from the rest of a store to the part counted keeps the whole. */
  lemma TallyStoreStep(rest: Store, loc: string, done: multiset<string>, whole: multiset<string>)
    requires loc in rest && done + StoreKinds(rest) == whole
    ensures (done + Kinds(rest[loc].signals)) + StoreKinds(rest - {loc}) == whole
  {
    StoreKindsRemove(rest, loc);
  }

  /** Counts the types of every signal in `store` into `counts`. */
  method TallyStore(counts: map<string, nat>, store: Store, ghost base: multiset<string>) returns (r: map<string, nat>)
    requires Tallies(counts, base)
    ensures Tallies(r, base + StoreKinds(store))
  {
    r := counts;
    var rest := store;
    ghost var done := base;
    while rest != map[]
      invariant Tallies(r, done)
      invariant done + StoreKinds(rest) == base + StoreKinds(store)
      decreases |rest|
    {
      var loc :| loc in rest;
      TallyStoreStep(rest, loc, done, base + StoreKinds(store));
      r := TallySignals(r, rest[loc].signals, done);
      done := done + Kinds(rest[loc].signals);
      rest := rest - {loc};
    }
  }

  class IntelligenceAggregator {
    /** City-level records, by location name. */
    var locationScores: Store
    /** Country-level records, by location name. */
    var countryScores: Store

    ghost predicate Valid()
      reads this
    {
      StoresValid(locationScores, countryScores)
    }

    /** The store a `level` selects: `city` the city store, anything else the country store. */
    function Target(level: string): (store: Store)
      reads this
      ensures level == "city" ==> store == locationScores
      ensures level != "city" ==> store == countryScores
    {
      if level == "city" then locationScores else countryScores
    }

    constructor ()
      ensures Valid()
      ensures locationScores == map[] && countryScores == map[]
    {
      locationScores := map[];
      countryScores := map[];
    }

    /**
     * Records one signal for `location`: its confidence (the one given, else
     * the type's default) is added to the location's score, the signal is
     * appended and the count goes up by one, in the store `level` selects;
     * nothing else changes.
     */
    method AddSignal(location: string, signalType: string, confidence: Option<real>, metadata: Option<Metadata>, level: string)
      requires Valid()
      modifies this
      ensures Valid()
      ensures level == "city" ==>
        && locationScores == AddToStore(old(locationScores), location, SignalOf(signalType, confidence, metadata))
        && countryScores == old(countryScores)
      ensures level != "city" ==>
        && countryScores == AddToStore(old(countryScores), location, SignalOf(signalType, confidence, metadata))
        && locationScores == old(locationScores)
    {
      var signal := Signal(signalType, ResolveConfidence(signalType, confidence), MetadataOrEmpty(metadata));
      var rec := Lookup(Target(level), location);
      var updated := LocationRecord(rec.score + signal.confidence, rec.signals + [signal], rec.count + 1);
      assert signal == SignalOf(signalType, confidence, metadata);
      assert updated == Appended(rec, signal);
      if level == "city" {
        AddToStoreValid(locationScores, location, signal);
        locationScores := locationScores[location := updated];
        assert locationScores == AddToStore(old(locationScores), location, signal);
      } else {
        AddToStoreValid(countryScores, location, signal);
        countryScores := countryScores[location := updated];
        assert countryScores == AddToStore(old(countryScores), location, signal);
      }
    }

    /**
     * Turns one comment's extraction record into signals: per mentioned city a
     * `city_mentioned` signal and, when an analyzer is given and geocodes the
     * city, a `geocoded_location` signal for the geocoded city; per mentioned
     * country a `country_mentioned` signal; and, with an analyzer, a
     * `language_to_country` signal for a usable language in the table.
     * `geocoded` is what each city's geocode returned.
     */
    method ProcessCommentAnalysis(analysis: Analysis, analyzer: Nlp.NlpAnalyzer?) returns (ghost geocoded: seq<Option<Nlp.GeocodeResult>>)
      requires Valid()
      requires analyzer != null ==> analyzer.Valid()
      modifies this, analyzer
      ensures Valid()
      ensures analyzer != null ==> analyzer.Valid()
      ensures |geocoded| == |analysis.citiesMentioned|
      ensures analyzer == null ==> geocoded == NoGeocodes(|analysis.citiesMentioned|)
      ensures analyzer != null ==>
        (geocoded, analyzer.State()) == GeocodeAll(analyzer.remote, old(analyzer.State()), analysis.citiesMentioned, 3)
      ensures locationScores == Accumulate(old(locationScores), CityAdditions(analysis.citiesMentioned, analysis.commentId, geocoded))
      ensures countryScores == Accumulate(old(countryScores), CountryLevelAdditions(analysis, analyzer != null))
      ensures PositiveScores(old(locationScores)) ==> PositiveScores(locationScores)
      ensures PositiveScores(old(countryScores)) ==> PositiveScores(countryScores)
    {
      geocoded := AddCitySignals(analysis.citiesMentioned, analysis.commentId, analyzer);
      AddCountrySignals(analysis.countriesMentioned, analysis.commentId);
      AddLanguageSignal(analysis.language, analyzer != null);
      AccumulateConcat(old(countryScores), CountryAdditions(analysis.countriesMentioned, analysis.commentId),
                       LanguageAdditions(analysis.language, analyzer != null));
      CityAdditionsShape(analysis.citiesMentioned, analysis.commentId, geocoded);
      AccumulateValid(old(locationScores), CityAdditions(analysis.citiesMentioned, analysis.commentId, geocoded));
      CountryLevelConfidencesPositive(analysis, analyzer != null);
      AccumulateValid(old(countryScores), CountryLevelAdditions(analysis, analyzer != null));
    }

    /** The language step of `process_comment_analysis`, taken only when an analyzer is given. */
    method AddLanguageSignal(language: Option<string>, withAnalyzer: bool)
      requires Valid()
      modifies this
      ensures Valid()
      ensures countryScores == Accumulate(old(countryScores), LanguageAdditions(language, withAnalyzer))
      ensures locationScores == old(locationScores)
    {
      if withAnalyzer && language.Some? && language.value != "" && language.value != "unknown" {
        var inferred := Nlp.InferCountryFromLanguage(language.value);
        if inferred.Some? {
          AddSignal(inferred.value, "language_to_country", None, Some(LanguageMetadata(language.value)), "country");
          AccumulateSnoc(old(countryScores), [], LanguageAdditions(language, true)[0]);
        }
      }
    }

    /** The city loop of `process_comment_analysis`. */
    method AddCitySignals(cities: seq<string>, commentId: Option<string>, analyzer: Nlp.NlpAnalyzer?) returns (ghost geocoded: seq<Option<Nlp.GeocodeResult>>)
      requires Valid()
      requires analyzer != null ==> analyzer.Valid()
      modifies this, analyzer
      ensures Valid()
      ensures analyzer != null ==> analyzer.Valid()
      ensures |geocoded| == |cities|
      ensures analyzer == null ==> geocoded == NoGeocodes(|cities|)
      ensures analyzer != null ==> (geocoded, analyzer.State()) == GeocodeAll(analyzer.remote, old(analyzer.State()), cities, 3)
      ensures locationScores == Accumulate(old(locationScores), CityAdditions(cities, commentId, geocoded))
      ensures countryScores == old(countryScores)
    {
      geocoded := [];
      var i := 0;
      ghost var st := if analyzer != null then analyzer.State() else Nlp.GeocodeState(map[], 0);
      while i < |cities|
        invariant CitiesDone(cities, commentId, analyzer, i, geocoded, old(locationScores), old(countryScores), st)
      {
        var g := AddCityMention(cities, commentId, analyzer, i, geocoded, old(locationScores), old(countryScores), st);
        geocoded := geocoded + [g];
        i := i + 1;
      }
      assert cities[..i] == cities;
    }

    /**
     * The state after the city loop has handled `cities[..i]`, starting from
     * the stores `start` and `countries` and the analyzer state `st`.
     */
    ghost predicate CitiesDone(cities: seq<string>, commentId: Option<string>, analyzer: Nlp.NlpAnalyzer?, i: nat,
                               geocoded: seq<Option<Nlp.GeocodeResult>>, start: Store, countries: Store, st: Nlp.GeocodeState)
      reads this, analyzer
    {
      && i <= |cities| && |geocoded| == i
      && Valid() && countryScores == countries
      && locationScores == Accumulate(start, CityAdditions(cities[..i], commentId, geocoded))
      && (analyzer == null ==> geocoded == NoGeocodes(i))
      && (analyzer != null ==> analyzer.Valid() && (geocoded, analyzer.State()) == GeocodeAll(analyzer.remote, st, cities[..i], 3))
    }

    /** One pass of the city loop, for the `i`-th city. */
    method AddCityMention(cities: seq<string>, commentId: Option<string>, analyzer: Nlp.NlpAnalyzer?, i: nat,
                          ghost geocoded: seq<Option<Nlp.GeocodeResult>>, ghost start: Store, ghost countries: Store,
                          ghost st: Nlp.GeocodeState)
        returns (g: Option<Nlp.GeocodeResult>)
      requires i < |cities| && CitiesDone(cities, commentId, analyzer, i, geocoded, start, countries, st)
      modifies this, analyzer
      ensures CitiesDone(cities, commentId, analyzer, i + 1, geocoded + [g], start, countries, st)
    {
      g := AddOneCity(cities[i], commentId, analyzer);
      CityStep(start, cities, commentId, geocoded, g, i);
      if analyzer != null {
        GeocodeAllStep(analyzer.remote, st, cities, i, 3);
      }
    }

    /** One pass of the city loop: the city's mention, its geocode and, on success, the geocoded signal. */
    method AddOneCity(city: string, commentId: Option<string>, analyzer: Nlp.NlpAnalyzer?) returns (g: Option<Nlp.GeocodeResult>)
      requires Valid()
      requires analyzer != null ==> analyzer.Valid()
      modifies this, analyzer
      ensures Valid()
      ensures analyzer != null ==> analyzer.Valid()
      ensures analyzer == null ==> g == None
      ensures analyzer != null ==> (g, analyzer.State()) == Nlp.GeocodeStep(analyzer.remote, old(analyzer.State()), city, 3)
      ensures locationScores == Accumulate(old(locationScores), [CityMention(city, commentId)] + GeocodedAddition(g))
      ensures countryScores == old(countryScores)
    {
      AddSignal(city, "city_mentioned", None, Some(CommentMetadata(commentId)), "city");
      ghost var afterMention := locationScores;
      AccumulateSnoc(old(locationScores), [], CityMention(city, commentId));
      g := None;
      if analyzer != null {
        g := analyzer.GeocodeLocation(city, 3);
        if g.Some? {
          AddSignal(g.value.city, "geocoded_location", None, Some(GeocodeMetadata(g.value)), "city");
          AccumulateSnoc(old(locationScores), [CityMention(city, commentId)], GeocodedAddition(g)[0]);
          assert [CityMention(city, commentId)] + GeocodedAddition(g) == [CityMention(city, commentId)] + [GeocodedAddition(g)[0]];
        }
      }
      if g.None? {
        assert [CityMention(city, commentId)] + GeocodedAddition(g) == [] + [CityMention(city, commentId)];
      }
    }

    /** The country loop of `process_comment_analysis`. */
    method AddCountrySignals(countries: seq<string>, commentId: Option<string>)
      requires Valid()
      modifies this
      ensures Valid()
      ensures countryScores == Accumulate(old(countryScores), CountryAdditions(countries, commentId))
      ensures locationScores == old(locationScores)
    {
      var j := 0;
      while j < |countries|
        invariant 0 <= j <= |countries|
        invariant Valid()
        invariant locationScores == old(locationScores)
        invariant countryScores == Accumulate(old(countryScores), CountryAdditions(countries[..j], commentId))
      {
        AddCountryMention(countries, commentId, j, old(countryScores));
        j := j + 1;
      }
      assert countries[..j] == countries;
    }

    /** One pass of the country loop: the `j`-th country's mention. */
    method AddCountryMention(countries: seq<string>, commentId: Option<string>, j: nat, ghost start: Store)
      requires Valid() && j < |countries|
      requires countryScores == Accumulate(start, CountryAdditions(countries[..j], commentId))
      modifies this
      ensures Valid() && locationScores == old(locationScores)
      ensures countryScores == Accumulate(start, CountryAdditions(countries[..j + 1], commentId))
    {
      AddSignal(countries[j], "country_mentioned", None, Some(CommentMetadata(commentId)), "country");
      CountryStep(start, countries, commentId, j);
    }

    /**
     * Processes a batch of extraction records in order, each as
     * `ProcessCommentAnalysis` does. `geocodes` holds each comment's geocode
     * results.
     */
    method ProcessAllAnalyses(analyses: seq<Analysis>, analyzer: Nlp.NlpAnalyzer?) returns (ghost geocodes: seq<seq<Option<Nlp.GeocodeResult>>>)
      requires Valid()
      requires analyzer != null ==> analyzer.Valid()
      modifies this, analyzer
      ensures Valid()
      ensures analyzer != null ==> analyzer.Valid()
      ensures GeocodesFit(analyses, geocodes)
      ensures analyzer == null ==> geocodes == NoGeocodesBatch(analyses)
      ensures analyzer != null ==>
        (geocodes, analyzer.State()) == GeocodeBatch(analyzer.remote, old(analyzer.State()), analyses)
      ensures locationScores == Accumulate(old(locationScores), BatchCityAdditions(analyses, geocodes))
      ensures countryScores == Accumulate(old(countryScores), BatchCountryAdditions(analyses, analyzer != null))
      ensures PositiveScores(old(locationScores)) ==> PositiveScores(locationScores)
      ensures PositiveScores(old(countryScores)) ==> PositiveScores(countryScores)
    {
      geocodes := [];
      var i := 0;
      ghost var st := if analyzer != null then analyzer.State() else Nlp.GeocodeState(map[], 0);
      while i < |analyses|
        invariant AnalysesDone(analyses, analyzer, i, geocodes, old(locationScores), old(countryScores), st)
      {
        var g := ProcessAnalysisAt(analyses, analyzer, i, geocodes, old(locationScores), old(countryScores), st);
        geocodes := geocodes + [g];
        i := i + 1;
      }
      assert analyses[..i] == analyses;
    }

    /**
     * The state after the batch loop has handled `analyses[..i]`, starting
     * from the stores `cities` and `countries` and the analyzer state `st`.
     */
    ghost predicate AnalysesDone(analyses: seq<Analysis>, analyzer: Nlp.NlpAnalyzer?, i: nat,
                                 geocodes: seq<seq<Option<Nlp.GeocodeResult>>>, cities: Store, countries: Store,
                                 st: Nlp.GeocodeState)
      reads this, analyzer
    {
      && i <= |analyses|
      && GeocodesFit(analyses[..i], geocodes)
      && Valid()
      && (analyzer == null ==> geocodes == NoGeocodesBatch(analyses[..i]))
      && (analyzer != null ==>
            analyzer.Valid() && (geocodes, analyzer.State()) == GeocodeBatch(analyzer.remote, st, analyses[..i]))
      && locationScores == Accumulate(cities, BatchCityAdditions(analyses[..i], geocodes))
      && countryScores == Accumulate(countries, BatchCountryAdditions(analyses[..i], analyzer != null))
      && (PositiveScores(cities) ==> PositiveScores(locationScores))
      && (PositiveScores(countries) ==> PositiveScores(countryScores))
    }

    /** One pass of the batch loop, for the `i`-th record. */
    method ProcessAnalysisAt(analyses: seq<Analysis>, analyzer: Nlp.NlpAnalyzer?, i: nat,
                             ghost geocodes: seq<seq<Option<Nlp.GeocodeResult>>>, ghost cities: Store,
                             ghost countries: Store, ghost st: Nlp.GeocodeState)
        returns (ghost g: seq<Option<Nlp.GeocodeResult>>)
      requires i < |analyses| && AnalysesDone(analyses, analyzer, i, geocodes, cities, countries, st)
      modifies this, analyzer
      ensures AnalysesDone(analyses, analyzer, i + 1, geocodes + [g], cities, countries, st)
    {
      g := ProcessCommentAnalysis(analyses[i], analyzer);
      BatchCityStep(cities, analyses, geocodes, g, i);
      BatchCountryStep(countries, analyses, i, analyzer != null);
      if analyzer != null {
        GeocodeBatchStep(analyzer.remote, st, analyses, i);
      } else {
        NoGeocodesBatchStep(analyses, i);
      }
    }

    /**
     * The `n` best-scoring locations of the store `level` selects, best
     * first, one row per location.
     */
    method GetTopLocations(n: int, level: string) returns (rows: seq<LocationRow>)
      ensures IsTopTable(Target(level), n, rows)
    {
      rows := TopLocations(Target(level), n);
    }

    /**
     * The viewer distribution: the `topN` best cities and countries, each
     * with its share of its table's total score and its confidence tier,
     * and a summary naming the store sizes and the two leaders.
     */
    method EstimateViewerDistribution(topN: int) returns (d: Distribution)
      requires PositiveScores(locationScores) && PositiveScores(countryScores)
      ensures IsTopTable(locationScores, topN, RowsOf(d.cities))
      ensures IsTopTable(countryScores, topN, RowsOf(d.countries))
      ensures RowsPositive(RowsOf(d.cities)) && d.cities == Normalize(RowsOf(d.cities))
      ensures RowsPositive(RowsOf(d.countries)) && d.countries == Normalize(RowsOf(d.countries))
      ensures d.summary.totalCitiesIdentified == |locationScores|
      ensures d.summary.totalCountriesIdentified == |countryScores|
      ensures d.summary.topCity == TopLocation(d.cities)
      ensures d.summary.topCountry == TopLocation(d.countries)
      ensures d.summary.topCity.Some? ==> IsLeader(locationScores, d.summary.topCity.value)
      ensures d.summary.topCountry.Some? ==> IsLeader(countryScores, d.summary.topCountry.value)
    {
      var cityRows := GetTopLocations(topN, "city");
      var countryRows := GetTopLocations(topN, "country");
      var cities := RankTable(locationScores, topN, cityRows);
      var countries := RankTable(countryScores, topN, countryRows);
      d := Distribution(cities, countries,
        Summary(|locationScores|, |countryScores|, TopLocation(cities), TopLocation(countries)));
    }

    /** How many signals of each type the two stores hold together. */
    method GetSignalBreakdown() returns (breakdown: map<string, nat>)
      ensures Tallies(breakdown, StoreKinds(locationScores) + StoreKinds(countryScores))
      ensures ValueSum(breakdown) == SignalTotal(locationScores) + SignalTotal(countryScores)
    {
      var counts := TallyStore(map[], locationScores, multiset{});
      breakdown := TallyStore(counts, countryScores, StoreKinds(locationScores));
      TalliedTotal(breakdown, StoreKinds(locationScores) + StoreKinds(countryScores));
      StoreKindsSize(locationScores);
      StoreKindsSize(countryScores);
    }
  }

  /** One more country extends a comment's country signals by its mention. */
  lemma CountryStep(store: Store, countries: seq<string>, commentId: Option<string>, j: nat)
    requires j < |countries|
    ensures Accumulate(store, CountryAdditions(countries[..j + 1], commentId)) ==
      AddToStore(Accumulate(store, CountryAdditions(countries[..j], commentId)), countries[j],
                 DefaultSignal("country_mentioned", CommentMetadata(commentId)))
  {
    assert countries[..j + 1][..j] == countries[..j];
    AccumulateSnoc(store, CountryAdditions(countries[..j], commentId),
                   (countries[j], DefaultSignal("country_mentioned", CommentMetadata(commentId))));
  }

  /** Geocoding one more name extends the results by that name's lookup. */
  lemma GeocodeAllStep(remote: Nlp.Remote, st: Nlp.GeocodeState, names: seq<string>, i: nat, retry: int)
    requires i < |names|
    ensures GeocodeAll(remote, st, names[..i + 1], retry) ==
      var prev := GeocodeAll(remote, st, names[..i], retry);
      var step := Nlp.GeocodeStep(remote, prev.1, names[i], retry);
      (prev.0 + [step.0], step.1)
  {
    assert names[..i + 1][..i] == names[..i];
  }

  /** One more city extends a comment's city signals by that city's signals. */
  lemma CityStep(store: Store, cities: seq<string>, commentId: Option<string>, geocoded: seq<Option<Nlp.GeocodeResult>>,
                 g: Option<Nlp.GeocodeResult>, i: nat)
    requires i < |cities| && |geocoded| == i
    ensures Accumulate(store, CityAdditions(cities[..i + 1], commentId, geocoded + [g])) ==
      Accumulate(Accumulate(store, CityAdditions(cities[..i], commentId, geocoded)), [CityMention(cities[i], commentId)] + GeocodedAddition(g))
  {
    var c := cities[..i + 1];
    assert c[..i] == cities[..i];
    assert (geocoded + [g])[..i] == geocoded;
    CityAdditionsLast(c, commentId, geocoded + [g]);
    assert CityAdditions(c, commentId, geocoded + [g]) ==
      CityAdditions(cities[..i], commentId, geocoded) + ([CityMention(cities[i], commentId)] + GeocodedAddition(g));
    AccumulateConcat(store, CityAdditions(cities[..i], commentId, geocoded), [CityMention(cities[i], commentId)] + GeocodedAddition(g));
  }

  /** Every row of a table has a positive total score. */
  predicate RowsPositive(rows: seq<LocationRow>) {
    forall i :: 0 <= i < |rows| ==> rows[i].totalScore > 0.0
  }

  /** `loc` is stored and no stored location outscores it. */
  ghost predicate IsLeader(store: Store, loc: string) {
    loc in store && forall other :: other in store ==> store[other].score <= store[loc].score
  }

  /** Adds percentages and tiers to a top table of a store whose scores are positive. */
  method RankTable(store: Store, n: int, rows: seq<LocationRow>) returns (ranked: seq<RankedRow>)
    requires PositiveScores(store) && IsTopTable(store, n, rows)
    ensures RowsOf(ranked) == rows && RowsPositive(rows) && ranked == Normalize(rows)
    ensures ranked != [] ==> IsLeader(store, ranked[0].row.location)
  {
    TopRowsPositive(store, n, rows);
    ranked := Normalize(rows);
    assert RowsOf(ranked) == rows;
    if ranked != [] {
      TopRowIsMaximum(store, n, rows);
      assert rows[0].location in Listed(rows);
    }
  }

  /** The rows of a top table of a store whose scores are positive have positive scores. */
  lemma TopRowsPositive(store: Store, n: int, rows: seq<LocationRow>)
    requires PositiveScores(store) && IsTopTable(store, n, rows)
    ensures RowsPositive(rows)
  {
    forall i | 0 <= i < |rows| ensures rows[i].totalScore > 0.0 {
      assert rows[i].location in Listed(rows);
    }
  }

  /** One more comment extends a batch's city additions by that comment's. */
  lemma BatchCityStep(cityStore: Store, analyses: seq<Analysis>,
                      geocodes: seq<seq<Option<Nlp.GeocodeResult>>>, g: seq<Option<Nlp.GeocodeResult>>, i: nat)
    requires i < |analyses| && GeocodesFit(analyses[..i], geocodes) && |g| == |analyses[i].citiesMentioned|
    ensures GeocodesFit(analyses[..i + 1], geocodes + [g])
    ensures Accumulate(cityStore, BatchCityAdditions(analyses[..i + 1], geocodes + [g])) ==
      Accumulate(Accumulate(cityStore, BatchCityAdditions(analyses[..i], geocodes)),
                 CityAdditions(analyses[i].citiesMentioned, analyses[i].commentId, g))
  {
    var a := analyses[..i + 1];
    var prev := BatchCityAdditions(analyses[..i], geocodes);
    var last := CityAdditions(analyses[i].citiesMentioned, analyses[i].commentId, g);
    assert a[..i] == analyses[..i];
    assert (geocodes + [g])[..i] == geocodes;
    assert GeocodesFit(a, geocodes + [g]);
    assert BatchCityAdditions(a, geocodes + [g]) == prev + last;
    AccumulateConcat(cityStore, prev, last);
  }

  /** One more comment extends a batch's country additions by that comment's. */
  lemma BatchCountryStep(countryStore: Store, analyses: seq<Analysis>, i: nat, withAnalyzer: bool)
    requires i < |analyses|
    ensures Accumulate(countryStore, BatchCountryAdditions(analyses[..i + 1], withAnalyzer)) ==
      Accumulate(Accumulate(countryStore, BatchCountryAdditions(analyses[..i], withAnalyzer)),
                 CountryLevelAdditions(analyses[i], withAnalyzer))
  {
    var a := analyses[..i + 1];
    var prev := BatchCountryAdditions(analyses[..i], withAnalyzer);
    var last := CountryLevelAdditions(analyses[i], withAnalyzer);
    assert a[..i] == analyses[..i];
    assert BatchCountryAdditions(a, withAnalyzer) == prev + last;
    AccumulateConcat(countryStore, prev, last);
  }
}
