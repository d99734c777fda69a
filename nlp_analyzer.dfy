/**
 * The parts of the NLP analyzer the aggregation engine depends on: the
 * memoising geocoder with bounded retry, the language-to-country table and the
 * posting-hour buckets.
 *
 * The remote place-lookup service is an oracle: `remote(name, n)` is the reply
 * the service gives when the n-th request of the analyzer's lifetime asks for
 * `name`. The analyzer counts its requests, so "no remote call was made" is
 * "the request counter did not move".
 */
module Nlp {
  import opened Wrappers
  import opened Strings

  /** What the remote service returns for a place it knows. */
  datatype Place = Place(address: string, latitude: real, longitude: real)

  /** One remote attempt: a place, an explicit "not found", or a timeout / service error. */
  datatype Reply = Found(place: Place) | NotFound | Transient

  type Remote = (string, nat) -> Reply

  /** A positive geocoding result, as cached and returned. */
  datatype GeocodeResult = GeocodeResult(
    name: string,
    formattedAddress: string,
    latitude: real,
    longitude: real,
    city: string,
    country: string)

  /** The crude city of an address: its first `", "`-separated part. */
  function CityOf(address: string): (city: string)
    ensures IsCutAtFirst(city, address, ", ", ", ")
  {
    SplitHead(address, ", ");
    Split(address, ", ")[0]
  }

  /** The crude country of an address: its last `", "`-separated part. */
  function CountryOf(address: string): (country: string)
    ensures |country| <= |address| && address[|address| - |country|..] == country
    ensures !Contains(country, ", ")
    ensures |country| == |address| || OccursAt(address, ", ", |address| - |country| - 2)
  {
    var parts := Split(address, ", ");
    SplitLast(address, ", ");
    parts[|parts| - 1]
  }

  /** An address with no `", "` is both its own city and its own country. */
  lemma SinglePartAddress(address: string)
    requires !Contains(address, ", ")
    ensures CityOf(address) == address && CountryOf(address) == address
  {
  }

  /** The result built from a place the service found for `name`. */
  function FromPlace(name: string, place: Place): (r: GeocodeResult)
    ensures r.name == name && r.formattedAddress == place.address
    ensures r.latitude == place.latitude && r.longitude == place.longitude
    ensures r.city == CityOf(place.address) && r.country == CountryOf(place.address)
  {
    GeocodeResult(name, place.address, place.latitude, place.longitude,
                  CityOf(place.address), CountryOf(place.address))
  }

  /** What a lookup returns when the service gives a definite answer. */
  function Answer(name: string, reply: Reply): Option<GeocodeResult>
    requires !reply.Transient?
  {
    match reply
    case Found(place) => Some(FromPlace(name, place))
    case NotFound => None
  }

  /** `retry` as a number of attempts: Python's `range(retry)` is empty when `retry <= 0`. */
  function Attempts(retry: int): nat {
    if retry > 0 then retry else 0
  }

  /**
   * The attempt (counted from 0, at or after `from`) of a lookup of `name`
   * whose first request is request number `start` that gets a definite answer,
   * if any attempt before the `retry`-th does.
   */
  function FirstAnswerFrom(remote: Remote, name: string, start: nat, retry: int, from: nat): (k: Option<nat>)
    ensures k.Some? ==> from <= k.value < retry && !remote(name, start + k.value).Transient?
    ensures k.Some? ==> forall t :: start + from <= t < start + k.value ==> remote(name, t).Transient?
    ensures k.None? ==> forall t :: start + from <= t < start + retry ==> remote(name, t).Transient?
    decreases retry - from
  {
    if from >= retry then None
    else if !remote(name, start + from).Transient? then Some(from)
    else FirstAnswerFrom(remote, name, start, retry, from + 1)
  }

  /** The first of the `retry` attempts of a lookup that gets a definite answer, if any. */
  function FirstAnswer(remote: Remote, name: string, start: nat, retry: int): (k: Option<nat>)
    ensures k.Some? ==> k.value < retry && !remote(name, start + k.value).Transient?
    ensures k.Some? ==> forall t :: start <= t < start + k.value ==> remote(name, t).Transient?
    ensures k.None? ==> forall t :: start <= t < start + retry ==> remote(name, t).Transient?
  {
    FirstAnswerFrom(remote, name, start, retry, 0)
  }

  /** An attempt preceded only by transient failures and itself answered definitely is the first answer. */
  lemma {:induction false} FirstAnswerIs(remote: Remote, name: string, start: nat, retry: int, k: nat)
    requires k < retry && !remote(name, start + k).Transient?
    requires forall t :: start <= t < start + k ==> remote(name, t).Transient?
    ensures FirstAnswer(remote, name, start, retry) == Some(k)
  {
  }

  /** When every attempt fails transiently there is no first answer. */
  lemma {:induction false} NoFirstAnswer(remote: Remote, name: string, start: nat, retry: int)
    requires forall t :: start <= t < start + Attempts(retry) ==> remote(name, t).Transient?
    ensures FirstAnswer(remote, name, start, retry) == None
  {
  }

  /** Every cached result is stored under the name it was looked up by. */
  ghost predicate CacheValid(cache: map<string, Option<GeocodeResult>>) {
    forall name :: name in cache && cache[name].Some? ==> cache[name].value.name == name
  }

  /** The analyzer's geocoding state: its cache and how many remote requests it has sent. */
  datatype GeocodeState = GeocodeState(cache: map<string, Option<GeocodeResult>>, requestsSent: nat)

  /** One `geocode_location(name, retry)` call on state `st`: its result and the state after it. */
  function GeocodeStep(remote: Remote, st: GeocodeState, name: string, retry: int): (Option<GeocodeResult>, GeocodeState) {
    if name in st.cache then (st.cache[name], st)
    else
      match FirstAnswer(remote, name, st.requestsSent, retry)
      case None => (None, GeocodeState(st.cache, st.requestsSent + Attempts(retry)))
      case Some(k) =>
        var r := Answer(name, remote(name, st.requestsSent + k));
        (r, GeocodeState(st.cache[name := r], st.requestsSent + k + 1))
  }

  /** A lookup never overwrites a cached entry, may add only the name asked for, and sends at most `retry` requests. */
  lemma GeocodeStepKeepsCache(remote: Remote, st: GeocodeState, name: string, retry: int)
    ensures forall n :: n in st.cache ==>
      n in GeocodeStep(remote, st, name, retry).1.cache && GeocodeStep(remote, st, name, retry).1.cache[n] == st.cache[n]
    ensures GeocodeStep(remote, st, name, retry).1.cache.Keys <= st.cache.Keys + {name}
    ensures st.requestsSent <= GeocodeStep(remote, st, name, retry).1.requestsSent <= st.requestsSent + Attempts(retry)
  {
  }

  /** A cached name, even one cached as "not found", is answered from the cache with no request. */
  lemma GeocodeStepHit(remote: Remote, st: GeocodeState, name: string, retry: int)
    requires name in st.cache
    ensures GeocodeStep(remote, st, name, retry) == (st.cache[name], st)
  {
  }

  /**
   * On a miss that gets a definite reply, the reply comes after transient
   * failures only, it is the answer, and the answer (a place or "not found")
   * is cached under the name.
   */
  lemma GeocodeStepAnswered(remote: Remote, st: GeocodeState, name: string, retry: int)
    requires name !in st.cache && name in GeocodeStep(remote, st, name, retry).1.cache
    ensures var out := GeocodeStep(remote, st, name, retry);
      && out.1.cache == st.cache[name := out.0]
      && st.requestsSent < out.1.requestsSent
      && !remote(name, out.1.requestsSent - 1).Transient?
      && out.0 == Answer(name, remote(name, out.1.requestsSent - 1))
      && forall t :: st.requestsSent <= t < out.1.requestsSent - 1 ==> remote(name, t).Transient?
  {
  }

  /**
   * On a miss that caches nothing, every one of the `retry` attempts failed
   * transiently, all of them were sent, and the result is None.
   */
  lemma GeocodeStepExhausted(remote: Remote, st: GeocodeState, name: string, retry: int)
    requires name !in st.cache && name !in GeocodeStep(remote, st, name, retry).1.cache
    ensures GeocodeStep(remote, st, name, retry) == (None, GeocodeState(st.cache, st.requestsSent + Attempts(retry)))
    ensures forall t :: st.requestsSent <= t < st.requestsSent + Attempts(retry) ==> remote(name, t).Transient?
  {
  }

  /** A lookup keeps every cached result under its own name, and returns a result for the name asked. */
  lemma GeocodeStepValid(remote: Remote, st: GeocodeState, name: string, retry: int)
    requires CacheValid(st.cache)
    ensures CacheValid(GeocodeStep(remote, st, name, retry).1.cache)
    ensures GeocodeStep(remote, st, name, retry).0.Some? ==> GeocodeStep(remote, st, name, retry).0.value.name == name
  {
  }

  /** A miss whose attempt `k` is the first definite reply caches and returns that reply's answer. */
  lemma GeocodeStepAnswers(remote: Remote, st: GeocodeState, name: string, retry: int, k: nat)
    requires name !in st.cache && k < retry && !remote(name, st.requestsSent + k).Transient?
    requires forall t :: st.requestsSent <= t < st.requestsSent + k ==> remote(name, t).Transient?
    ensures var r := Answer(name, remote(name, st.requestsSent + k));
      GeocodeStep(remote, st, name, retry) == (r, GeocodeState(st.cache[name := r], st.requestsSent + k + 1))
  {
    FirstAnswerIs(remote, name, st.requestsSent, retry, k);
  }

  /** A miss whose every attempt fails transiently caches nothing and returns None. */
  lemma GeocodeStepGivesUp(remote: Remote, st: GeocodeState, name: string, retry: int)
    requires name !in st.cache
    requires forall t :: st.requestsSent <= t < st.requestsSent + Attempts(retry) ==> remote(name, t).Transient?
    ensures GeocodeStep(remote, st, name, retry) == (None, GeocodeState(st.cache, st.requestsSent + Attempts(retry)))
  {
    NoFirstAnswer(remote, name, st.requestsSent, retry);
  }

  class NlpAnalyzer {
    /** The remote place-lookup service. */
    const remote: Remote
    /** Results by location name; `None` records a "not found" answer. */
    var geocodeCache: map<string, Option<GeocodeResult>>
    /** How many requests have been sent to the remote service. */
    var requestsSent: nat

    ghost predicate Valid()
      reads this
    {
      CacheValid(geocodeCache)
    }

    /** The analyzer's geocoding state. */
    function State(): (st: GeocodeState)
      reads this
      ensures st.cache == geocodeCache && st.requestsSent == requestsSent
    {
      GeocodeState(geocodeCache, requestsSent)
    }

    constructor (remote: Remote)
      ensures Valid()
      ensures this.remote == remote && geocodeCache == map[] && requestsSent == 0
    {
      this.remote := remote;
      geocodeCache := map[];
      requestsSent := 0;
    }

    /**
     * Looks `locationName` up, from the cache when it is there, otherwise with
     * up to `retry` remote attempts, retrying only after a transient failure.
     */
    method GeocodeLocation(locationName: string, retry: int) returns (r: Option<GeocodeResult>)
      requires Valid()
      modifies this
      ensures (r, State()) == GeocodeStep(remote, old(State()), locationName, retry)
      ensures Valid()
    {
      if locationName in geocodeCache {
        return geocodeCache[locationName];
      }
      r := LookUpRemotely(locationName, retry);
    }

    /** The miss path of `GeocodeLocation`: the retry loop against the remote service. */
    method LookUpRemotely(locationName: string, retry: int) returns (r: Option<GeocodeResult>)
      requires Valid() && locationName !in geocodeCache
      modifies this
      ensures (r, State()) == GeocodeStep(remote, old(State()), locationName, retry)
      ensures Valid()
    {
      ghost var st := State();
      GeocodeStepValid(remote, st, locationName, retry);
      var attempt := 0;
      while attempt < retry
        invariant 0 <= attempt <= Attempts(retry)
        invariant requestsSent == st.requestsSent + attempt && geocodeCache == st.cache
        invariant forall t :: st.requestsSent <= t < requestsSent ==> remote(locationName, t).Transient?
      {
        var reply := remote(locationName, requestsSent);
        requestsSent := requestsSent + 1;
        match reply
        case Found(place) =>
          GeocodeStepAnswers(remote, st, locationName, retry, attempt);
          r := Some(FromPlace(locationName, place));
          geocodeCache := geocodeCache[locationName := r];
          return;
        case NotFound =>
          GeocodeStepAnswers(remote, st, locationName, retry, attempt);
          geocodeCache := geocodeCache[locationName := None];
          return None;
        case Transient =>
          if attempt < retry - 1 {
            attempt := attempt + 1;
          } else {
            GeocodeStepGivesUp(remote, st, locationName, retry);
            return None;
          }
      }
      GeocodeStepGivesUp(remote, st, locationName, retry);
      return None;
    }
  }

  /**
   * Looking the same name up twice on a fresh analyzer: when the first lookup
   * gets a definite answer the second is served from the cache with no remote
   * request; when every attempt of the first fails transiently nothing was
   * cached and the second goes back to the service.
   */
  method RepeatedLookup(remote: Remote, name: string) returns (first: Option<GeocodeResult>, second: Option<GeocodeResult>, requests: nat)
    ensures FirstAnswer(remote, name, 0, 3).Some? ==> second == first && requests == FirstAnswer(remote, name, 0, 3).value + 1
    ensures FirstAnswer(remote, name, 0, 3).None? ==> first == None && requests > 3
    ensures requests <= 6
  {
    var analyzer := new NlpAnalyzer(remote);
    first := analyzer.GeocodeLocation(name, 3);
    second := analyzer.GeocodeLocation(name, 3);
    requests := analyzer.requestsSent;
  }

  /** The fixed table of the most likely country for a language code. */
  const LanguageToCountry: map<string, string> := map[
    "en" := "United States", "es" := "Spain", "fr" := "France", "de" := "Germany",
    "it" := "Italy", "pt" := "Brazil", "ru" := "Russia", "ja" := "Japan",
    "ko" := "South Korea", "zh-cn" := "China", "zh-tw" := "Taiwan",
    "ar" := "Saudi Arabia", "hi" := "India", "bn" := "Bangladesh", "tr" := "Turkey",
    "vi" := "Vietnam", "th" := "Thailand", "pl" := "Poland", "nl" := "Netherlands",
    "sv" := "Sweden", "no" := "Norway", "da" := "Denmark", "fi" := "Finland",
    "el" := "Greece", "cs" := "Czech Republic", "hu" := "Hungary", "ro" := "Romania",
    "id" := "Indonesia", "ms" := "Malaysia", "tl" := "Philippines", "uk" := "Ukraine",
    "he" := "Israel", "fa" := "Iran"]

  /** The most likely country for a language code, or None for a code not in the table. */
  function InferCountryFromLanguage(language: string): (country: Option<string>)
    ensures country.Some? <==> language in LanguageToCountry
    ensures country.Some? ==> country.value == LanguageToCountry[language]
    ensures language == "unknown" || language == "" ==> country == None
    ensures country.Some? ==> 2 <= |language| <= 5 && country.value != ""
  {
    if language in LanguageToCountry then Some(LanguageToCountry[language]) else None
  }

  /** Examples from the table. */
  lemma InferCountryExamples()
    ensures InferCountryFromLanguage("en") == Some("United States")
    ensures InferCountryFromLanguage("fr") == Some("France")
    ensures InferCountryFromLanguage("hi") == Some("India")
  {
  }

  /** The `unknown` marker and the empty code give no country. */
  lemma InferCountryUnknown()
    ensures InferCountryFromLanguage("unknown") == None
    ensures InferCountryFromLanguage("") == None
  {
  }

  /** The part of the day a posting hour falls in. */
  function TimeBucket(hour: int): (bucket: string)
    requires 0 <= hour < 24
    ensures bucket == "late_night" <==> hour < 6
    ensures bucket == "morning" <==> 6 <= hour < 12
    ensures bucket == "afternoon" <==> 12 <= hour < 18
    ensures bucket == "evening" <==> 18 <= hour
  {
    if 0 <= hour < 6 then "late_night"
    else if 6 <= hour < 12 then "morning"
    else if 12 <= hour < 18 then "afternoon"
    else "evening"
  }

  /** Two hours share a bucket exactly when they lie in the same six-hour block of the day. */
  lemma TimeBucketsAreSixHourBlocks(h1: int, h2: int)
    requires 0 <= h1 < 24 && 0 <= h2 < 24
    ensures TimeBucket(h1) == TimeBucket(h2) <==> h1 / 6 == h2 / 6
  {
  }
}
