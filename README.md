# Viewer intelligence: a verified model of the signal aggregation core

This project is a Dafny model of the core of the viewer-intelligence pipeline. The pipeline guesses where the audience of a YouTube video lives from the comments under it. It has three parts.

**The intelligence aggregator.** It holds two stores, one for cities and one for countries. Each maps a location name to a record of score, signals and count. `add_signal` records a weighted signal: the confidence given, or else the signal type's entry in a fixed weight table. `process_comment_analysis` turns one comment's extraction record into signals:

- a mention for each city, plus a geocoded-location signal when the city geocodes;
- a mention for each country;
- a language-based country guess.

`process_all_analyses` does this for a batch of comments. The read side has four operations:

- `get_top_locations` gives a ranked top-n table;
- `calculate_confidence_level` gives a three-tier classifier;
- `estimate_viewer_distribution` gives percentage shares and a summary;
- `get_signal_breakdown` gives a per-type count.

**The NLP analyzer.** The model covers the memoising geocoder with bounded retry, the language-to-country table, and the hour-of-day buckets.

**The data collector.** The model covers only video-id extraction from a URL.

Modules:

- `wrappers.dfy` (`Wrappers`): `Option`.
- `strings.dfy` (`Strings`): Python's `str.split` and `in` on strings, with the facts the URL parser needs.
- `data_collector.dfy` (`DataCollector`): `extract_video_id`.
- `nlp_analyzer.dfy` (`Nlp`): a class `NlpAnalyzer` with the geocode cache and a request counter.
  - The remote place-lookup service is an oracle: `remote(name, n)` is the reply to the n-th request.
  - `GeocodeStep` is the pure specification of one `geocode_location` call. The method is proved equal to it.
  - The module also holds the language table and the hour buckets.
- `signals.dfy` (`Signals`): the weight table, location records, stores, and the fold `Accumulate` that adds a sequence of signals to a store.
- `ranking.dfy` (`Ranking`): the rows, the top-n table and its insertion-ranking method, the tiers, and the percentage normalisation.
- `aggregator.dfy` (`Aggregator`): the class `IntelligenceAggregator`, whose two map fields are updated in place by its methods.
  - Pure functions give the signals one comment, or a batch, contributes. Each processing method is proved to leave the stores equal to `Accumulate` of those signals.
  - The breakdown is a loop over both stores, proved to count exactly the multiset of stored signal types.

## Model

All paths are under `SumitMewada_EIR/Sumit_EIR_TaskC_ViewerCrawler/viewer_intelligence/`, written out in full in the table.

| member | source | states |
|---|---|---|
| Signals.DefaultWeight | SumitMewada_EIR/Sumit_EIR_TaskC_ViewerCrawler/viewer_intelligence/src/intelligence_aggregator.py:20-27 | a type in the weight table gets its table weight and any other type gets 0.5; every default lies strictly between 0 and 1 |
| Signals.ResolveConfidence | SumitMewada_EIR/Sumit_EIR_TaskC_ViewerCrawler/viewer_intelligence/src/intelligence_aggregator.py:46-47 | a given confidence is used as it is, even 0.0; a missing one becomes the type's default weight |
| Signals.DefaultWeightExamples | SumitMewada_EIR/Sumit_EIR_TaskC_ViewerCrawler/viewer_intelligence/src/intelligence_aggregator.py:20-47 | the four aggregation weights are 0.9, 0.7, 0.85 and 0.3; an unknown type gets 0.5; an explicit 0.0 is kept |
| Signals.AddToStore | SumitMewada_EIR/Sumit_EIR_TaskC_ViewerCrawler/viewer_intelligence/src/intelligence_aggregator.py:55-59 | recording a signal creates the location's record if it is new; adds the confidence to its score; appends the signal; raises the count by one; leaves every other location unchanged |
| Signals.AddToStoreValid | SumitMewada_EIR/Sumit_EIR_TaskC_ViewerCrawler/viewer_intelligence/src/intelligence_aggregator.py:55-59 | recording a signal keeps `count == |signals|` and `score == sum of confidences` for every record; with a positive confidence, positive scores stay positive |
| Signals.SumConfidencesConcat | SumitMewada_EIR/Sumit_EIR_TaskC_ViewerCrawler/viewer_intelligence/src/intelligence_aggregator.py:57-58 | the confidence sum of two signal lists joined is the sum of their sums |
| Signals.AccumulateKeys | SumitMewada_EIR/Sumit_EIR_TaskC_ViewerCrawler/viewer_intelligence/src/intelligence_aggregator.py:55-59 | after a sequence of signals the store's locations are the old ones plus exactly those the signals name |
| Signals.AccumulateAt | SumitMewada_EIR/Sumit_EIR_TaskC_ViewerCrawler/viewer_intelligence/src/intelligence_aggregator.py:55-59 | each location's signal list grows by exactly the signals addressed to it, in order |
| Signals.AccumulateValid | SumitMewada_EIR/Sumit_EIR_TaskC_ViewerCrawler/viewer_intelligence/src/intelligence_aggregator.py:55-59 | a sequence of signals keeps every record consistent, and keeps scores positive when all confidences are positive |
| Signals.AccumulateConcat | SumitMewada_EIR/Sumit_EIR_TaskC_ViewerCrawler/viewer_intelligence/src/intelligence_aggregator.py:55-59 | adding two batches one after the other is the same as adding their concatenation |
| Signals.AccumulateScore | SumitMewada_EIR/Sumit_EIR_TaskC_ViewerCrawler/viewer_intelligence/src/intelligence_aggregator.py:57-59 | a location's score grows by the sum of the confidences sent to it, and its count by their number |
| Signals.KindsConcat | SumitMewada_EIR/Sumit_EIR_TaskC_ViewerCrawler/viewer_intelligence/src/intelligence_aggregator.py:229-231 | the signal types of two lists joined are the multiset union of their types |
| Signals.StoreKindsSize | SumitMewada_EIR/Sumit_EIR_TaskC_ViewerCrawler/viewer_intelligence/src/intelligence_aggregator.py:225-237 | a store holds as many signal types, counted with multiplicity, as it holds signals |
| Signals.StoreKindsAdd | SumitMewada_EIR/Sumit_EIR_TaskC_ViewerCrawler/viewer_intelligence/src/intelligence_aggregator.py:55-59 | recording a signal adds exactly its type to the store's multiset of signal types |
| Signals.StoreKindsAccumulate | SumitMewada_EIR/Sumit_EIR_TaskC_ViewerCrawler/viewer_intelligence/src/intelligence_aggregator.py:55-59 | after a sequence of signals the store's signal types are the old ones plus the types of the signals added |
| Signals.AccumulateSnoc | SumitMewada_EIR/Sumit_EIR_TaskC_ViewerCrawler/viewer_intelligence/src/intelligence_aggregator.py:55-59 | adding one more signal after a sequence is recording it on the store the sequence produced |
| Aggregator.IntelligenceAggregator.constructor | SumitMewada_EIR/Sumit_EIR_TaskC_ViewerCrawler/viewer_intelligence/src/intelligence_aggregator.py:29-32 | both stores start empty and consistent |
| Aggregator.IntelligenceAggregator.AddSignal | SumitMewada_EIR/Sumit_EIR_TaskC_ViewerCrawler/viewer_intelligence/src/intelligence_aggregator.py:34-59 | level `city` changes only the city store and any other level only the country store; the store written becomes `AddToStore` of the signal; consistency is kept (positivity is `Signals.AddToStoreValid`) |
| Aggregator.CityMentionsInOrder | SumitMewada_EIR/Sumit_EIR_TaskC_ViewerCrawler/viewer_intelligence/src/intelligence_aggregator.py:70-75 | a comment's `city_mentioned` signals go to exactly its mentioned cities, one each, in order |
| Aggregator.GeocodedSignalsInOrder | SumitMewada_EIR/Sumit_EIR_TaskC_ViewerCrawler/viewer_intelligence/src/intelligence_aggregator.py:77-89 | the `geocoded_location` signals go to the geocoded city of each successful lookup, in order, and to nothing else |
| Aggregator.CityAdditionsShape | SumitMewada_EIR/Sumit_EIR_TaskC_ViewerCrawler/viewer_intelligence/src/intelligence_aggregator.py:70-89 | a comment adds one city signal per mention plus one per successful geocode; each is a mention or a geocoded signal at its type's default weight |
| Aggregator.CountryAdditionsSpec | SumitMewada_EIR/Sumit_EIR_TaskC_ViewerCrawler/viewer_intelligence/src/intelligence_aggregator.py:92-98 | a comment adds one `country_mentioned` signal at 0.7 per mentioned country, in order, and nothing else from that loop |
| Aggregator.LanguageAdditionsSpec | SumitMewada_EIR/Sumit_EIR_TaskC_ViewerCrawler/viewer_intelligence/src/intelligence_aggregator.py:101-110 | at most one language signal; there is one iff an analyzer is given, the language is present, non-empty and not `unknown`, and the table knows it; it goes to the table's country at 0.3 |
| Aggregator.CountryLevelConfidencesPositive | SumitMewada_EIR/Sumit_EIR_TaskC_ViewerCrawler/viewer_intelligence/src/intelligence_aggregator.py:92-110 | every country-level signal a comment adds has a positive confidence |
| Aggregator.CountryLevelMentions | SumitMewada_EIR/Sumit_EIR_TaskC_ViewerCrawler/viewer_intelligence/src/intelligence_aggregator.py:92-110 | a comment's `country_mentioned` signals are exactly its mentioned countries, whatever the language step adds |
| Aggregator.GeocodeAllValid | SumitMewada_EIR/Sumit_EIR_TaskC_ViewerCrawler/viewer_intelligence/src/intelligence_aggregator.py:77-78 | geocoding a comment's cities keeps every cached result under its own name; each result names the city it was asked for |
| Aggregator.GeocodeAllKeepsCache | SumitMewada_EIR/Sumit_EIR_TaskC_ViewerCrawler/viewer_intelligence/src/intelligence_aggregator.py:77-78 | geocoding a comment's cities never overwrites a cache entry and adds only the names asked for |
| Aggregator.GeocodeAllRequests | SumitMewada_EIR/Sumit_EIR_TaskC_ViewerCrawler/viewer_intelligence/src/intelligence_aggregator.py:77-78 | geocoding n cities with three attempts each sends at most 3n requests |
| Aggregator.IntelligenceAggregator.ProcessCommentAnalysis | SumitMewada_EIR/Sumit_EIR_TaskC_ViewerCrawler/viewer_intelligence/src/intelligence_aggregator.py:61-110 | the city store becomes the old one plus the comment's city signals, given what each geocode returned; the country store becomes the old one plus its country and language signals; the geocodes are the analyzer's lookups with three attempts, or none without an analyzer; consistency and positive scores are kept |
| Aggregator.IntelligenceAggregator.AddCitySignals | SumitMewada_EIR/Sumit_EIR_TaskC_ViewerCrawler/viewer_intelligence/src/intelligence_aggregator.py:70-89 | the city loop adds exactly the comment's city signals and leaves the country store unchanged |
| Aggregator.IntelligenceAggregator.AddOneCity | SumitMewada_EIR/Sumit_EIR_TaskC_ViewerCrawler/viewer_intelligence/src/intelligence_aggregator.py:71-89 | one city adds its mention, then, when the lookup succeeds, a geocoded signal for the geocoded city; the lookup is one `geocode_location` call with three attempts |
| Aggregator.IntelligenceAggregator.AddCountrySignals | SumitMewada_EIR/Sumit_EIR_TaskC_ViewerCrawler/viewer_intelligence/src/intelligence_aggregator.py:92-98 | the country loop adds exactly one mention per country to the country store and leaves the city store unchanged |
| Aggregator.IntelligenceAggregator.AddLanguageSignal | SumitMewada_EIR/Sumit_EIR_TaskC_ViewerCrawler/viewer_intelligence/src/intelligence_aggregator.py:101-110 | the language step adds exactly the comment's language signals to the country store and leaves the city store unchanged |
| Aggregator.GeocodeBatch | SumitMewada_EIR/Sumit_EIR_TaskC_ViewerCrawler/viewer_intelligence/src/intelligence_aggregator.py:122-126 | a batch's geocode results line up with each comment's cities |
| Aggregator.NoGeocodesBatch | SumitMewada_EIR/Sumit_EIR_TaskC_ViewerCrawler/viewer_intelligence/src/intelligence_aggregator.py:122-126 | without an analyzer no comment of a batch geocodes anything |
| Aggregator.IntelligenceAggregator.ProcessAllAnalyses | SumitMewada_EIR/Sumit_EIR_TaskC_ViewerCrawler/viewer_intelligence/src/intelligence_aggregator.py:112-128 | processing a batch is processing its comments in order: each store becomes the old one plus every comment's signals in turn; the analyzer's cache and request counter evolve as the comments' lookups in turn |
| Aggregator.BatchCityMentions | SumitMewada_EIR/Sumit_EIR_TaskC_ViewerCrawler/viewer_intelligence/src/intelligence_aggregator.py:122-126 | over a batch the `city_mentioned` signals go to every mentioned city of every comment, in order |
| Aggregator.BatchCountryMentions | SumitMewada_EIR/Sumit_EIR_TaskC_ViewerCrawler/viewer_intelligence/src/intelligence_aggregator.py:122-126 | over a batch the `country_mentioned` signals go to every mentioned country of every comment, in order |
| Aggregator.BatchCitiesHaveNoCountryMentions | SumitMewada_EIR/Sumit_EIR_TaskC_ViewerCrawler/viewer_intelligence/src/intelligence_aggregator.py:70-89 | the city store never receives a `country_mentioned` signal |
| Aggregator.BatchCountriesHaveNoCityMentions | SumitMewada_EIR/Sumit_EIR_TaskC_ViewerCrawler/viewer_intelligence/src/intelligence_aggregator.py:92-110 | the country store never receives a `city_mentioned` signal |
| Aggregator.KindCount | SumitMewada_EIR/Sumit_EIR_TaskC_ViewerCrawler/viewer_intelligence/src/intelligence_aggregator.py:229-235 | the number of signals of a type equals the number of locations they go to |
| Aggregator.BatchMentionTotals | SumitMewada_EIR/Sumit_EIR_TaskC_ViewerCrawler/viewer_intelligence/src/intelligence_aggregator.py:225-237 | after a fresh aggregator processes a batch, the stored types count one `city_mentioned` per mentioned city and one `country_mentioned` per mentioned country |
| Ranking.RowOf | SumitMewada_EIR/Sumit_EIR_TaskC_ViewerCrawler/viewer_intelligence/src/intelligence_aggregator.py:144-152 | a row carries the location, its score as total score and its count as mention count; the average is score over count, or 0 with no mentions; the signal types are exactly the types among its signals; it also carries the number of signals |
| Ranking.AverageWithinBounds | SumitMewada_EIR/Sumit_EIR_TaskC_ViewerCrawler/viewer_intelligence/src/intelligence_aggregator.py:149 | a consistent record's average confidence lies between its smallest and largest signal confidence |
| Ranking.TopLocations | SumitMewada_EIR/Sumit_EIR_TaskC_ViewerCrawler/viewer_intelligence/src/intelligence_aggregator.py:141-162 | the result is the top-n table: `head(n)` many rows, one per distinct stored location, each equal to its record's row, in non-increasing score; every location left out scores no more than any row kept; an empty store gives an empty table |
| Ranking.RankedPrefixIsTop | SumitMewada_EIR/Sumit_EIR_TaskC_ViewerCrawler/viewer_intelligence/src/intelligence_aggregator.py:159-160 | `head(n)` of a ranked table holding one row per stored location is the top-n table of the store |
| Ranking.TopRowIsMaximum | SumitMewada_EIR/Sumit_EIR_TaskC_ViewerCrawler/viewer_intelligence/src/intelligence_aggregator.py:159-160 | the first row of a non-empty top table has the highest score in the store |
| Aggregator.IntelligenceAggregator.GetTopLocations | SumitMewada_EIR/Sumit_EIR_TaskC_ViewerCrawler/viewer_intelligence/src/intelligence_aggregator.py:130-162 | the top-n table of the city store for level `city`, and of the country store otherwise |
| Ranking.AverageConfidence | SumitMewada_EIR/Sumit_EIR_TaskC_ViewerCrawler/viewer_intelligence/src/intelligence_aggregator.py:149 | with mentions, the average times the count gives back the score; with no mentions the average is 0 |
| Ranking.ConfidenceLevel | SumitMewada_EIR/Sumit_EIR_TaskC_ViewerCrawler/viewer_intelligence/src/intelligence_aggregator.py:164-182 | no mentions always give Low; fewer than three mentions never give High; five or more mentions never give Low |
| Ranking.ConfidenceLevelByScore | SumitMewada_EIR/Sumit_EIR_TaskC_ViewerCrawler/viewer_intelligence/src/intelligence_aggregator.py:175-182 | with mentions, High exactly when there are at least three and the score is at least 0.7 per mention; at least Medium exactly when the score is at least 0.5 per mention or there are at least five mentions |
| Ranking.ConfidenceLevelExamples | SumitMewada_EIR/Sumit_EIR_TaskC_ViewerCrawler/viewer_intelligence/src/intelligence_aggregator.py:175-182 | the tier boundaries, in exact arithmetic: (2.1, 3) High; (2.07, 3) Medium; (2.0, 5) Medium; (0.8, 2) Low; (1.8, 2) Medium; (0.9, 1) Medium; zero mentions give Low |
| Ranking.TierMonotoneInScore | SumitMewada_EIR/Sumit_EIR_TaskC_ViewerCrawler/viewer_intelligence/src/intelligence_aggregator.py:175-182 | for a fixed number of mentions, a higher score never gives a lower tier |
| Ranking.StrongSignalNeverLowersTier | SumitMewada_EIR/Sumit_EIR_TaskC_ViewerCrawler/viewer_intelligence/src/intelligence_aggregator.py:175-182 | one more signal of confidence at least 0.7 never lowers a location's tier |
| Ranking.RowsOf | SumitMewada_EIR/Sumit_EIR_TaskC_ViewerCrawler/viewer_intelligence/src/intelligence_aggregator.py:197-211 | the location rows underneath a distribution table, element by element |
| Ranking.WithPercentages | SumitMewada_EIR/Sumit_EIR_TaskC_ViewerCrawler/viewer_intelligence/src/intelligence_aggregator.py:199-204 | each row keeps its place and gets its score over the total times 100, and its tier from its score and mention count |
| Ranking.PercentageTotalScales | SumitMewada_EIR/Sumit_EIR_TaskC_ViewerCrawler/viewer_intelligence/src/intelligence_aggregator.py:199-201 | the percentages of a table add up to its summed score as a percentage of the divisor |
| Ranking.ScoreTotalPositive | SumitMewada_EIR/Sumit_EIR_TaskC_ViewerCrawler/viewer_intelligence/src/intelligence_aggregator.py:199-200 | a non-empty table of positive scores has a positive total, at least each row's score |
| Ranking.SharesAddUpTo100 | SumitMewada_EIR/Sumit_EIR_TaskC_ViewerCrawler/viewer_intelligence/src/intelligence_aggregator.py:199-201 | the shares of a non-empty table of positive scores add up to exactly 100 |
| Ranking.SharesBounded | SumitMewada_EIR/Sumit_EIR_TaskC_ViewerCrawler/viewer_intelligence/src/intelligence_aggregator.py:199-201 | each share of a table of positive scores lies in (0, 100] |
| Ranking.Normalize | SumitMewada_EIR/Sumit_EIR_TaskC_ViewerCrawler/viewer_intelligence/src/intelligence_aggregator.py:197-211 | each row keeps its place and gets its score as a percentage of the table's total, and the tier of its score and count; the shares lie in (0, 100] and add up to 100 |
| Aggregator.RankTable | SumitMewada_EIR/Sumit_EIR_TaskC_ViewerCrawler/viewer_intelligence/src/intelligence_aggregator.py:197-211 | the normalised table of a top table over positive scores; its first row is a store leader |
| Aggregator.TopRowsPositive | SumitMewada_EIR/Sumit_EIR_TaskC_ViewerCrawler/viewer_intelligence/src/intelligence_aggregator.py:199-200 | the rows of a top table over positive scores have positive scores, so the divisor is never zero |
| Aggregator.TopLocation | SumitMewada_EIR/Sumit_EIR_TaskC_ViewerCrawler/viewer_intelligence/src/intelligence_aggregator.py:218-221 | None exactly when the table is empty; otherwise a location listed in the table, the one in its first row |
| Aggregator.IntelligenceAggregator.EstimateViewerDistribution | SumitMewada_EIR/Sumit_EIR_TaskC_ViewerCrawler/viewer_intelligence/src/intelligence_aggregator.py:184-223 | the city and country tables are the normalised top-n tables of their stores; the summary counts the whole stores, not the truncated tables; the top city and country are the first rows' locations, are stored, and no stored location outscores them |
| Aggregator.TalliesAdd | SumitMewada_EIR/Sumit_EIR_TaskC_ViewerCrawler/viewer_intelligence/src/intelligence_aggregator.py:231 | counting one more signal of a type keeps the counter equal to the multiset of types seen |
| Aggregator.TallySignals | SumitMewada_EIR/Sumit_EIR_TaskC_ViewerCrawler/viewer_intelligence/src/intelligence_aggregator.py:229-231 | counting a signal list adds exactly its types to the counter |
| Aggregator.TallyStore | SumitMewada_EIR/Sumit_EIR_TaskC_ViewerCrawler/viewer_intelligence/src/intelligence_aggregator.py:229-235 | counting a store adds exactly its signal types, whatever order its locations are visited in |
| Aggregator.TalliedTotal | SumitMewada_EIR/Sumit_EIR_TaskC_ViewerCrawler/viewer_intelligence/src/intelligence_aggregator.py:225-237 | a counter equal to a multiset of types has values summing to the multiset's size |
| Aggregator.IntelligenceAggregator.GetSignalBreakdown | SumitMewada_EIR/Sumit_EIR_TaskC_ViewerCrawler/viewer_intelligence/src/intelligence_aggregator.py:225-237 | each type maps to the number of signals of that type across both stores, types with no signals are absent, and the counts add up to the number of stored signals |
| Nlp.CityOf | SumitMewada_EIR/Sumit_EIR_TaskC_ViewerCrawler/viewer_intelligence/src/nlp_analyzer.py:150-151 | the city is the address up to its first `", "` |
| Nlp.CountryOf | SumitMewada_EIR/Sumit_EIR_TaskC_ViewerCrawler/viewer_intelligence/src/nlp_analyzer.py:150-152 | the country is a suffix of the address with no `", "`, preceded by a `", "` unless it is the whole address |
| Nlp.SinglePartAddress | SumitMewada_EIR/Sumit_EIR_TaskC_ViewerCrawler/viewer_intelligence/src/nlp_analyzer.py:150-152 | an address with one part is both its own city and its own country |
| Nlp.FirstAnswer | SumitMewada_EIR/Sumit_EIR_TaskC_ViewerCrawler/viewer_intelligence/src/nlp_analyzer.py:136-166 | the first of the `retry` attempts to get a definite reply, after transient failures only; None when all of them fail transiently |
| Nlp.FirstAnswerIs | SumitMewada_EIR/Sumit_EIR_TaskC_ViewerCrawler/viewer_intelligence/src/nlp_analyzer.py:136-158 | an attempt answered definitely after only transient failures is the first answer |
| Nlp.NoFirstAnswer | SumitMewada_EIR/Sumit_EIR_TaskC_ViewerCrawler/viewer_intelligence/src/nlp_analyzer.py:160-166 | when every attempt fails transiently there is no answer |
| Nlp.GeocodeStepKeepsCache | SumitMewada_EIR/Sumit_EIR_TaskC_ViewerCrawler/viewer_intelligence/src/nlp_analyzer.py:121-168 | a lookup never overwrites a cached entry, adds at most the name asked for, and sends at most `retry` requests |
| Nlp.GeocodeStepHit | SumitMewada_EIR/Sumit_EIR_TaskC_ViewerCrawler/viewer_intelligence/src/nlp_analyzer.py:133-134 | a cached name, even one cached as None, is answered from the cache with no request and no change |
| Nlp.GeocodeStepAnswered | SumitMewada_EIR/Sumit_EIR_TaskC_ViewerCrawler/viewer_intelligence/src/nlp_analyzer.py:136-158 | on a miss that gets a definite reply, only transient failures came before it; the answer (a result or None for not found) is returned and cached under the name |
| Nlp.GeocodeStepExhausted | SumitMewada_EIR/Sumit_EIR_TaskC_ViewerCrawler/viewer_intelligence/src/nlp_analyzer.py:160-166 | on a miss that caches nothing, all `retry` attempts were sent and failed transiently; the result is None and the cache is unchanged |
| Nlp.GeocodeStepAnswers | SumitMewada_EIR/Sumit_EIR_TaskC_ViewerCrawler/viewer_intelligence/src/nlp_analyzer.py:136-158 | on a miss whose k-th attempt is the first definite reply, the lookup returns that answer, caches it under the name, and counts k+1 requests |
| Nlp.GeocodeStepGivesUp | SumitMewada_EIR/Sumit_EIR_TaskC_ViewerCrawler/viewer_intelligence/src/nlp_analyzer.py:160-166 | on a miss whose attempts all fail transiently, the lookup returns None, leaves the cache as it was, and counts `retry` requests |
| Nlp.GeocodeStepValid | SumitMewada_EIR/Sumit_EIR_TaskC_ViewerCrawler/viewer_intelligence/src/nlp_analyzer.py:138-155 | every cached result stays under its own name, and a result returned names the location asked for |
| Nlp.NlpAnalyzer.constructor | SumitMewada_EIR/Sumit_EIR_TaskC_ViewerCrawler/viewer_intelligence/src/nlp_analyzer.py:41 | the cache starts empty and no request has been sent |
| Nlp.NlpAnalyzer.GeocodeLocation | SumitMewada_EIR/Sumit_EIR_TaskC_ViewerCrawler/viewer_intelligence/src/nlp_analyzer.py:121-168 | the cache-then-retry loop returns exactly what `GeocodeStep` specifies, and leaves the cache and request counter as it specifies; it keeps the cache valid |
| Nlp.NlpAnalyzer.LookUpRemotely | SumitMewada_EIR/Sumit_EIR_TaskC_ViewerCrawler/viewer_intelligence/src/nlp_analyzer.py:136-166 | the retry loop on a cache miss returns what `GeocodeStep` specifies and leaves the cache and request counter as it specifies |
| Nlp.RepeatedLookup | SumitMewada_EIR/Sumit_EIR_TaskC_ViewerCrawler/viewer_intelligence/src/nlp_analyzer.py:133-166 | a second lookup of a name that got a definite answer is served from the cache, adding no request; after transient exhaustion it goes back to the service; at most six requests in all |
| Nlp.InferCountryFromLanguage | SumitMewada_EIR/Sumit_EIR_TaskC_ViewerCrawler/viewer_intelligence/src/nlp_analyzer.py:300-347 | a country exactly for the codes in the fixed table, and then the table's country; the `unknown` marker and the empty code give None; a code that gives a country has two to five characters, and the country named is not empty |
| Nlp.InferCountryExamples | SumitMewada_EIR/Sumit_EIR_TaskC_ViewerCrawler/viewer_intelligence/src/nlp_analyzer.py:311-347 | en gives United States, fr gives France, hi gives India |
| Nlp.InferCountryUnknown | SumitMewada_EIR/Sumit_EIR_TaskC_ViewerCrawler/viewer_intelligence/src/nlp_analyzer.py:311-347 | the codes `unknown` and the empty code are not in the table and give None |
| Nlp.TimeBucket | SumitMewada_EIR/Sumit_EIR_TaskC_ViewerCrawler/viewer_intelligence/src/nlp_analyzer.py:186-194 | hours 0-5 are late_night, 6-11 morning, 12-17 afternoon and 18-23 evening, each iff, so every hour has exactly one bucket |
| Nlp.TimeBucketsAreSixHourBlocks | SumitMewada_EIR/Sumit_EIR_TaskC_ViewerCrawler/viewer_intelligence/src/nlp_analyzer.py:187-194 | two hours share a bucket iff they lie in the same six-hour block |
| Strings.ContainsIffOccurs | SumitMewada_EIR/Sumit_EIR_TaskC_ViewerCrawler/viewer_intelligence/src/data_collector.py:49-51 | `sep in s` holds iff `sep` occurs somewhere in `s` |
| Strings.IndexOfIsFirst | SumitMewada_EIR/Sumit_EIR_TaskC_ViewerCrawler/viewer_intelligence/src/data_collector.py:49-52 | the index found is the first occurrence, and none is found only when there is no occurrence |
| Strings.SplitHead | SumitMewada_EIR/Sumit_EIR_TaskC_ViewerCrawler/viewer_intelligence/src/data_collector.py:50-52 | `s.split(sep)[0]` is `s` up to the first `sep`, or all of `s` when there is none |
| Strings.SplitSecond | SumitMewada_EIR/Sumit_EIR_TaskC_ViewerCrawler/viewer_intelligence/src/data_collector.py:50-52 | when `sep` occurs, `s.split(sep)[1]` is the text after the first `sep` up to the next one |
| Strings.SplitLast | SumitMewada_EIR/Sumit_EIR_TaskC_ViewerCrawler/viewer_intelligence/src/nlp_analyzer.py:150-152 | `s.split(sep)[-1]` is a suffix of `s` holding no `sep`, preceded by a `sep` unless it is all of `s` |
| Strings.CutTwice | SumitMewada_EIR/Sumit_EIR_TaskC_ViewerCrawler/viewer_intelligence/src/data_collector.py:50-52 | `s.split(a)[0].split(b)[0]`, for a one-character `b`, is `s` up to the first occurrence of either separator |
| Strings.CutIsClean | SumitMewada_EIR/Sumit_EIR_TaskC_ViewerCrawler/viewer_intelligence/src/data_collector.py:50-52 | `s` cut at the first occurrence of either separator holds neither separator |
| Strings.CutIsUnique | SumitMewada_EIR/Sumit_EIR_TaskC_ViewerCrawler/viewer_intelligence/src/data_collector.py:50-52 | there is only one way to cut `s` at the first occurrence of either separator |
| DataCollector.ExtractVideoId | SumitMewada_EIR/Sumit_EIR_TaskC_ViewerCrawler/viewer_intelligence/src/data_collector.py:47-54 | with `v=`: the text after the first `v=`, up to the next `v=`, cut at the first `&`; otherwise with `youtu.be/`: the text after the first `youtu.be/`, up to the next one, cut at the first `?`; otherwise the input unchanged; `v=` takes precedence |
| DataCollector.ExtractedIdIsClean | SumitMewada_EIR/Sumit_EIR_TaskC_ViewerCrawler/viewer_intelligence/src/data_collector.py:49-52 | a `v=` id has no `&`, and a `youtu.be/` id has no `?` |
| DataCollector.BareId | SumitMewada_EIR/Sumit_EIR_TaskC_ViewerCrawler/viewer_intelligence/src/data_collector.py:53-54 | a string with no `v` and no `y` comes back unchanged |
| DataCollector.WatchUrlId | SumitMewada_EIR/Sumit_EIR_TaskC_ViewerCrawler/viewer_intelligence/src/data_collector.py:49-50 | a watch URL `…v=<id>` gives the id |
| DataCollector.ShortLinkId | SumitMewada_EIR/Sumit_EIR_TaskC_ViewerCrawler/viewer_intelligence/src/data_collector.py:51-52 | a short link `…youtu.be/<id>` gives the id |
| DataCollector.WatchUrlExample | SumitMewada_EIR/Sumit_EIR_TaskC_ViewerCrawler/viewer_intelligence/test_pipeline.py:30-38 | the watch URL in the repository's test script (test_pipeline.py) gives `ggJg6CcKtZE` |
| DataCollector.ShortLinkExample | SumitMewada_EIR/Sumit_EIR_TaskC_ViewerCrawler/viewer_intelligence/test_pipeline.py:30-38 | the short link in the repository's test script (test_pipeline.py) gives `ggJg6CcKtZE` |
| DataCollector.BareIdExample | SumitMewada_EIR/Sumit_EIR_TaskC_ViewerCrawler/viewer_intelligence/test_pipeline.py:30-38 | the bare id `ggJg6CcKtZE` is kept |

## Left out

- Geocoding exhaustion: where the code and the documented behaviour differ, the model follows the code. The documented behaviour caches "not found" for a name whose lookups all fail. The code caches None only on an explicit "not found" reply. When every attempt fails with a timeout or service error, it returns None and writes nothing, so a later call retries.
- The remote service, its 10-second timeout and the one-second sleep between attempts: the service is the oracle `remote(name, n)`, and time is not modelled.
- The `raw` field of a geocoding result holds the service's raw response. It is not modelled.
- Language detection, GeoText and spaCy location extraction: the model takes the extraction record as input.
- Timestamp parsing in `extract_timezone_hints`, and its catch-all that returns None: only the hour-to-bucket rule is modelled.
- The pandas DataFrame mechanics become sequences of row records.
  - `signal_types` is a set rather than a list in unspecified order.
  - The row order among equal scores is left open, as the source's sort does not fix it.
- Ranking.ConfidenceLevel: scores and confidences are exact reals, so the rounding of the running float sum in `add_signal` is not modelled. A country mentioned in exactly three comments, with no other signals, has the score 0.7 + 0.7 + 0.7. In double precision that is 2.0999999999999996, with an average of 0.6999999999999998, so the source rates it Medium; the model rates it High. The tiers in Ranking.Normalize and Aggregator.IntelligenceAggregator.EstimateViewerDistribution, and the tier lemmas Ranking.TierMonotoneInScore and Ranking.StrongSignalNeverLowersTier, hold for exact arithmetic in the same way.
- Ranking.Normalize: percentages are exact reals. The rounding to two decimals is left out.
- Aggregator.IntelligenceAggregator.EstimateViewerDistribution requires every stored score to be positive. The source divides by the table's total score without guarding a zero total. With the default weights every score is positive. Only an explicit zero or negative confidence given to `add_signal` could break this.
- Aggregator.IntelligenceAggregator.ProcessCommentAnalysis: geocoding always uses the default of three attempts, as the source calls it without a retry argument. Values of latitude and longitude are exact reals.
- Metadata values: a comment id is text or missing, and coordinates are numbers. The types of other metadata values are not modelled.
- Logging, progress messages, `export_results` (CSV writing), `get_language_distribution` and `get_location_mentions` are left out. These are pandas and pycountry helpers outside the aggregation core.
- The other data-collector methods, which call the YouTube API and yt-dlp, are left out. Orchestration, visualisation, reporting and the sample-data generator are also left out.
