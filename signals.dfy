/**
 * The signal store: per-location records that accumulate weighted signals,
 * the confidence weight table, and the store operations the aggregator is
 * built from.
 */
module Signals {
  import opened Wrappers

  /** A value in a signal's metadata: text, a number, or Python's None. */
  datatype MetaValue = Text(text: string) | Number(number: real) | Missing

  type Metadata = map<string, MetaValue>

  /** One weighted observation linking a location to the audience. */
  datatype Signal = Signal(kind: string, confidence: real, metadata: Metadata)

  /** The accumulated evidence for one location name. */
  datatype LocationRecord = LocationRecord(score: real, signals: seq<Signal>, count: nat)

  /** Location name to record, for one level (cities or countries). */
  type Store = map<string, LocationRecord>

  /** Default confidence by signal type. */
  const ConfidenceWeights: map<string, real> := map[
    "city_mentioned" := 0.9,
    "country_mentioned" := 0.7,
    "geocoded_location" := 0.85,
    "language_to_country" := 0.3,
    "timezone_hint" := 0.2,
    "channel_metadata" := 0.5]

  /** The confidence of a signal type not in the table. */
  const FallbackConfidence: real := 0.5

  /** The default confidence of a signal type: its table weight, or the fallback. */
  function DefaultWeight(kind: string): (w: real)
    ensures 0.0 < w < 1.0
    ensures kind in ConfidenceWeights ==> w == ConfidenceWeights[kind]
    ensures kind !in ConfidenceWeights ==> w == FallbackConfidence
  {
    if kind in ConfidenceWeights then ConfidenceWeights[kind] else FallbackConfidence
  }

  /** The confidence `add_signal` records: the one given, else the type's default. */
  function ResolveConfidence(kind: string, confidence: Option<real>): (c: real)
    ensures confidence.Some? ==> c == confidence.value
    ensures confidence.None? ==> c == DefaultWeight(kind) && 0.0 < c < 1.0
  {
    if confidence.Some? then confidence.value else DefaultWeight(kind)
  }

  /** The table's values, and the fallback for an unknown type such as `foo`. */
  lemma DefaultWeightExamples()
    ensures ResolveConfidence("city_mentioned", None) == 0.9
    ensures ResolveConfidence("country_mentioned", None) == 0.7
    ensures ResolveConfidence("geocoded_location", None) == 0.85
    ensures ResolveConfidence("language_to_country", None) == 0.3
    ensures ResolveConfidence("foo", None) == 0.5
    ensures ResolveConfidence("foo", Some(0.0)) == 0.0
  {
  }

  /** The sum of the confidences of `signals`. */
  function SumConfidences(signals: seq<Signal>): real {
    if signals == [] then 0.0 else signals[0].confidence + SumConfidences(signals[1..])
  }

  /** The record a location has before its first signal. */
  const EmptyRecord: LocationRecord := LocationRecord(0.0, [], 0)

  /** A record's count is its number of signals and its score their summed confidence. */
  ghost predicate RecordValid(rec: LocationRecord) {
    rec.count == |rec.signals| && rec.score == SumConfidences(rec.signals)
  }

  ghost predicate StoreValid(store: Store) {
    forall loc :: loc in store ==> RecordValid(store[loc])
  }

  /** Every stored location has a positive score. */
  ghost predicate PositiveScores(store: Store) {
    forall loc :: loc in store ==> store[loc].score > 0.0
  }

  /** Python's `defaultdict` read: a location not yet seen has the empty record. */
  function Lookup(store: Store, loc: string): LocationRecord {
    if loc in store then store[loc] else EmptyRecord
  }

  /** A record after one more signal: score up by its confidence, one more signal, count up by one. */
  function Appended(rec: LocationRecord, signal: Signal): (r: LocationRecord)
    ensures r.signals == rec.signals + [signal]
  {
    LocationRecord(rec.score + signal.confidence, rec.signals + [signal], rec.count + 1)
  }

  /** Confidences of a concatenation add up. */
  lemma {:induction false} SumConfidencesConcat(a: seq<Signal>, b: seq<Signal>)
    ensures SumConfidences(a + b) == SumConfidences(a) + SumConfidences(b)
    decreases |a|
  {
    if a == [] {
      assert a + b == b;
    } else {
      SumConfidencesConcat(a[1..], b);
      assert (a + b)[1..] == a[1..] + b;
    }
  }

  /** Appending a signal keeps `count == |signals|` and `score == sum of confidences`. */
  lemma AppendedValid(rec: LocationRecord, signal: Signal)
    requires RecordValid(rec)
    ensures RecordValid(Appended(rec, signal))
  {
    SumConfidencesConcat(rec.signals, [signal]);
    assert SumConfidences([signal]) == signal.confidence + SumConfidences([]);
  }

  /** The store after `add_signal(loc, …)` on it, with `signal` the signal it builds. */
  function AddToStore(store: Store, loc: string, signal: Signal): (r: Store)
    ensures r.Keys == store.Keys + {loc}
    ensures r[loc] == Appended(Lookup(store, loc), signal)
    ensures forall other :: other in store && other != loc ==> r[other] == store[other]
  {
    store[loc := Appended(Lookup(store, loc), signal)]
  }

  /** Adding a signal keeps every record consistent, and keeps scores positive when its confidence is. */
  lemma AddToStoreValid(store: Store, loc: string, signal: Signal)
    requires StoreValid(store)
    ensures StoreValid(AddToStore(store, loc, signal))
    ensures PositiveScores(store) && signal.confidence > 0.0 ==> PositiveScores(AddToStore(store, loc, signal))
  {
    AppendedValid(Lookup(store, loc), signal);
  }

  /** A location name paired with the signal added for it. */
  type Addition = (string, Signal)

  /** The store after adding each of `adds` in order. */
  function Accumulate(store: Store, adds: seq<Addition>): Store
    decreases |adds|
  {
    if adds == [] then store
    else
      var last := adds[|adds| - 1];
      AddToStore(Accumulate(store, adds[..|adds| - 1]), last.0, last.1)
  }

  /** The signals of `adds` that go to `loc`, in order. */
  function SignalsFor(adds: seq<Addition>, loc: string): seq<Signal>
    decreases |adds|
  {
    if adds == [] then []
    else
      var last := adds[|adds| - 1];
      SignalsFor(adds[..|adds| - 1], loc) + (if last.0 == loc then [last.1] else [])
  }

  /** The locations that `adds` touch. */
  function Touched(adds: seq<Addition>): set<string> {
    set i | 0 <= i < |adds| :: adds[i].0
  }

  /** Adding a sequence of signals creates records exactly for the locations it touches. */
  lemma {:induction false} AccumulateKeys(store: Store, adds: seq<Addition>)
    ensures Accumulate(store, adds).Keys == store.Keys + Touched(adds)
    decreases |adds|
  {
    if adds != [] {
      var init := adds[..|adds| - 1];
      AccumulateKeys(store, init);
      assert Touched(adds) == Touched(init) + {adds[|adds| - 1].0} by {
        forall x | x in Touched(adds) ensures x in Touched(init) + {adds[|adds| - 1].0} {
          var i :| 0 <= i < |adds| && adds[i].0 == x;
          if i < |adds| - 1 { assert init[i].0 == x; }
        }
        forall x | x in Touched(init) ensures x in Touched(adds) {
          var i :| 0 <= i < |init| && init[i].0 == x;
          assert adds[i].0 == x;
        }
      }
    }
  }

  /**
   * Adding a sequence of signals one by one appends, to each location's
   * signal list, exactly the signals addressed to it, in order.
   */
  lemma {:induction false} AccumulateAt(store: Store, adds: seq<Addition>, loc: string)
    ensures Lookup(Accumulate(store, adds), loc).signals == Lookup(store, loc).signals + SignalsFor(adds, loc)
    decreases |adds|
  {
    if adds == [] {
      assert Lookup(store, loc).signals + [] == Lookup(store, loc).signals;
    } else {
      var init := adds[..|adds| - 1];
      var last := adds[|adds| - 1];
      AccumulateAt(store, init, loc);
      var before := Accumulate(store, init);
      assert Accumulate(store, adds) == AddToStore(before, last.0, last.1);
      assert SignalsFor(adds, loc) == SignalsFor(init, loc) + (if last.0 == loc then [last.1] else []);
      if last.0 == loc {
        assert Lookup(Accumulate(store, adds), loc).signals == Lookup(before, loc).signals + [last.1];
      } else {
        assert Lookup(Accumulate(store, adds), loc) == Lookup(before, loc);
      }
    }
  }

  /** Adding a sequence of signals keeps every record consistent, and scores positive when all confidences are. */
  lemma {:induction false} AccumulateValid(store: Store, adds: seq<Addition>)
    requires StoreValid(store)
    ensures StoreValid(Accumulate(store, adds))
    ensures PositiveScores(store) && (forall i :: 0 <= i < |adds| ==> adds[i].1.confidence > 0.0) ==>
      PositiveScores(Accumulate(store, adds))
    decreases |adds|
  {
    if adds != [] {
      var init := adds[..|adds| - 1];
      AccumulateValid(store, init);
      AddToStoreValid(Accumulate(store, init), adds[|adds| - 1].0, adds[|adds| - 1].1);
    }
  }

  /** Adding two batches in turn is adding their concatenation. */
  lemma {:induction false} AccumulateConcat(store: Store, a: seq<Addition>, b: seq<Addition>)
    ensures Accumulate(store, a + b) == Accumulate(Accumulate(store, a), b)
    decreases |b|
  {
    if b == [] {
      assert a + b == a;
    } else {
      assert (a + b)[..|a + b| - 1] == a + b[..|b| - 1];
      AccumulateConcat(store, a, b[..|b| - 1]);
    }
  }

  /** For a valid store, a location's score grows by exactly the confidences added to it. */
  lemma AccumulateScore(store: Store, adds: seq<Addition>, loc: string)
    requires StoreValid(store)
    ensures StoreValid(Accumulate(store, adds))
    ensures Lookup(Accumulate(store, adds), loc).score == Lookup(store, loc).score + SumConfidences(SignalsFor(adds, loc))
    ensures Lookup(Accumulate(store, adds), loc).count == Lookup(store, loc).count + |SignalsFor(adds, loc)|
  {
    AccumulateValid(store, adds);
    AccumulateAt(store, adds, loc);
    SumConfidencesConcat(Lookup(store, loc).signals, SignalsFor(adds, loc));
  }

  /** The signal types of `signals`, with multiplicity. */
  function Kinds(signals: seq<Signal>): (bag: multiset<string>)
    ensures |bag| == |signals|
  {
    if signals == [] then multiset{} else Kinds(signals[..|signals| - 1]) + multiset{signals[|signals| - 1].kind}
  }

  /** Signal types of a concatenation add up. */
  lemma {:induction false} KindsConcat(a: seq<Signal>, b: seq<Signal>)
    ensures Kinds(a + b) == Kinds(a) + Kinds(b)
    decreases |b|
  {
    if b == [] {
      assert a + b == a;
    } else {
      var n := |b| - 1;
      KindsConcat(a, b[..n]);
      assert (a + b)[..|a + b| - 1] == a + b[..n];
    }
  }

  /** The signal types of every signal in a store, with multiplicity. */
  ghost function StoreKinds(store: Store): multiset<string>
    decreases |store|
  {
    if store == map[] then multiset{}
    else
      var loc :| loc in store;
      Kinds(store[loc].signals) + StoreKinds(store - {loc})
  }

  /** The number of signals in a store. */
  ghost function SignalTotal(store: Store): nat
    decreases |store|
  {
    if store == map[] then 0
    else
      var loc :| loc in store;
      |store[loc].signals| + SignalTotal(store - {loc})
  }

  /** `StoreKinds` may take the locations in any order. */
  lemma {:induction false} StoreKindsRemove(store: Store, loc: string)
    requires loc in store
    ensures StoreKinds(store) == Kinds(store[loc].signals) + StoreKinds(store - {loc})
    decreases |store|
  {
    var other :| other in store && StoreKinds(store) == Kinds(store[other].signals) + StoreKinds(store - {other});
    if other != loc {
      var rest := store - {other} - {loc};
      assert rest == store - {loc} - {other};
      StoreKindsRemove(store - {other}, loc);
      StoreKindsRemove(store - {loc}, other);
      assert (store - {other})[loc] == store[loc];
      assert (store - {loc})[other] == store[other];
      var a, b := Kinds(store[loc].signals), Kinds(store[other].signals);
      calc {
        StoreKinds(store);
        b + StoreKinds(store - {other});
        b + (a + StoreKinds(rest));
        a + (b + StoreKinds(rest));
        a + StoreKinds(store - {loc});
      }
    }
  }

  /** `SignalTotal` may take the locations in any order. */
  lemma {:induction false} SignalTotalRemove(store: Store, loc: string)
    requires loc in store
    ensures SignalTotal(store) == |store[loc].signals| + SignalTotal(store - {loc})
    decreases |store|
  {
    var other :| other in store && SignalTotal(store) == |store[other].signals| + SignalTotal(store - {other});
    if other != loc {
      SignalTotalRemove(store - {other}, loc);
      SignalTotalRemove(store - {loc}, other);
      assert store - {other} - {loc} == store - {loc} - {other};
    }
  }

  /** A store holds as many signal types, with multiplicity, as it holds signals. */
  lemma {:induction false} StoreKindsSize(store: Store)
    ensures |StoreKinds(store)| == SignalTotal(store)
    decreases |store|
  {
    if store != map[] {
      var loc :| loc in store;
      StoreKindsRemove(store, loc);
      SignalTotalRemove(store, loc);
      StoreKindsSize(store - {loc});
    }
  }

  /** The signal types of a sequence of additions, with multiplicity. */
  function AdditionKinds(adds: seq<Addition>): (bag: multiset<string>)
    ensures |bag| == |adds|
    decreases |adds|
  {
    if adds == [] then multiset{} else AdditionKinds(adds[..|adds| - 1]) + multiset{adds[|adds| - 1].1.kind}
  }

  /** Setting one location's record replaces that record's signal types. */
  lemma {:induction false} StoreKindsUpdate(store: Store, loc: string, rec: LocationRecord)
    ensures StoreKinds(store[loc := rec]) == Kinds(rec.signals) + StoreKinds(store - {loc})
  {
    var r := store[loc := rec];
    StoreKindsRemove(r, loc);
    assert r - {loc} == store - {loc};
  }

  /** A location's record and the rest of the store hold all of its signal types. */
  lemma {:induction false} StoreKindsLookup(store: Store, loc: string)
    ensures StoreKinds(store) == Kinds(Lookup(store, loc).signals) + StoreKinds(store - {loc})
  {
    if loc in store {
      StoreKindsRemove(store, loc);
    } else {
      assert store - {loc} == store;
    }
  }

  /** Adding a signal adds exactly its type to the store's signal types. */
  lemma {:induction false} StoreKindsAdd(store: Store, loc: string, signal: Signal)
    ensures StoreKinds(AddToStore(store, loc, signal)) == StoreKinds(store) + multiset{signal.kind}
  {
    var before := Lookup(store, loc);
    StoreKindsUpdate(store, loc, Appended(before, signal));
    StoreKindsLookup(store, loc);
    assert (before.signals + [signal])[..|before.signals|] == before.signals;
  }

  /** Adding a sequence of signals adds exactly their types to the store's signal types. */
  lemma {:induction false} StoreKindsAccumulate(store: Store, adds: seq<Addition>)
    ensures StoreKinds(Accumulate(store, adds)) == StoreKinds(store) + AdditionKinds(adds)
    decreases |adds|
  {
    if adds != [] {
      var init := adds[..|adds| - 1];
      var last := adds[|adds| - 1];
      StoreKindsAccumulate(store, init);
      StoreKindsAdd(Accumulate(store, init), last.0, last.1);
    }
  }

  /** Adding one more signal after a batch is adding the extended batch. */
  lemma AccumulateSnoc(store: Store, adds: seq<Addition>, add: Addition)
    ensures Accumulate(store, adds + [add]) == AddToStore(Accumulate(store, adds), add.0, add.1)
  {
    assert (adds + [add])[..|adds|] == adds;
  }
}
