/**
 * The read side of the aggregator: one row per location, the ranked top-n
 * table, the three-tier confidence classifier and the percentage
 * normalisation.
 */
module Ranking {
  import opened Signals

  /** One row of a location table. */
  datatype LocationRow = LocationRow(
    location: string,
    totalScore: real,
    mentionCount: nat,
    avgConfidence: real,
    signalTypes: set<string>,
    numSignals: nat)

  /** Average confidence, defined as 0 when there are no mentions. */
  function AverageConfidence(score: real, count: int): (avg: real)
    ensures count > 0 ==> avg * count as real == score
    ensures count <= 0 ==> avg == 0.0
  {
    if count > 0 then score / count as real else 0.0
  }

  /** The row a location's record gives. */
  function RowOf(location: string, rec: LocationRecord): (row: LocationRow)
    ensures row.location == location && row.totalScore == rec.score
    ensures row.mentionCount == rec.count && row.numSignals == |rec.signals|
    ensures row.avgConfidence == AverageConfidence(rec.score, rec.count)
    ensures forall kind :: kind in row.signalTypes <==> exists i :: 0 <= i < |rec.signals| && rec.signals[i].kind == kind
  {
    LocationRow(location, rec.score, rec.count, AverageConfidence(rec.score, rec.count),
                set i | 0 <= i < |rec.signals| :: rec.signals[i].kind, |rec.signals|)
  }

  /** `a / b >= t` for a positive `b` is `a >= t * b`. */
  lemma DivAtLeast(a: real, b: real, t: real)
    requires b > 0.0
    ensures a / b >= t <==> a >= t * b
  {
    assert a == (a / b) * b;
  }

  /** `a / b <= t` for a positive `b` is `a <= t * b`. */
  lemma DivAtMost(a: real, b: real, t: real)
    requires b > 0.0
    ensures a / b <= t <==> a <= t * b
  {
    assert a == (a / b) * b;
  }

  /** Confidences that all lie in `[lo, hi]` sum to between `n * lo` and `n * hi`. */
  lemma {:induction false} SumConfidencesBounds(signals: seq<Signal>, lo: real, hi: real)
    requires forall i :: 0 <= i < |signals| ==> lo <= signals[i].confidence <= hi
    ensures |signals| as real * lo <= SumConfidences(signals) <= |signals| as real * hi
  {
    if signals != [] {
      SumConfidencesBounds(signals[1..], lo, hi);
    }
  }

  /**
   * A consistent record's average confidence lies between the smallest and the
   * largest confidence of its signals.
   */
  lemma {:induction false} AverageWithinBounds(rec: LocationRecord, lo: real, hi: real)
    requires RecordValid(rec) && rec.count > 0
    requires forall i :: 0 <= i < |rec.signals| ==> lo <= rec.signals[i].confidence <= hi
    ensures lo <= AverageConfidence(rec.score, rec.count) <= hi
  {
    SumConfidencesBounds(rec.signals, lo, hi);
    DivAtLeast(rec.score, rec.count as real, lo);
    DivAtMost(rec.score, rec.count as real, hi);
  }

  datatype Tier = Low | Medium | High

  /** Tiers in increasing order of confidence. */
  function TierRank(t: Tier): nat {
    match t
    case Low => 0
    case Medium => 1
    case High => 2
  }

  /**
   * High when the average confidence is at least 0.7 over at least three
   * mentions; otherwise Medium when the average is at least 0.5 or there are at
   * least five mentions; otherwise Low.
   */
  function ConfidenceLevel(score: real, count: int): (t: Tier)
    ensures count <= 0 ==> t == Low
    ensures count < 3 ==> t != High
    ensures count >= 5 ==> t != Low
  {
    var avg := AverageConfidence(score, count);
    if avg >= 0.7 && count >= 3 then High
    else if avg >= 0.5 || count >= 5 then Medium
    else Low
  }

  /**
   * The tiers stated on the total score: High exactly when there are at least
   * three mentions and the score is at least 0.7 per mention; at least Medium
   * exactly when the score is at least 0.5 per mention or there are at least
   * five mentions.
   */
  lemma ConfidenceLevelByScore(score: real, count: int)
    requires count > 0
    ensures ConfidenceLevel(score, count) == High <==> count >= 3 && score >= 0.7 * count as real
    ensures ConfidenceLevel(score, count) != Low <==> score >= 0.5 * count as real || count >= 5
  {
    DivAtLeast(score, count as real, 0.7);
    DivAtLeast(score, count as real, 0.5);
  }

  /**
   * The boundary cases, in exact arithmetic: a score of 2.1 over three mentions
   * is High, and the rest.
   */
  lemma ConfidenceLevelExamples()
    ensures ConfidenceLevel(2.1, 3) == High
    ensures ConfidenceLevel(2.07, 3) == Medium
    ensures ConfidenceLevel(2.0, 5) == Medium
    ensures ConfidenceLevel(0.8, 2) == Low
    ensures ConfidenceLevel(1.8, 2) == Medium
    ensures ConfidenceLevel(0.9, 1) == Medium
    ensures ConfidenceLevel(5.0, 0) == Low
  {
    DivAtLeast(2.1, 3.0, 0.7);
    DivAtLeast(2.07, 3.0, 0.5);
    DivAtLeast(2.07, 3.0, 0.7);
    DivAtLeast(0.8, 2.0, 0.5);
    DivAtLeast(1.8, 2.0, 0.5);
  }

  /** For a fixed number of mentions, a higher score never gives a lower tier. */
  lemma TierMonotoneInScore(s1: real, s2: real, count: int)
    requires s1 <= s2
    ensures TierRank(ConfidenceLevel(s1, count)) <= TierRank(ConfidenceLevel(s2, count))
  {
    if count > 0 {
      DivAtLeast(s1, count as real, 0.7);
      DivAtLeast(s2, count as real, 0.7);
      DivAtLeast(s1, count as real, 0.5);
      DivAtLeast(s2, count as real, 0.5);
    }
  }

  /** One more signal of confidence at least 0.7 never lowers a location's tier. */
  lemma StrongSignalNeverLowersTier(score: real, count: nat, confidence: real)
    requires confidence >= 0.7
    ensures TierRank(ConfidenceLevel(score, count)) <= TierRank(ConfidenceLevel(score + confidence, count + 1))
  {
    var n := count as real;
    DivAtLeast(score + confidence, n + 1.0, 0.7);
    DivAtLeast(score + confidence, n + 1.0, 0.5);
    if count > 0 {
      DivAtLeast(score, n, 0.7);
      DivAtLeast(score, n, 0.5);
    }
  }

  /** Rows in non-increasing order of total score. */
  ghost predicate SortedByScore(rows: seq<LocationRow>) {
    forall i, j :: 0 <= i < j < |rows| ==> rows[i].totalScore >= rows[j].totalScore
  }

  /** The locations that appear in `rows`. */
  function Listed(rows: seq<LocationRow>): set<string> {
    set i | 0 <= i < |rows| :: rows[i].location
  }

  /** How many rows pandas' `head(n)` keeps of `len`: Python's slice `[:n]`. */
  function HeadLength(n: int, len: nat): (k: nat)
    ensures k <= len
    ensures n >= 0 ==> k == if n < len then n else len
    ensures n < 0 ==> k == if len + n > 0 then len + n else 0
  {
    if n >= 0 then (if n < len then n else len)
    else if len + n > 0 then len + n else 0
  }

  /**
   * `rows` is the top-n table of `store`: `head(n)` of one row per location,
   * ranked by total score; ties among equal scores may come in any order.
   * Every location left out scores no more than any row kept.
   */
  ghost predicate IsTopTable(store: Store, n: int, rows: seq<LocationRow>) {
    && |rows| == HeadLength(n, |store|)
    && SortedByScore(rows)
    && RowsFromStore(store, rows)
    && (forall loc, i :: loc in store && loc !in Listed(rows) && 0 <= i < |rows| ==>
          store[loc].score <= rows[i].totalScore)
  }

  /** Where a row of score `score` goes in a ranked table: after every row scoring at least as much. */
  function InsertionPoint(rows: seq<LocationRow>, score: real): (p: nat)
    ensures p <= |rows|
    ensures forall i :: 0 <= i < p ==> rows[i].totalScore >= score
    ensures p < |rows| ==> rows[p].totalScore < score
  {
    if rows == [] || rows[0].totalScore < score then 0
    else 1 + InsertionPoint(rows[1..], score)
  }

  /** Inserting a row at its insertion point keeps a table ranked. */
  lemma {:induction false} InsertKeepsSorted(rows: seq<LocationRow>, row: LocationRow)
    requires SortedByScore(rows)
    ensures SortedByScore(rows[..InsertionPoint(rows, row.totalScore)] + [row] + rows[InsertionPoint(rows, row.totalScore)..])
  {
    var p := InsertionPoint(rows, row.totalScore);
    var r := rows[..p] + [row] + rows[p..];
    forall i, j | 0 <= i < j < |r| ensures r[i].totalScore >= r[j].totalScore {
      if j == p {
        assert r[i] == rows[i];
      } else if i == p {
        assert r[j] == rows[j - 1];
      }
    }
  }

  /** Every row of `rows` is the row of a distinct location of `store`. */
  ghost predicate RowsFromStore(store: Store, rows: seq<LocationRow>) {
    && (forall i :: 0 <= i < |rows| ==>
          rows[i].location in store && rows[i] == RowOf(rows[i].location, store[rows[i].location]))
    && (forall i, j :: 0 <= i < j < |rows| ==> rows[i].location != rows[j].location)
  }

  /** Inserting the row of a location not yet listed keeps the rows distinct and adds that location. */
  lemma {:induction false} InsertRowFromStore(store: Store, rows: seq<LocationRow>, loc: string, p: nat)
    requires RowsFromStore(store, rows) && loc in store && loc !in Listed(rows) && p <= |rows|
    ensures RowsFromStore(store, rows[..p] + [RowOf(loc, store[loc])] + rows[p..])
    ensures Listed(rows[..p] + [RowOf(loc, store[loc])] + rows[p..]) == Listed(rows) + {loc}
  {
    var r := rows[..p] + [RowOf(loc, store[loc])] + rows[p..];
    forall i | 0 <= i < |r| ensures r[i] == (if i < p then rows[i] else if i == p then RowOf(loc, store[loc]) else rows[i - 1]) {
    }
    forall i, j | 0 <= i < j < |r| ensures r[i].location != r[j].location {
      if i == p { assert r[j].location in Listed(rows); }
      else if j == p { assert r[i].location in Listed(rows); }
    }
    forall l | l in Listed(rows) ensures l in Listed(r) {
      var i :| 0 <= i < |rows| && rows[i].location == l;
      if i < p { assert r[i].location == l; } else { assert r[i + 1].location == l; }
    }
    assert r[p].location == loc;
  }

  /** The first rows of a ranked table holding one row per location of `store` form its top table. */
  lemma {:induction false} RankedPrefixIsTop(store: Store, ranked: seq<LocationRow>, n: int)
    requires SortedByScore(ranked) && RowsFromStore(store, ranked)
    requires Listed(ranked) == store.Keys && |ranked| == |store|
    ensures IsTopTable(store, n, ranked[..HeadLength(n, |ranked|)])
  {
    var k := HeadLength(n, |ranked|);
    var rows := ranked[..k];
    PrefixKeepsRows(store, ranked, k);
    forall loc, i | loc in store && loc !in Listed(rows) && 0 <= i < |rows|
      ensures store[loc].score <= rows[i].totalScore
    {
      LeftOutScoresLess(store, ranked, k, loc, i);
    }
  }

  /** A prefix of a ranked table is ranked and still made of the store's rows. */
  lemma PrefixKeepsRows(store: Store, ranked: seq<LocationRow>, k: nat)
    requires SortedByScore(ranked) && RowsFromStore(store, ranked) && k <= |ranked|
    ensures SortedByScore(ranked[..k]) && RowsFromStore(store, ranked[..k])
  {
    var rows := ranked[..k];
    assert forall i :: 0 <= i < k ==> rows[i] == ranked[i];
  }

  /** A listed location outside the first `k` rows scores no more than any of them. */
  lemma LeftOutScoresLess(store: Store, ranked: seq<LocationRow>, k: nat, loc: string, i: nat)
    requires SortedByScore(ranked) && RowsFromStore(store, ranked)
    requires Listed(ranked) == store.Keys && k <= |ranked| && i < k
    requires loc in store && loc !in Listed(ranked[..k])
    ensures store[loc].score <= ranked[..k][i].totalScore
  {
    assert loc in Listed(ranked);
    var j :| 0 <= j < |ranked| && ranked[j].location == loc;
    assert k <= j;
    assert ranked[..k][i] == ranked[i];
  }

  /** The top-n table of a store, as `get_top_locations` builds it. */
  method TopLocations(store: Store, n: int) returns (rows: seq<LocationRow>)
    ensures IsTopTable(store, n, rows)
  {
    var ranked: seq<LocationRow> := [];
    var remaining := store.Keys;
    while remaining != {}
      invariant remaining <= store.Keys
      invariant |ranked| + |remaining| == |store|
      invariant SortedByScore(ranked)
      invariant RowsFromStore(store, ranked)
      invariant Listed(ranked) == store.Keys - remaining
      decreases |remaining|
    {
      var loc :| loc in remaining;
      var row := RowOf(loc, store[loc]);
      var p := InsertionPoint(ranked, row.totalScore);
      InsertKeepsSorted(ranked, row);
      InsertRowFromStore(store, ranked, loc, p);
      ranked := ranked[..p] + [row] + ranked[p..];
      remaining := remaining - {loc};
    }
    RankedPrefixIsTop(store, ranked, n);
    rows := ranked[..HeadLength(n, |ranked|)];
  }

  /** The first row of a non-empty top table scores at least as much as every location in the store. */
  lemma {:induction false} TopRowIsMaximum(store: Store, n: int, rows: seq<LocationRow>)
    requires IsTopTable(store, n, rows) && rows != []
    ensures forall loc :: loc in store ==> store[loc].score <= rows[0].totalScore
  {
    forall loc | loc in store ensures store[loc].score <= rows[0].totalScore {
      if loc in Listed(rows) {
        var i :| 0 <= i < |rows| && rows[i].location == loc;
        assert rows[i].totalScore == store[loc].score;
      }
    }
  }

  /** A row with its share of the table's total score and its confidence tier. */
  datatype RankedRow = RankedRow(row: LocationRow, estimatedPercentage: real, confidenceLevel: Tier)

  /** The rows of a ranked table, without percentages and tiers. */
  function RowsOf(ranked: seq<RankedRow>): (rows: seq<LocationRow>)
    ensures |rows| == |ranked|
    ensures forall i :: 0 <= i < |ranked| ==> rows[i] == ranked[i].row
  {
    if ranked == [] then [] else [ranked[0].row] + RowsOf(ranked[1..])
  }

  /** The sum of the total scores of `rows`. */
  function ScoreTotal(rows: seq<LocationRow>): real {
    if rows == [] then 0.0 else rows[0].totalScore + ScoreTotal(rows[1..])
  }

  /** The sum of the percentages of `ranked`. */
  function PercentageTotal(ranked: seq<RankedRow>): real {
    if ranked == [] then 0.0 else ranked[0].estimatedPercentage + PercentageTotal(ranked[1..])
  }

  /** Each row with its score as a percentage of `total` and its tier. */
  function WithPercentages(rows: seq<LocationRow>, total: real): (ranked: seq<RankedRow>)
    requires total != 0.0
    ensures |ranked| == |rows|
    ensures forall i :: 0 <= i < |rows| ==> ranked[i].row == rows[i]
    ensures forall i :: 0 <= i < |rows| ==> ranked[i].estimatedPercentage == rows[i].totalScore / total * 100.0
    ensures forall i :: 0 <= i < |rows| ==> ranked[i].confidenceLevel == ConfidenceLevel(rows[i].totalScore, rows[i].mentionCount)
  {
    if rows == [] then []
    else
      [RankedRow(rows[0], rows[0].totalScore / total * 100.0, ConfidenceLevel(rows[0].totalScore, rows[0].mentionCount))]
      + WithPercentages(rows[1..], total)
  }

  /** Shares of a common total add up like the amounts. */
  lemma ShareAdds(a: real, b: real, total: real)
    requires total != 0.0
    ensures a / total * 100.0 + b / total * 100.0 == (a + b) / total * 100.0
  {
    assert a == (a / total) * total;
    assert b == (b / total) * total;
    assert a + b == (a / total + b / total) * total;
  }

  /** The whole of a total is 100 percent of it. */
  lemma WholeShare(total: real)
    requires total != 0.0
    ensures total / total * 100.0 == 100.0
  {
  }

  /** A positive part of a total is a percentage in (0, 100]. */
  lemma ShareBounds(a: real, total: real)
    requires 0.0 < a <= total
    ensures 0.0 < a / total * 100.0 <= 100.0
  {
    DivAtMost(a, total, 1.0);
    assert a == (a / total) * total;
  }

  /** The percentages of rows scaled by `total` add up to their summed score as a percentage of `total`. */
  lemma {:induction false} PercentageTotalScales(rows: seq<LocationRow>, total: real)
    requires total != 0.0
    ensures PercentageTotal(WithPercentages(rows, total)) == ScoreTotal(rows) / total * 100.0
  {
    if rows != [] {
      PercentageTotalScales(rows[1..], total);
      assert WithPercentages(rows, total)[1..] == WithPercentages(rows[1..], total);
      ShareAdds(rows[0].totalScore, ScoreTotal(rows[1..]), total);
    }
  }

  /** A non-empty table of positive scores has a positive total. */
  lemma {:induction false} ScoreTotalPositive(rows: seq<LocationRow>)
    requires forall i :: 0 <= i < |rows| ==> rows[i].totalScore > 0.0
    ensures rows != [] ==> ScoreTotal(rows) > 0.0
    ensures forall i :: 0 <= i < |rows| ==> rows[i].totalScore <= ScoreTotal(rows)
  {
    if rows != [] {
      ScoreTotalPositive(rows[1..]);
      forall i | 1 <= i < |rows| ensures rows[i].totalScore <= ScoreTotal(rows) {
        assert rows[1..][i - 1] == rows[i];
      }
    }
  }

  /** The shares of a non-empty table of positive scores add up to 100. */
  lemma {:induction false} SharesAddUpTo100(rows: seq<LocationRow>)
    requires rows != []
    requires forall i :: 0 <= i < |rows| ==> rows[i].totalScore > 0.0
    ensures ScoreTotal(rows) != 0.0 && PercentageTotal(WithPercentages(rows, ScoreTotal(rows))) == 100.0
  {
    var total := ScoreTotal(rows);
    ScoreTotalPositive(rows);
    PercentageTotalScales(rows, total);
    WholeShare(total);
  }

  /** Each share of a table of positive scores lies in (0, 100]. */
  lemma {:induction false} SharesBounded(rows: seq<LocationRow>)
    requires rows != []
    requires forall i :: 0 <= i < |rows| ==> rows[i].totalScore > 0.0
    ensures ScoreTotal(rows) > 0.0
    ensures forall i :: 0 <= i < |rows| ==> 0.0 < rows[i].totalScore / ScoreTotal(rows) * 100.0 <= 100.0
  {
    ScoreTotalPositive(rows);
    forall i | 0 <= i < |rows| ensures 0.0 < rows[i].totalScore / ScoreTotal(rows) * 100.0 <= 100.0 {
      ShareBounds(rows[i].totalScore, ScoreTotal(rows));
    }
  }

  /**
   * The distribution table of a top-n table whose scores are positive: each
   * row's share of the table's total score, as a percentage, and its tier.
   */
  function Normalize(rows: seq<LocationRow>): (ranked: seq<RankedRow>)
    requires forall i :: 0 <= i < |rows| ==> rows[i].totalScore > 0.0
    ensures |ranked| == |rows|
    ensures forall i :: 0 <= i < |rows| ==> ranked[i].row == rows[i]
    ensures rows != [] ==> ScoreTotal(rows) > 0.0 && PercentageTotal(ranked) == 100.0
    ensures forall i :: 0 <= i < |rows| ==> 0.0 < ranked[i].estimatedPercentage <= 100.0
    ensures forall i :: 0 <= i < |rows| ==>
      ranked[i].estimatedPercentage == rows[i].totalScore / ScoreTotal(rows) * 100.0
    ensures forall i :: 0 <= i < |rows| ==>
      ranked[i].confidenceLevel == ConfidenceLevel(rows[i].totalScore, rows[i].mentionCount)
  {
    if rows == [] then []
    else
      SharesBounded(rows);
      SharesAddUpTo100(rows);
      WithPercentages(rows, ScoreTotal(rows))
  }
}
