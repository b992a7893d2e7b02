// Retrieval-quality metrics for the retrieval-augmented generation search
// (lib/utils/rag-metrics.ts): recall@K, precision@K, mean reciprocal rank,
// F1, discounted cumulative gain and its normalised form, aggregation over
// several queries, and the threshold check used by the quality tests.
//
// Identifiers are strings; scores are exact reals. Math.log2 is not
// interpreted: DCG takes it as a parameter that is at least 1 from 2 upwards.

module RagMetrics {
  import opened Common

  type DocId = string

  /** `results.slice(0, k)`. */
  function TopK(results: seq<DocId>, k: nat): (r: seq<DocId>)
    ensures |r| == Min(k, |results|)
    ensures r == results[..|r|]
  {
    if k <= |results| then results[..k] else results
  }

  /** Positions of `retrieved` whose id is in the ground truth; a repeated id counts at each position. */
  function Hits(retrieved: seq<DocId>, groundTruth: seq<DocId>): (n: nat)
    ensures n <= |retrieved|
    ensures n == 0 <==> forall i :: 0 <= i < |retrieved| ==> retrieved[i] !in groundTruth
  {
    if retrieved == [] then 0
    else
      var last := retrieved[|retrieved| - 1];
      var n := Hits(retrieved[..|retrieved| - 1], groundTruth) + (if last in groundTruth then 1 else 0);
      assert forall i :: 0 <= i < |retrieved| - 1 ==> retrieved[..|retrieved| - 1][i] == retrieved[i];
      n
  }

  // ----- recall@K -----

  /** calculateRecallAtK. */
  function RecallAtK(results: seq<DocId>, groundTruth: seq<DocId>, k: nat): (r: real)
    ensures r >= 0.0
    ensures r == 0.0 <==> groundTruth == [] || Hits(TopK(results, k), groundTruth) == 0
  {
    if |groundTruth| == 0 then 0.0
    else Hits(TopK(results, k), groundTruth) as real / |groundTruth| as real
  }

  /** Hits counts the retrieved ids that are in the ground truth. */
  lemma {:induction false} HitsIsCount(retrieved: seq<DocId>, groundTruth: seq<DocId>)
    ensures Hits(retrieved, groundTruth) == CountWhere(retrieved, x => x in groundTruth)
  {
    if retrieved != [] {
      HitsIsCount(retrieved[..|retrieved| - 1], groundTruth);
    }
  }

  /** With distinct ids, the hits are the distinct members `found` of the ground truth among them. */
  lemma {:induction false} HitsOfDistinct(t: seq<DocId>, groundTruth: seq<DocId>, found: set<DocId>)
    requires NoDuplicates(t)
    requires forall x :: x in found <==> x in t && x in groundTruth
    ensures Hits(t, groundTruth) == |found|
  {
    HitsIsCount(t, groundTruth);
    CountWhereDistinct(t, x => x in groundTruth, found);
  }

  /** Distinct retrieved ids hit at most as many positions as the ground truth has. */
  lemma {:induction false} HitsOfDistinctBounded(t: seq<DocId>, groundTruth: seq<DocId>)
    requires NoDuplicates(t)
    ensures Hits(t, groundTruth) <= |groundTruth|
  {
    var found := set x | x in t && x in groundTruth;
    var relevant := set x | x in groundTruth;
    HitsOfDistinct(t, groundTruth, found);
    SubsetCardinality(found, relevant);
    ElementsCardinality(groundTruth);
  }

  /** Recall lies in [0, 1] when the top K results hold no repeated id. */
  lemma {:induction false} RecallAtMostOne(results: seq<DocId>, groundTruth: seq<DocId>, k: nat)
    requires NoDuplicates(TopK(results, k))
    ensures 0.0 <= RecallAtK(results, groundTruth, k) <= 1.0
  {
    if groundTruth != [] {
      var h := Hits(TopK(results, k), groundTruth);
      HitsOfDistinctBounded(TopK(results, k), groundTruth);
      RatioInUnit(h, |groundTruth|);
    }
  }

  /** A repeated relevant id is counted at each position, so recall can exceed 1. */
  lemma {:induction false} RecallExceedsOneWithDuplicates()
    ensures RecallAtK(["doc1", "doc1"], ["doc1"], 5) == 2.0
  {
    assert TopK(["doc1", "doc1"], 5) == ["doc1", "doc1"];
    assert Hits(["doc1"], ["doc1"]) == 1;
  }

  // ----- precision@K -----

  /**
   * calculatePrecisionAtK as written: with k > 0 and no results the quotient
   * is 0 / 0, which is NaN in JavaScript (None here).
   */
  function PrecisionAtKAsWritten(results: seq<DocId>, groundTruth: seq<DocId>, k: nat): (p: Option<real>)
    ensures p.None? <==> k > 0 && results == []
  {
    if k == 0 then Some(0.0)
    else
      var topK := TopK(results, k);
      if |topK| == 0 then None
      else Some(Hits(topK, groundTruth) as real / Min(k, |topK|) as real)
  }

  /** calculatePrecisionAtK with the empty-result case answered by 0, as the "0 for k = 0" case is. */
  function PrecisionAtK(results: seq<DocId>, groundTruth: seq<DocId>, k: nat): (p: real)
    ensures 0.0 <= p <= 1.0
    ensures p == 0.0 <==> k == 0 || Hits(TopK(results, k), groundTruth) == 0
  {
    var topK := TopK(results, k);
    if k == 0 || |topK| == 0 then 0.0
    else
      var hits := Hits(topK, groundTruth);
      RatioInUnit(hits, |topK|);
      hits as real / |topK| as real
  }

  /** The corrected precision agrees with the source wherever the source yields a number. */
  lemma {:induction false} PrecisionAgreesWhereDefined(results: seq<DocId>, groundTruth: seq<DocId>, k: nat)
    ensures PrecisionAtKAsWritten(results, groundTruth, k).Some? ==>
      PrecisionAtKAsWritten(results, groundTruth, k).value == PrecisionAtK(results, groundTruth, k)
  {
  }

  /** The input that shows the 0 / 0: one relevant id, no results, the default k of 5. */
  lemma {:induction false} PrecisionNaNOnEmptyResults()
    ensures PrecisionAtKAsWritten([], ["doc1"], 5).None?
    ensures PrecisionAtK([], ["doc1"], 5) == 0.0
  {
  }

  // ----- mean reciprocal rank -----

  /** Index of the first result that is relevant, if any. */
  function FirstRelevant(results: seq<DocId>, groundTruth: seq<DocId>): (r: Option<nat>)
    ensures r.Some? ==> r.value < |results| && results[r.value] in groundTruth
    ensures r.Some? ==> forall j :: 0 <= j < r.value ==> results[j] !in groundTruth
    ensures r.None? ==> forall j :: 0 <= j < |results| ==> results[j] !in groundTruth
  {
    if results == [] then None
    else if results[0] in groundTruth then Some(0)
    else match FirstRelevant(results[1..], groundTruth)
      case None => None
      case Some(i) => Some(i + 1)
  }

  /** The reciprocal rank of the first relevant result, 0 if there is none. */
  function Mrr(results: seq<DocId>, groundTruth: seq<DocId>): (m: real)
    ensures 0.0 <= m <= 1.0
  {
    match FirstRelevant(results, groundTruth)
    case None => 0.0
    case Some(i) => 1.0 / (i + 1) as real
  }

  /** calculateMRR: scan the results and stop at the first relevant one. */
  method CalculateMrr(results: seq<DocId>, groundTruth: seq<DocId>) returns (mrr: real)
    ensures mrr == Mrr(results, groundTruth)
  {
    var i := 0;
    while i < |results|
      invariant 0 <= i <= |results|
      invariant forall j :: 0 <= j < i ==> results[j] !in groundTruth
    {
      if results[i] in groundTruth {
        return 1.0 / (i + 1) as real;
      }
      i := i + 1;
    }
    return 0.0;
  }

  /** MRR is 1 exactly when the top result is relevant, and 0 exactly when no result is. */
  lemma {:induction false} MrrExtremes(results: seq<DocId>, groundTruth: seq<DocId>)
    ensures Mrr(results, groundTruth) == 1.0 <==> results != [] && results[0] in groundTruth
    ensures Mrr(results, groundTruth) == 0.0 <==> forall j :: 0 <= j < |results| ==> results[j] !in groundTruth
  {
    match FirstRelevant(results, groundTruth)
    case None =>
    case Some(i) =>
      if i > 0 {
        assert (i + 1) as real > 1.0;
        assert 1.0 / (i + 1) as real < 1.0;
      }
  }

  // ----- F1 -----

  /** calculateF1Score: the harmonic mean of precision and recall, 0 when both are 0. */
  function F1Score(precision: real, recall: real): (f: real)
    ensures precision + recall == 0.0 ==> f == 0.0
  {
    if precision + recall == 0.0 then 0.0
    else (2.0 * precision * recall) / (precision + recall)
  }

  lemma {:induction false} F1Symmetric(p: real, r: real)
    ensures F1Score(p, r) == F1Score(r, p)
  {
  }

  lemma {:induction false} F1OfEqual(p: real)
    ensures F1Score(p, p) == p
  {
    if p != 0.0 {
      calc {
        F1Score(p, p);
        (2.0 * p * p) / (p + p);
        { assert 2.0 * p * p == p * (p + p); }
        p;
      }
    }
  }

  /** For non-negative inputs, F1 lies between the smaller and the larger of the two. */
  lemma {:induction false} F1Between(p: real, r: real)
    requires p >= 0.0 && r >= 0.0
    ensures MinReal(p, r) <= F1Score(p, r) <= MaxReal(p, r)
  {
    if p + r != 0.0 {
      var lo, hi := MinReal(p, r), MaxReal(p, r);
      assert p * r <= hi * r && p * r <= p * hi;
      assert p * r >= lo * r && p * r >= p * lo;
      assert 2.0 * p * r <= hi * (p + r);
      assert 2.0 * p * r >= lo * (p + r);
    }
  }

  // ----- per-query metrics -----

  datatype Metrics = Metrics(
    recallAtK: real,
    precisionAtK: real,
    mrr: real,
    f1Score: real,
    hits: nat,
    totalRelevant: nat,
    totalRetrieved: nat)

  /** calculateRAGMetrics. */
  function CalculateRagMetrics(results: seq<DocId>, groundTruth: seq<DocId>, k: nat): (m: Metrics)
    ensures m.totalRetrieved == Min(k, |results|)
    ensures m.totalRelevant == |groundTruth|
    ensures m.hits <= m.totalRetrieved
    ensures 0.0 <= m.precisionAtK <= 1.0 && 0.0 <= m.mrr <= 1.0
    ensures m.totalRelevant > 0 ==> m.recallAtK == m.hits as real / m.totalRelevant as real
  {
    var hits := Hits(TopK(results, k), groundTruth);
    var recall := RecallAtK(results, groundTruth, k);
    var precision := PrecisionAtK(results, groundTruth, k);
    Metrics(recall, precision, Mrr(results, groundTruth), F1Score(precision, recall),
            hits, |groundTruth|, Min(k, |results|))
  }

  // ----- discounted cumulative gain -----

  /** The logarithm the discount divides by, taken as given: at least 1 from 2 upwards, as log2 is. */
  ghost predicate Log2Like(log2: nat -> real)
  {
    forall n: nat :: n >= 2 ==> log2(n) >= 1.0
  }

  /** Sum over the first n positions of relevance / log2(position + 1), positions counted from 1. */
  function DcgPrefix(scores: seq<real>, n: nat, log2: nat -> real): real
    requires n <= |scores| && Log2Like(log2)
  {
    if n == 0 then 0.0 else DcgPrefix(scores, n - 1, log2) + scores[n - 1] / log2(n + 1)
  }

  /** DCG over the first `limit` scores (all of them when fewer). */
  function Dcg(scores: seq<real>, limit: nat, log2: nat -> real): real
    requires Log2Like(log2)
  {
    DcgPrefix(scores, Min(limit, |scores|), log2)
  }

  /** calculateDCG: the loop accumulating `dcg`; `k` absent means every score. */
  method CalculateDcg(scores: seq<real>, k: Option<nat>, log2: nat -> real) returns (dcg: real)
    requires Log2Like(log2)
    ensures dcg == Dcg(scores, if k.Some? then k.value else |scores|, log2)
  {
    var limit := if k.Some? then k.value else |scores|;
    var n := Min(limit, |scores|);
    dcg := 0.0;
    var i := 0;
    while i < n
      invariant 0 <= i <= n
      invariant dcg == DcgPrefix(scores, i, log2)
    {
      dcg := dcg + scores[i] / log2(i + 2);
      i := i + 1;
    }
  }

  /** Non-negative relevance scores give a non-negative DCG. */
  lemma {:induction false} DcgPrefixNonNegative(scores: seq<real>, n: nat, log2: nat -> real)
    requires n <= |scores| && Log2Like(log2)
    requires forall i :: 0 <= i < |scores| ==> scores[i] >= 0.0
    ensures DcgPrefix(scores, n, log2) >= 0.0
  {
    if n > 0 {
      DcgPrefixNonNegative(scores, n - 1, log2);
      assert log2(n + 1) >= 1.0;
    }
  }

  predicate SortedDescending(s: seq<real>)
  {
    forall i, j :: 0 <= i < j < |s| ==> s[i] >= s[j]
  }

  function InsertDescending(x: real, s: seq<real>): (r: seq<real>)
    requires SortedDescending(s)
    ensures |r| == |s| + 1 && (r[0] == x || (s != [] && r[0] == s[0]))
    ensures SortedDescending(r) && multiset(r) == multiset(s) + multiset{x}
  {
    if s == [] || x >= s[0] then [x] + s
    else
      var rest := InsertDescending(x, s[1..]);
      assert s == [s[0]] + s[1..];
      assert rest[0] <= s[0];
      [s[0]] + rest
  }

  /** `[...scores].sort((a, b) => b - a)`: a descending, stable sort of a copy. */
  function SortDescending(s: seq<real>): (r: seq<real>)
    ensures SortedDescending(r) && multiset(r) == multiset(s)
  {
    if s == [] then []
    else
      assert s == [s[0]] + s[1..];
      InsertDescending(s[0], SortDescending(s[1..]))
  }

  /** Sorting an already descending sequence leaves it unchanged. */
  lemma {:induction false} SortDescendingOfSorted(s: seq<real>)
    requires SortedDescending(s)
    ensures SortDescending(s) == s
  {
    if s != [] {
      SortDescendingOfSorted(s[1..]);
      assert SortDescending(s[1..]) == s[1..];
      assert s == [s[0]] + s[1..];
    }
  }

  datatype Ndcg = Ndcg(ndcgAtK: real, dcgAtK: real, idcgAtK: real)

  /** The normalised DCG: DCG over DCG of the ideal (descending) order, 0 when the ideal is 0. */
  function NdcgOf(scores: seq<real>, k: Option<nat>, log2: nat -> real): (m: Ndcg)
    requires Log2Like(log2)
    ensures m.idcgAtK == 0.0 ==> m.ndcgAtK == 0.0
    ensures m.idcgAtK != 0.0 ==> m.ndcgAtK * m.idcgAtK == m.dcgAtK
  {
    var limit := if k.Some? then k.value else |scores|;
    var dcg := Dcg(scores, limit, log2);
    var idcg := Dcg(SortDescending(scores), limit, log2);
    Ndcg(if idcg == 0.0 then 0.0 else dcg / idcg, dcg, idcg)
  }

  /** calculateNDCG. */
  method CalculateNdcg(scores: seq<real>, k: Option<nat>, log2: nat -> real) returns (m: Ndcg)
    requires Log2Like(log2)
    ensures m == NdcgOf(scores, k, log2)
  {
    var limit := if k.Some? then k.value else |scores|;
    var dcg := CalculateDcg(scores, Some(limit), log2);
    var sorted := SortDescending(scores);
    var idcg := CalculateDcg(sorted, Some(limit), log2);
    m := Ndcg(if idcg == 0.0 then 0.0 else dcg / idcg, dcg, idcg);
  }

  /** Scores already in descending order are their own ideal order, so DCG equals IDCG. */
  lemma {:induction false} DcgOfIdealOrder(scores: seq<real>, k: Option<nat>, log2: nat -> real)
    requires Log2Like(log2) && SortedDescending(scores)
    ensures NdcgOf(scores, k, log2).dcgAtK == NdcgOf(scores, k, log2).idcgAtK
  {
    SortDescendingOfSorted(scores);
  }

  /** For scores in descending order NDCG is 1, unless IDCG is 0 (then NDCG is 0). */
  lemma {:induction false} NdcgOfIdealOrder(scores: seq<real>, k: Option<nat>, log2: nat -> real)
    requires Log2Like(log2) && SortedDescending(scores)
    ensures NdcgOf(scores, k, log2).idcgAtK != 0.0 ==> NdcgOf(scores, k, log2).ndcgAtK == 1.0
  {
    var m := NdcgOf(scores, k, log2);
    DcgOfIdealOrder(scores, k, log2);
    if m.idcgAtK != 0.0 {
      assert m.ndcgAtK * m.idcgAtK == m.idcgAtK;
    }
  }

  // ----- aggregation -----

  datatype Aggregate = Aggregate(metrics: Metrics, queryCount: nat)

  function RecallOf(m: Metrics): real { m.recallAtK }
  function PrecisionOf(m: Metrics): real { m.precisionAtK }
  function MrrOf(m: Metrics): real { m.mrr }
  function F1Of(m: Metrics): real { m.f1Score }
  function HitsOf(m: Metrics): int { m.hits }
  function RelevantOf(m: Metrics): int { m.totalRelevant }
  function RetrievedOf(m: Metrics): int { m.totalRetrieved }

  /** aggregateRAGMetrics over the metrics of each evaluation. */
  function AggregateRagMetrics(evaluations: seq<Metrics>): (a: Aggregate)
    ensures a.queryCount == |evaluations|
    ensures evaluations == [] ==> a.metrics == Metrics(0.0, 0.0, 0.0, 0.0, 0, 0, 0)
  {
    if evaluations == [] then Aggregate(Metrics(0.0, 0.0, 0.0, 0.0, 0, 0, 0), 0)
    else
      var n := |evaluations| as real;
      SumIntNonNegative(evaluations, HitsOf);
      SumIntNonNegative(evaluations, RelevantOf);
      SumIntNonNegative(evaluations, RetrievedOf);
      Aggregate(
        Metrics(
          SumReal(evaluations, RecallOf) / n,
          SumReal(evaluations, PrecisionOf) / n,
          SumReal(evaluations, MrrOf) / n,
          SumReal(evaluations, F1Of) / n,
          SumInt(evaluations, HitsOf),
          SumInt(evaluations, RelevantOf),
          SumInt(evaluations, RetrievedOf)),
        |evaluations|)
  }

  /** Aggregating one evaluation reproduces it. */
  lemma {:induction false} AggregateOfOne(m: Metrics)
    ensures AggregateRagMetrics([m]) == Aggregate(m, 1)
  {
    assert [m][..0] == [];
    assert SumReal([m], RecallOf) == m.recallAtK;
    assert SumReal([m], PrecisionOf) == m.precisionAtK;
    assert SumReal([m], MrrOf) == m.mrr;
    assert SumReal([m], F1Of) == m.f1Score;
    assert SumInt([m], HitsOf) == m.hits;
    assert SumInt([m], RelevantOf) == m.totalRelevant;
    assert SumInt([m], RetrievedOf) == m.totalRetrieved;
  }

  /** Each mean metric stays within the bounds every query meets. */
  lemma {:induction false} AggregateMeansBounded(evaluations: seq<Metrics>, lo: real, hi: real)
    requires evaluations != [] && lo <= hi
    requires forall m :: m in evaluations ==>
      lo <= m.recallAtK <= hi && lo <= m.precisionAtK <= hi && lo <= m.mrr <= hi && lo <= m.f1Score <= hi
    ensures var a := AggregateRagMetrics(evaluations).metrics;
      lo <= a.recallAtK <= hi && lo <= a.precisionAtK <= hi && lo <= a.mrr <= hi && lo <= a.f1Score <= hi
  {
    MeanBounds(evaluations, RecallOf, lo, hi);
    MeanBounds(evaluations, PrecisionOf, lo, hi);
    MeanBounds(evaluations, MrrOf, lo, hi);
    MeanBounds(evaluations, F1Of, lo, hi);
  }

  // ----- single-query evaluation -----

  datatype Evaluation = Evaluation(
    query: string,
    retrievedIds: seq<DocId>,
    relevantIds: seq<DocId>,
    metrics: Metrics,
    ndcg: Option<Ndcg>)

  /** evaluateRAGQuery: NDCG is present exactly when relevance scores are supplied (an empty list counts). */
  function EvaluateRagQuery(query: string, retrievedIds: seq<DocId>, relevantIds: seq<DocId>, k: nat,
                            relevanceScores: Option<seq<real>>, log2: nat -> real): (e: Evaluation)
    requires Log2Like(log2)
    ensures e.retrievedIds == TopK(retrievedIds, k) && |e.retrievedIds| == e.metrics.totalRetrieved
    ensures e.ndcg.Some? <==> relevanceScores.Some?
    ensures e.metrics == CalculateRagMetrics(retrievedIds, relevantIds, k)
  {
    Evaluation(query, TopK(retrievedIds, k), relevantIds,
               CalculateRagMetrics(retrievedIds, relevantIds, k),
               if relevanceScores.Some? then Some(NdcgOf(relevanceScores.value, Some(k), log2)) else None)
  }

  // ----- quality thresholds -----

  datatype MetricName = Recall | Precision | MeanReciprocalRank | F1

  datatype Thresholds = Thresholds(
    minRecall: Option<real>,
    minPrecision: Option<real>,
    minMrr: Option<real>,
    minF1: Option<real>)

  /** One line of the thrown message: which metric, its value, and the threshold it missed. */
  datatype QualityError = QualityError(metric: MetricName, value: real, threshold: real)

  function ValueOf(m: Metrics, name: MetricName): real
  {
    match name
    case Recall => m.recallAtK
    case Precision => m.precisionAtK
    case MeanReciprocalRank => m.mrr
    case F1 => m.f1Score
  }

  function ThresholdOf(t: Thresholds, name: MetricName): Option<real>
  {
    match name
    case Recall => t.minRecall
    case Precision => t.minPrecision
    case MeanReciprocalRank => t.minMrr
    case F1 => t.minF1
  }

  /** A supplied threshold that the metric falls below. */
  predicate Fails(m: Metrics, t: Thresholds, name: MetricName)
  {
    ThresholdOf(t, name).Some? && ValueOf(m, name) < ThresholdOf(t, name).value
  }

  function ErrorFor(m: Metrics, t: Thresholds, name: MetricName): QualityError
    requires ThresholdOf(t, name).Some?
  {
    QualityError(name, ValueOf(m, name), ThresholdOf(t, name).value)
  }

  function Rank(name: MetricName): nat
  {
    match name
    case Recall => 0
    case Precision => 1
    case MeanReciprocalRank => 2
    case F1 => 3
  }

  /** The error line for `name` if it fails, and nothing otherwise. */
  function ErrorIfFails(m: Metrics, t: Thresholds, name: MetricName): (r: seq<QualityError>)
    ensures |r| <= 1
    ensures r != [] <==> Fails(m, t, name)
    ensures r != [] ==> r[0] == ErrorFor(m, t, name)
  {
    if Fails(m, t, name) then [ErrorFor(m, t, name)] else []
  }

  /** The errors assertRAGQuality collects, in the order it checks the metrics. */
  function QualityErrors(m: Metrics, t: Thresholds): seq<QualityError>
  {
    ErrorIfFails(m, t, Recall) + ErrorIfFails(m, t, Precision)
    + ErrorIfFails(m, t, MeanReciprocalRank) + ErrorIfFails(m, t, F1)
  }

  /** Every collected error names a failing metric and reports its value and threshold. */
  lemma {:induction false} QualityErrorsSound(m: Metrics, t: Thresholds)
    ensures forall e :: e in QualityErrors(m, t) ==> Fails(m, t, e.metric) && e == ErrorFor(m, t, e.metric)
  {
    forall e | e in QualityErrors(m, t)
      ensures Fails(m, t, e.metric) && e == ErrorFor(m, t, e.metric)
    {
      var r, p, mrr, f := ErrorIfFails(m, t, Recall), ErrorIfFails(m, t, Precision),
                          ErrorIfFails(m, t, MeanReciprocalRank), ErrorIfFails(m, t, F1);
      assert e in r || e in p || e in mrr || e in f;
    }
  }

  /** Every failing metric has its error among those collected. */
  lemma {:induction false} QualityErrorsComplete(m: Metrics, t: Thresholds)
    ensures forall name :: Fails(m, t, name) ==> ErrorFor(m, t, name) in QualityErrors(m, t)
    ensures QualityErrors(m, t) == [] <==> forall name :: !Fails(m, t, name)
  {
    var r, p, mrr, f := ErrorIfFails(m, t, Recall), ErrorIfFails(m, t, Precision),
                        ErrorIfFails(m, t, MeanReciprocalRank), ErrorIfFails(m, t, F1);
    forall name | Fails(m, t, name) ensures ErrorFor(m, t, name) in QualityErrors(m, t) {
      match name
      case Recall => assert r[0] in QualityErrors(m, t);
      case Precision => assert QualityErrors(m, t) == r + p + mrr + f && p[0] in p;
      case MeanReciprocalRank => assert QualityErrors(m, t) == r + p + mrr + f && mrr[0] in mrr;
      case F1 => assert QualityErrors(m, t) == r + p + mrr + f && f[0] in f;
    }
    if QualityErrors(m, t) != [] {
      QualityErrorsSound(m, t);
      assert QualityErrors(m, t)[0] in QualityErrors(m, t);
    }
  }

  predicate RankIncreasing(errors: seq<QualityError>)
  {
    forall i, j :: 0 <= i < j < |errors| ==> Rank(errors[i].metric) < Rank(errors[j].metric)
  }

  /** Appending at most one error of a higher rank keeps the ranks increasing. */
  lemma {:induction false} AppendHigherRank(errors: seq<QualityError>, next: seq<QualityError>, rank: nat)
    requires RankIncreasing(errors) && forall e :: e in errors ==> Rank(e.metric) < rank
    requires |next| <= 1 && forall e :: e in next ==> Rank(e.metric) == rank
    ensures RankIncreasing(errors + next) && forall e :: e in errors + next ==> Rank(e.metric) <= rank
  {
    if next != [] {
      forall i, j | 0 <= i < j < |errors + next|
        ensures Rank((errors + next)[i].metric) < Rank((errors + next)[j].metric)
      {
        if j == |errors| {
          assert (errors + next)[i] == errors[i] && errors[i] in errors;
        }
      }
    }
  }

  /** The errors come in the fixed order recall, precision, MRR, F1, each at most once. */
  lemma {:induction false} QualityErrorsOrdered(m: Metrics, t: Thresholds)
    ensures RankIncreasing(QualityErrors(m, t))
  {
    var r, p, mrr, f := ErrorIfFails(m, t, Recall), ErrorIfFails(m, t, Precision),
                        ErrorIfFails(m, t, MeanReciprocalRank), ErrorIfFails(m, t, F1);
    AppendHigherRank([], r, 0);
    assert [] + r == r;
    AppendHigherRank(r, p, 1);
    AppendHigherRank(r + p, mrr, 2);
    AppendHigherRank(r + p + mrr, f, 3);
  }

  /**
   * assertRAGQuality: collect one error per failing metric in the order
   * recall, precision, MRR, F1; the check throws exactly when one was collected.
   */
  method AssertRagQuality(m: Metrics, t: Thresholds) returns (errors: seq<QualityError>, throws: bool)
    ensures errors == QualityErrors(m, t)
    ensures throws <==> exists name :: Fails(m, t, name)
  {
    errors := [];
    if t.minRecall.Some? && m.recallAtK < t.minRecall.value {
      errors := errors + [QualityError(Recall, m.recallAtK, t.minRecall.value)];
    }
    assert errors == ErrorIfFails(m, t, Recall);
    if t.minPrecision.Some? && m.precisionAtK < t.minPrecision.value {
      errors := errors + [QualityError(Precision, m.precisionAtK, t.minPrecision.value)];
    }
    assert errors == ErrorIfFails(m, t, Recall) + ErrorIfFails(m, t, Precision);
    if t.minMrr.Some? && m.mrr < t.minMrr.value {
      errors := errors + [QualityError(MeanReciprocalRank, m.mrr, t.minMrr.value)];
    }
    assert errors == ErrorIfFails(m, t, Recall) + ErrorIfFails(m, t, Precision) + ErrorIfFails(m, t, MeanReciprocalRank);
    if t.minF1.Some? && m.f1Score < t.minF1.value {
      errors := errors + [QualityError(F1, m.f1Score, t.minF1.value)];
    }
    throws := |errors| > 0;
    QualityErrorsComplete(m, t);
  }

  /**
   * As written, a NaN precision can never be "below" a threshold, so the
   * check lets an empty result list through whatever minimum precision is set.
   */
  lemma {:induction false} NaNPrecisionPassesEveryThreshold(minPrecision: real)
    ensures PrecisionAtKAsWritten([], ["doc1"], 5).None?
    ensures PrecisionAtK([], ["doc1"], 5) == 0.0
    ensures minPrecision > 0.0 ==>
      Fails(CalculateRagMetrics([], ["doc1"], 5), Thresholds(None, Some(minPrecision), None, None), Precision)
  {
  }
}
