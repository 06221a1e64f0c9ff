/** The insight pipeline's handler (ml-lambda2.py): the cache decision, the
    minimum-sample gate, the sizes and guards around the statistical analyses,
    and the record stored in the result cache. The fitted models themselves
    are not modelled; each analysis is represented by the data and the
    parameters it is handed. */
module InsightPipeline {
  import opened Common
  import opened InsightFeatures
  import opened InsightStatistics

  /** Why the handler did or did not recompute; the source words these as
      "No existing results", "No new matches", "<n> new matches" and
      "Only <n> new matches - using cache". */
  datatype Reason = NoExistingResults | NoNewMatches | NewMatches(count: nat) | OnlyFewNewMatches(count: nat)

  datatype Decision = Decision(recompute: bool, reason: Reason)

  /** Fewest new matches that justify a recomputation. */
  const NEW_MATCH_THRESHOLD: nat := 3
  /** Fewest feature rows the analyses are run on. */
  const MIN_SAMPLES: nat := 3
  /** Fewest rows the nearest-neighbour check is run on. */
  const KNN_MIN_SAMPLES: nat := 5

  /** Column order of the feature matrix handed to every analysis. */
  const FEATURE_NAMES: seq<string> := ["kills", "deaths", "assists", "cs", "gold", "damage", "vision",
                                       "kda", "cs_per_min", "gold_per_min", "damage_per_min"]

  /** `should_recompute_ml`: compare the ids of the new matches with the ids
      recorded in the cached result. */
  function ShouldRecompute(newIds: seq<string>, cached: Option<AnalysisRecord>): (d: Decision)
    ensures cached.None? ==> d == Decision(true, NoExistingResults)
    ensures cached.Some? && SetOf(newIds) == SetOf(cached.value.processedMatchIds) ==>
      d == Decision(false, NoNewMatches)
    ensures d.recompute <==>
      cached.None? || |SetOf(newIds) - SetOf(cached.value.processedMatchIds)| >= NEW_MATCH_THRESHOLD
    ensures cached.Some? && SetOf(newIds) <= SetOf(cached.value.processedMatchIds) ==> !d.recompute
  {
    match cached
    case None => Decision(true, NoExistingResults)
    case Some(record) =>
      var newSet := SetOf(newIds);
      var oldSet := SetOf(record.processedMatchIds);
      if newSet == oldSet then Decision(false, NoNewMatches)
      else
        var newCount := |newSet - oldSet|;
        if newCount >= NEW_MATCH_THRESHOLD then Decision(true, NewMatches(newCount))
        else Decision(false, OnlyFewNewMatches(newCount))
  }

  /** Cached {A, B, C}, new {A, B, C}: nothing new, the cache is used. */
  lemma SameIdsUseCache(record: AnalysisRecord)
    requires record.processedMatchIds == ["A", "B", "C"]
    ensures ShouldRecompute(["A", "B", "C"], Some(record)) == Decision(false, NoNewMatches)
  {
  }

  /** Cached {A, B, C}, new {A, ..., F}: three new matches, recompute. */
  lemma ThreeNewIdsRecompute(record: AnalysisRecord)
    requires record.processedMatchIds == ["A", "B", "C"]
    ensures ShouldRecompute(["A", "B", "C", "D", "E", "F"], Some(record)) == Decision(true, NewMatches(3))
  {
    var newSet := SetOf(["A", "B", "C", "D", "E", "F"]);
    var oldSet := SetOf(["A", "B", "C"]);
    assert "D" in newSet && "E" in newSet && "F" in newSet;
    assert newSet - oldSet == {"D", "E", "F"};
  }

  /** Cached {A, B, C}, new {A, B, D}: one new match, the cache is used. */
  lemma OneNewIdUsesCache(record: AnalysisRecord)
    requires record.processedMatchIds == ["A", "B", "C"]
    ensures ShouldRecompute(["A", "B", "D"], Some(record)) == Decision(false, OnlyFewNewMatches(1))
  {
    var newSet := SetOf(["A", "B", "D"]);
    var oldSet := SetOf(["A", "B", "C"]);
    assert "D" in newSet && "D" !in oldSet;
    assert newSet - oldSet == {"D"};
  }

  /** One row of the feature matrix, in `FEATURE_NAMES` order. */
  function Vector(r: FeatureRow): (v: seq<real>)
    ensures |v| == |FEATURE_NAMES|
  {
    [r.kills as real, r.deaths as real, r.assists as real, r.cs as real, r.gold as real,
     r.damage as real, r.vision as real, r.kda, r.csPerMin, r.goldPerMin, r.damagePerMin]
  }

  function Matrix(rows: seq<FeatureRow>): (x: seq<seq<real>>)
    ensures |x| == |rows|
    ensures forall i :: 0 <= i < |rows| ==> x[i] == Vector(rows[i])
  {
    if rows == [] then [] else Matrix(rows[..|rows| - 1]) + [Vector(rows[|rows| - 1])]
  }

  function Labels(rows: seq<FeatureRow>): (y: seq<int>)
    ensures |y| == |rows|
    ensures forall i :: 0 <= i < |rows| ==> y[i] == rows[i].win
  {
    if rows == [] then [] else Labels(rows[..|rows| - 1]) + [rows[|rows| - 1].win]
  }

  /** Dimensionality reduction: the number of components requested. */
  datatype PcaAnalysis = PcaAnalysis(nComponents: nat)
  /** Clustering: the number of clusters requested. */
  datatype ClusteringAnalysis = ClusteringAnalysis(nClusters: nat)
  /** The efficiency regression: design matrix and target column. */
  datatype RegressionAnalysis = RegressionAnalysis(design: seq<seq<real>>, target: seq<real>)
  /** A classifier is either refused for lack of class diversity or fitted on these data. */
  datatype ClassifierAnalysis = InsufficientClassDiversity | ClassifierFit(x: seq<seq<real>>, y: seq<int>)
  /** Nearest neighbours: refused below five rows, otherwise `k`, the training rows
      (all but the latest) and the latest row with its actual outcome. */
  datatype KnnAnalysis = KnnInsufficientData
    | KnnFit(k: nat, trainX: seq<seq<real>>, trainY: seq<int>, query: seq<real>, actual: int)

  datatype MlResults = MlResults(
    pca: PcaAnalysis, clustering: ClusteringAnalysis, linearRegression: RegressionAnalysis,
    logisticRegression: ClassifierAnalysis, knn: KnnAnalysis, decisionTree: ClassifierAnalysis,
    statistics: Statistics)

  /** The cached result: the analyses plus the bookkeeping the handler adds. */
  datatype AnalysisRecord = AnalysisRecord(
    results: MlResults, processedMatchIds: seq<string>, lastUpdated: string,
    numMatchesAnalyzed: nat, recomputeReason: Reason)

  /** `n_components=min(3, len(X), len(feature_names))`. */
  function PcaComponents(n: nat): (c: nat)
    ensures c <= 3 && c <= n && c <= |FEATURE_NAMES|
    ensures n >= 3 ==> c == 3
  {
    if n < 3 then n else 3
  }

  /** `n_clusters = min(3, max(2, len(X) // 3))`. */
  function ClusterCount(n: nat): (k: nat)
    ensures 2 <= k <= 3
    ensures n >= 9 <==> k == 3
  {
    var third := n / 3;
    var atLeastTwo := if third > 2 then third else 2;
    if atLeastTwo < 3 then atLeastTwo else 3
  }

  /** `len(np.unique(y)) < 2`: fewer than two distinct labels. */
  predicate SingleClass(y: seq<int>)
  {
    forall i, j :: 0 <= i < |y| && 0 <= j < |y| ==> y[i] == y[j]
  }

  function ClassifierGuard(x: seq<seq<real>>, y: seq<int>): (c: ClassifierAnalysis)
    ensures c.InsufficientClassDiversity? <==> SingleClass(y)
    ensures c.ClassifierFit? ==> c.x == x && c.y == y
  {
    if SingleClass(y) then InsufficientClassDiversity else ClassifierFit(x, y)
  }

  /** `X[:, [0..6]]` against `X[:, 7]`: KDA is predicted from the seven raw counts. */
  function RegressionSetup(rows: seq<FeatureRow>): (r: RegressionAnalysis)
    ensures |r.design| == |r.target| == |rows|
    ensures forall i :: 0 <= i < |rows| ==>
      r.design[i] == Vector(rows[i])[..7] && r.target[i] == rows[i].kda
  {
    var x := Matrix(rows);
    RegressionAnalysis(seq(|x|, i requires 0 <= i < |x| => x[i][..7]),
                       seq(|x|, i requires 0 <= i < |x| => x[i][7]))
  }

  /** The design columns of the regression are the seven raw counts: the KDA
      column, its target, is not among them, nor are the per-minute rates. */
  lemma RegressionExcludesKda()
    ensures FEATURE_NAMES[7] == "kda"
    ensures "kda" !in FEATURE_NAMES[..7]
    ensures forall name :: name in FEATURE_NAMES[..7] ==> name != "cs_per_min" && name != "gold_per_min" && name != "damage_per_min"
  {
    assert FEATURE_NAMES[..7] == ["kills", "deaths", "assists", "cs", "gold", "damage", "vision"];
  }

  function KnnSetup(x: seq<seq<real>>, y: seq<int>): (r: KnnAnalysis)
    requires |x| == |y|
    ensures r.KnnInsufficientData? <==> |x| < KNN_MIN_SAMPLES
    ensures r.KnnFit? ==>
      && r.k == (if 3 <= |x| - 1 then 3 else |x| - 1)
      && 1 <= r.k <= 3 && r.k <= |r.trainX|
      && r.trainX == x[..|x| - 1] && r.trainY == y[..|y| - 1]
      && r.query == x[|x| - 1] && r.actual == y[|y| - 1]
  {
    if |x| < KNN_MIN_SAMPLES then KnnInsufficientData
    else
      var k := if 3 <= |x| - 1 then 3 else |x| - 1;
      KnnFit(k, x[..|x| - 1], y[..|y| - 1], x[|x| - 1], y[|y| - 1])
  }

  /** `run_comprehensive_ml_analysis`: the seven sub-results. */
  function RunAnalyses(rows: seq<FeatureRow>, statistics: Statistics): MlResults
  {
    var x := Matrix(rows);
    var y := Labels(rows);
    MlResults(
      PcaAnalysis(PcaComponents(|x|)),
      ClusteringAnalysis(ClusterCount(|x|)),
      RegressionSetup(rows),
      ClassifierGuard(x, y),
      KnnSetup(x, y),
      ClassifierGuard(x, y),
      statistics)
  }

  /** What the handler answers. */
  datatype Response =
    | CachedResponse(reason: Reason)                 // 200, cached
    | InsufficientData                               // 400, fewer than three rows
    | Failed                                         // 500, an exception in the handler
    | Analysed(reason: Reason, matchesAnalyzed: nat) // 200, recomputed and stored

  /** The key of a player's cached result. */
  function CacheKey(raw: RawData): string
  {
    "ml-results/" + raw.gameName + "_" + raw.tagLine + "_" + raw.puuid + "_ml.json"
  }

  function Lookup(records: map<string, AnalysisRecord>, key: string): Option<AnalysisRecord>
  {
    if key in records then Some(records[key]) else None
  }

  /** The handler as a function of the cache contents: its answer and the cache afterwards. */
  function Handle(records: map<string, AnalysisRecord>, raw: RawData, now: string): (Response, map<string, AnalysisRecord>)
  {
    var key := CacheKey(raw);
    var d := ShouldRecompute(AllMatchIds(raw.matches), Lookup(records, key));
    if !d.recompute then (CachedResponse(d.reason), records)
    else
      match Extract(raw.matches, raw.puuid)
      case ExtractionFailed => (Failed, records)
      case Extracted(features, metadata) =>
        if |features| < MIN_SAMPLES then (InsufficientData, records)
        else
          ExtractionShape(raw.matches, raw.puuid);
          var record := AnalysisRecord(
            RunAnalyses(features, StatisticsOf(features, metadata)),
            MatchIds(metadata), now, |features|, d.reason);
          (Analysed(d.reason, |features|), records[key := record])
  }

  /** The store of cached results, keyed by player. */
  class ResultStore {
    var records: map<string, AnalysisRecord>

    constructor ()
      ensures records == map[]
    {
      records := map[];
    }
  }

  /** `lambda_handler`: decide, extract, gate on three rows, analyse, store. */
  method LambdaHandler(store: ResultStore, raw: RawData, now: string) returns (response: Response)
    modifies store
    ensures (response, store.records) == Handle(old(store.records), raw, now)
  {
    var key := CacheKey(raw);
    var cached := Lookup(store.records, key);
    var decision := ShouldRecompute(AllMatchIds(raw.matches), cached);
    if !decision.recompute {
      return CachedResponse(decision.reason);
    }
    var extraction := ExtractFeatures(raw);
    if extraction.ExtractionFailed? {
      return Failed;
    }
    var features, metadata := extraction.features, extraction.metadata;
    if |features| < MIN_SAMPLES {
      return InsufficientData;
    }
    ExtractionShape(raw.matches, raw.puuid);
    var statistics := ComputeStatistics(features, metadata);
    var results := RunAnalyses(features, statistics);
    var record := AnalysisRecord(results, MatchIds(metadata), now, |features|, decision.reason);
    store.records := store.records[key := record];
    response := Analysed(decision.reason, |features|);
  }

  /** Only a recomputation over at least three rows writes the cache, and then
      only the player's entry; the record's ids are those of the analysed rows
      and its count is the number of rows. */
  lemma {:induction false} HandleStoresOnlyAnalysedRuns(records: map<string, AnalysisRecord>, raw: RawData, now: string)
    ensures var (response, after) := Handle(records, raw, now);
      && (!response.Analysed? ==> after == records)
      && (response.Analysed? ==>
            var e := Extract(raw.matches, raw.puuid);
            && e.Extracted?
            && after == records[CacheKey(raw) := after[CacheKey(raw)]]
            && after[CacheKey(raw)].processedMatchIds == MatchIds(e.metadata)
            && after[CacheKey(raw)].numMatchesAnalyzed == |e.features| == response.matchesAnalyzed
            && response.matchesAnalyzed >= MIN_SAMPLES
            && |after[CacheKey(raw)].processedMatchIds| == response.matchesAnalyzed)
  {
    var e := Extract(raw.matches, raw.puuid);
    if e.Extracted? {
      ExtractionShape(raw.matches, raw.puuid);
    }
  }

  /** Fewer than three extracted rows is a 400 and nothing is stored. */
  lemma FewRowsRejected(records: map<string, AnalysisRecord>, raw: RawData, now: string)
    requires ShouldRecompute(AllMatchIds(raw.matches), Lookup(records, CacheKey(raw))).recompute
    requires Extract(raw.matches, raw.puuid).Extracted?
    requires |Extract(raw.matches, raw.puuid).features| < MIN_SAMPLES
    ensures Handle(records, raw, now) == (InsufficientData, records)
  {
  }

  /** When the player is in every match, the recorded ids match the data:
      right after a recomputation, handling the same matches again is
      answered from the cache with "no new matches" and stores nothing. */
  lemma {:induction false} RerunUsesCache(records: map<string, AnalysisRecord>, raw: RawData, now: string, later: string)
    requires forall i :: 0 <= i < |raw.matches| ==> HasPlayer(raw.matches[i], raw.puuid)
    requires Handle(records, raw, now).0.Analysed?
    ensures var after := Handle(records, raw, now).1;
      Handle(after, raw, later) == (CachedResponse(NoNewMatches), after)
  {
    var after := Handle(records, raw, now).1;
    var e := Extract(raw.matches, raw.puuid);
    HandleStoresOnlyAnalysedRuns(records, raw, now);
    ExtractedIds(raw.matches, raw.puuid);
    PlayerInEveryMatch(raw.matches, raw.puuid);
    assert Lookup(after, CacheKey(raw)) == Some(after[CacheKey(raw)]);
    assert SetOf(after[CacheKey(raw)].processedMatchIds) == SetOf(AllMatchIds(raw.matches));
  }
}
