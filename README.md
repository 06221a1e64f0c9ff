# RiftRewind2025 performance and insight core, in Dafny

This project models the numeric core of the League of Legends analysis
system. It covers four parts:

- **The insight handler** (`ml-lambda2.py`). It decides whether a player's
  cached analysis can be reused: only three or more new match ids force a
  recomputation. It extracts one feature row per match from the player's
  history and refuses fewer than three rows. It computes the summary
  statistics: wins, losses, win rate, and a per-champion table cut to the
  five most played champions. It applies the size and guard rules that each
  statistical analysis is given (PCA components, cluster count, the KDA
  regression columns, the class-diversity guard, the k-NN split). Finally it
  records the analysed match ids in the cache.
- **Training-data collection** (`ml_training/data_collection.py`).
  - One training sample per valid-position participant of a classic match of
    at least five minutes.
  - The two-minute request window of the rate limiter.
  - The snowball crawl: a queue of player ids, a set of collected matches and
    a target count.
- **Training** (`ml_training/train_models.py`).
  - Per-role means and deviations.
  - The ground-truth performance score: an outcome part (25 or 5), a weighted
    z-score part clipped to [0, 50], and an impact part capped at 20.
  - The per-role training matrices over the 35 feature columns, with missing
    columns filled with zeros.
  - The rule that roles with fewer than 100 samples get no model.
- **Serving** (`ml_training/performance_predictor.py`).
  - Per-role model loading and feature extraction.
  - Prediction, clipped to [0, 100].
  - The letter grade and the percentile.
  - Batch prediction keyed by player id.

Pure logic is modelled as functions, with lemmas proved about them. Loops
and objects whose fields change are modelled as methods and classes:
`PerformanceScoreCalculator`, `PerformancePredictor`, the rate-limiter state
of `RiotDataCollector`, and the handler's store of cached results. Each of
these methods is proved equal to a specification function, and the
properties are proved about that function.

Files:

- `common.dfy`: shared helpers.
- `riot.dfy`: the Riot match records.
- `insight_features.dfy`, `insight_statistics.dfy`, `insight_pipeline.dfy`:
  the insight handler.
- `collection.dfy`: training-data collection.
- `score_calculator.dfy` and `training_data.dfy`: training.
- `predictor.dfy`: serving.

The code computes KDA two different ways, and both are modelled as written.
The collector stores `kills + assists / max(deaths, 1)`, where only the
assists are divided. The predictor and the insight handler compute
`(kills + assists) / max(deaths, 1)`. `Predictor.KdaDefinitionsAgreeOnlyRarely`
proves that the two agree exactly when the player has no kills or at most one
death. So the models are trained on a different KDA feature from the one
they are served.

The score calculator weights each key stat by `abs(weight)`. As a result the
negative weight on `time_dead_pct` has no effect: more time spent dead never
lowers the score. This is modelled as written, and
`ScoreCalculator.MoreTimeDeadNeverLowersScore` states it.

Two behaviours of the code are worth knowing:

- The seven analyses of the insight handler are not individually protected.
  Any failure is caught once, by the handler's outer `except`, and becomes an
  HTTP 500.
- A role whose weighted stats are all absent gets a stat component of
  25 × 5 = 125, clipped to 50.

## Model

| member | source | states |
|---|---|---|
| InsightPipeline.ShouldRecompute | ml-lambda2.py:354-369 | With no cached result, always recompute ("No existing results"). With equal id sets, reuse the cache ("No new matches"). Otherwise recompute exactly when at least three new ids are absent from the cached ids. So a run whose ids only removed matches never recomputes. |
| InsightPipeline.SameIdsUseCache | ml-lambda2.py:362-363 | Cached {A,B,C} and new {A,B,C}: the cache is used, with "No new matches". |
| InsightPipeline.ThreeNewIdsRecompute | ml-lambda2.py:365-367 | Cached {A,B,C} and new {A..F}: recompute, with a count of 3 new matches. |
| InsightPipeline.OneNewIdUsesCache | ml-lambda2.py:365-369 | Cached {A,B,C} and new {A,B,D}: one new match, so the cache is used. |
| InsightPipeline.Matrix | ml-lambda2.py:147-149 | One row per feature row, each in the 11-column `feature_names` order. |
| InsightPipeline.Labels | ml-lambda2.py:150 | The label vector is the rows' `win` values, index by index. |
| InsightPipeline.PcaComponents | ml-lambda2.py:185 | Components never exceed 3, the row count or the feature count, and are exactly 3 from three rows on. |
| InsightPipeline.ClusterCount | ml-lambda2.py:205 | The cluster count is always 2 or 3, and it is 3 exactly when there are at least nine rows. |
| InsightPipeline.ClassifierGuard | ml-lambda2.py:241-242 | "Insufficient class diversity" exactly when all labels are equal. Otherwise the classifier gets the unchanged matrix and labels. |
| InsightPipeline.RegressionSetup | ml-lambda2.py:219-221 | The design row is the first seven columns of the feature row, and the target is that row's KDA. |
| InsightPipeline.RegressionExcludesKda | ml-lambda2.py:220-221 | The regression target column is `kda`. It is not among the design columns, and neither is any per-minute rate. |
| InsightPipeline.KnnSetup | ml-lambda2.py:269-277 | Refused exactly below five rows. Otherwise k = min(3, n−1) lies in [1,3]. The model is fit on all rows but the last and queried with the last row and its actual outcome. |
| InsightPipeline.LambdaHandler | ml-lambda2.py:22-104 | The handler's answer and the cache after it are those of the specification function `Handle`: the cache decision, extraction, the three-row gate, the analyses and the stored record. |
| InsightPipeline.HandleStoresOnlyAnalysedRuns | ml-lambda2.py:54-71 | Every answer but a completed analysis leaves the cache unchanged. A completed analysis writes only the player's key. Its record's `processed_match_ids` are exactly the analysed rows' match ids, and its count is the row count, at least 3. |
| InsightPipeline.FewRowsRejected | ml-lambda2.py:54-58 | When recomputation is due and fewer than three rows are extracted, the answer is the 400 and nothing is stored. |
| InsightPipeline.RerunUsesCache | ml-lambda2.py:65-68 | Right after an analysis, handling the same matches again is answered from the cache with "No new matches" and stores nothing, provided the player is in every match. |
| InsightFeatures.FirstHit | ml-lambda2.py:116-138 | The index found is that of the first participant with the player's puuid, or the list length when none has it. |
| InsightFeatures.FindPlayer | ml-lambda2.py:116-138 | The scan over the participants stops at the first one with the player's puuid, or at the end of the list, so the position it returns is `FirstHit`'s. |
| InsightFeatures.Step | ml-lambda2.py:114-138 | A match that yields a row had the player in it, and the row's metadata carries that match's id. A match that yields no row (without failing) did not have the player. |
| InsightFeatures.FailurePersists | ml-lambda2.py:114-115 | Once an earlier match has raised, the whole extraction fails, whatever follows. |
| InsightFeatures.ExtractFeatures | ml-lambda2.py:106-141 | The loop with its early `break` computes the specification `Extract` over the whole match list. |
| InsightFeatures.ExtractionShape | ml-lambda2.py:114-138 | Rows and metadata have equal length, one per match the player took part in, so at most one per match. Each row's `win` is 0 or 1 and agrees with the metadata. The KDA satisfies kda·max(deaths,1) = kills + assists. |
| InsightFeatures.MatchIds | ml-lambda2.py:65 | The recorded ids are the metadata's match ids, in order. |
| InsightFeatures.AllMatchIds | ml-lambda2.py:359 | `new_ids` is the list of every match's id, in order. |
| InsightFeatures.ExtractedIds | ml-lambda2.py:114-138 | The set of recorded ids is exactly the set of ids of the matches the player took part in. |
| InsightFeatures.PlayerInEveryMatch | ml-lambda2.py:114-138 | When the player is in every match, the recorded ids cover every match id. |
| InsightStatistics.WellFormedEntries | ml-lambda2.py:313-322 | Every champion entry has at least one game and no more wins than games, and no champion appears twice. |
| InsightStatistics.Bump | ml-lambda2.py:315-322 | Counting a game keeps the table well formed and adds exactly that champion to it. |
| InsightStatistics.TallyTable | ml-lambda2.py:313-322 | The table after the counting loop is well formed. |
| InsightStatistics.BumpCounts | ml-lambda2.py:319-322 | Counting a game adds one to the total games, and one to the total wins exactly when the game was won. |
| InsightStatistics.TallyTotals | ml-lambda2.py:313-322 | The per-champion games add up to the number of games and the wins to the winning games. The champions are exactly those played. |
| InsightStatistics.Summaries | ml-lambda2.py:324-327 | The completing loop keeps one summary per entry. |
| InsightStatistics.InsertByGamesKeeps | ml-lambda2.py:329 | Insertion adds exactly the inserted entry to the multiset of entries. |
| InsightStatistics.InsertByGamesMembers | ml-lambda2.py:329 | Insertion introduces no entry other than the one inserted. |
| InsightStatistics.InsertByGamesSorted | ml-lambda2.py:329 | Inserting into a list sorted by non-increasing games keeps it sorted. |
| InsightStatistics.SortByGamesCorrect | ml-lambda2.py:329 | The descending sort by games returns a permutation of its input that is ordered by non-increasing games. |
| InsightStatistics.CountChampions | ml-lambda2.py:313-322 | The counting loop builds the specification table. |
| InsightStatistics.CompleteEntries | ml-lambda2.py:324-327 | The loop adding `winrate` and `avg_kda` builds the specification summaries. |
| InsightStatistics.ComputeStatistics | ml-lambda2.py:307-352 | The win sum, the counting loop, the completing loop and the top-five cut build the specification statistics. |
| InsightStatistics.SumWinsBounds | ml-lambda2.py:309 | With 0/1 labels, the win sum lies between 0 and the number of rows. |
| InsightStatistics.WinLossTotals | ml-lambda2.py:309-335 | Wins plus losses equal the total games. The win rate times the games equals the wins, and the rate is 0 for an empty history and always in [0,1]. |
| InsightStatistics.AssembleTotals | ml-lambda2.py:331-335 | For any win count between 0 and the number of games, the returned record has wins plus losses equal to the games. The rate is wins over games, 0 without games, and always in [0,1]. |
| InsightStatistics.ChampionWinsAddUp | ml-lambda2.py:309-322 | For rows aligned with their metadata, the per-champion wins add up to the overall win count. |
| InsightStatistics.CountWinsIsSumWins | ml-lambda2.py:309-321 | The wins counted from the metadata equal the sum of the rows' `win` labels. |
| InsightStatistics.TopFiveFacts | ml-lambda2.py:329 | The cut has min(5, n) entries, sorted by non-increasing games and all from the table. No entry left out has more games than an entry kept. |
| InsightStatistics.TopChampions | ml-lambda2.py:329-351 | `top_champions` has at most five entries, all from the champion table and sorted by games. No omitted champion was played more often than a listed one. |
| InsightStatistics.ChampionTable | ml-lambda2.py:313-322 | The per-champion games sum to the number of games, and each champion's wins are at most its games. One entry per champion played. |
| InsightStatistics.FiveGamesThreeWins | ml-lambda2.py:331-335 | Five games with three wins give 3 wins, 2 losses and a win rate of 0.6. |
| Common.Mean | ml-lambda2.py:336-341 | An average is absent exactly for an empty history. |
| Common.MeanBounds | ml-lambda2.py:336-341 | The mean of values within bounds stays within those bounds. |
| Collection.DerivedStatsFacts | ml_training/data_collection.py:139-203 | `game_duration` is the seconds over 60. KDA divides only the assists by max(deaths,1). Multikills = d + 2t + 3q + 4p. `gold_advantage`, `first_blood` and `first_tower` are 0/1 flags equal to 1 exactly when their condition holds. `time_dead_pct` is time dead over the seconds. |
| Collection.SampleFacts | ml_training/data_collection.py:133-204 | A sample carries the match id, the player's puuid and their position as role. `win` is 1 exactly on a win and otherwise 0. It holds the derived stats above. |
| Collection.ValidIndicesFacts | ml_training/data_collection.py:127-130 | The kept participants are exactly those whose position is neither "Invalid" nor empty, in increasing input order. |
| Collection.ParticipantSamplesAligned | ml_training/data_collection.py:127-206 | The k-th sample is the sample of the k-th kept participant, so there is one per kept participant, in input order. |
| Collection.ParticipantSamplesOnePerPlayer | ml_training/data_collection.py:127-206 | One sample per kept participant, in increasing input order, and none for a participant whose position is "Invalid" or empty. |
| Collection.SamplesCarryMatch | ml_training/data_collection.py:134-137 | Every sample carries the match's id and a valid role. |
| Collection.ExtractedSamplesFacts | ml_training/data_collection.py:113-122 | A match yields samples only if it is present, has `info`, lasts at least 300 s and is CLASSIC. Every sample carries its id and a valid role. |
| Collection.ExtractParticipantData | ml_training/data_collection.py:111-208 | The guarded loop computes the specification sample list. |
| Collection.RecentFacts | ml_training/data_collection.py:39 | The filtered window keeps exactly the timestamps younger than 120 s. |
| Collection.NextWindowFacts | ml_training/data_collection.py:39-50 | The new window ends with `now`, holds at most 95 entries, all younger than 120 s, and is reset to [now] exactly when 95 or more were recent or none were. Otherwise it is the recent entries plus `now`. |
| Collection.RiotDataCollector.constructor | ml_training/data_collection.py:32 | The collector starts with no request timestamps. |
| Collection.RiotDataCollector.RateLimit | ml_training/data_collection.py:34-51 | The timestamps become the next window of the old timestamps at `now`. |
| Collection.FetchNothing | ml_training/data_collection.py:244-254 | Fetching a new id that yields no samples keeps the bookkeeping invariant without collecting it. |
| Collection.FetchAndCollect | ml_training/data_collection.py:244-254 | Fetching a new productive id below the target collects it, appends its samples, and keeps the invariant. |
| Collection.DistinctOrder | ml_training/data_collection.py:222-254 | A collection order as large as its set of ids has no repeated id. |
| Collection.SetOfSize | ml_training/data_collection.py:222 | A list has at least as many entries as its set of ids. |
| Collection.Snowball | ml_training/data_collection.py:257-259 | The appending loop computes `SnowballQueue`, whose properties are the three lemmas below. |
| Collection.SnowballQueueGrows | ml_training/data_collection.py:257-259 | The queue keeps its old entries as a prefix and only grows. One match never takes it past max(its old length, 200). |
| Collection.SnowballQueueNew | ml_training/data_collection.py:257-259 | Every appended player belongs to one of the match's samples. None was queued before, and none is appended twice. |
| Collection.SnowballQueueCovers | ml_training/data_collection.py:257-259 | Afterwards every sample's player is in the queue, unless the queue has reached 200. |
| Collection.CollectFromHistory | ml_training/data_collection.py:236-259 | The loop over one player's history computes `Visit`. It keeps the bookkeeping invariant, and every history id ends up collected or fetched unless the target has been reached. The queue stays within its cap and changes only when a match was collected. |
| Collection.Visit | ml_training/data_collection.py:236-259 | Visiting a history never uncollects a match, and the queue changes only when the collected set grows. |
| Collection.Run | ml_training/data_collection.py:227-259 | The outer loop ends with at least `num_matches` matches collected or with an empty queue, and never uncollects a match. |
| Collection.CollectTrainingData | ml_training/data_collection.py:210-266 | The samples returned are those of `Run` from the shuffled seeds, or from the challengers when no seeds are given, so the loop stops only at the target or on an empty queue. At most `num_matches` matches are collected, each productive and distinct, and the samples are those matches' samples in order. No productive match is fetched twice, and every productive fetch is collected. No seeds and no challengers give no samples and no fetches. |
| Collection.BookkeepingGivesOrder | ml_training/data_collection.py:222-254 | The loop invariant implies the collection order's guarantees: bounded by the target, distinct, productive, no productive id fetched twice. |
| ScoreCalculator.OutcomeComponent | ml_training/train_models.py:106 | The outcome part is 25 on a win and 5 otherwise. |
| ScoreCalculator.StatTerm | ml_training/train_models.py:127-131 | Each weighted stat term lies in [0, 10·abs(weight)]. |
| ScoreCalculator.StatTermMonotone | ml_training/train_models.py:124-131 | With the mean, the deviation and the weight fixed, a larger stat value never gives a smaller term, because the clip and the scaling by abs(weight) keep order. |
| ScoreCalculator.StatComponent | ml_training/train_models.py:133-134 | The scaled stat component lies in [0, 50]. |
| ScoreCalculator.ImpactComponent | ml_training/train_models.py:137-150 | The impact part is at most 20, and it is non-negative for non-negative counts. |
| ScoreCalculator.PerformanceScore | ml_training/train_models.py:153-156 | The final score lies in [0, 100]. |
| ScoreCalculator.StatTermsBounded | ml_training/train_models.py:120-131 | With weights of magnitude at most 2, every collected term lies in [0, 20], and there are at most as many terms as key stats. |
| ScoreCalculator.StatTermsEmpty | ml_training/train_models.py:120-121 | No term is collected when no key stat is in both the role stats and the sample. |
| ScoreCalculator.StatTermsReadOnlyStats | ml_training/train_models.py:110-131 | The stat terms depend only on the sample's stats, not on its win flag, role or ids. |
| ScoreCalculator.NoWeightedStatGivesFifty | ml_training/train_models.py:133-134 | Without a usable key stat, the stat component is exactly 50. |
| ScoreCalculator.ScoreAtMost95 | ml_training/train_models.py:153-156 | No score exceeds 95 = 25 + 50 + 20. |
| ScoreCalculator.Label | ml_training/train_models.py:165-168 | A sample's label is its score against its role's statistics over the whole training set, and lies in [0, 95]. |
| ScoreCalculator.WinAddsTwenty | ml_training/train_models.py:106-153 | Two samples that differ only in the win flag differ in score by exactly 20, the winner higher (counts non-negative). |
| ScoreCalculator.StatTermsMonotone | ml_training/train_models.py:120-131 | Raising every key stat value (as `Dominates` defines it) never lowers any term. |
| ScoreCalculator.ScoreMonotone | ml_training/train_models.py:95-156 | With the same outcome, a sample whose key stats dominate another's scores at least as much. |
| ScoreCalculator.MoreTimeDeadNeverLowersScore | ml_training/train_models.py:117-130 | Because weights enter as `abs(weight)`, raising `time_dead_pct` never lowers the score. |
| ScoreCalculator.ColumnStatsFacts | ml_training/train_models.py:84-89 | A column has stats exactly when it is a feature column present in the frame other than `game_duration`. Its mean is the role's mean and its deviation is the role's deviation plus 1e-6. |
| ScoreCalculator.RoleColumnStatsFacts | ml_training/train_models.py:83-91 | A role's stats have exactly the kept feature columns, never `game_duration`. Every stored deviation is strictly positive. |
| ScoreCalculator.RoleStatistics | ml_training/train_models.py:83-89 | The loop over the feature columns builds exactly the role's column stats, so it has `RoleColumnStatsFacts`' keys and positive deviations. |
| ScoreCalculator.PerformanceScoreCalculator.constructor | ml_training/train_models.py:71-93 | The calculator keeps the samples and has stats for exactly the roles present, each the role's column stats, so every deviation is positive. |
| ScoreCalculator.PerformanceScoreCalculator.CalculatePerformanceScore | ml_training/train_models.py:95-156 | The step-by-step computation equals the specification score of the sample against its role's stats. |
| ScoreCalculator.PerformanceScoreCalculator.CalculateAllScores | ml_training/train_models.py:158-160 | One score per sample, in order, each the specification score and in [0, 95]. |
| ScoreCalculator.WeightedStatScore | ml_training/train_models.py:109-134 | The loop over the key stats computes the specification stat component. |
| ScoreCalculator.ImpactScore | ml_training/train_models.py:137-150 | The step-by-step increments compute the specification impact component. |
| TrainingData.RoleRowsFacts | ml_training/train_models.py:182-183 | A role's rows all carry that role, are no more numerous than the samples, and exist whenever some sample has the role. |
| TrainingData.RoleRowsMembers | ml_training/train_models.py:183 | Every row of a role's frame is one of the samples. |
| TrainingData.FillMissingColumns | ml_training/train_models.py:186-188 | Afterwards the frame has its own columns plus every column of the list it is given, which is the feature columns. Existing columns are unchanged and added ones are all zeros. |
| TrainingData.PrepareRole | ml_training/train_models.py:183-197 | The role's matrix has one row per role sample, in order, with exactly the 35 feature columns in order. A cell holds 0 for a column no sample has, missing for a value this sample lacks, and the sample's value otherwise. The labels are the scores. |
| TrainingData.PrepareTrainingData | ml_training/train_models.py:163-201 | Each sample's label is its `Label`: its performance score against its role's statistics over the whole set. Every label is in [0, 95]. There is one training set per role present, each matching that role's rows and labels as above. |
| TrainingData.TrainRoles | ml_training/train_models.py:311-323 | Exactly the roles with at least 100 samples are trained, each on its own matrix and labels. |
| TrainingData.TrainedRolesAreWellSampled | ml_training/train_models.py:311-316 | After preparation, a role gets a model exactly when at least 100 samples carry it. |
| Predictor.DerivedFeaturesFacts | ml_training/performance_predictor.py:113-168 | KDA is (k+a)/max(d,1). `cs_at_10` falls back to the jungle count when the lane count is 0. `gold_advantage` is 0/1. Multikills = d + 2t + 3q + 4p. `game_duration` is the seconds over 60. |
| Predictor.ExtractFeaturesFacts | ml_training/performance_predictor.py:105-171 | The whole feature map keeps every derived feature above: the raw counts never override KDA, multikills, the gold flag, `cs_at_10`, the duration or the dead-time share. |
| Predictor.KdaDefinitionsAgreeOnlyRarely | ml_training/performance_predictor.py:113 | The served KDA equals the trained KDA (data_collection.py:145) exactly when kills are 0 or deaths are at most 1. |
| Predictor.FeatureVectorFacts | ml_training/performance_predictor.py:201-203 | The vector has one entry per feature column, in order, and 0 for a name the extractor did not produce. |
| Predictor.ScoreToGrade | ml_training/performance_predictor.py:234-247 | S from 90, A in [80,90), B in [70,80), C in [60,70), D in [50,60), F below 50, with inclusive lower bounds. |
| Predictor.GradeMonotone | ml_training/performance_predictor.py:234-247 | A higher score never gets a lower grade. |
| Predictor.ScoreToPercentile | ml_training/performance_predictor.py:249-257 | The percentile lies in [0,100] and is 50 at a score of 50. It is 0 exactly for scores up to 50/3, and 100 exactly for scores from 250/3. |
| Predictor.PercentileMonotone | ml_training/performance_predictor.py:249-257 | The percentile never decreases as the score grows. |
| Predictor.Predict | ml_training/performance_predictor.py:173-232 | No prediction exactly when the position is empty or unloaded, or the model fails. Otherwise the score is the regressor's value on the feature vector clipped to [0,100], so a value inside the range passes unchanged and one outside is cut to 0 or 100. Role, champion and win are copied, and grade and percentile are those of the score. |
| Predictor.BatchKeys | ml_training/performance_predictor.py:259-279 | A player id is a key exactly when some participant with that id got a prediction. |
| Predictor.BatchLast | ml_training/performance_predictor.py:270-277 | A player's entry is their last successful prediction. |
| Predictor.CollectKeys | ml_training/performance_predictor.py:270-277 | Storing the successful outcomes by id gives a key exactly for the ids at some position with a success. |
| Predictor.CollectLast | ml_training/performance_predictor.py:270-277 | An id's stored entry is the outcome at its last successful position. |
| Predictor.BatchEntriesArePredictions | ml_training/performance_predictor.py:270-279 | Every entry is the unchanged prediction of some participant with that id. |
| Predictor.LastSuccess | ml_training/performance_predictor.py:270-277 | Every player with a successful prediction has a last one. |
| Predictor.BatchDistinctPlayers | ml_training/performance_predictor.py:259-279 | With distinct players, each participant is present exactly when predicted, under its own id and with its own prediction. |
| Predictor.PerformancePredictor.constructor | ml_training/performance_predictor.py:27-92 | Models hold exactly the five roles whose load succeeded, each failure skipped. Metadata and feature columns are loaded when available and otherwise stay empty. |
| Predictor.PerformancePredictor.PredictPerformance | ml_training/performance_predictor.py:173-232 | The guarded computation with its vector-building loop equals the specification prediction. |
| Predictor.PerformancePredictor.PredictBatch | ml_training/performance_predictor.py:259-279 | The loop filling the dictionary equals the specification batch. |

## Left out

- Model fitting and evaluation are not modelled: scikit-learn's PCA,
  k-means, linear, logistic, k-NN and tree models; XGBoost training; the
  train/test split; metrics; pickling; plots. These are foreign floating-point
  libraries. Each insight analysis is represented by the data and parameters
  it is given. The trained regressor is a function parameter that may fail.
- pandas means and standard deviations are inputs (`describe`), with the
  deviation assumed non-negative. A one-row role's NaN deviation is not
  modelled.
- Bedrock prompts and calls, and S3 reads and writes, are left out. The cache
  is a map of records, and model, metadata and feature loading are given
  outcomes that may be absent. The analysis file written at the end of each
  branch is not modelled.
- HTTP requests, 429 retries, `time.sleep` and the clock are left out. The
  time is the `now` parameter of `RateLimit`.
- `CollectTrainingData` does not call the rate limiter between requests.
- `CollectTrainingData` receives the challenger fetch, `random.shuffle`, the
  match-history fetch and the match-detail fetch as parameters. Fetches are
  deterministic functions of their id.
- Collection.CollectTrainingData: the bound of 200 on the queue length is
  proved as a loop invariant and by `SnowballQueueGrows`. It is not restated
  in the method's ensures.
- Python's `round`, IEEE float behaviour and NaN are not modelled. All
  arithmetic is over exact reals.
- Reason strings are a datatype (`Reason`), not formatted text.
- Timestamps (`utcnow`) are a string parameter.
- KeyError paths for missing dictionary keys are not modelled. Records carry
  every field.
- The insight handler's `extract_features` raises on a match without `info`,
  or on a zero-duration match in which the player is found. A zero-duration
  match without the player is skipped. The raising cases are modelled as a
  failed extraction that the handler answers with its 500.
- Predictor.Predict: a zero `gameDuration` for a supported role makes
  `extract_features` raise `ZeroDivisionError` before the `try`, so the
  exception reaches the caller. The model requires a non-zero duration for a
  supported role, and does not model the exception itself.
- InsightStatistics.SortByGamesCorrect: the order among champions with equal
  game counts (Python's stable sort) is not stated.
- `app.py`, `lambda_handler.py`, `lambda.py` and the test scripts are not part
  of this model: they are HTTP, secrets and Lambda plumbing.
