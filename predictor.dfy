/** Inference with the trained role models (ml_training/performance_predictor.py):
    features from a participant record, the ordered feature vector, the
    dispatch to the role's regressor, the grade and percentile of the score,
    and batch prediction over a match. A regressor is an opaque function from
    a feature vector to a score, `None` where its `predict` raises. */
module Predictor {
  import opened Common
  import opened Riot
  import opened Collection

  type Regressor = seq<real> -> Option<real>

  /** The roles a model is loaded for, in loading order. */
  const ROLES: seq<string> := ["TOP", "JUNGLE", "MIDDLE", "BOTTOM", "UTILITY"]

  /** The letter grades, best first. */
  datatype Grade = S | A | B | C | D | F

  /** What `predict_performance` returns for one participant. */
  datatype Prediction = Prediction(
    performanceScore: real, role: string, grade: Grade, percentile: real,
    champion: string, win: bool)

  /** The statistics read straight off the record, and the per-minute rates. */
  function CountFeatures(p: Participant, gameDuration: int): map<string, real>
    requires gameDuration != 0
  {
    var minutes := gameDuration as real / 60.0;
    map[
      "kills" := p.kills as real,
      "deaths" := p.deaths as real,
      "assists" := p.assists as real,
      "cs_per_min" := p.totalMinionsKilled as real / minutes,
      "jungle_cs" := p.neutralMinionsKilled as real,
      "gold_per_min" := p.goldEarned as real / minutes,
      "damage_per_min" := p.totalDamageDealtToChampions as real / minutes,
      "damage_taken_per_min" := p.totalDamageTaken as real / minutes,
      "damage_mitigated" := p.damageSelfMitigated as real,
      "damage_share" := Challenge(p, "teamDamagePercentage"),
      "vision_per_min" := p.visionScore as real / minutes,
      "wards_placed" := p.wardsPlaced as real,
      "wards_killed" := p.wardsKilled as real,
      "control_wards" := Challenge(p, "controlWardsPlaced"),
      "turret_plates" := Challenge(p, "turretPlatesTaken"),
      "turrets" := p.turretKills as real,
      "dragons" := p.dragonKills as real,
      "barons" := p.baronKills as real,
      "cs_advantage" := Challenge(p, "maxCsAdvantageOnLaneOpponent"),
      "kill_participation" := Challenge(p, "killParticipation"),
      "solo_kills" := Challenge(p, "soloKills"),
      "cc_time" := p.timeCCingOthers as real,
      "healing" := p.totalHeal as real,
      "shielding" := p.totalDamageShieldedOnTeammates as real,
      "longest_living" := p.longestTimeSpentLiving as real,
      "skillshots_hit" := Challenge(p, "skillshotsHit"),
      "skillshots_dodged" := Challenge(p, "skillshotsDodged")
    ]
  }

  /** The ratios, flags and fallbacks computed from the record. */
  function DerivedFeatures(p: Participant, gameDuration: int): map<string, real>
    requires gameDuration != 0
  {
    map[
      "kda" := (p.kills + p.assists) as real / MaxInt(p.deaths, 1) as real,
      "cs_at_10" := OrElse(Challenge(p, "laneMinionsFirst10Minutes"), Challenge(p, "jungleCsBefore10Minutes")),
      "gold_advantage" := if Challenge(p, "earlyLaningPhaseGoldExpAdvantage") > 0.0 then 1.0 else 0.0,
      "multikills" := Multikills(p) as real,
      "time_dead_pct" := p.totalTimeSpentDead as real / gameDuration as real,
      "first_blood" := BoolToInt(p.firstBloodKill) as real,
      "first_tower" := BoolToInt(p.firstTowerKill) as real,
      "game_duration" := gameDuration as real / 60.0
    ]
  }

  /** `extract_features`. */
  function ExtractFeatures(p: Participant, gameDuration: int): map<string, real>
    requires gameDuration != 0
  {
    CountFeatures(p, gameDuration) + DerivedFeatures(p, gameDuration)
  }

  lemma DerivedFeaturesFacts(p: Participant, gameDuration: int)
    requires gameDuration != 0
    ensures var f := DerivedFeatures(p, gameDuration);
      && "kda" in f && f["kda"] * MaxInt(p.deaths, 1) as real == (p.kills + p.assists) as real
      && "multikills" in f && f["multikills"] == Multikills(p) as real
      && "gold_advantage" in f && (f["gold_advantage"] == 1.0 <==> Challenge(p, "earlyLaningPhaseGoldExpAdvantage") > 0.0)
      && (f["gold_advantage"] == 0.0 || f["gold_advantage"] == 1.0)
      && "cs_at_10" in f
      && (Challenge(p, "laneMinionsFirst10Minutes") != 0.0 ==> f["cs_at_10"] == Challenge(p, "laneMinionsFirst10Minutes"))
      && (Challenge(p, "laneMinionsFirst10Minutes") == 0.0 ==> f["cs_at_10"] == Challenge(p, "jungleCsBefore10Minutes"))
      && "game_duration" in f && f["game_duration"] * 60.0 == gameDuration as real
      && "time_dead_pct" in f && f["time_dead_pct"] * gameDuration as real == p.totalTimeSpentDead as real
  {
  }

  /** The derived features: KDA over at least one death, the multikill score,
      a 0/1 gold lead, the early creep score falling back to the jungle count
      when the lane count is 0, the duration in minutes and the dead-time share. */
  lemma ExtractFeaturesFacts(p: Participant, gameDuration: int)
    requires gameDuration != 0
    ensures var f := ExtractFeatures(p, gameDuration);
      && "kda" in f && f["kda"] * MaxInt(p.deaths, 1) as real == (p.kills + p.assists) as real
      && "multikills" in f && f["multikills"] == Multikills(p) as real
      && "gold_advantage" in f && (f["gold_advantage"] == 1.0 <==> Challenge(p, "earlyLaningPhaseGoldExpAdvantage") > 0.0)
      && (f["gold_advantage"] == 0.0 || f["gold_advantage"] == 1.0)
      && "cs_at_10" in f
      && (Challenge(p, "laneMinionsFirst10Minutes") != 0.0 ==> f["cs_at_10"] == Challenge(p, "laneMinionsFirst10Minutes"))
      && (Challenge(p, "laneMinionsFirst10Minutes") == 0.0 ==> f["cs_at_10"] == Challenge(p, "jungleCsBefore10Minutes"))
      && "game_duration" in f && f["game_duration"] * 60.0 == gameDuration as real
      && "time_dead_pct" in f && f["time_dead_pct"] * gameDuration as real == p.totalTimeSpentDead as real
  {
    var counts, derived := CountFeatures(p, gameDuration), DerivedFeatures(p, gameDuration);
    DerivedFeaturesFacts(p, gameDuration);
    assert ExtractFeatures(p, gameDuration) == counts + derived;
  }

  /** The collector labels KDA as `kills + assists / max(deaths, 1)`, the
      predictor feeds `(kills + assists) / max(deaths, 1)`: the two agree
      exactly when there are no kills or at most one death. (These are the
      `kda` entries of the sample and of the features, by `SampleFacts` and
      `ExtractFeaturesFacts`.) */
  lemma KdaDefinitionsAgreeOnlyRarely(p: Participant, gameDuration: int)
    requires gameDuration != 0
    ensures "kda" in DerivedStats(p, gameDuration) && "kda" in DerivedFeatures(p, gameDuration)
    ensures DerivedStats(p, gameDuration)["kda"] == DerivedFeatures(p, gameDuration)["kda"]
      <==> p.kills == 0 || p.deaths <= 1
  {
    DerivedStatsFacts(p, gameDuration);
    DerivedFeaturesFacts(p, gameDuration);
    KdaAlgebra(p.kills as real, p.assists as real, MaxInt(p.deaths, 1) as real,
               DerivedStats(p, gameDuration)["kda"], DerivedFeatures(p, gameDuration)["kda"]);
  }

  lemma KdaAlgebra(k: real, a: real, m: real, trained: real, served: real)
    requires m >= 1.0
    requires (trained - k) * m == a && served * m == k + a
    ensures trained == served <==> k == 0.0 || m == 1.0
  {
    assert (trained - served) * m == k * (m - 1.0);
    if trained == served {
      assert k * (m - 1.0) == 0.0;
    }
  }

  /** `[features.get(col, 0) for col in cols]`. */
  function FeatureVector(f: map<string, real>, cols: seq<string>): seq<real>
  {
    if cols == [] then [] else FeatureVector(f, cols[..|cols| - 1]) + [GetOrZero(f, cols[|cols| - 1])]
  }

  /** One entry per column, in column order, 0 for a name the features lack. */
  lemma {:induction false} FeatureVectorFacts(f: map<string, real>, cols: seq<string>)
    ensures |FeatureVector(f, cols)| == |cols|
    ensures forall i :: 0 <= i < |cols| ==> FeatureVector(f, cols)[i] == (if cols[i] in f then f[cols[i]] else 0.0)
  {
    if cols != [] {
      FeatureVectorFacts(f, cols[..|cols| - 1]);
    }
  }

  /** `_score_to_grade`: inclusive lower bounds 90, 80, 70, 60, 50. */
  function ScoreToGrade(score: real): (g: Grade)
    ensures g == S <==> score >= 90.0
    ensures g == A <==> 80.0 <= score < 90.0
    ensures g == B <==> 70.0 <= score < 80.0
    ensures g == C <==> 60.0 <= score < 70.0
    ensures g == D <==> 50.0 <= score < 60.0
    ensures g == F <==> score < 50.0
  {
    if score >= 90.0 then S
    else if score >= 80.0 then A
    else if score >= 70.0 then B
    else if score >= 60.0 then C
    else if score >= 50.0 then D
    else F
  }

  /** The rank of a grade, 0 for F up to 5 for S. */
  function Rank(g: Grade): nat
  {
    match g
    case F => 0
    case D => 1
    case C => 2
    case B => 3
    case A => 4
    case S => 5
  }

  /** A higher score never gets a lower grade. */
  lemma GradeMonotone(x: real, y: real)
    requires x <= y
    ensures Rank(ScoreToGrade(x)) <= Rank(ScoreToGrade(y))
  {
  }

  /** `_score_to_percentile`: 50 at a score of 50, 1.5 points per point,
      clipped to [0, 100]; it saturates a third of 100 away from 50. */
  function ScoreToPercentile(score: real): (r: real)
    ensures 0.0 <= r <= 100.0
    ensures score == 50.0 ==> r == 50.0
    ensures r == 0.0 <==> score * 3.0 <= 50.0
    ensures r == 100.0 <==> score * 3.0 >= 250.0
  {
    Clip(50.0 + (score - 50.0) * 1.5, 0.0, 100.0)
  }

  lemma PercentileMonotone(x: real, y: real)
    requires x <= y
    ensures ScoreToPercentile(x) <= ScoreToPercentile(y)
  {
    ClipMonotone(50.0 + (x - 50.0) * 1.5, 50.0 + (y - 50.0) * 1.5, 0.0, 100.0);
  }

  /** The participant's role has a loaded model. */
  predicate Supported(models: map<string, Regressor>, p: Participant)
  {
    p.individualPosition != "" && p.individualPosition in models
  }

  /** `predict_performance`: nothing for an empty or unsupported role or when
      the regressor raises; otherwise the score clipped to [0, 100] with its
      grade and percentile. */
  function Predict(models: map<string, Regressor>, cols: seq<string>, p: Participant, info: MatchInfo): (r: Option<Prediction>)
    requires Supported(models, p) ==> info.gameDuration != 0
    ensures r.None? <==>
      !Supported(models, p)
      || models[p.individualPosition](FeatureVector(ExtractFeatures(p, info.gameDuration), cols)).None?
    ensures r.Some? ==>
      r.value.performanceScore ==
        Clip(models[p.individualPosition](FeatureVector(ExtractFeatures(p, info.gameDuration), cols)).value, 0.0, 100.0)
    ensures r.Some? ==>
      && 0.0 <= r.value.performanceScore <= 100.0
      && r.value.role == p.individualPosition && r.value.champion == p.championName && r.value.win == p.win
      && r.value.grade == ScoreToGrade(r.value.performanceScore)
      && r.value.percentile == ScoreToPercentile(r.value.performanceScore)
  {
    if !Supported(models, p) then None
    else
      var raw := models[p.individualPosition](FeatureVector(ExtractFeatures(p, info.gameDuration), cols));
      if raw.None? then None
      else
        var score := Clip(raw.value, 0.0, 100.0);
        Some(Prediction(score, p.individualPosition, ScoreToGrade(score), ScoreToPercentile(score),
                        p.championName, p.win))
  }

  /** The prediction of every participant, in order. */
  function Outcomes(models: map<string, Regressor>, cols: seq<string>, ps: seq<Participant>, info: MatchInfo): (rs: seq<Option<Prediction>>)
    requires forall i :: 0 <= i < |ps| && Supported(models, ps[i]) ==> info.gameDuration != 0
    ensures |rs| == |ps|
    ensures forall i :: 0 <= i < |ps| ==> rs[i] == Predict(models, cols, ps[i], info)
  {
    seq(|ps|, i requires 0 <= i < |ps| => Predict(models, cols, ps[i], info))
  }

  /** The dictionary `predict_batch` fills from the participants and their
      outcomes: each success stored under its player's id, a later one
      replacing an earlier. */
  function Collect(ps: seq<Participant>, rs: seq<Option<Prediction>>): map<string, Prediction>
    requires |rs| == |ps|
  {
    if ps == [] then map[]
    else
      var n := |ps| - 1;
      var prev := Collect(ps[..n], rs[..n]);
      if rs[n].Some? then prev[ps[n].puuid := rs[n].value] else prev
  }

  /** `predict_batch`. */
  function Batch(models: map<string, Regressor>, cols: seq<string>, ps: seq<Participant>, info: MatchInfo): map<string, Prediction>
    requires forall i :: 0 <= i < |ps| && Supported(models, ps[i]) ==> info.gameDuration != 0
  {
    Collect(ps, Outcomes(models, cols, ps, info))
  }

  lemma {:induction false} CollectKeys(ps: seq<Participant>, rs: seq<Option<Prediction>>)
    requires |rs| == |ps|
    ensures forall id :: id in Collect(ps, rs) <==> exists i :: 0 <= i < |ps| && ps[i].puuid == id && rs[i].Some?
  {
    if ps != [] {
      var n := |ps| - 1;
      CollectKeys(ps[..n], rs[..n]);
      forall id
        ensures id in Collect(ps, rs) <==> exists i :: 0 <= i < |ps| && ps[i].puuid == id && rs[i].Some?
      {
        if i :| 0 <= i < |ps| && ps[i].puuid == id && rs[i].Some? {
          if i < n {
            assert ps[..n][i] == ps[i] && rs[..n][i] == rs[i];
          }
        }
        if id in Collect(ps, rs) && !(rs[n].Some? && id == ps[n].puuid) {
          assert id in Collect(ps[..n], rs[..n]);
          var i :| 0 <= i < n && ps[..n][i].puuid == id && rs[..n][i].Some?;
          assert ps[..n][i] == ps[i] && rs[..n][i] == rs[i];
        }
      }
    }
  }

  lemma {:induction false} CollectLast(ps: seq<Participant>, rs: seq<Option<Prediction>>, i: nat)
    requires |rs| == |ps|
    requires i < |ps| && rs[i].Some?
    requires forall j :: i < j < |ps| && ps[j].puuid == ps[i].puuid ==> rs[j].None?
    ensures ps[i].puuid in Collect(ps, rs)
    ensures Collect(ps, rs)[ps[i].puuid] == rs[i].value
  {
    var n := |ps| - 1;
    if i < n {
      assert ps[..n][i] == ps[i] && rs[..n][i] == rs[i];
      forall j | i < j < n && ps[..n][j].puuid == ps[..n][i].puuid
        ensures rs[..n][j].None?
      {
        assert ps[..n][j] == ps[j] && rs[..n][j] == rs[j];
      }
      CollectLast(ps[..n], rs[..n], i);
    }
  }

  lemma LastSome(ps: seq<Participant>, rs: seq<Option<Prediction>>, i: nat)
    requires |rs| == |ps|
    requires i < |ps| && rs[i].Some?
    ensures exists k :: (0 <= k < |ps| && ps[k].puuid == ps[i].puuid && rs[k].Some?
      && (forall j :: k < j < |ps| && ps[j].puuid == ps[k].puuid ==> rs[j].None?))
    decreases |ps| - i
  {
    if j :| i < j < |ps| && ps[j].puuid == ps[i].puuid && rs[j].Some? {
      LastSome(ps, rs, j);
    }
  }

  /** The batch holds a prediction for a player exactly when one of their
      records predicts. */
  lemma BatchKeys(models: map<string, Regressor>, cols: seq<string>, ps: seq<Participant>, info: MatchInfo)
    requires forall i :: 0 <= i < |ps| && Supported(models, ps[i]) ==> info.gameDuration != 0
    ensures forall id :: id in Batch(models, cols, ps, info) <==>
      exists i :: 0 <= i < |ps| && ps[i].puuid == id && Predict(models, cols, ps[i], info).Some?
  {
    CollectKeys(ps, Outcomes(models, cols, ps, info));
  }

  /** A player's entry is the prediction of their last record that predicts. */
  lemma BatchLast(models: map<string, Regressor>, cols: seq<string>, ps: seq<Participant>, info: MatchInfo, i: nat)
    requires forall i :: 0 <= i < |ps| && Supported(models, ps[i]) ==> info.gameDuration != 0
    requires i < |ps| && Predict(models, cols, ps[i], info).Some?
    requires forall j :: i < j < |ps| && ps[j].puuid == ps[i].puuid ==> Predict(models, cols, ps[j], info).None?
    ensures ps[i].puuid in Batch(models, cols, ps, info)
    ensures Batch(models, cols, ps, info)[ps[i].puuid] == Predict(models, cols, ps[i], info).value
  {
    CollectLast(ps, Outcomes(models, cols, ps, info), i);
  }

  /** From any successful record of a player, a last successful one exists. */
  lemma LastSuccess(models: map<string, Regressor>, cols: seq<string>, ps: seq<Participant>, info: MatchInfo, i: nat)
    requires forall i :: 0 <= i < |ps| && Supported(models, ps[i]) ==> info.gameDuration != 0
    requires i < |ps| && Predict(models, cols, ps[i], info).Some?
    ensures exists k :: (0 <= k < |ps| && ps[k].puuid == ps[i].puuid && Predict(models, cols, ps[k], info).Some?
      && (forall j :: k < j < |ps| && ps[j].puuid == ps[k].puuid ==> Predict(models, cols, ps[j], info).None?))
  {
    var rs := Outcomes(models, cols, ps, info);
    LastSome(ps, rs, i);
    var k :| 0 <= k < |ps| && ps[k].puuid == ps[i].puuid && rs[k].Some?
      && (forall j :: k < j < |ps| && ps[j].puuid == ps[k].puuid ==> rs[j].None?);
    assert Predict(models, cols, ps[k], info).Some?;
  }

  /** Every batch entry is some participant's own successful prediction. */
  lemma BatchEntriesArePredictions(models: map<string, Regressor>, cols: seq<string>, ps: seq<Participant>, info: MatchInfo)
    requires forall i :: 0 <= i < |ps| && Supported(models, ps[i]) ==> info.gameDuration != 0
    ensures forall id :: id in Batch(models, cols, ps, info) ==>
      exists i :: 0 <= i < |ps| && ps[i].puuid == id && Predict(models, cols, ps[i], info) == Some(Batch(models, cols, ps, info)[id])
  {
    var rs := Outcomes(models, cols, ps, info);
    CollectKeys(ps, rs);
    forall id | id in Batch(models, cols, ps, info)
      ensures exists i :: 0 <= i < |ps| && ps[i].puuid == id && Predict(models, cols, ps[i], info) == Some(Batch(models, cols, ps, info)[id])
    {
      var i :| 0 <= i < |ps| && ps[i].puuid == id && rs[i].Some?;
      LastSome(ps, rs, i);
      var k :| 0 <= k < |ps| && ps[k].puuid == ps[i].puuid && rs[k].Some?
        && (forall j :: k < j < |ps| && ps[j].puuid == ps[k].puuid ==> rs[j].None?);
      CollectLast(ps, rs, k);
    }
  }

  /** With distinct player ids the batch is exactly the successful predictions. */
  lemma BatchDistinctPlayers(models: map<string, Regressor>, cols: seq<string>, ps: seq<Participant>, info: MatchInfo)
    requires forall i :: 0 <= i < |ps| && Supported(models, ps[i]) ==> info.gameDuration != 0
    requires forall i, j :: 0 <= i < j < |ps| ==> ps[i].puuid != ps[j].puuid
    ensures forall i :: 0 <= i < |ps| ==>
      (ps[i].puuid in Batch(models, cols, ps, info) <==> Predict(models, cols, ps[i], info).Some?)
    ensures forall i :: 0 <= i < |ps| && Predict(models, cols, ps[i], info).Some? ==>
      Batch(models, cols, ps, info)[ps[i].puuid] == Predict(models, cols, ps[i], info).value
  {
    var rs := Outcomes(models, cols, ps, info);
    CollectKeys(ps, rs);
    forall i | 0 <= i < |ps| && ps[i].puuid in Collect(ps, rs)
      ensures rs[i].Some?
    {
      var k :| 0 <= k < |ps| && ps[k].puuid == ps[i].puuid && rs[k].Some?;
      assert k == i;
    }
    forall i | 0 <= i < |ps| && rs[i].Some?
      ensures Collect(ps, rs)[ps[i].puuid] == rs[i].value
    {
      CollectLast(ps, rs, i);
    }
  }

  /** The metadata document, held as name/value pairs. */
  type Metadata = map<string, string>

  /** `PerformancePredictor`: the loaded role models, the metadata and the
      ordered feature names. */
  class PerformancePredictor {
    var models: map<string, Regressor>
    var metadata: Metadata
    var featureColumns: seq<string>

    /** `__init__` and `_load_models`. `loadModel(role)` is the role's model,
        `None` where reading or unpickling it raises; `loadMetadata` and
        `loadFeatures` are the two documents, `None` where reading one raises. */
    constructor (loadModel: string -> Option<Regressor>, loadMetadata: Option<Metadata>, loadFeatures: Option<seq<string>>)
      ensures models.Keys == set r | r in ROLES && loadModel(r).Some?
      ensures forall r :: r in models ==> models[r] == loadModel(r).value
      ensures loadMetadata.None? ==> metadata == map[] && featureColumns == []
      ensures loadMetadata.Some? ==> metadata == loadMetadata.value
      ensures loadMetadata.Some? && loadFeatures.Some? ==> featureColumns == loadFeatures.value
      ensures loadMetadata.Some? && loadFeatures.None? ==> featureColumns == []
    {
      var loaded: map<string, Regressor> := map[];
      var i := 0;
      while i < |ROLES|
        invariant 0 <= i <= |ROLES|
        invariant loaded.Keys == set r | r in ROLES[..i] && loadModel(r).Some?
        invariant forall r :: r in loaded ==> loaded[r] == loadModel(r).value
      {
        assert ROLES[..i + 1] == ROLES[..i] + [ROLES[i]];
        var model := loadModel(ROLES[i]);
        if model.Some? {
          loaded := loaded[ROLES[i] := model.value];
        }
        i := i + 1;
      }
      assert ROLES[..i] == ROLES;
      models := loaded;
      metadata := map[];
      featureColumns := [];
      if loadMetadata.Some? {
        metadata := loadMetadata.value;
        if loadFeatures.Some? {
          featureColumns := loadFeatures.value;
        }
      }
    }

    /** `predict_performance`, with the feature vector built in a loop. */
    method PredictPerformance(p: Participant, info: MatchInfo) returns (r: Option<Prediction>)
      requires Supported(models, p) ==> info.gameDuration != 0
      ensures r == Predict(models, featureColumns, p, info)
    {
      var role := p.individualPosition;
      if role == "" || role !in models {
        return None;
      }
      var features := ExtractFeatures(p, info.gameDuration);
      var vector: seq<real> := [];
      var i := 0;
      while i < |featureColumns|
        invariant 0 <= i <= |featureColumns|
        invariant vector == FeatureVector(features, featureColumns[..i])
      {
        assert featureColumns[..i + 1][..i] == featureColumns[..i];
        vector := vector + [GetOrZero(features, featureColumns[i])];
        i := i + 1;
      }
      assert featureColumns[..i] == featureColumns;
      var raw := models[role](vector);
      if raw.None? {
        return None;
      }
      var score := Clip(raw.value, 0.0, 100.0);
      r := Some(Prediction(score, role, ScoreToGrade(score), ScoreToPercentile(score), p.championName, p.win));
    }

    /** `predict_batch`: the predictions of a match's participants by player id. */
    method PredictBatch(ps: seq<Participant>, info: MatchInfo) returns (predictions: map<string, Prediction>)
      requires forall i :: 0 <= i < |ps| && Supported(models, ps[i]) ==> info.gameDuration != 0
      ensures predictions == Batch(models, featureColumns, ps, info)
    {
      ghost var rs := Outcomes(models, featureColumns, ps, info);
      predictions := map[];
      var i := 0;
      while i < |ps|
        invariant 0 <= i <= |ps|
        invariant predictions == Collect(ps[..i], rs[..i])
      {
        assert ps[..i + 1][..i] == ps[..i] && rs[..i + 1][..i] == rs[..i];
        var prediction := PredictPerformance(ps[i], info);
        if prediction.Some? {
          predictions := predictions[ps[i].puuid := prediction.value];
        }
        i := i + 1;
      }
      assert ps[..i] == ps && rs[..i] == rs;
    }
  }
}
