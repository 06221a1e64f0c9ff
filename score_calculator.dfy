/** The ground-truth score that labels the training data
    (ml_training/train_models.py, `PerformanceScoreCalculator`): a win prior,
    a z-score component against the role's statistics, and impact bonuses. */
module ScoreCalculator {
  import opened Common
  import opened Collection

  /** The ordered feature columns every role model is trained on. */
  const FEATURE_COLUMNS: seq<string> := [
    "kills", "deaths", "assists", "kda",
    "cs_per_min", "jungle_cs", "gold_per_min",
    "damage_per_min", "damage_taken_per_min", "damage_mitigated", "damage_share",
    "vision_per_min", "wards_placed", "wards_killed", "control_wards",
    "turret_plates", "turrets", "dragons", "barons",
    "cs_at_10", "cs_advantage", "gold_advantage",
    "kill_participation", "solo_kills", "multikills",
    "cc_time", "healing", "shielding",
    "time_dead_pct", "longest_living",
    "skillshots_hit", "skillshots_dodged",
    "first_blood", "first_tower",
    "game_duration"]

  /** The weighted statistics of the z-score component, in the source's order. */
  const KEY_STATS: seq<(string, real)> := [
    ("kda", 2.0), ("cs_per_min", 1.5), ("damage_per_min", 2.0), ("vision_per_min", 1.0),
    ("kill_participation", 1.5), ("damage_share", 1.5), ("time_dead_pct", -2.0)]

  /** What is added to every standard deviation so that it is never zero. */
  const STD_EPSILON: real := 0.000001

  /** Mean and standard deviation of one column within one role. */
  datatype Moments = Moments(mean: real, std: real)

  predicate PositiveStds(rs: map<string, Moments>)
  {
    forall c :: c in rs ==> rs[c].std > 0.0
  }

  /** `sample.get(key, 0)`. */
  function Stat(s: TrainingSample, key: string): real
  {
    GetOrZero(s.stats, key)
  }

  /** Counts the impact bonuses read are never negative. */
  predicate NonNegativeCounts(s: TrainingSample)
  {
    Stat(s, "turrets") >= 0.0 && Stat(s, "dragons") >= 0.0 && Stat(s, "barons") >= 0.0
  }

  /** Win prior: 25 points on a win, 5 on a loss. */
  function OutcomeComponent(s: TrainingSample): (r: real)
    ensures r == 25.0 || r == 5.0
    ensures r == 25.0 <==> s.win != 0
  {
    if s.win != 0 then 25.0 else 5.0
  }

  /** One weighted statistic: `clip(5 + z, 0, 10) * |weight|`. */
  function StatTerm(value: real, m: Moments, weight: real): (r: real)
    requires m.std > 0.0
    ensures 0.0 <= r <= 10.0 * AbsReal(weight)
  {
    var clipped := Normalized(value, m);
    assert 0.0 <= clipped * AbsReal(weight) <= 10.0 * AbsReal(weight);
    clipped * AbsReal(weight)
  }

  /** The z-score moved to a 0-10 scale: `np.clip(5 + z, 0, 10)`. */
  function Normalized(value: real, m: Moments): real
    requires m.std > 0.0
  {
    Clip(5.0 + (value - m.mean) / m.std, 0.0, 10.0)
  }

  /** The `stat_scores` list built from a prefix of `KEY_STATS`: one term per
      key statistic present both in the role's statistics and in the sample. */
  function StatTerms(s: TrainingSample, rs: map<string, Moments>, keys: seq<(string, real)>): seq<real>
    requires PositiveStds(rs)
  {
    if keys == [] then []
    else
      var prev := StatTerms(s, rs, keys[..|keys| - 1]);
      var (stat, weight) := keys[|keys| - 1];
      if stat in rs && stat in s.stats then prev + [StatTerm(s.stats[stat], rs[stat], weight)] else prev
  }

  /** The mean term, or 25 when there is none, scaled by 5 and clipped to [0, 50]. */
  function StatComponent(s: TrainingSample, rs: map<string, Moments>): (r: real)
    requires PositiveStds(rs)
    ensures 0.0 <= r <= 50.0
  {
    var terms := StatTerms(s, rs, KEY_STATS);
    var mean := if terms != [] then Sum(terms) / |terms| as real else 25.0;
    Clip(mean * 5.0, 0.0, 50.0)
  }

  /** Objective and combat bonuses, capped at 20. */
  function ImpactComponent(s: TrainingSample): (r: real)
    ensures r <= 20.0
    ensures NonNegativeCounts(s) ==> 0.0 <= r
  {
    var acc := MinReal(Stat(s, "turrets") * 2.0, 5.0)
             + MinReal(Stat(s, "dragons") * 2.0, 5.0)
             + MinReal(Stat(s, "barons") * 5.0, 5.0)
             + (if Stat(s, "solo_kills") >= 2.0 then 3.0 else 0.0)
             + (if Stat(s, "multikills") >= 1.0 then 2.0 else 0.0);
    MinReal(acc, 20.0)
  }

  /** `calculate_performance_score`. */
  function PerformanceScore(s: TrainingSample, rs: map<string, Moments>): (r: real)
    requires PositiveStds(rs)
    ensures 0.0 <= r <= 100.0
  {
    Clip(OutcomeComponent(s) + StatComponent(s, rs) + ImpactComponent(s), 0.0, 100.0)
  }

  /** Each term of the statistic list lies in [0, 10 |weight|] for its weight. */
  lemma {:induction false} StatTermsBounded(s: TrainingSample, rs: map<string, Moments>, keys: seq<(string, real)>)
    requires PositiveStds(rs)
    requires forall k :: 0 <= k < |keys| ==> AbsReal(keys[k].1) <= 2.0
    ensures |StatTerms(s, rs, keys)| <= |keys|
    ensures forall i :: 0 <= i < |StatTerms(s, rs, keys)| ==> 0.0 <= StatTerms(s, rs, keys)[i] <= 20.0
  {
    if keys != [] {
      StatTermsBounded(s, rs, keys[..|keys| - 1]);
    }
  }

  /** No key statistic in both the sample and the role statistics: the list is empty. */
  lemma {:induction false} StatTermsEmpty(s: TrainingSample, rs: map<string, Moments>, keys: seq<(string, real)>)
    requires PositiveStds(rs)
    requires forall k :: 0 <= k < |keys| ==> keys[k].0 !in rs || keys[k].0 !in s.stats
    ensures StatTerms(s, rs, keys) == []
  {
    if keys != [] {
      StatTermsEmpty(s, rs, keys[..|keys| - 1]);
    }
  }

  /** The statistic list reads the sample's statistics and nothing else of it. */
  lemma {:induction false} StatTermsReadOnlyStats(s: TrainingSample, t: TrainingSample, rs: map<string, Moments>, keys: seq<(string, real)>)
    requires PositiveStds(rs)
    requires s.stats == t.stats
    ensures StatTerms(s, rs, keys) == StatTerms(t, rs, keys)
  {
    if keys != [] {
      StatTermsReadOnlyStats(s, t, rs, keys[..|keys| - 1]);
    }
  }

  /** With no weighted statistic available the component is 25 * 5 clipped,
      i.e. the maximum 50 and not a midpoint. */
  lemma NoWeightedStatGivesFifty(s: TrainingSample, rs: map<string, Moments>)
    requires PositiveStds(rs)
    requires forall k :: 0 <= k < |KEY_STATS| ==> KEY_STATS[k].0 !in rs || KEY_STATS[k].0 !in s.stats
    ensures StatComponent(s, rs) == 50.0
  {
    StatTermsEmpty(s, rs, KEY_STATS);
  }

  /** The score never exceeds 25 + 50 + 20 = 95. */
  lemma ScoreAtMost95(s: TrainingSample, rs: map<string, Moments>)
    requires PositiveStds(rs)
    ensures PerformanceScore(s, rs) <= 95.0
  {
  }

  /** Two samples that differ only in the outcome differ in score by exactly
      20, the winner higher: no weighted statistic reads the outcome. */
  lemma WinAddsTwenty(winner: TrainingSample, loser: TrainingSample, rs: map<string, Moments>)
    requires PositiveStds(rs)
    requires winner.win != 0 && loser == winner.(win := 0)
    requires NonNegativeCounts(winner)
    ensures PerformanceScore(winner, rs) == PerformanceScore(loser, rs) + 20.0
  {
    StatTermsReadOnlyStats(winner, loser, rs, KEY_STATS);
    assert StatComponent(winner, rs) == StatComponent(loser, rs);
    assert ImpactComponent(winner) == ImpactComponent(loser);
  }

  /** `t` has the same statistics as `s`, each at least as large. */
  predicate Dominates(t: TrainingSample, s: TrainingSample)
  {
    t.stats.Keys == s.stats.Keys && forall c :: c in s.stats ==> s.stats[c] <= t.stats[c]
  }

  /** A larger value never gets a smaller weighted term. */
  lemma StatTermMonotone(v: real, w: real, m: Moments, weight: real)
    requires m.std > 0.0 && v <= w
    ensures StatTerm(v, m, weight) <= StatTerm(w, m, weight)
  {
    DivMonotone(v - m.mean, w - m.mean, m.std);
    ClipMonotone(5.0 + (v - m.mean) / m.std, 5.0 + (w - m.mean) / m.std, 0.0, 10.0);
    ScaleMonotone(Normalized(v, m), Normalized(w, m), AbsReal(weight));
    assert Normalized(v, m) <= Normalized(w, m);
    assert Normalized(v, m) * AbsReal(weight) <= Normalized(w, m) * AbsReal(weight);
    assert StatTerm(v, m, weight) == Normalized(v, m) * AbsReal(weight);
    assert StatTerm(w, m, weight) == Normalized(w, m) * AbsReal(weight);
  }

  lemma DivMonotone(x: real, y: real, d: real)
    requires x <= y && d > 0.0
    ensures x / d <= y / d
  {
    assert y / d - x / d == (y - x) / d;
  }

  lemma ScaleMonotone(x: real, y: real, a: real)
    requires x <= y && a >= 0.0
    ensures x * a <= y * a
  {
    assert y * a - x * a == (y - x) * a;
  }

  lemma {:induction false} StatTermsMonotone(s: TrainingSample, t: TrainingSample, rs: map<string, Moments>, keys: seq<(string, real)>)
    requires PositiveStds(rs)
    requires Dominates(t, s)
    ensures |StatTerms(s, rs, keys)| == |StatTerms(t, rs, keys)|
    ensures forall i :: 0 <= i < |StatTerms(s, rs, keys)| ==> StatTerms(s, rs, keys)[i] <= StatTerms(t, rs, keys)[i]
  {
    if keys != [] {
      StatTermsMonotone(s, t, rs, keys[..|keys| - 1]);
      var (stat, weight) := keys[|keys| - 1];
      var prevS, prevT := StatTerms(s, rs, keys[..|keys| - 1]), StatTerms(t, rs, keys[..|keys| - 1]);
      if stat in rs && stat in s.stats {
        var m := rs[stat];
        StatTermMonotone(s.stats[stat], t.stats[stat], m, weight);
        assert StatTerms(s, rs, keys) == prevS + [StatTerm(s.stats[stat], m, weight)];
        assert StatTerms(t, rs, keys) == prevT + [StatTerm(t.stats[stat], m, weight)];
      } else {
        assert StatTerms(s, rs, keys) == prevS;
        assert StatTerms(t, rs, keys) == prevT;
      }
    }
  }

  /** A sample at least as good on every statistic, with the same outcome,
      scores at least as high. Every weight enters through its absolute value,
      so this holds for `time_dead_pct` too despite its negative weight. */
  lemma ScoreMonotone(s: TrainingSample, t: TrainingSample, rs: map<string, Moments>)
    requires PositiveStds(rs)
    requires Dominates(t, s) && s.win == t.win
    ensures PerformanceScore(s, rs) <= PerformanceScore(t, rs)
  {
    var ts, tt := StatTerms(s, rs, KEY_STATS), StatTerms(t, rs, KEY_STATS);
    StatTermsMonotone(s, t, rs, KEY_STATS);
    SumMonotone(ts, tt);
    if ts != [] {
      var n := |ts| as real;
      assert Sum(ts) / n <= Sum(tt) / n;
      ClipMonotone(Sum(ts) / n * 5.0, Sum(tt) / n * 5.0, 0.0, 50.0);
    }
    assert StatComponent(s, rs) <= StatComponent(t, rs);
    assert ImpactComponent(s) <= ImpactComponent(t);
    ClipMonotone(OutcomeComponent(s) + StatComponent(s, rs) + ImpactComponent(s),
                 OutcomeComponent(t) + StatComponent(t, rs) + ImpactComponent(t), 0.0, 100.0);
  }

  /** More time spent dead never lowers the score. */
  lemma MoreTimeDeadNeverLowersScore(s: TrainingSample, rs: map<string, Moments>, more: real)
    requires PositiveStds(rs)
    requires "time_dead_pct" in s.stats && s.stats["time_dead_pct"] <= more
    ensures PerformanceScore(s, rs) <= PerformanceScore(s.(stats := s.stats["time_dead_pct" := more]), rs)
  {
    ScoreMonotone(s, s.(stats := s.stats["time_dead_pct" := more]), rs);
  }

  /** The roles present among the samples. */
  function Roles(samples: seq<TrainingSample>): set<string>
  {
    set s | s in samples :: s.role
  }

  /** The statistic columns present among the samples (the frame's columns). */
  function Columns(samples: seq<TrainingSample>): set<string>
  {
    set s, c | s in samples && c in s.stats :: c
  }

  /** A column whose statistics are kept: a feature column of the frame other
      than the game duration. */
  predicate KeptColumn(c: string, columns: set<string>)
  {
    c in FEATURE_COLUMNS && c in columns && c != "game_duration"
  }

  /** The per-column statistics of one role over the columns `cols`, in order. */
  function ColumnStats(role: string, columns: set<string>, describe: (string, string) -> Moments, cols: seq<string>): map<string, Moments>
  {
    if cols == [] then map[]
    else
      var prev := ColumnStats(role, columns, describe, cols[..|cols| - 1]);
      var c := cols[|cols| - 1];
      if c in columns && c != "game_duration" then
        prev[c := Moments(describe(role, c).mean, describe(role, c).std + STD_EPSILON)]
      else prev
  }

  function RoleColumnStats(role: string, columns: set<string>, describe: (string, string) -> Moments): map<string, Moments>
  {
    ColumnStats(role, columns, describe, FEATURE_COLUMNS)
  }

  lemma {:induction false} ColumnStatsFacts(role: string, columns: set<string>, describe: (string, string) -> Moments, cols: seq<string>)
    ensures forall c :: c in ColumnStats(role, columns, describe, cols) <==>
      c in cols && c in columns && c != "game_duration"
    ensures forall c :: c in ColumnStats(role, columns, describe, cols) ==>
      ColumnStats(role, columns, describe, cols)[c] == Moments(describe(role, c).mean, describe(role, c).std + STD_EPSILON)
  {
    if cols != [] {
      ColumnStatsFacts(role, columns, describe, cols[..|cols| - 1]);
      assert cols == cols[..|cols| - 1] + [cols[|cols| - 1]];
    }
  }

  /** A role's statistics: exactly the kept columns, each with the given mean
      and the given standard deviation plus 1e-6, hence strictly positive. */
  lemma RoleColumnStatsFacts(role: string, columns: set<string>, describe: (string, string) -> Moments)
    requires forall r, c :: describe(r, c).std >= 0.0
    ensures var rs := RoleColumnStats(role, columns, describe);
      && (forall c :: c in rs <==> KeptColumn(c, columns))
      && "game_duration" !in rs
      && (forall c :: c in rs ==> rs[c].mean == describe(role, c).mean && rs[c].std == describe(role, c).std + STD_EPSILON)
      && PositiveStds(rs)
  {
    ColumnStatsFacts(role, columns, describe, FEATURE_COLUMNS);
  }

  /** The label a sample of the training set gets: its score against its
      role's statistics over the whole set, at most 95. */
  function Label(s: TrainingSample, samples: seq<TrainingSample>, describe: (string, string) -> Moments): (r: real)
    requires forall r, c :: describe(r, c).std >= 0.0
    ensures 0.0 <= r <= 95.0
  {
    RoleColumnStatsFacts(s.role, Columns(samples), describe);
    ScoreAtMost95(s, RoleColumnStats(s.role, Columns(samples), describe));
    PerformanceScore(s, RoleColumnStats(s.role, Columns(samples), describe))
  }

  /** The inner loop of `_calculate_role_statistics` over the columns `cols`:
      one role's mean and deviation (plus 1e-6) for every kept column. */
  method RoleStatistics(role: string, columns: set<string>, describe: (string, string) -> Moments, cols: seq<string>)
    returns (perColumn: map<string, Moments>)
    ensures perColumn == ColumnStats(role, columns, describe, cols)
  {
    perColumn := map[];
    var j := 0;
    while j < |cols|
      invariant 0 <= j <= |cols|
      invariant perColumn == ColumnStats(role, columns, describe, cols[..j])
    {
      assert cols[..j + 1][..j] == cols[..j];
      var col := cols[j];
      if col in columns && col != "game_duration" {
        perColumn := perColumn[col := Moments(describe(role, col).mean, describe(role, col).std + STD_EPSILON)];
      }
      j := j + 1;
    }
    assert cols[..j] == cols;
  }

  /** `PerformanceScoreCalculator`: the samples and the per-role statistics
      computed from them once, at construction. */
  class PerformanceScoreCalculator {
    var samples: seq<TrainingSample>
    var roleStats: map<string, map<string, Moments>>

    /** Every sample's role has statistics and every stored deviation is positive. */
    ghost predicate Valid()
      reads this
    {
      && (forall s :: s in samples ==> s.role in roleStats)
      && (forall r :: r in roleStats ==> PositiveStds(roleStats[r]))
    }

    /** Builds the calculator; `describe(role, column)` stands for pandas' mean
        and sample standard deviation of that column over that role's rows. */
    constructor (samples: seq<TrainingSample>, describe: (string, string) -> Moments)
      requires forall r, c :: describe(r, c).std >= 0.0
      ensures this.samples == samples
      ensures roleStats.Keys == Roles(samples)
      ensures forall r :: r in roleStats ==> roleStats[r] == RoleColumnStats(r, Columns(samples), describe)
      ensures Valid()
    {
      this.samples := samples;
      var columns := Columns(samples);
      var pending := Roles(samples);
      var stats: map<string, map<string, Moments>> := map[];
      while pending != {}
        invariant pending <= Roles(samples)
        invariant stats.Keys == Roles(samples) - pending
        invariant forall r :: r in stats ==> stats[r] == RoleColumnStats(r, columns, describe)
        decreases pending
      {
        var role :| role in pending;
        var perColumn := RoleStatistics(role, columns, describe, FEATURE_COLUMNS);
        stats := stats[role := perColumn];
        pending := pending - {role};
      }
      roleStats := stats;
      forall r | r in stats ensures PositiveStds(stats[r]) {
        RoleColumnStatsFacts(r, columns, describe);
      }
    }

    /** `calculate_performance_score`: the term list built in a loop, the impact
        bonuses added step by step. */
    method CalculatePerformanceScore(s: TrainingSample) returns (score: real)
      requires Valid() && s.role in roleStats
      ensures score == PerformanceScore(s, roleStats[s.role])
    {
      var rs := roleStats[s.role];
      var winScore := if s.win != 0 then 25.0 else 5.0;
      var statScore := WeightedStatScore(s, rs);
      var impact := ImpactScore(s);
      score := Clip(winScore + statScore + impact, 0.0, 100.0);
    }

    /** `calculate_all_scores`: one score per sample, in order, each in [0, 95]. */
    method CalculateAllScores() returns (scores: seq<real>)
      requires Valid()
      ensures |scores| == |samples|
      ensures forall i :: 0 <= i < |samples| ==>
        scores[i] == PerformanceScore(samples[i], roleStats[samples[i].role]) && 0.0 <= scores[i] <= 95.0
    {
      scores := [];
      var i := 0;
      while i < |samples|
        invariant 0 <= i <= |samples|
        invariant |scores| == i
        invariant forall k :: 0 <= k < i ==>
          scores[k] == PerformanceScore(samples[k], roleStats[samples[k].role]) && 0.0 <= scores[k] <= 95.0
      {
        assert samples[i] in samples;
        var score := CalculatePerformanceScore(samples[i]);
        ScoreAtMost95(samples[i], roleStats[samples[i].role]);
        scores := scores + [score];
        i := i + 1;
      }
    }
  }

  /** The z-score component of `calculate_performance_score`: the term list
      built in a loop over the key statistics. */
  method WeightedStatScore(s: TrainingSample, rs: map<string, Moments>) returns (statScore: real)
    requires PositiveStds(rs)
    ensures statScore == StatComponent(s, rs)
  {
    var statScores: seq<real> := [];
    var i := 0;
    while i < |KEY_STATS|
      invariant 0 <= i <= |KEY_STATS|
      invariant statScores == StatTerms(s, rs, KEY_STATS[..i])
    {
      assert KEY_STATS[..i + 1][..i] == KEY_STATS[..i];
      var (stat, weight) := KEY_STATS[i];
      if stat in rs && stat in s.stats {
        var z := (s.stats[stat] - rs[stat].mean) / rs[stat].std;
        var normalized := Clip(5.0 + z, 0.0, 10.0) * AbsReal(weight);
        statScores := statScores + [normalized];
      }
      i := i + 1;
    }
    assert KEY_STATS[..|KEY_STATS|] == KEY_STATS;
    statScore := if statScores != [] then Sum(statScores) / |statScores| as real else 25.0;
    statScore := Clip(statScore * 5.0, 0.0, 50.0);
  }

  /** The impact component of `calculate_performance_score`, accumulated step by step. */
  method ImpactScore(s: TrainingSample) returns (impact: real)
    ensures impact == ImpactComponent(s)
  {
    impact := 0.0;
    impact := impact + MinReal(Stat(s, "turrets") * 2.0, 5.0);
    impact := impact + MinReal(Stat(s, "dragons") * 2.0, 5.0);
    impact := impact + MinReal(Stat(s, "barons") * 5.0, 5.0);
    if Stat(s, "solo_kills") >= 2.0 {
      impact := impact + 3.0;
    }
    if Stat(s, "multikills") >= 1.0 {
      impact := impact + 2.0;
    }
    impact := MinReal(impact, 20.0);
  }
}
