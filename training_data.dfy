/** Per-role training matrices and the choice of roles to train
    (ml_training/train_models.py, `prepare_training_data` and `main`). A frame
    is held column by column; a cell the sample lacks is pandas' missing value. */
module TrainingData {
  import opened Common
  import opened Collection
  import opened ScoreCalculator

  /** One cell of a frame: a number, or missing (pandas' NaN). */
  datatype Cell = Value(v: real) | Missing

  /** A role's training set: the feature matrix, the score labels and the row count. */
  datatype RoleData = RoleData(x: seq<seq<Cell>>, y: seq<real>, samples: nat)

  /** Roles with fewer samples than this are not trained. */
  const MIN_TRAINING_SAMPLES: nat := 100

  /** A column of `n` zeros, as assigned to a column the frame lacks. */
  function Zeros(n: nat): (z: seq<Cell>)
    ensures |z| == n && forall i :: 0 <= i < n ==> z[i] == Value(0.0)
  {
    seq(n, _ => Value(0.0))
  }

  /** The cell of column `col` in a sample's row. */
  function CellOf(s: TrainingSample, col: string): Cell
  {
    if col in s.stats then Value(s.stats[col]) else Missing
  }

  /** The samples of one role, in order, with their scores. */
  function RoleRows(samples: seq<TrainingSample>, scores: seq<real>, role: string): seq<(TrainingSample, real)>
    requires |scores| == |samples|
  {
    if samples == [] then []
    else
      var n := |samples| - 1;
      var prev := RoleRows(samples[..n], scores[..n], role);
      if samples[n].role == role then prev + [(samples[n], scores[n])] else prev
  }

  lemma {:induction false} RoleRowsFacts(samples: seq<TrainingSample>, scores: seq<real>, role: string)
    requires |scores| == |samples|
    ensures |RoleRows(samples, scores, role)| <= |samples|
    ensures forall k :: 0 <= k < |RoleRows(samples, scores, role)| ==> RoleRows(samples, scores, role)[k].0.role == role
    ensures (exists i :: 0 <= i < |samples| && samples[i].role == role) ==> |RoleRows(samples, scores, role)| >= 1
  {
    if samples != [] {
      var n := |samples| - 1;
      RoleRowsFacts(samples[..n], scores[..n], role);
      if samples[n].role != role && exists i :: 0 <= i < |samples| && samples[i].role == role {
        var i :| 0 <= i < |samples| && samples[i].role == role;
        assert samples[..n][i].role == role;
      }
    }
  }

  /** The role frame: every column of the whole frame, over the role's rows. */
  function RoleFrame(rows: seq<(TrainingSample, real)>, columns: set<string>): map<string, seq<Cell>>
  {
    map c | c in columns :: seq(|rows|, i requires 0 <= i < |rows| => CellOf(rows[i].0, c))
  }

  /** Every column of the frame holds `n` cells. */
  predicate Rectangular(frame: map<string, seq<Cell>>, n: nat)
  {
    forall c :: c in frame ==> |frame[c]| == n
  }

  /** The loop that gives the frame every column of `cols` (the feature
      columns), zero-filled where absent. */
  method FillMissingColumns(frame: map<string, seq<Cell>>, n: nat, cols: seq<string>) returns (filled: map<string, seq<Cell>>)
    ensures filled.Keys == frame.Keys + (set c | c in cols)
    ensures forall c :: c in frame ==> filled[c] == frame[c]
    ensures forall c :: c in filled && c !in frame ==> filled[c] == Zeros(n)
  {
    filled := frame;
    var j := 0;
    while j < |cols|
      invariant 0 <= j <= |cols|
      invariant filled.Keys == frame.Keys + (set c | c in cols[..j])
      invariant forall c :: c in frame ==> filled[c] == frame[c]
      invariant forall c :: c in filled && c !in frame ==> filled[c] == Zeros(n)
    {
      assert cols[..j + 1] == cols[..j] + [cols[j]];
      var col := cols[j];
      if col !in filled {
        filled := filled[col := Zeros(n)];
      }
      j := j + 1;
    }
    assert cols[..j] == cols;
  }

  /** `role_df[cols]` read row by row. */
  function Select(frame: map<string, seq<Cell>>, cols: seq<string>, n: nat): (x: seq<seq<Cell>>)
    requires forall j :: 0 <= j < |cols| ==> cols[j] in frame
    requires Rectangular(frame, n)
    ensures |x| == n && forall i :: 0 <= i < n ==> |x[i]| == |cols|
  {
    seq(n, i requires 0 <= i < n => seq(|cols|, j requires 0 <= j < |cols| => frame[cols[j]][i]))
  }

  /** What a role's training set holds: one row per sample of the role, in
      order; each row has the feature columns in order, 0 for a column no
      sample has, missing for a column this sample lacks, and otherwise the
      sample's value; the labels are the rows' scores. */
  ghost predicate RoleDataMatches(data: RoleData, rows: seq<(TrainingSample, real)>, columns: set<string>)
  {
    && data.samples == |rows| && |data.x| == |rows| && |data.y| == |rows|
    && (forall i :: 0 <= i < |rows| ==> data.y[i] == rows[i].1)
    && (forall i :: 0 <= i < |rows| ==> |data.x[i]| == |FEATURE_COLUMNS|)
    && (forall i, j :: 0 <= i < |rows| && 0 <= j < |FEATURE_COLUMNS| ==>
          data.x[i][j] == if FEATURE_COLUMNS[j] in columns then CellOf(rows[i].0, FEATURE_COLUMNS[j]) else Value(0.0))
  }

  /** The body of the per-role loop of `prepare_training_data`. */
  method PrepareRole(rows: seq<(TrainingSample, real)>, columns: set<string>) returns (data: RoleData)
    ensures RoleDataMatches(data, rows, columns)
  {
    var frame := RoleFrame(rows, columns);
    var filled := FillMissingColumns(frame, |rows|, FEATURE_COLUMNS);
    assert Rectangular(filled, |rows|);
    var x := Select(filled, FEATURE_COLUMNS, |rows|);
    var y := seq(|rows|, i requires 0 <= i < |rows| => rows[i].1);
    data := RoleData(x, y, |x|);
  }

  /** `prepare_training_data`: score every sample, then split the frame by
      role. `describe` stands for pandas' per-role mean and standard deviation. */
  method PrepareTrainingData(samples: seq<TrainingSample>, describe: (string, string) -> Moments)
    returns (scores: seq<real>, roleData: map<string, RoleData>)
    requires forall r, c :: describe(r, c).std >= 0.0
    ensures |scores| == |samples|
    ensures forall i :: 0 <= i < |samples| ==> scores[i] == Label(samples[i], samples, describe)
    ensures forall i :: 0 <= i < |samples| ==> 0.0 <= scores[i] <= 95.0
    ensures roleData.Keys == Roles(samples)
    ensures forall r :: r in roleData ==>
      RoleDataMatches(roleData[r], RoleRows(samples, scores, r), Columns(samples))
  {
    var calculator := new PerformanceScoreCalculator(samples, describe);
    scores := calculator.CalculateAllScores();
    forall i | 0 <= i < |samples| ensures scores[i] == Label(samples[i], samples, describe) {
      assert samples[i] in samples;
    }
    var columns := Columns(samples);
    var pending := Roles(samples);
    roleData := map[];
    while pending != {}
      invariant pending <= Roles(samples)
      invariant roleData.Keys == Roles(samples) - pending
      invariant forall r :: r in roleData ==> RoleDataMatches(roleData[r], RoleRows(samples, scores, r), columns)
      decreases pending
    {
      var role :| role in pending;
      var data := PrepareRole(RoleRows(samples, scores, role), columns);
      roleData := roleData[role := data];
      pending := pending - {role};
    }
  }

  /** The training loop of `main`: every role with at least 100 samples is
      trained with `train`; the others are skipped. */
  method TrainRoles<M>(roleData: map<string, RoleData>, train: (seq<seq<Cell>>, seq<real>) -> M)
    returns (models: map<string, M>)
    ensures models.Keys == set r | r in roleData && roleData[r].samples >= MIN_TRAINING_SAMPLES
    ensures forall r :: r in models ==> models[r] == train(roleData[r].x, roleData[r].y)
  {
    models := map[];
    var pending := roleData.Keys;
    while pending != {}
      invariant pending <= roleData.Keys
      invariant models.Keys == set r | r in roleData.Keys - pending && roleData[r].samples >= MIN_TRAINING_SAMPLES
      invariant forall r :: r in models ==> models[r] == train(roleData[r].x, roleData[r].y)
      decreases pending
    {
      var role :| role in pending;
      if roleData[role].samples >= MIN_TRAINING_SAMPLES {
        models := models[role := train(roleData[role].x, roleData[role].y)];
      }
      pending := pending - {role};
    }
  }

  /** A role gets a model exactly when at least 100 samples carry it. */
  lemma TrainedRolesAreWellSampled<M>(samples: seq<TrainingSample>, scores: seq<real>,
                                      roleData: map<string, RoleData>, models: map<string, M>, role: string)
    requires |scores| == |samples|
    requires roleData.Keys == Roles(samples)
    requires forall r :: r in roleData ==> RoleDataMatches(roleData[r], RoleRows(samples, scores, r), Columns(samples))
    requires models.Keys == set r | r in roleData && roleData[r].samples >= MIN_TRAINING_SAMPLES
    ensures role in models <==> |RoleRows(samples, scores, role)| >= MIN_TRAINING_SAMPLES
  {
    if |RoleRows(samples, scores, role)| >= MIN_TRAINING_SAMPLES {
      RoleRowsFacts(samples, scores, role);
      var row := RoleRows(samples, scores, role)[0];
      assert role in Roles(samples) by {
        RoleRowsMembers(samples, scores, role);
        assert row.0 in samples;
      }
    }
  }

  lemma {:induction false} RoleRowsMembers(samples: seq<TrainingSample>, scores: seq<real>, role: string)
    requires |scores| == |samples|
    ensures forall k :: 0 <= k < |RoleRows(samples, scores, role)| ==> RoleRows(samples, scores, role)[k].0 in samples
  {
    if samples != [] {
      var n := |samples| - 1;
      RoleRowsMembers(samples[..n], scores[..n], role);
      assert forall s :: s in samples[..n] ==> s in samples;
    }
  }
}
