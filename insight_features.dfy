/** Feature extraction of the insight pipeline (ml-lambda2.py, `extract_features`):
    for every match of the player's history, the first participant whose puuid
    is the player's gives one feature row and one metadata entry. */
module InsightFeatures {
  import opened Common
  import opened Riot

  /** One row of the player's feature history. */
  datatype FeatureRow = FeatureRow(
    kills: int, deaths: int, assists: int, cs: int, gold: int, damage: int, vision: int,
    kda: real, win: int, csPerMin: real, goldPerMin: real, damagePerMin: real)

  /** What is kept about the analysed match beside its features. */
  datatype MatchMeta = MatchMeta(matchId: string, champion: string, win: bool)

  /** The outcome of the extraction loop. `ExtractionFailed` stands for the
      exception the loop raises (a match without `info`, or a zero duration in
      a match where the player was found), which the handler turns into a 500. */
  datatype Extraction = Extracted(features: seq<FeatureRow>, metadata: seq<MatchMeta>) | ExtractionFailed

  /** The raw document the handler reads: the player's Riot id, puuid and matches. */
  datatype RawData = RawData(gameName: string, tagLine: string, puuid: string, matches: seq<Match>)

  function RowOf(p: Participant, durationSeconds: int): FeatureRow
    requires durationSeconds != 0
  {
    var minutes := durationSeconds as real / 60.0;
    FeatureRow(
      p.kills, p.deaths, p.assists, p.totalMinionsKilled, p.goldEarned,
      p.totalDamageDealtToChampions, p.visionScore,
      (p.kills + p.assists) as real / MaxInt(p.deaths, 1) as real,
      BoolToInt(p.win),
      p.totalMinionsKilled as real / minutes,
      p.goldEarned as real / minutes,
      p.totalDamageDealtToChampions as real / minutes)
  }

  function MetaOf(matchId: string, p: Participant): MatchMeta
  {
    MatchMeta(matchId, p.championName, p.win)
  }

  /** Index of the first participant with the given puuid, `|ps|` when none has it. */
  function FirstHit(ps: seq<Participant>, puuid: string): (i: nat)
    ensures i <= |ps|
    ensures i < |ps| ==> ps[i].puuid == puuid
    ensures forall j :: 0 <= j < i ==> ps[j].puuid != puuid
  {
    if ps == [] then 0
    else if ps[0].puuid == puuid then 0
    else 1 + FirstHit(ps[1..], puuid)
  }

  /** The player took part in the match (and the match has its `info`). */
  predicate HasPlayer(m: Match, puuid: string)
  {
    m.info.Some? && FirstHit(m.info.value.participants, puuid) < |m.info.value.participants|
  }

  /** What one iteration of the outer loop does with one match. */
  datatype StepOutcome = Raises | NoHit | Hit(row: FeatureRow, meta: MatchMeta)

  function Step(m: Match, puuid: string): (o: StepOutcome)
    ensures o.Hit? ==> HasPlayer(m, puuid) && o.meta.matchId == m.matchId
    ensures o.NoHit? ==> !HasPlayer(m, puuid)
  {
    match m.info
    case None => Raises
    case Some(info) =>
      var i := FirstHit(info.participants, puuid);
      if i == |info.participants| then NoHit
      else if info.gameDuration == 0 then Raises
      else Hit(RowOf(info.participants[i], info.gameDuration), MetaOf(m.matchId, info.participants[i]))
  }

  /** The extraction over a prefix of the match list, defined from its last match. */
  function Extract(ms: seq<Match>, puuid: string): Extraction
  {
    if ms == [] then Extracted([], [])
    else
      match Extract(ms[..|ms| - 1], puuid)
      case ExtractionFailed => ExtractionFailed
      case Extracted(f, m) =>
        match Step(ms[|ms| - 1], puuid)
        case Raises => ExtractionFailed
        case NoHit => Extracted(f, m)
        case Hit(r, mm) => Extracted(f + [r], m + [mm])
  }

  /** Once the loop has raised, the whole extraction has failed. */
  lemma {:induction false} FailurePersists(ms: seq<Match>, puuid: string, i: nat)
    requires i <= |ms|
    requires Extract(ms[..i], puuid).ExtractionFailed?
    ensures Extract(ms, puuid).ExtractionFailed?
    decreases |ms| - i
  {
    if i < |ms| {
      assert ms[..i + 1][..i] == ms[..i];
      FailurePersists(ms, puuid, i + 1);
    } else {
      assert ms[..i] == ms;
    }
  }

  /** The inner loop of `extract_features`: the first participant with the
      player's puuid, where the loop breaks. */
  method FindPlayer(ps: seq<Participant>, puuid: string) returns (j: nat)
    ensures j == FirstHit(ps, puuid)
  {
    j := 0;
    while j < |ps| && ps[j].puuid != puuid
      invariant 0 <= j <= |ps|
      invariant forall k :: 0 <= k < j ==> ps[k].puuid != puuid
    {
      j := j + 1;
    }
  }

  /** The loop of `extract_features`: scan every match, stop at the first
      participant with the player's puuid, append its row and metadata. */
  method ExtractFeatures(raw: RawData) returns (r: Extraction)
    ensures r == Extract(raw.matches, raw.puuid)
  {
    var ms := raw.matches;
    var features: seq<FeatureRow> := [];
    var metadata: seq<MatchMeta> := [];
    var i := 0;
    while i < |ms|
      invariant 0 <= i <= |ms|
      invariant Extract(ms[..i], raw.puuid) == Extracted(features, metadata)
    {
      assert ms[..i + 1][..i] == ms[..i];
      var m := ms[i];
      if m.info.None? {
        FailurePersists(ms, raw.puuid, i + 1);
        return ExtractionFailed;
      }
      var info := m.info.value;
      var j := FindPlayer(info.participants, raw.puuid);
      if j < |info.participants| {
        if info.gameDuration == 0 {
          FailurePersists(ms, raw.puuid, i + 1);
          return ExtractionFailed;
        }
        features := features + [RowOf(info.participants[j], info.gameDuration)];
        metadata := metadata + [MetaOf(m.matchId, info.participants[j])];
      }
      i := i + 1;
    }
    assert ms[..|ms|] == ms;
    r := Extracted(features, metadata);
  }

  /** Number of matches of the list in which the player took part. */
  function CountHits(ms: seq<Match>, puuid: string): (n: nat)
    ensures n <= |ms|
  {
    if ms == [] then 0
    else CountHits(ms[..|ms| - 1], puuid) + (if HasPlayer(ms[|ms| - 1], puuid) then 1 else 0)
  }

  function MatchIds(metas: seq<MatchMeta>): (ids: seq<string>)
    ensures |ids| == |metas|
    ensures forall j :: 0 <= j < |metas| ==> ids[j] == metas[j].matchId
  {
    if metas == [] then [] else MatchIds(metas[..|metas| - 1]) + [metas[|metas| - 1].matchId]
  }

  /** The rows and the metadata come out aligned, one pair per match the player
      took part in (so at most one per match), with `win` in {0, 1} agreeing with
      the metadata and the KDA ratio dividing by `max(deaths, 1)`. */
  lemma {:induction false} ExtractionShape(ms: seq<Match>, puuid: string)
    requires Extract(ms, puuid).Extracted?
    ensures var e := Extract(ms, puuid);
      && |e.features| == |e.metadata| == CountHits(ms, puuid) <= |ms|
      && forall j :: 0 <= j < |e.features| ==>
           && (e.features[j].win == 1 <==> e.metadata[j].win)
           && (e.features[j].win == 0 || e.features[j].win == 1)
           && e.features[j].kda * MaxInt(e.features[j].deaths, 1) as real
              == (e.features[j].kills + e.features[j].assists) as real
  {
    if ms != [] {
      var init := ms[..|ms| - 1];
      ExtractionShape(init, puuid);
    }
  }

  /** The ids of every match of the list, in order (`new_ids` of the handler). */
  function AllMatchIds(ms: seq<Match>): (ids: seq<string>)
    ensures |ids| == |ms|
    ensures forall i :: 0 <= i < |ms| ==> ids[i] == ms[i].matchId
  {
    if ms == [] then [] else AllMatchIds(ms[..|ms| - 1]) + [ms[|ms| - 1].matchId]
  }

  /** The ids of the matches of the list in which the player took part. */
  function PlayerMatchIds(ms: seq<Match>, puuid: string): (ids: set<string>)
    ensures ids <= set id | id in AllMatchIds(ms)
  {
    if ms == [] then {}
    else
      var last := ms[|ms| - 1];
      PlayerMatchIds(ms[..|ms| - 1], puuid) + (if HasPlayer(last, puuid) then {last.matchId} else {})
  }

  /** The ids recorded for the analysed rows are exactly the ids of the matches
      in which the player took part. */
  lemma {:induction false} ExtractedIds(ms: seq<Match>, puuid: string)
    requires Extract(ms, puuid).Extracted?
    ensures (set id | id in MatchIds(Extract(ms, puuid).metadata)) == PlayerMatchIds(ms, puuid)
  {
    if ms != [] {
      var init := ms[..|ms| - 1];
      ExtractedIds(init, puuid);
      var before := Extract(init, puuid).metadata;
      match Step(ms[|ms| - 1], puuid)
      case NoHit =>
      case Hit(r, mm) =>
        assert MatchIds(before + [mm]) == MatchIds(before) + [mm.matchId];
    }
  }

  /** When the player took part in every match, every match id is recorded. */
  lemma {:induction false} PlayerInEveryMatch(ms: seq<Match>, puuid: string)
    requires forall i :: 0 <= i < |ms| ==> HasPlayer(ms[i], puuid)
    ensures PlayerMatchIds(ms, puuid) == set id | id in AllMatchIds(ms)
  {
    if ms != [] {
      var init := ms[..|ms| - 1];
      PlayerInEveryMatch(init, puuid);
      assert AllMatchIds(ms) == AllMatchIds(init) + [ms[|ms| - 1].matchId];
    }
  }
}
