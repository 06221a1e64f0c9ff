/** The training-data collector (ml_training/data_collection.py): sample
    extraction from a fetched match, the request-rate window, and the snowball
    loop over players and matches. */
module Collection {
  import opened Common
  import opened Riot

  /** One training sample: the identifying strings, the 0/1 outcome and every
      numeric statistic by name. */
  datatype TrainingSample = TrainingSample(
    matchId: string, puuid: string, champion: string, role: string, win: int,
    stats: map<string, real>)

  /** Games shorter than this many seconds are remakes and are skipped. */
  const MIN_GAME_SECONDS: int := 300

  /** Requests kept in the two-minute window before the collector waits. */
  const WINDOW_LIMIT: nat := 95

  /** Length of the rate-limit window, in seconds. */
  const WINDOW_SECONDS: real := 120.0

  /** Most players the snowball queue grows to by itself. */
  const QUEUE_CAP: nat := 200

  /** A position that produce a sample: neither `Invalid` nor empty. */
  predicate IsValidPosition(pos: string)
  {
    pos != "Invalid" && pos != ""
  }

  /** The statistics of one participant in a game of `gameDuration` seconds:
      the raw counts and per-minute rates, joined with the derived flags and
      ratios of `DerivedStats`. */
  function ParticipantStats(p: Participant, gameDuration: int): map<string, real>
    requires gameDuration != 0
  {
    CountStats(p, gameDuration) + DerivedStats(p, gameDuration)
  }

  function CountStats(p: Participant, gameDuration: int): map<string, real>
    requires gameDuration != 0
  {
    var minutes := gameDuration as real / 60.0;
    map[
      "kills" := p.kills as real,
      "deaths" := p.deaths as real,
      "assists" := p.assists as real,
      "cs" := p.totalMinionsKilled as real,
      "cs_per_min" := p.totalMinionsKilled as real / minutes,
      "jungle_cs" := p.neutralMinionsKilled as real,
      "gold" := p.goldEarned as real,
      "gold_per_min" := p.goldEarned as real / minutes,
      "damage_dealt" := p.totalDamageDealtToChampions as real,
      "damage_per_min" := p.totalDamageDealtToChampions as real / minutes,
      "damage_taken" := p.totalDamageTaken as real,
      "damage_taken_per_min" := p.totalDamageTaken as real / minutes,
      "damage_mitigated" := p.damageSelfMitigated as real,
      "damage_share" := Challenge(p, "teamDamagePercentage"),
      "vision_score" := p.visionScore as real,
      "vision_per_min" := p.visionScore as real / minutes,
      "wards_placed" := p.wardsPlaced as real,
      "wards_killed" := p.wardsKilled as real,
      "control_wards" := Challenge(p, "controlWardsPlaced"),
      "turret_plates" := Challenge(p, "turretPlatesTaken"),
      "turrets" := p.turretKills as real,
      "dragons" := p.dragonKills as real,
      "barons" := p.baronKills as real,
      "cs_at_10" := OrElse(Challenge(p, "laneMinionsFirst10Minutes"), Challenge(p, "jungleCsBefore10Minutes")),
      "cs_advantage" := Challenge(p, "maxCsAdvantageOnLaneOpponent"),
      "kill_participation" := Challenge(p, "killParticipation"),
      "solo_kills" := Challenge(p, "soloKills"),
      "cc_time" := p.timeCCingOthers as real,
      "healing" := p.totalHeal as real,
      "shielding" := p.totalDamageShieldedOnTeammates as real,
      "time_dead" := p.totalTimeSpentDead as real,
      "longest_living" := p.longestTimeSpentLiving as real,
      "skillshots_hit" := Challenge(p, "skillshotsHit"),
      "skillshots_dodged" := Challenge(p, "skillshotsDodged")
    ]
  }

  function DerivedStats(p: Participant, gameDuration: int): map<string, real>
    requires gameDuration != 0
  {
    map[
      "game_duration" := gameDuration as real / 60.0,
      "kda" := p.kills as real + p.assists as real / MaxInt(p.deaths, 1) as real,
      "gold_advantage" := if Challenge(p, "earlyLaningPhaseGoldExpAdvantage") > 0.0 then 1.0 else 0.0,
      "multikills" := Multikills(p) as real,
      "time_dead_pct" := p.totalTimeSpentDead as real / gameDuration as real,
      "first_blood" := BoolToInt(p.firstBloodKill) as real,
      "first_tower" := BoolToInt(p.firstTowerKill) as real
    ]
  }

  /** The sample one participant of match `matchId` produce. */
  function SampleOf(matchId: string, p: Participant, gameDuration: int): TrainingSample
    requires gameDuration != 0
  {
    TrainingSample(matchId, p.puuid, p.championName, p.individualPosition, BoolToInt(p.win),
      ParticipantStats(p, gameDuration))
  }

  lemma DerivedStatsFacts(p: Participant, gameDuration: int)
    requires gameDuration != 0
    ensures var d := DerivedStats(p, gameDuration);
      && "game_duration" in d && d["game_duration"] * 60.0 == gameDuration as real
      && "kda" in d && (d["kda"] - p.kills as real) * MaxInt(p.deaths, 1) as real == p.assists as real
      && "multikills" in d && d["multikills"] == Multikills(p) as real
      && "gold_advantage" in d && (d["gold_advantage"] == 1.0 <==> Challenge(p, "earlyLaningPhaseGoldExpAdvantage") > 0.0)
      && (d["gold_advantage"] == 0.0 || d["gold_advantage"] == 1.0)
      && "first_blood" in d && (d["first_blood"] == 1.0 <==> p.firstBloodKill)
      && (d["first_blood"] == 0.0 || d["first_blood"] == 1.0)
      && "first_tower" in d && (d["first_tower"] == 1.0 <==> p.firstTowerKill)
      && (d["first_tower"] == 0.0 || d["first_tower"] == 1.0)
      && "time_dead_pct" in d && d["time_dead_pct"] * gameDuration as real == p.totalTimeSpentDead as real
  {
    var kda := p.kills as real + p.assists as real / MaxInt(p.deaths, 1) as real;
    assert (kda - p.kills as real) * MaxInt(p.deaths, 1) as real == p.assists as real;
  }

  /** What one participant's sample says about them, derived from the raw record. */
  lemma SampleFacts(matchId: string, p: Participant, gameDuration: int)
    requires gameDuration != 0
    ensures var s := SampleOf(matchId, p, gameDuration);
      && s.matchId == matchId && s.puuid == p.puuid && s.role == p.individualPosition
      && (s.win == 1 <==> p.win) && (s.win == 0 || s.win == 1)
      && s.stats["game_duration"] * 60.0 == gameDuration as real
      && (s.stats["kda"] - p.kills as real) * MaxInt(p.deaths, 1) as real == p.assists as real
      && s.stats["multikills"] == Multikills(p) as real
      && (s.stats["gold_advantage"] == 1.0 <==> Challenge(p, "earlyLaningPhaseGoldExpAdvantage") > 0.0)
      && (s.stats["gold_advantage"] == 0.0 || s.stats["gold_advantage"] == 1.0)
      && (s.stats["first_blood"] == 1.0 <==> p.firstBloodKill)
      && (s.stats["first_blood"] == 0.0 || s.stats["first_blood"] == 1.0)
      && (s.stats["first_tower"] == 1.0 <==> p.firstTowerKill)
      && (s.stats["first_tower"] == 0.0 || s.stats["first_tower"] == 1.0)
      && s.stats["time_dead_pct"] * gameDuration as real == p.totalTimeSpentDead as real
  {
    var counts, derived := CountStats(p, gameDuration), DerivedStats(p, gameDuration);
    DerivedStatsFacts(p, gameDuration);
    assert SampleOf(matchId, p, gameDuration).stats == counts + derived;
  }

  /** The samples of the valid-position participants among `ps`, in order. */
  function ParticipantSamples(matchId: string, ps: seq<Participant>, gameDuration: int): seq<TrainingSample>
    requires gameDuration != 0
  {
    if ps == [] then []
    else
      var prev := ParticipantSamples(matchId, ps[..|ps| - 1], gameDuration);
      var p := ps[|ps| - 1];
      if IsValidPosition(p.individualPosition) then prev + [SampleOf(matchId, p, gameDuration)] else prev
  }

  /** `extract_participant_data`: nothing for a missing match, a match without
      `info`, a game under five minutes or a mode other than `CLASSIC`. */
  function ExtractedSamples(m: Option<Match>): seq<TrainingSample>
  {
    if m.None? || m.value.info.None? then []
    else
      var info := m.value.info.value;
      if info.gameDuration < MIN_GAME_SECONDS || info.gameMode != "CLASSIC" then []
      else ParticipantSamples(m.value.matchId, info.participants, info.gameDuration)
  }

  /** The positions, in order, of the participants that yield a sample. */
  function ValidIndices(ps: seq<Participant>): seq<nat>
  {
    if ps == [] then []
    else
      var prev := ValidIndices(ps[..|ps| - 1]);
      if IsValidPosition(ps[|ps| - 1].individualPosition) then prev + [|ps| - 1] else prev
  }

  /** The valid positions are exactly the indices of the valid-position
      participants, in increasing order. */
  lemma {:induction false} ValidIndicesFacts(ps: seq<Participant>)
    ensures var idx := ValidIndices(ps);
      && (forall k :: 0 <= k < |idx| ==> idx[k] < |ps|)
      && (forall k, l :: 0 <= k < l < |idx| ==> idx[k] < idx[l])
      && (forall i :: 0 <= i < |ps| ==> (i in idx <==> IsValidPosition(ps[i].individualPosition)))
  {
    if ps != [] {
      var init := ps[..|ps| - 1];
      ValidIndicesFacts(init);
      var idx, prevIdx := ValidIndices(ps), ValidIndices(init);
      forall i | 0 <= i < |init|
        ensures (i in idx <==> IsValidPosition(ps[i].individualPosition))
      {
        assert ps[i] == init[i];
        assert i in prevIdx ==> i in idx;
        assert i in idx ==> i in prevIdx || i == |ps| - 1;
      }
      if !IsValidPosition(ps[|ps| - 1].individualPosition) {
        assert idx == prevIdx;
      }
    }
  }

  /** The k-th sample is that of the k-th valid participant. */
  lemma {:induction false} ParticipantSamplesAligned(matchId: string, ps: seq<Participant>, gameDuration: int)
    requires gameDuration != 0
    ensures var r, idx := ParticipantSamples(matchId, ps, gameDuration), ValidIndices(ps);
      && |r| == |idx|
      && (forall k :: 0 <= k < |idx| ==> idx[k] < |ps| && r[k] == SampleOf(matchId, ps[idx[k]], gameDuration))
  {
    if ps != [] {
      var init := ps[..|ps| - 1];
      ParticipantSamplesAligned(matchId, init, gameDuration);
      var idx := ValidIndices(init);
      forall k | 0 <= k < |idx| ensures ps[idx[k]] == init[idx[k]] {
      }
    }
  }

  /** One sample per valid participant, in input order, and none for the others. */
  lemma ParticipantSamplesOnePerPlayer(matchId: string, ps: seq<Participant>, gameDuration: int)
    requires gameDuration != 0
    ensures var r, idx := ParticipantSamples(matchId, ps, gameDuration), ValidIndices(ps);
      && |r| == |idx|
      && (forall k :: 0 <= k < |idx| ==> idx[k] < |ps| && r[k] == SampleOf(matchId, ps[idx[k]], gameDuration))
      && (forall k, l :: 0 <= k < l < |idx| ==> idx[k] < idx[l])
      && (forall i :: 0 <= i < |ps| ==> (i in idx <==> IsValidPosition(ps[i].individualPosition)))
  {
    ValidIndicesFacts(ps);
    ParticipantSamplesAligned(matchId, ps, gameDuration);
  }

  /** Every sample of a match carries that match's id and a valid role. */
  lemma {:induction false} SamplesCarryMatch(matchId: string, ps: seq<Participant>, gameDuration: int)
    requires gameDuration != 0
    ensures forall s :: s in ParticipantSamples(matchId, ps, gameDuration) ==>
      s.matchId == matchId && IsValidPosition(s.role)
  {
    if ps != [] {
      SamplesCarryMatch(matchId, ps[..|ps| - 1], gameDuration);
    }
  }

  /** The filters of `extract_participant_data`: a sample exists only for a
      CLASSIC game of at least five minutes, and carries the match's id. */
  lemma ExtractedSamplesFacts(m: Option<Match>)
    ensures ExtractedSamples(m) != [] ==>
      && m.Some? && m.value.info.Some?
      && m.value.info.value.gameDuration >= MIN_GAME_SECONDS
      && m.value.info.value.gameMode == "CLASSIC"
    ensures forall s :: s in ExtractedSamples(m) ==> s.matchId == m.value.matchId && IsValidPosition(s.role)
  {
    if m.Some? && m.value.info.Some? {
      var info := m.value.info.value;
      if info.gameDuration >= MIN_GAME_SECONDS && info.gameMode == "CLASSIC" {
        SamplesCarryMatch(m.value.matchId, info.participants, info.gameDuration);
      }
    }
  }

  /** `extract_participant_data`: the guards, then the samples appended in a loop. */
  method ExtractParticipantData(m: Option<Match>) returns (samples: seq<TrainingSample>)
    ensures samples == ExtractedSamples(m)
  {
    if m.None? || m.value.info.None? {
      return [];
    }
    var info := m.value.info.value;
    if info.gameDuration < MIN_GAME_SECONDS {
      return [];
    }
    if info.gameMode != "CLASSIC" {
      return [];
    }
    var ps := info.participants;
    samples := [];
    var i := 0;
    while i < |ps|
      invariant 0 <= i <= |ps|
      invariant samples == ParticipantSamples(m.value.matchId, ps[..i], info.gameDuration)
    {
      assert ps[..i + 1][..i] == ps[..i];
      var p := ps[i];
      if IsValidPosition(p.individualPosition) {
        samples := samples + [SampleOf(m.value.matchId, p, info.gameDuration)];
      }
      i := i + 1;
    }
    assert ps[..|ps|] == ps;
  }

  /** The timestamps younger than the window, in order. */
  function Recent(ts: seq<real>, now: real): seq<real>
  {
    if ts == [] then []
    else
      var prev := Recent(ts[..|ts| - 1], now);
      if now - ts[|ts| - 1] < WINDOW_SECONDS then prev + [ts[|ts| - 1]] else prev
  }

  /** The window after one `_rate_limit` call at time `now`: the recent
      entries, emptied after a wait when the window holds 95 or more, then `now`. */
  function NextWindow(ts: seq<real>, now: real): seq<real>
  {
    var recent := Recent(ts, now);
    if |recent| >= WINDOW_LIMIT && WINDOW_SECONDS - (now - recent[0]) > 0.0 then [now]
    else recent + [now]
  }

  lemma {:induction false} RecentFacts(ts: seq<real>, now: real)
    ensures |Recent(ts, now)| <= |ts|
    ensures forall i :: 0 <= i < |Recent(ts, now)| ==> now - Recent(ts, now)[i] < WINDOW_SECONDS
    ensures forall t :: t in ts && now - t < WINDOW_SECONDS ==> t in Recent(ts, now)
    ensures forall t :: t in Recent(ts, now) ==> t in ts
  {
    if ts != [] {
      RecentFacts(ts[..|ts| - 1], now);
      assert ts == ts[..|ts| - 1] + [ts[|ts| - 1]];
    }
  }

  /** The window after a call ends with `now`, holds at most 95 entries, all
      younger than two minutes; a full window is always reset, because its
      oldest entry is younger than the window, so the wait is positive. */
  lemma NextWindowFacts(ts: seq<real>, now: real)
    ensures var w := NextWindow(ts, now);
      && |w| >= 1 && w[|w| - 1] == now
      && |w| <= WINDOW_LIMIT
      && (forall i :: 0 <= i < |w| ==> now - w[i] < WINDOW_SECONDS)
      && (w == [now] <==> |Recent(ts, now)| >= WINDOW_LIMIT || Recent(ts, now) == [])
      && (|Recent(ts, now)| < WINDOW_LIMIT ==> w == Recent(ts, now) + [now])
  {
    RecentFacts(ts, now);
  }

  /** `RiotDataCollector`: the request timestamps of the rate limiter. */
  class RiotDataCollector {
    var requestTimestamps: seq<real>

    constructor ()
      ensures requestTimestamps == []
    {
      requestTimestamps := [];
    }

    /** `_rate_limit`, with the clock reading passed in; the waits are left out. */
    method RateLimit(now: real)
      modifies this
      ensures requestTimestamps == NextWindow(old(requestTimestamps), now)
    {
      var kept: seq<real> := [];
      var i := 0;
      while i < |requestTimestamps|
        invariant 0 <= i <= |requestTimestamps|
        invariant kept == Recent(requestTimestamps[..i], now)
      {
        assert requestTimestamps[..i + 1][..i] == requestTimestamps[..i];
        if now - requestTimestamps[i] < WINDOW_SECONDS {
          kept := kept + [requestTimestamps[i]];
        }
        i := i + 1;
      }
      assert requestTimestamps[..|requestTimestamps|] == requestTimestamps;
      requestTimestamps := kept;
      if |requestTimestamps| >= WINDOW_LIMIT {
        var sleepTime := WINDOW_SECONDS - (now - requestTimestamps[0]);
        if sleepTime > 0.0 {
          requestTimestamps := [];
        }
      }
      requestTimestamps := requestTimestamps + [now];
    }
  }

  /** The samples each match id produce: its fetched details, extracted. */
  function Yields(details: string -> Option<Match>): string -> seq<TrainingSample>
  {
    id => ExtractedSamples(details(id))
  }

  /** The samples of the collected matches, in the order they were collected. */
  function SamplesOf(order: seq<string>, produce: string -> seq<TrainingSample>): seq<TrainingSample>
  {
    if order == [] then []
    else SamplesOf(order[..|order| - 1], produce) + produce(order[|order| - 1])
  }

  /** Whether fetching `id` produce samples. */
  predicate Productive(id: string, produce: string -> seq<TrainingSample>)
  {
    produce(id) != []
  }

  /** The bookkeeping `collect_training_data` keeps true: the collected set
      holds the ids of the collection order, no more than `numMatches` and
      none twice; each was productive and fetched exactly once; every
      productive fetch was collected; and the samples are those of the
      collected matches in order. */
  ghost predicate Bookkeeping(numMatches: int, produce: string -> seq<TrainingSample>, collected: set<string>,
                              order: seq<string>, fetched: seq<string>, samples: seq<TrainingSample>)
  {
    && |collected| <= MaxInt(numMatches, 0)
    && collected == SetOf(order)
    && |order| == |collected|
    && (forall id :: id in collected ==> Productive(id, produce) && multiset(fetched)[id] == 1)
    && (forall i :: 0 <= i < |fetched| && Productive(fetched[i], produce) ==> fetched[i] in collected)
    && samples == SamplesOf(order, produce)
  }

  /** Fetching an uncollected id that produce nothing changes only the fetch log. */
  lemma FetchNothing(numMatches: int, produce: string -> seq<TrainingSample>, collected: set<string>,
                     order: seq<string>, fetched: seq<string>, samples: seq<TrainingSample>, id: string)
    requires Bookkeeping(numMatches, produce, collected, order, fetched, samples)
    requires id !in collected && !Productive(id, produce)
    ensures Bookkeeping(numMatches, produce, collected, order, fetched + [id], samples)
  {
    assert multiset(fetched + [id]) == multiset(fetched) + multiset{id};
    forall i | 0 <= i < |fetched + [id]| && Productive((fetched + [id])[i], produce)
      ensures (fetched + [id])[i] in collected
    {
      assert i < |fetched| && (fetched + [id])[i] == fetched[i];
    }
  }

  /** Fetching an uncollected id that produce samples, below the target, collects it. */
  lemma FetchAndCollect(numMatches: int, produce: string -> seq<TrainingSample>, collected: set<string>,
                        order: seq<string>, fetched: seq<string>, samples: seq<TrainingSample>, id: string)
    requires Bookkeeping(numMatches, produce, collected, order, fetched, samples)
    requires id !in collected && Productive(id, produce) && |collected| < numMatches
    ensures Bookkeeping(numMatches, produce, collected + {id}, order + [id], fetched + [id],
                        samples + produce(id))
  {
    var order', fetched' := order + [id], fetched + [id];
    assert order'[..|order|] == order;
    assert SetOf(order') == SetOf(order) + {id};
    assert multiset(fetched') == multiset(fetched) + multiset{id};
    assert id !in fetched;
    forall i | 0 <= i < |fetched'| && Productive(fetched'[i], produce)
      ensures fetched'[i] in collected + {id}
    {
      if i < |fetched| {
        assert fetched'[i] == fetched[i];
      }
    }
  }

  /** The collection order holds no id twice. */
  lemma DistinctOrder(order: seq<string>)
    requires |SetOf(order)| == |order|
    ensures forall k, l :: 0 <= k < l < |order| ==> order[k] != order[l]
  {
    if k, l :| 0 <= k < l < |order| && order[k] == order[l] {
      var rest := order[..l] + order[l + 1..];
      assert SetOf(order) == SetOf(rest) by {
        forall x | x in SetOf(order) ensures x in SetOf(rest) {
          var m :| 0 <= m < |order| && order[m] == x;
          if m < l { assert rest[m] == x; }
          else if m == l { assert rest[k] == x; }
          else { assert rest[m - 1] == x; }
        }
      }
      SetOfSize(rest);
    }
  }

  /** A sequence has at least as many entries as distinct values. */
  lemma {:induction false} SetOfSize(s: seq<string>)
    ensures |SetOf(s)| <= |s|
  {
    if s != [] {
      var init := s[..|s| - 1];
      SetOfSize(init);
      assert SetOf(s) == SetOf(init) + {s[|s| - 1]};
    }
  }

  /** The queue after a collected match: each sample's player not yet
      queued is appended, in sample order, while the queue is under 200. */
  function SnowballQueue(queue: seq<string>, samples: seq<TrainingSample>): seq<string>
  {
    if samples == [] then queue
    else
      var q := SnowballQueue(queue, samples[..|samples| - 1]);
      var puuid := samples[|samples| - 1].puuid;
      if puuid !in q && |q| < QUEUE_CAP then q + [puuid] else q
  }

  /** The players of a list of samples. */
  function Players(samples: seq<TrainingSample>): set<string>
  {
    set s | s in samples :: s.puuid
  }

  /** The queue only grows, and never past 200 by this step. */
  lemma {:induction false} SnowballQueueGrows(queue: seq<string>, samples: seq<TrainingSample>)
    ensures var q := SnowballQueue(queue, samples);
      |queue| <= |q| <= MaxInt(|queue|, QUEUE_CAP) && q[..|queue|] == queue
  {
    if samples != [] {
      var init := samples[..|samples| - 1];
      SnowballQueueGrows(queue, init);
      var prev := SnowballQueue(queue, init);
      var q := SnowballQueue(queue, samples);
      if q != prev {
        assert q[..|queue|] == prev[..|queue|];
      }
    }
  }

  /** Every appended player is a sample's player, neither queued before nor
      appended twice. */
  lemma {:induction false} SnowballQueueNew(queue: seq<string>, samples: seq<TrainingSample>)
    ensures var q := SnowballQueue(queue, samples);
      forall k :: |queue| <= k < |q| ==> q[k] !in q[..k] && q[k] in Players(samples)
  {
    if samples != [] {
      var init := samples[..|samples| - 1];
      SnowballQueueNew(queue, init);
      SnowballQueueGrows(queue, init);
      assert Players(init) <= Players(samples);
      var prev := SnowballQueue(queue, init);
      var q := SnowballQueue(queue, samples);
      if q != prev {
        assert samples[|samples| - 1] in samples;
        forall k | |queue| <= k < |q| ensures q[k] !in q[..k] && q[k] in Players(samples) {
          if k < |prev| {
            assert q[..k] == prev[..k];
          } else {
            assert q[..k] == prev;
          }
        }
      }
    }
  }

  /** Every sample's player ends up queued, unless the queue has reached 200. */
  lemma {:induction false} SnowballQueueCovers(queue: seq<string>, samples: seq<TrainingSample>)
    ensures var q := SnowballQueue(queue, samples);
      forall s :: s in samples ==> s.puuid in q || |q| >= QUEUE_CAP
  {
    if samples != [] {
      var init := samples[..|samples| - 1];
      SnowballQueueCovers(queue, init);
      var prev := SnowballQueue(queue, init);
      var q := SnowballQueue(queue, samples);
      assert forall x :: x in prev ==> x in q;
      assert samples == init + [samples[|samples| - 1]];
    }
  }

  /** `collect_training_data`'s progress: the collected ids, the samples so
      far and the player queue. */
  datatype Progress = Progress(collected: set<string>, samples: seq<TrainingSample>, queue: seq<string>)

  /** The inner loop over one player's history `ids`: an id already collected
      is skipped; once `numMatches` are collected the loop stops; a match that
      produce samples is collected, its samples appended and its players
      queued; any other fetch changes nothing. */
  function Visit(numMatches: int, produce: string -> seq<TrainingSample>, ids: seq<string>, p: Progress): (r: Progress)
    ensures p.collected <= r.collected && |p.collected| <= |r.collected|
    ensures |r.collected| == |p.collected| ==> r.queue == p.queue
    decreases |ids|
  {
    if ids == [] then p
    else if ids[0] in p.collected then Visit(numMatches, produce, ids[1..], p)
    else if |p.collected| >= numMatches then p
    else if produce(ids[0]) == [] then Visit(numMatches, produce, ids[1..], p)
    else
      Visit(numMatches, produce, ids[1..],
            Progress(p.collected + {ids[0]}, p.samples + produce(ids[0]), SnowballQueue(p.queue, produce(ids[0]))))
  }

  /** The outer loop: pop the head player and visit its history, until
      `numMatches` are collected or the queue is empty. */
  function Run(numMatches: int, history: string -> seq<string>, produce: string -> seq<TrainingSample>, p: Progress): (r: Progress)
    ensures |r.collected| >= numMatches || r.queue == []
    ensures p.collected <= r.collected
    decreases numMatches - |p.collected|, |p.queue|
  {
    if |p.collected| < numMatches && p.queue != [] then
      Run(numMatches, history, produce,
          Visit(numMatches, produce, history(p.queue[0]), Progress(p.collected, p.samples, p.queue[1..])))
    else p
  }

  /** What `collect_training_data` returns: nothing without seeds or
      challengers, otherwise the samples of the run from the shuffled seeds. */
  function Collected(numMatches: int, seeds: seq<string>, challengers: seq<string>,
                     shuffle: seq<string> -> seq<string>, history: string -> seq<string>,
                     produce: string -> seq<TrainingSample>): seq<TrainingSample>
  {
    var players := if seeds != [] then seeds else challengers;
    if players == [] then []
    else Run(numMatches, history, produce, Progress({}, [], shuffle(players))).samples
  }

  /** The loop that appends a collected match's new players to the queue. */
  method Snowball(queue: seq<string>, samples: seq<TrainingSample>) returns (q: seq<string>)
    ensures q == SnowballQueue(queue, samples)
  {
    q := queue;
    var i := 0;
    while i < |samples|
      invariant 0 <= i <= |samples|
      invariant q == SnowballQueue(queue, samples[..i])
    {
      assert samples[..i + 1][..i] == samples[..i];
      if samples[i].puuid !in q && |q| < QUEUE_CAP {
        q := q + [samples[i].puuid];
      }
      i := i + 1;
    }
    assert samples[..i] == samples;
  }

  /** The inner loop over one player's match history. Every id of the history
      ends up collected or fetched, unless the target was reached. */
  method CollectFromHistory(numMatches: int, details: string -> Option<Match>, matchIds: seq<string>,
                            collected0: set<string>, ghost order0: seq<string>, ghost fetched0: seq<string>,
                            samples0: seq<TrainingSample>, queue0: seq<string>)
    returns (collected: set<string>, ghost order: seq<string>, ghost fetched: seq<string>,
             samples: seq<TrainingSample>, queue: seq<string>)
    requires Bookkeeping(numMatches, Yields(details), collected0, order0, fetched0, samples0)
    ensures Progress(collected, samples, queue) ==
            Visit(numMatches, Yields(details), matchIds, Progress(collected0, samples0, queue0))
    ensures Bookkeeping(numMatches, Yields(details), collected, order, fetched, samples)
    ensures forall j :: 0 <= j < |matchIds| ==>
      matchIds[j] in collected || matchIds[j] in fetched || |collected| >= numMatches
    ensures |queue0| <= |queue| <= MaxInt(|queue0|, QUEUE_CAP)
    ensures |order0| <= |order| && (|order| == |order0| ==> queue == queue0)
  {
    collected, order, fetched, samples, queue := collected0, order0, fetched0, samples0, queue0;
    ghost var target := Visit(numMatches, Yields(details), matchIds, Progress(collected0, samples0, queue0));
    for j := 0 to |matchIds|
      invariant target == Visit(numMatches, Yields(details), matchIds[j..], Progress(collected, samples, queue))
      invariant Bookkeeping(numMatches, Yields(details), collected, order, fetched, samples)
      invariant forall i :: 0 <= i < j ==>
        matchIds[i] in collected || matchIds[i] in fetched || |collected| >= numMatches
      invariant |queue0| <= |queue| <= MaxInt(|queue0|, QUEUE_CAP)
      invariant |order0| <= |order| && (|order| == |order0| ==> queue == queue0)
    {
      assert matchIds[j..][1..] == matchIds[j + 1..];
      var matchId := matchIds[j];
      if matchId in collected {
        continue;
      }
      if |collected| >= numMatches {
        break;
      }
      var matchData := details(matchId);
      if matchData.None? {
        assert Yields(details)(matchId) == [];
        FetchNothing(numMatches, Yields(details), collected, order, fetched, samples, matchId);
        fetched := fetched + [matchId];
        continue;
      }
      var extracted := ExtractParticipantData(matchData);
      assert extracted == Yields(details)(matchId);
      if extracted != [] {
        FetchAndCollect(numMatches, Yields(details), collected, order, fetched, samples, matchId);
        SnowballQueueGrows(queue, extracted);
        samples := samples + extracted;
        collected := collected + {matchId};
        order := order + [matchId];
        fetched := fetched + [matchId];
        queue := Snowball(queue, extracted);
      } else {
        FetchNothing(numMatches, Yields(details), collected, order, fetched, samples, matchId);
        fetched := fetched + [matchId];
      }
    }
  }

  /** `collect_training_data`: the seeds (or, when none are given, the
      challenger players) in the shuffled order, then matches taken from each
      queued player's history until `numMatches` are collected or the queue
      runs dry. The fetches and the shuffle are parameters. */
  method CollectTrainingData(numMatches: int, seeds: seq<string>, challengers: seq<string>,
                             shuffle: seq<string> -> seq<string>,
                             history: string -> seq<string>, details: string -> Option<Match>)
    returns (samples: seq<TrainingSample>, ghost order: seq<string>, ghost fetched: seq<string>)
    ensures samples == Collected(numMatches, seeds, challengers, shuffle, history, Yields(details))
    ensures |order| <= MaxInt(numMatches, 0)
    ensures forall k, l :: 0 <= k < l < |order| ==> order[k] != order[l]
    ensures forall k :: 0 <= k < |order| ==> Productive(order[k], Yields(details))
    ensures samples == SamplesOf(order, Yields(details))
    ensures forall i :: 0 <= i < |fetched| && Productive(fetched[i], Yields(details)) ==> fetched[i] in order
    ensures forall id :: Productive(id, Yields(details)) ==> multiset(fetched)[id] <= 1
    ensures seeds == [] && challengers == [] ==> samples == []
    ensures seeds == [] && challengers == [] ==> fetched == []
  {
    var players := if seeds != [] then seeds else challengers;
    samples, order, fetched := [], [], [];
    if players == [] {
      return;
    }
    var collected: set<string> := {};
    var queue := shuffle(players);
    ghost var initial := |queue|;
    ghost var target := Run(numMatches, history, Yields(details), Progress({}, [], queue));
    while |collected| < numMatches && queue != []
      invariant target == Run(numMatches, history, Yields(details), Progress(collected, samples, queue))
      invariant Bookkeeping(numMatches, Yields(details), collected, order, fetched, samples)
      invariant |queue| <= MaxInt(initial, QUEUE_CAP)
      decreases numMatches - |collected|, |queue|
    {
      var puuid := queue[0];
      queue := queue[1..];
      var matchIds := history(puuid);
      collected, order, fetched, samples, queue :=
        CollectFromHistory(numMatches, details, matchIds, collected, order, fetched, samples, queue);
    }
    BookkeepingGivesOrder(numMatches, Yields(details), collected, order, fetched, samples);
  }

  lemma BookkeepingGivesOrder(numMatches: int, produce: string -> seq<TrainingSample>, collected: set<string>,
                              order: seq<string>, fetched: seq<string>, samples: seq<TrainingSample>)
    requires Bookkeeping(numMatches, produce, collected, order, fetched, samples)
    ensures |order| <= MaxInt(numMatches, 0)
    ensures forall k, l :: 0 <= k < l < |order| ==> order[k] != order[l]
    ensures forall k :: 0 <= k < |order| ==> Productive(order[k], produce)
    ensures forall i :: 0 <= i < |fetched| && Productive(fetched[i], produce) ==> fetched[i] in order
    ensures forall id :: Productive(id, produce) ==> multiset(fetched)[id] <= 1
  {
    DistinctOrder(order);
    forall k | 0 <= k < |order| ensures Productive(order[k], produce) {
      assert order[k] in collected;
    }
  }
}
