/** Descriptive aggregation of the insight pipeline (ml-lambda2.py,
    `compute_statistics`): win/loss tallies, per-stat means and the
    per-champion table cut to the five most played champions. */
module InsightStatistics {
  import opened Common
  import opened InsightFeatures

  /** A running entry of the `champion_stats` dictionary. The table is kept as a
      sequence in first-appearance order, which is the dictionary's own order. */
  datatype Tally = Tally(champion: string, games: nat, wins: nat, totalKda: real)

  /** One entry of `top_champions`. */
  datatype ChampionSummary = ChampionSummary(champion: string, games: nat, wins: nat, winrate: real, avgKda: real)

  /** The `statistics` sub-result; an average is `None` where numpy's mean of
      an empty list would be NaN. */
  datatype Statistics = Statistics(
    totalGames: nat, wins: int, losses: int, winRate: real,
    avgKda: Option<real>, avgKills: Option<real>, avgDeaths: Option<real>,
    avgAssists: Option<real>, avgCs: Option<real>, avgVision: Option<real>,
    topChampions: seq<ChampionSummary>)

  /** Every champion has played at least one game and won at most as many, and
      no champion appears twice. */
  ghost predicate WellFormed(t: seq<Tally>)
  {
    t == [] ||
    (&& 1 <= t[0].games && t[0].wins <= t[0].games
     && t[0].champion !in Champions(t[1..])
     && WellFormed(t[1..]))
  }

  lemma {:induction false} ChampionAt(t: seq<Tally>, i: nat)
    requires i < |t|
    ensures t[i].champion in Champions(t)
  {
    if i > 0 {
      ChampionAt(t[1..], i - 1);
    }
  }

  /** `WellFormed`, entry by entry. */
  lemma {:induction false} WellFormedEntries(t: seq<Tally>)
    requires WellFormed(t)
    ensures forall i :: 0 <= i < |t| ==> 1 <= t[i].games && t[i].wins <= t[i].games
    ensures forall i, j :: 0 <= i < j < |t| ==> t[i].champion != t[j].champion
  {
    if t != [] {
      WellFormedEntries(t[1..]);
      forall j | 0 < j < |t| ensures t[0].champion != t[j].champion {
        ChampionAt(t[1..], j - 1);
      }
    }
  }

  function Champions(t: seq<Tally>): set<string>
  {
    if t == [] then {} else {t[0].champion} + Champions(t[1..])
  }

  /** The champions played in the analysed games. */
  function PlayedChampions(metas: seq<MatchMeta>): set<string>
  {
    if metas == [] then {} else PlayedChampions(metas[..|metas| - 1]) + {metas[|metas| - 1].champion}
  }

  /** Counting one game of `champ` into the table: the existing entry is updated
      in place, a new champion is appended. */
  function Bump(t: seq<Tally>, champ: string, won: bool, kda: real): (r: seq<Tally>)
    ensures WellFormed(t) ==> WellFormed(r)
    ensures Champions(r) == Champions(t) + {champ}
  {
    if t == [] then [Tally(champ, 1, if won then 1 else 0, kda)]
    else if t[0].champion == champ then
      [t[0].(games := t[0].games + 1, wins := t[0].wins + (if won then 1 else 0),
             totalKda := t[0].totalKda + kda)] + t[1..]
    else
      var rest := Bump(t[1..], champ, won, kda);
      assert ([t[0]] + rest)[1..] == rest;
      [t[0]] + rest
  }

  /** The `champion_stats` table after the counting loop has seen the rows. */
  function TallyTable(rows: seq<FeatureRow>, metas: seq<MatchMeta>): (t: seq<Tally>)
    requires |rows| == |metas|
    ensures WellFormed(t)
  {
    if metas == [] then []
    else
      var n := |metas| - 1;
      Bump(TallyTable(rows[..n], metas[..n]), metas[n].champion, metas[n].win, rows[n].kda)
  }

  function TotalGames(t: seq<Tally>): int
  {
    if t == [] then 0 else t[0].games + TotalGames(t[1..])
  }

  function TotalWins(t: seq<Tally>): int
  {
    if t == [] then 0 else t[0].wins + TotalWins(t[1..])
  }

  lemma {:induction false} BumpCounts(t: seq<Tally>, champ: string, won: bool, kda: real)
    ensures TotalGames(Bump(t, champ, won, kda)) == TotalGames(t) + 1
    ensures TotalWins(Bump(t, champ, won, kda)) == TotalWins(t) + (if won then 1 else 0)
  {
    if t != [] && t[0].champion != champ {
      BumpCounts(t[1..], champ, won, kda);
      assert ([t[0]] + Bump(t[1..], champ, won, kda))[1..] == Bump(t[1..], champ, won, kda);
    }
  }

  /** Number of winning games in the metadata. */
  function CountWins(metas: seq<MatchMeta>): nat
  {
    if metas == [] then 0 else CountWins(metas[..|metas| - 1]) + (if metas[|metas| - 1].win then 1 else 0)
  }

  /** The per-champion games add up to the number of analysed games, the wins to
      the number of won games, and every champion of the history has an entry. */
  lemma {:induction false} TallyTotals(rows: seq<FeatureRow>, metas: seq<MatchMeta>)
    requires |rows| == |metas|
    ensures TotalGames(TallyTable(rows, metas)) == |metas|
    ensures TotalWins(TallyTable(rows, metas)) == CountWins(metas)
    ensures Champions(TallyTable(rows, metas)) == PlayedChampions(metas)
  {
    if metas != [] {
      var n := |metas| - 1;
      TallyTotals(rows[..n], metas[..n]);
      BumpCounts(TallyTable(rows[..n], metas[..n]), metas[n].champion, metas[n].win, rows[n].kda);
    }
  }

  function Summarize(e: Tally): ChampionSummary
    requires e.games >= 1
  {
    ChampionSummary(e.champion, e.games, e.wins, e.wins as real / e.games as real, e.totalKda / e.games as real)
  }

  /** The table after the loop that adds `winrate` and `avg_kda` to every entry. */
  function Summaries(t: seq<Tally>): (s: seq<ChampionSummary>)
    requires WellFormed(t)
    ensures |s| == |t|
  {
    if t == [] then [] else [Summarize(t[0])] + Summaries(t[1..])
  }

  predicate SortedByGames(s: seq<ChampionSummary>)
  {
    forall i, j :: 0 <= i < j < |s| ==> s[i].games >= s[j].games
  }

  /** Inserts `x` after every entry with at least as many games. */
  function InsertByGames(t: seq<ChampionSummary>, x: ChampionSummary): seq<ChampionSummary>
  {
    if t == [] then [x]
    else if t[0].games >= x.games then [t[0]] + InsertByGames(t[1..], x)
    else [x] + t
  }

  lemma {:induction false} InsertByGamesKeeps(t: seq<ChampionSummary>, x: ChampionSummary)
    ensures multiset(InsertByGames(t, x)) == multiset(t) + multiset{x}
  {
    if t != [] && t[0].games >= x.games {
      InsertByGamesKeeps(t[1..], x);
      assert t == [t[0]] + t[1..];
    }
  }

  lemma {:induction false} InsertByGamesMembers(t: seq<ChampionSummary>, x: ChampionSummary)
    ensures forall e :: e in InsertByGames(t, x) ==> e in t || e == x
  {
    if t != [] && t[0].games >= x.games {
      InsertByGamesMembers(t[1..], x);
      assert InsertByGames(t, x) == [t[0]] + InsertByGames(t[1..], x);
    }
  }

  lemma {:induction false} InsertByGamesSorted(t: seq<ChampionSummary>, x: ChampionSummary)
    requires SortedByGames(t)
    ensures SortedByGames(InsertByGames(t, x))
  {
    if t != [] && t[0].games >= x.games {
      var tail := t[1..];
      assert SortedByGames(tail) by {
        forall i, j | 0 <= i < j < |tail| ensures tail[i].games >= tail[j].games {
          assert tail[i] == t[i + 1] && tail[j] == t[j + 1];
        }
      }
      var rest := InsertByGames(tail, x);
      InsertByGamesSorted(tail, x);
      InsertByGamesMembers(tail, x);
      forall k | 0 <= k < |rest| ensures rest[k].games <= t[0].games {
        assert rest[k] in rest;
        if rest[k] != x {
          var m :| 0 <= m < |tail| && tail[m] == rest[k];
          assert t[m + 1] == rest[k];
        }
      }
      var r := [t[0]] + rest;
      assert r == InsertByGames(t, x);
      forall i, j | 0 <= i < j < |r| ensures r[i].games >= r[j].games {
        if i == 0 { assert r[j] == rest[j - 1]; } else { assert r[i] == rest[i - 1] && r[j] == rest[j - 1]; }
      }
    }
  }

  /** `sorted(..., key=games, reverse=True)`: a stable insertion sort. */
  function SortByGames(s: seq<ChampionSummary>): seq<ChampionSummary>
  {
    if s == [] then [] else InsertByGames(SortByGames(s[..|s| - 1]), s[|s| - 1])
  }

  /** The sort returns a permutation of its input, ordered by non-increasing games. */
  lemma {:induction false} SortByGamesCorrect(s: seq<ChampionSummary>)
    ensures SortedByGames(SortByGames(s))
    ensures multiset(SortByGames(s)) == multiset(s)
  {
    if s != [] {
      var n := |s| - 1;
      SortByGamesCorrect(s[..n]);
      InsertByGamesSorted(SortByGames(s[..n]), s[n]);
      InsertByGamesKeeps(SortByGames(s[..n]), s[n]);
      assert s == s[..n] + [s[n]];
    }
  }

  function TopFive(s: seq<ChampionSummary>): seq<ChampionSummary>
  {
    var sorted := SortByGames(s);
    sorted[..if |sorted| < 5 then |sorted| else 5]
  }

  function SumWins(rows: seq<FeatureRow>): int
  {
    if rows == [] then 0 else SumWins(rows[..|rows| - 1]) + rows[|rows| - 1].win
  }

  /** The summary statistics `compute_statistics` returns. */
  function StatisticsOf(rows: seq<FeatureRow>, metas: seq<MatchMeta>): Statistics
    requires |rows| == |metas|
  {
    Assemble(rows, SumWins(rows), TopFive(Summaries(TallyTable(rows, metas))))
  }

  /** The returned record, from the rows, the win count and the top list. */
  function Assemble(rows: seq<FeatureRow>, wins: int, top: seq<ChampionSummary>): Statistics
  {
    var total := |rows|;
    Statistics(
      total, wins, total - wins,
      if total > 0 then wins as real / total as real else 0.0,
      Mean(seq(|rows|, i requires 0 <= i < |rows| => rows[i].kda)),
      Mean(seq(|rows|, i requires 0 <= i < |rows| => rows[i].kills as real)),
      Mean(seq(|rows|, i requires 0 <= i < |rows| => rows[i].deaths as real)),
      Mean(seq(|rows|, i requires 0 <= i < |rows| => rows[i].assists as real)),
      Mean(seq(|rows|, i requires 0 <= i < |rows| => rows[i].cs as real)),
      Mean(seq(|rows|, i requires 0 <= i < |rows| => rows[i].vision as real)),
      top)
  }

  /** The counting loop of `compute_statistics` over the metadata. */
  method CountChampions(features: seq<FeatureRow>, metadata: seq<MatchMeta>) returns (table: seq<Tally>)
    requires |features| == |metadata|
    ensures table == TallyTable(features, metadata)
  {
    table := [];
    var i := 0;
    while i < |metadata|
      invariant 0 <= i <= |metadata|
      invariant table == TallyTable(features[..i], metadata[..i])
    {
      assert features[..i + 1][..i] == features[..i];
      assert metadata[..i + 1][..i] == metadata[..i];
      table := Bump(table, metadata[i].champion, metadata[i].win, features[i].kda);
      i := i + 1;
    }
    assert features[..|features|] == features && metadata[..|metadata|] == metadata;
  }

  /** The loop that adds `winrate` and `avg_kda` to every entry of the table. */
  method CompleteEntries(table: seq<Tally>) returns (summaries: seq<ChampionSummary>)
    requires WellFormed(table)
    ensures summaries == Summaries(table)
  {
    summaries := [];
    var j := 0;
    while j < |table|
      invariant 0 <= j <= |table|
      invariant WellFormed(table[j..])
      invariant Summaries(table) == summaries + Summaries(table[j..])
    {
      assert table[j..][1..] == table[j + 1..];
      summaries := summaries + [Summarize(table[j])];
      j := j + 1;
    }
  }

  /** `compute_statistics`: the win sum, the counting loop, the completing
      loop, then the sort and the cut to five. */
  method ComputeStatistics(features: seq<FeatureRow>, metadata: seq<MatchMeta>) returns (st: Statistics)
    requires |features| == |metadata|
    ensures st == StatisticsOf(features, metadata)
  {
    var wins := 0;
    var k := 0;
    while k < |features|
      invariant 0 <= k <= |features|
      invariant wins == SumWins(features[..k])
    {
      assert features[..k + 1][..k] == features[..k];
      wins := wins + features[k].win;
      k := k + 1;
    }
    assert features[..|features|] == features;
    var table := CountChampions(features, metadata);
    var summaries := CompleteEntries(table);
    st := Assemble(features, wins, TopFive(summaries));
  }

  lemma {:induction false} SumWinsBounds(rows: seq<FeatureRow>)
    requires forall j :: 0 <= j < |rows| ==> rows[j].win == 0 || rows[j].win == 1
    ensures 0 <= SumWins(rows) <= |rows|
  {
    if rows != [] {
      SumWinsBounds(rows[..|rows| - 1]);
    }
  }

  /** Wins and losses partition the games; the win rate is wins over games, 0
      for an empty history. */
  lemma WinLossTotals(rows: seq<FeatureRow>, metas: seq<MatchMeta>)
    requires |rows| == |metas|
    requires forall j :: 0 <= j < |rows| ==> rows[j].win == 0 || rows[j].win == 1
    ensures var st := StatisticsOf(rows, metas);
      && st.wins + st.losses == st.totalGames == |rows|
      && 0 <= st.wins <= st.totalGames
      && (st.totalGames == 0 ==> st.winRate == 0.0)
      && (st.totalGames > 0 ==> st.winRate * st.totalGames as real == st.wins as real)
      && 0.0 <= st.winRate <= 1.0
  {
    SumWinsBounds(rows);
    AssembleTotals(rows, SumWins(rows), TopFive(Summaries(TallyTable(rows, metas))));
  }

  /** The counts and the rate of the returned record, for any win count
      between 0 and the number of games. */
  lemma AssembleTotals(rows: seq<FeatureRow>, wins: int, top: seq<ChampionSummary>)
    requires 0 <= wins <= |rows|
    ensures var st := Assemble(rows, wins, top);
      && st.wins + st.losses == st.totalGames == |rows|
      && 0 <= st.wins <= st.totalGames
      && (st.totalGames == 0 ==> st.winRate == 0.0)
      && (st.totalGames > 0 ==> st.winRate * st.totalGames as real == st.wins as real)
      && 0.0 <= st.winRate <= 1.0
  {
    if |rows| > 0 {
      RateFacts(wins, |rows|);
    }
  }

  lemma RateFacts(w: int, n: int)
    requires 0 <= w <= n && n > 0
    ensures (w as real / n as real) * n as real == w as real
    ensures 0.0 <= w as real / n as real <= 1.0
  {
    assert (w as real / n as real) * n as real == w as real;
  }

  /** With rows aligned to their metadata (as extraction produces them), the
      per-champion wins add up to the overall win count. */
  lemma {:induction false} ChampionWinsAddUp(rows: seq<FeatureRow>, metas: seq<MatchMeta>)
    requires |rows| == |metas|
    requires forall j :: 0 <= j < |rows| ==> (rows[j].win == 1 <==> metas[j].win) && (rows[j].win == 0 || rows[j].win == 1)
    ensures TotalWins(TallyTable(rows, metas)) == SumWins(rows)
  {
    TallyTotals(rows, metas);
    CountWinsIsSumWins(rows, metas);
  }

  lemma {:induction false} CountWinsIsSumWins(rows: seq<FeatureRow>, metas: seq<MatchMeta>)
    requires |rows| == |metas|
    requires forall j :: 0 <= j < |rows| ==> (rows[j].win == 1 <==> metas[j].win) && (rows[j].win == 0 || rows[j].win == 1)
    ensures CountWins(metas) == SumWins(rows)
  {
    if rows != [] {
      var n := |rows| - 1;
      CountWinsIsSumWins(rows[..n], metas[..n]);
    }
  }

  /** The top-five cut of a table: at most five entries, sorted by
      non-increasing games, each from the table, and no entry left out has more
      games than an entry kept. */
  lemma TopFiveFacts(table: seq<ChampionSummary>)
    ensures var top := TopFive(table);
      && |top| == (if |table| < 5 then |table| else 5)
      && SortedByGames(top)
      && (forall e :: e in top ==> e in table)
      && (forall e, x :: e in table && e !in top && x in top ==> e.games <= x.games)
  {
    var sorted := SortByGames(table);
    SortByGamesCorrect(table);
    var top := TopFive(table);
    assert |sorted| == |table| by { assert |multiset(sorted)| == |multiset(table)|; }
    assert top == sorted[..if |sorted| < 5 then |sorted| else 5];
    forall e | e in top ensures e in table {
      assert e in multiset(sorted);
    }
    forall e, x | e in table && e !in top && x in top ensures e.games <= x.games {
      assert e in multiset(sorted);
      var j :| 0 <= j < |sorted| && sorted[j] == e;
      var i :| 0 <= i < |top| && top[i] == x;
      assert j >= |top|;
    }
  }

  /** The `top_champions` of `compute_statistics` is that cut of the champion table. */
  lemma TopChampions(rows: seq<FeatureRow>, metas: seq<MatchMeta>)
    requires |rows| == |metas|
    ensures var table := Summaries(TallyTable(rows, metas));
      var top := StatisticsOf(rows, metas).topChampions;
      && |top| <= 5
      && SortedByGames(top)
      && (forall e :: e in top ==> e in table)
      && (forall e, x :: e in table && e !in top && x in top ==> e.games <= x.games)
  {
    TopFiveFacts(Summaries(TallyTable(rows, metas)));
  }

  /** The per-champion table: games add up to the number of analysed games,
      each champion won at most the games it played, one entry per champion. */
  lemma ChampionTable(rows: seq<FeatureRow>, metas: seq<MatchMeta>)
    requires |rows| == |metas|
    ensures var t := TallyTable(rows, metas);
      && TotalGames(t) == |rows|
      && (forall i :: 0 <= i < |t| ==> 1 <= t[i].games && t[i].wins <= t[i].games)
      && (forall i, j :: 0 <= i < j < |t| ==> t[i].champion != t[j].champion)
      && Champions(t) == PlayedChampions(metas)
  {
    TallyTotals(rows, metas);
    WellFormedEntries(TallyTable(rows, metas));
  }

  /** Five games, three of them won: a win rate of 0.6 with 3 wins and 2 losses. */
  lemma FiveGamesThreeWins(rows: seq<FeatureRow>, metas: seq<MatchMeta>)
    requires |rows| == |metas| == 5
    requires forall j :: 0 <= j < 5 ==> rows[j].win == (if j < 3 then 1 else 0)
    ensures StatisticsOf(rows, metas).wins == 3
    ensures StatisticsOf(rows, metas).losses == 2
    ensures StatisticsOf(rows, metas).winRate == 0.6
  {
    assert rows[..4][..3] == rows[..3];
    assert rows[..3][..2] == rows[..2];
    assert rows[..2][..1] == rows[..1];
    assert rows[..1][..0] == [];
    assert SumWins(rows[..1]) == 1;
    assert SumWins(rows[..2]) == 2;
    assert SumWins(rows[..3]) == 3;
    assert SumWins(rows[..4]) == 3;
    assert rows[..5] == rows;
  }
}
