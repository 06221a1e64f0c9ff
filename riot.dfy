/** The match records the game-data API delivers, shared by every reader.
    Every field that some reader indexes directly is a plain field here; a
    field that every reader looks up with a default of 0 carries that default
    already. `challenges` is the sub-dictionary of challenge statistics; an
    absent dictionary is the empty map. */
module Riot {
  import opened Common

  datatype Participant = Participant(
    puuid: string,
    championName: string,
    individualPosition: string,
    win: bool,
    kills: int,
    deaths: int,
    assists: int,
    totalMinionsKilled: int,
    neutralMinionsKilled: int,
    goldEarned: int,
    totalDamageDealtToChampions: int,
    totalDamageTaken: int,
    damageSelfMitigated: int,
    visionScore: int,
    wardsPlaced: int,
    wardsKilled: int,
    turretKills: int,
    dragonKills: int,
    baronKills: int,
    doubleKills: int,
    tripleKills: int,
    quadraKills: int,
    pentaKills: int,
    timeCCingOthers: int,
    totalHeal: int,
    totalDamageShieldedOnTeammates: int,
    totalTimeSpentDead: int,
    longestTimeSpentLiving: int,
    firstBloodKill: bool,
    firstTowerKill: bool,
    challenges: map<string, real>)

  /** The `info` object of a match: duration in seconds, game mode, players. */
  datatype MatchInfo = MatchInfo(gameDuration: int, gameMode: string, participants: seq<Participant>)

  /** A match as fetched: `metadata.matchId` and, when present, its `info`. */
  datatype Match = Match(matchId: string, info: Option<MatchInfo>)

  /** `participant.get('challenges', {}).get(key, 0)`. */
  function Challenge(p: Participant, key: string): (r: real)
    ensures key !in p.challenges ==> r == 0.0
  {
    GetOrZero(p.challenges, key)
  }

  /** Double kills count 1, triples 2, quadras 3, pentas 4: the multikill score both extractors compute. */
  function Multikills(p: Participant): int
  {
    p.doubleKills + p.tripleKills * 2 + p.quadraKills * 3 + p.pentaKills * 4
  }

  /** Python's `a or b` on two numbers: `a` unless it is 0. */
  function OrElse(a: real, b: real): (r: real)
    ensures a != 0.0 ==> r == a
    ensures a == 0.0 ==> r == b
  {
    if a != 0.0 then a else b
  }
}
