/**
 * The score store of database.py: a table of finished sessions and a table of
 * per-player aggregates keyed by player name, held in memory. `available`
 * stands for DATABASE_AVAILABLE; when it is false every write is a no-op and
 * every read is empty.
 */
module Database {
  import opened Wrappers

  const NAFI := "Nafi"
  const MOYA := "Moya"
  const TIE := "Égalité"
  const STANDARD := "standard"

  /** A row of `quiz_sessions`. `sessionDate` is an abstract timestamp. */
  datatype SessionRecord = SessionRecord(
    id: nat,
    sessionDate: int,
    nafiScore: int,
    moyaScore: int,
    totalQuestions: int,
    winner: string,
    quizType: string)

  /** A row of `player_stats` (the float `average_score` is not modelled). */
  datatype PlayerStats = PlayerStats(
    playerName: string,
    totalGames: int,
    totalWins: int,
    totalScore: int)

  /** The contents of both tables. */
  datatype Tables = Tables(sessions: seq<SessionRecord>, stats: map<string, PlayerStats>)

  /** Strictly greater score wins; equal scores are a tie. */
  function Winner(nafiScore: int, moyaScore: int): (w: string)
    ensures w == NAFI <==> nafiScore > moyaScore
    ensures w == MOYA <==> moyaScore > nafiScore
    ensures w == TIE <==> nafiScore == moyaScore
  {
    if nafiScore > moyaScore then NAFI
    else if moyaScore > nafiScore then MOYA
    else TIE
  }

  /** Every row is stored under its own name, has been credited with at least
      one game, and has no more wins than games. */
  ghost predicate StatsWellFormed(stats: map<string, PlayerStats>) {
    forall n :: n in stats ==>
      && stats[n].playerName == n
      && 1 <= stats[n].totalGames
      && 0 <= stats[n].totalWins <= stats[n].totalGames
  }

  /** Session ids are handed out 1, 2, 3, ... in insertion order. */
  ghost predicate IdsSequential(sessions: seq<SessionRecord>) {
    forall i :: 0 <= i < |sessions| ==> sessions[i].id == i + 1
  }

  ghost predicate TablesValid(t: Tables) {
    StatsWellFormed(t.stats) && IdsSequential(t.sessions)
  }

  /** The row the update starts from: the stored one, or a new row whose
      counters start at zero. */
  function Row(stats: map<string, PlayerStats>, name: string): PlayerStats {
    if name in stats then stats[name] else PlayerStats(name, 0, 0, 0)
  }

  /** Wins recorded for `name` (zero when the player has no row). */
  function Wins(stats: map<string, PlayerStats>, name: string): int {
    Row(stats, name).totalWins
  }

  /** The stats table after `update_player_stats(name, score, isWinner)`. */
  function Credited(stats: map<string, PlayerStats>, name: string, score: int, isWinner: bool): (r: map<string, PlayerStats>)
    ensures r.Keys == stats.Keys + {name}
    ensures forall n :: n in stats && n != name ==> r[n] == stats[n]
    ensures r[name].totalGames == Row(stats, name).totalGames + 1
    ensures r[name].totalScore == Row(stats, name).totalScore + score
    ensures isWinner ==> r[name].totalWins == Row(stats, name).totalWins + 1
    ensures !isWinner ==> r[name].totalWins == Row(stats, name).totalWins
    ensures StatsWellFormed(stats) ==> StatsWellFormed(r) && r[name].totalGames >= 1
  {
    var row := Row(stats, name);
    stats[name := PlayerStats(
      name,
      row.totalGames + 1,
      if isWinner then row.totalWins + 1 else row.totalWins,
      row.totalScore + score)]
  }

  /** The tables after one `save_session` on an available store. */
  function Saved(t: Tables, nafiScore: int, moyaScore: int, totalQuestions: int, quizType: string, now: int): (r: Tables)
    ensures r.sessions == t.sessions + [SessionRecord(|t.sessions| + 1, now, nafiScore, moyaScore,
                                                     totalQuestions, Winner(nafiScore, moyaScore), quizType)]
    ensures r.stats.Keys == t.stats.Keys + {NAFI, MOYA}
    ensures forall n :: n in t.stats && n != NAFI && n != MOYA ==> r.stats[n] == t.stats[n]
    ensures r.stats[NAFI].totalGames == Row(t.stats, NAFI).totalGames + 1
    ensures r.stats[MOYA].totalGames == Row(t.stats, MOYA).totalGames + 1
    ensures r.stats[NAFI].totalScore == Row(t.stats, NAFI).totalScore + nafiScore
    ensures r.stats[MOYA].totalScore == Row(t.stats, MOYA).totalScore + moyaScore
    ensures TablesValid(t) ==> TablesValid(r)
  {
    var w := Winner(nafiScore, moyaScore);
    var record := SessionRecord(|t.sessions| + 1, now, nafiScore, moyaScore, totalQuestions, w, quizType);
    var afterNafi := Credited(t.stats, NAFI, nafiScore, w == NAFI);
    Tables(t.sessions + [record], Credited(afterNafi, MOYA, moyaScore, w == MOYA))
  }

  /** In one save at most one player gains a win, the one with the strictly
      higher score, and on a tie neither does. */
  lemma SaveAwardsAtMostOneWin(t: Tables, nafiScore: int, moyaScore: int, totalQuestions: int, quizType: string, now: int)
    ensures var after := Saved(t, nafiScore, moyaScore, totalQuestions, quizType, now).stats;
      && Wins(after, NAFI) == Wins(t.stats, NAFI) + (if nafiScore > moyaScore then 1 else 0)
      && Wins(after, MOYA) == Wins(t.stats, MOYA) + (if moyaScore > nafiScore then 1 else 0)
      && Wins(after, NAFI) + Wins(after, MOYA) <= Wins(t.stats, NAFI) + Wins(t.stats, MOYA) + 1
  {
  }

  /** Sessions ordered newest first (ties in any order). */
  ghost predicate NewestFirst(s: seq<SessionRecord>) {
    forall i, j :: 0 <= i < j < |s| ==> s[i].sessionDate >= s[j].sessionDate
  }

  function InsertByDate(x: SessionRecord, s: seq<SessionRecord>): (r: seq<SessionRecord>)
    requires NewestFirst(s)
    ensures NewestFirst(r)
    ensures multiset(r) == multiset(s) + multiset{x}
  {
    if s == [] then [x]
    else if x.sessionDate >= s[0].sessionDate then [x] + s
    else
      var rest := InsertByDate(x, s[1..]);
      assert s == [s[0]] + s[1..];
      forall k | 0 <= k < |rest| ensures s[0].sessionDate >= rest[k].sessionDate {
        assert rest[k] in multiset(rest);
      }
      [s[0]] + rest
  }

  /** `ORDER BY session_date DESC`, as an insertion sort. */
  function SortNewestFirst(s: seq<SessionRecord>): (r: seq<SessionRecord>)
    ensures NewestFirst(r)
    ensures multiset(r) == multiset(s)
  {
    if s == [] then []
    else
      assert s == [s[0]] + s[1..];
      InsertByDate(s[0], SortNewestFirst(s[1..]))
  }

  class Store {
    const available: bool
    var sessions: seq<SessionRecord>
    var stats: map<string, PlayerStats>

    ghost predicate Valid()
      reads this
    {
      TablesValid(Snapshot())
    }

    function Snapshot(): Tables
      reads this
    {
      Tables(sessions, stats)
    }

    /** A store whose tables exist and are empty. */
    constructor (available: bool)
      ensures this.available == available
      ensures sessions == [] && stats == map[]
      ensures Valid()
    {
      this.available := available;
      sessions := [];
      stats := map[];
    }

    /** `update_player_stats`: find or create the player's row, then add one
        game, the score and, for the winner, one win. */
    method UpdatePlayerStats(playerName: string, score: int, isWinner: bool)
      requires Valid()
      modifies this
      ensures Valid()
      ensures sessions == old(sessions)
      ensures stats == Credited(old(stats), playerName, score, isWinner)
      ensures stats[playerName].totalGames >= 1
    {
      var row := if playerName in stats then stats[playerName] else PlayerStats(playerName, 0, 0, 0);
      row := row.(totalGames := row.totalGames + 1);
      row := row.(totalScore := row.totalScore + score);
      if isWinner {
        row := row.(totalWins := row.totalWins + 1);
      }
      stats := stats[playerName := row];
    }

    /** `save_session`: decide the winner, append one session record, then
        credit Nafi and Moya. Nothing happens when the store is unavailable. */
    method SaveSession(nafiScore: int, moyaScore: int, totalQuestions: int, now: int, quizType: string := STANDARD)
      requires Valid()
      modifies this
      ensures Valid()
      ensures available ==> Snapshot() == Saved(old(Snapshot()), nafiScore, moyaScore, totalQuestions, quizType, now)
      ensures !available ==> Snapshot() == old(Snapshot())
    {
      if !available {
        return;
      }
      var winner := Winner(nafiScore, moyaScore);
      sessions := sessions + [SessionRecord(|sessions| + 1, now, nafiScore, moyaScore, totalQuestions, winner, quizType)];
      UpdatePlayerStats(NAFI, nafiScore, winner == NAFI);
      UpdatePlayerStats(MOYA, moyaScore, winner == MOYA);
    }

    /** `get_player_stats`: the player's row, or None. */
    method GetPlayerStats(playerName: string) returns (r: Option<PlayerStats>)
      requires Valid()
      ensures r.Some? <==> available && playerName in stats
      ensures r.Some? ==> r.value == stats[playerName] && r.value.playerName == playerName
    {
      if !available {
        return None;
      }
      r := if playerName in stats then Some(stats[playerName]) else None;
    }

    /** `get_all_sessions`: every session, newest first. */
    method GetAllSessions() returns (r: seq<SessionRecord>)
      ensures !available ==> r == []
      ensures available ==> multiset(r) == multiset(sessions) && NewestFirst(r)
    {
      if !available {
        return [];
      }
      r := SortNewestFirst(sessions);
    }

    /** `get_leaderboard`: every stats row once, in no particular order. */
    method GetLeaderboard() returns (r: seq<PlayerStats>)
      requires Valid()
      ensures !available ==> r == []
      ensures available ==> |r| == |stats|
      ensures available ==> forall n :: n in stats ==> stats[n] in r
      ensures forall i :: 0 <= i < |r| ==> r[i].playerName in stats && stats[r[i].playerName] == r[i]
      ensures forall i, j :: 0 <= i < j < |r| ==> r[i].playerName != r[j].playerName
    {
      if !available {
        return [];
      }
      r := [];
      var pending := stats.Keys;
      while pending != {}
        invariant pending <= stats.Keys
        invariant |r| + |pending| == |stats|
        invariant forall i :: 0 <= i < |r| ==>
          r[i].playerName in stats && stats[r[i].playerName] == r[i] && r[i].playerName !in pending
        invariant forall n :: n in stats && n !in pending ==> stats[n] in r
        invariant forall i, j :: 0 <= i < j < |r| ==> r[i].playerName != r[j].playerName
        decreases |pending|
      {
        var name :| name in pending;
        r := r + [stats[name]];
        pending := pending - {name};
      }
    }
  }
}
