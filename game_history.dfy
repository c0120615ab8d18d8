/// frontend/src/core/main/GameHistory/GameHistory.tsx: a table of the latest
/// 30 games and a pie chart of the score summed per country.
module GameHistory {
  import opened Models
  import opened CountryScores

  /** A table row: duration in milliseconds, score, player, country code. */
  datatype Row = Row(duration: int, score: int, player: string, countryCode: string)

  /** `games.map(el => <tr>...</tr>)`: one row per kept game, in order. */
  function TableRows(games: seq<GameListing>): (rows: seq<Row>)
    ensures |rows| == |games|
    ensures forall i :: 0 <= i < |games| ==>
              && rows[i].duration == games[i].game.end - games[i].game.start
              && rows[i].score == games[i].game.score
              && rows[i].player == games[i].user.username
              && rows[i].countryCode == games[i].country.countryCode
  {
    seq(|games|, i requires 0 <= i < |games| =>
      Row(Duration(games[i].game), games[i].game.score, games[i].user.username, games[i].country.countryCode))
  }

  /** What the component shows for the fetched listings: the rows of the first 30, and the score
      chart of the same 30. */
  method View(fetched: seq<GameListing>) returns (rows: seq<Row>, data: seq<ChartEntry>)
    ensures rows == TableRows(Latest(fetched))
    ensures ChartOf(data, Latest(fetched), Score)
  {
    var games := Latest(fetched);
    data := CountryScoreData(games, Score);
    ChartCorrect(games, Score);
    rows := TableRows(games);
  }
}
