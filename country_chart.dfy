/// frontend/src/core/main/Statistics/Charts/CountryChart.tsx: a pie chart of
/// the score of the latest 30 games summed per country.
module CountryChart {
  import opened Models
  import opened CountryScores

  method View(fetched: seq<GameListing>) returns (data: seq<ChartEntry>)
    ensures ChartOf(data, Latest(fetched), Score)
  {
    var games := Latest(fetched);
    data := CountryScoreData(games, Score);
    ChartCorrect(games, Score);
  }
}
