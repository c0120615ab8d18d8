/// src/core/main/Statistics/Charts/CountryChartPlaytime.tsx: a pie chart of
/// the playing time, in milliseconds, of the latest 30 games summed per country.
module CountryChartPlaytime {
  import opened Models
  import opened CountryScores

  method View(fetched: seq<GameListing>) returns (data: seq<ChartEntry>)
    ensures ChartOf(data, Latest(fetched), Playtime)
  {
    var games := Latest(fetched);
    data := CountryScoreData(games, Playtime);
    ChartCorrect(games, Playtime);
  }
}
