/// The per-country chart data computed by three front-end components: keep the
/// first 30 fetched listings, sum a measure of each game per `countryCode`
/// into a plain object (`countryScoreMap`), and turn its keys into chart
/// entries `{ type, data }`. A plain object lists its keys in the order they
/// were first inserted, so the object is modelled as that key order together
/// with a map.
module CountryScores {
  import opened Models

  /** What is summed: the score, or the playing time in milliseconds. */
  datatype Measure = Score | Playtime

  function MeasureOf(l: GameListing, m: Measure): int
  {
    match m
    case Score => l.game.score
    case Playtime => Duration(l.game)
  }

  /** A slice of the chart: `type` (here `category`) is the country code, `data` its total. */
  datatype ChartEntry = ChartEntry(category: string, data: int)

  const ChartLimit: nat := 30

  /** `games.slice(0, 30)`. */
  function Latest(games: seq<GameListing>): (r: seq<GameListing>)
    ensures |r| == if |games| < ChartLimit then |games| else ChartLimit
    ensures r == games[..|r|]
  {
    if |games| <= ChartLimit then games else games[..ChartLimit]
  }

  /** The keys of `countryScoreMap` in insertion order: each country code at its first appearance. */
  function Codes(games: seq<GameListing>): seq<string>
  {
    if games == [] then []
    else
      var init, code := games[..|games| - 1], games[|games| - 1].country.countryCode;
      if code in Codes(init) then Codes(init) else Codes(init) + [code]
  }

  /** The values of `countryScoreMap`: insert 0 for a new code, then add the game's measure. */
  function Totals(games: seq<GameListing>, m: Measure): map<string, int>
  {
    if games == [] then map[]
    else
      var before := Totals(games[..|games| - 1], m);
      var code := games[|games| - 1].country.countryCode;
      var base := if code in before then before else before[code := 0];
      base[code := base[code] + MeasureOf(games[|games| - 1], m)]
  }

  /** `Object.keys(countryScoreMap).map(key => ({ type: key, data: countryScoreMap[key] }))`. */
  function Entries(keys: seq<string>, totals: map<string, int>): seq<ChartEntry>
  {
    if keys == [] then []
    else
      var k := keys[|keys| - 1];
      Entries(keys[..|keys| - 1], totals) + [ChartEntry(k, if k in totals then totals[k] else 0)]
  }

  function Chart(games: seq<GameListing>, m: Measure): seq<ChartEntry>
  {
    Entries(Codes(games), Totals(games, m))
  }

  // Reference definitions the chart is proved against.

  function CodeSet(games: seq<GameListing>): set<string>
  {
    set l | l in games :: l.country.countryCode
  }

  /** The listings of one country, in list order. */
  function InCountry(games: seq<GameListing>, code: string): seq<GameListing>
  {
    if games == [] then []
    else
      var last := games[|games| - 1];
      InCountry(games[..|games| - 1], code) + (if last.country.countryCode == code then [last] else [])
  }

  function Sum(games: seq<GameListing>, m: Measure): int
  {
    if games == [] then 0 else Sum(games[..|games| - 1], m) + MeasureOf(games[|games| - 1], m)
  }

  function SumData(entries: seq<ChartEntry>): int
  {
    if entries == [] then 0 else SumData(entries[..|entries| - 1]) + entries[|entries| - 1].data
  }

  /** The keys are the country codes of the listings, each once, and the map holds exactly them. */
  lemma {:induction false} CodesAreCountries(games: seq<GameListing>, m: Measure)
    ensures Distinct(Codes(games))
    ensures forall c :: c in Codes(games) <==> c in CodeSet(games)
    ensures Totals(games, m).Keys == CodeSet(games)
  {
    if games != [] {
      var init, last := games[..|games| - 1], games[|games| - 1];
      CodesAreCountries(init, m);
      assert games == init + [last];
      assert CodeSet(games) == CodeSet(init) + {last.country.countryCode};
    }
  }

  /** A code's running total, reading a code not yet in the map as 0. */
  function TotalOf(totals: map<string, int>, code: string): int
  {
    if code in totals then totals[code] else 0
  }

  /** One more listing adds its measure to its own country's total and to no other. */
  lemma TotalOfStep(games: seq<GameListing>, m: Measure, code: string)
    requires games != []
    ensures var last := games[|games| - 1];
      TotalOf(Totals(games, m), code)
      == TotalOf(Totals(games[..|games| - 1], m), code) + (if last.country.countryCode == code then MeasureOf(last, m) else 0)
  {
  }

  /** One more listing of the country adds its measure to the country's sum. */
  lemma InCountryStep(games: seq<GameListing>, m: Measure, code: string)
    requires games != []
    ensures var last := games[|games| - 1];
      Sum(InCountry(games, code), m)
      == Sum(InCountry(games[..|games| - 1], code), m) + (if last.country.countryCode == code then MeasureOf(last, m) else 0)
  {
    var init, last := games[..|games| - 1], games[|games| - 1];
    var before := InCountry(init, code);
    if last.country.countryCode == code {
      var ls := before + [last];
      assert InCountry(games, code) == ls && ls[..|ls| - 1] == before;
    } else {
      assert InCountry(games, code) == before;
    }
  }

  lemma {:induction false} TotalOfIsSum(games: seq<GameListing>, m: Measure, code: string)
    ensures TotalOf(Totals(games, m), code) == Sum(InCountry(games, code), m)
  {
    if games != [] {
      TotalOfIsSum(games[..|games| - 1], m, code);
      TotalOfStep(games, m, code);
      InCountryStep(games, m, code);
    }
  }

  /** Each code's total is the sum of the measure over the listings of that country. */
  lemma TotalIsSumOfCountry(games: seq<GameListing>, m: Measure, code: string)
    requires code in CodeSet(games)
    ensures code in Totals(games, m) && Totals(games, m)[code] == Sum(InCountry(games, code), m)
  {
    CodesAreCountries(games, m);
    TotalOfIsSum(games, m, code);
  }

  /** A country none of the listings is in has no listings to sum. */
  lemma {:induction false} NoListingsOutside(games: seq<GameListing>, code: string)
    requires code !in CodeSet(games)
    ensures InCountry(games, code) == []
  {
    if games != [] {
      var init := games[..|games| - 1];
      assert games == init + [games[|games| - 1]];
      assert CodeSet(init) <= CodeSet(games);
      NoListingsOutside(init, code);
    }
  }

  lemma {:induction false} EntriesLength(keys: seq<string>, totals: map<string, int>)
    ensures |Entries(keys, totals)| == |keys|
    ensures forall i :: 0 <= i < |keys| ==> Entries(keys, totals)[i].category == keys[i]
    ensures forall i :: 0 <= i < |keys| && keys[i] in totals ==> Entries(keys, totals)[i].data == totals[keys[i]]
  {
    if keys != [] {
      EntriesLength(keys[..|keys| - 1], totals);
    }
  }

  /** Changing the total of a code that is not a key leaves the entries as they are. */
  lemma {:induction false} EntriesIgnoreOtherCodes(keys: seq<string>, totals: map<string, int>, code: string, v: int)
    requires code !in keys
    ensures Entries(keys, totals[code := v]) == Entries(keys, totals)
  {
    if keys != [] {
      EntriesIgnoreOtherCodes(keys[..|keys| - 1], totals, code, v);
    }
  }

  /** Adding `d` to the total of one key, present once, adds `d` to the sum of the entries. */
  lemma {:induction false} SumDataBump(keys: seq<string>, totals: map<string, int>, code: string, d: int)
    requires Distinct(keys) && code in keys && code in totals
    ensures SumData(Entries(keys, totals[code := totals[code] + d])) == SumData(Entries(keys, totals)) + d
  {
    var init, k := keys[..|keys| - 1], keys[|keys| - 1];
    var bumped := totals[code := totals[code] + d];
    var before, after := Entries(keys, totals), Entries(keys, bumped);
    assert before[..|before| - 1] == Entries(init, totals);
    assert after[..|after| - 1] == Entries(init, bumped);
    if k == code {
      assert code !in init;
      EntriesIgnoreOtherCodes(init, totals, code, totals[code] + d);
    } else {
      SumDataBump(init, totals, code, d);
    }
  }

  /** Adding a listing of a new country appends an entry holding its measure. */
  lemma ChartStepNewCode(keys: seq<string>, totals: map<string, int>, code: string, d: int)
    requires code !in keys
    ensures SumData(Entries(keys + [code], totals[code := d])) == SumData(Entries(keys, totals)) + d
  {
    var after := Entries(keys + [code], totals[code := d]);
    assert (keys + [code])[..|keys|] == keys;
    EntriesIgnoreOtherCodes(keys, totals, code, d);
    assert after == Entries(keys, totals) + [ChartEntry(code, d)];
    assert after[..|after| - 1] == Entries(keys, totals);
  }

  /** Adding one listing adds its measure to the sum of the entries. */
  lemma ChartStep(games: seq<GameListing>, m: Measure)
    requires games != []
    ensures SumData(Chart(games, m)) == SumData(Chart(games[..|games| - 1], m)) + MeasureOf(games[|games| - 1], m)
  {
    var init, last := games[..|games| - 1], games[|games| - 1];
    var code, d := last.country.countryCode, MeasureOf(last, m);
    CodesAreCountries(init, m);
    var keys, totals := Codes(init), Totals(init, m);
    assert code in keys <==> code in totals;
    if code in keys {
      ChartStepSeenCode(games, m, keys, totals);
    } else {
      ChartStepFirstCode(games, m, keys, totals);
    }
  }

  lemma ChartStepSeenCode(games: seq<GameListing>, m: Measure, keys: seq<string>, totals: map<string, int>)
    requires games != [] && keys == Codes(games[..|games| - 1]) && totals == Totals(games[..|games| - 1], m)
    requires Distinct(keys) && games[|games| - 1].country.countryCode in keys && games[|games| - 1].country.countryCode in totals
    ensures SumData(Chart(games, m)) == SumData(Entries(keys, totals)) + MeasureOf(games[|games| - 1], m)
  {
    var code, d := games[|games| - 1].country.countryCode, MeasureOf(games[|games| - 1], m);
    assert Codes(games) == keys;
    assert Totals(games, m) == totals[code := totals[code] + d];
    SumDataBump(keys, totals, code, d);
  }

  lemma ChartStepFirstCode(games: seq<GameListing>, m: Measure, keys: seq<string>, totals: map<string, int>)
    requires games != [] && keys == Codes(games[..|games| - 1]) && totals == Totals(games[..|games| - 1], m)
    requires games[|games| - 1].country.countryCode !in keys && games[|games| - 1].country.countryCode !in totals
    ensures SumData(Chart(games, m)) == SumData(Entries(keys, totals)) + MeasureOf(games[|games| - 1], m)
  {
    var code, d := games[|games| - 1].country.countryCode, MeasureOf(games[|games| - 1], m);
    assert Codes(games) == keys + [code];
    assert Totals(games, m) == totals[code := d];
    ChartStepNewCode(keys, totals, code, d);
  }

  /** Nothing is lost or counted twice: the entries add up to the total measure of the listings. */
  lemma {:induction false} ChartSum(games: seq<GameListing>, m: Measure)
    ensures SumData(Chart(games, m)) == Sum(games, m)
  {
    if games != [] {
      ChartSum(games[..|games| - 1], m);
      ChartStep(games, m);
    }
  }

  /** What a chart of `games` must show: one entry per country code of the listings and no code
      twice, each entry's data the sum of the measure over that country's listings, and all
      entries adding up to the total measure. */
  ghost predicate ChartOf(data: seq<ChartEntry>, games: seq<GameListing>, m: Measure)
  {
    && (forall i, j :: 0 <= i < j < |data| ==> data[i].category != data[j].category)
    && (forall c :: c in CodeSet(games) <==> exists i :: 0 <= i < |data| && data[i].category == c)
    && (forall i :: 0 <= i < |data| ==> data[i].data == Sum(InCountry(games, data[i].category), m))
    && SumData(data) == Sum(games, m)
  }

  lemma ChartCorrect(games: seq<GameListing>, m: Measure)
    ensures ChartOf(Chart(games, m), games, m)
  {
    var keys := Codes(games);
    CodesAreCountries(games, m);
    EntriesLength(keys, Totals(games, m));
    var chart := Chart(games, m);
    forall i | 0 <= i < |chart| ensures chart[i].data == Sum(InCountry(games, chart[i].category), m) {
      TotalIsSumOfCountry(games, m, keys[i]);
    }
    forall c | c in CodeSet(games) ensures exists i :: 0 <= i < |chart| && chart[i].category == c {
      var i :| 0 <= i < |keys| && keys[i] == c;
      assert chart[i].category == c;
    }
    ChartSum(games, m);
  }

  /** The key order and totals of one more listing, for the loop below. */
  lemma TallyPrefix(games: seq<GameListing>, m: Measure, i: nat)
    requires i < |games|
    ensures var code := games[i].country.countryCode;
      && Codes(games[..i + 1]) == (if code in Codes(games[..i]) then Codes(games[..i]) else Codes(games[..i]) + [code])
      && Totals(games[..i + 1], m) == (var base := if code in Totals(games[..i], m) then Totals(games[..i], m) else Totals(games[..i], m)[code := 0];
                                        base[code := base[code] + MeasureOf(games[i], m)])
  {
    assert games[..i + 1][..i] == games[..i];
  }

  /** The loop of the component: build `countryScoreMap`, then list its entries. */
  method CountryScoreData(games: seq<GameListing>, m: Measure) returns (data: seq<ChartEntry>)
    ensures data == Chart(games, m)
  {
    var keys: seq<string> := [];
    var countryScoreMap: map<string, int> := map[];
    var i := 0;
    while i < |games|
      invariant 0 <= i <= |games|
      invariant keys == Codes(games[..i]) && countryScoreMap == Totals(games[..i], m)
      invariant forall k :: k in countryScoreMap <==> k in keys
    {
      var e := games[i];
      var code := e.country.countryCode;
      if code !in keys {
        keys := keys + [code];
        countryScoreMap := countryScoreMap[code := 0];
      }
      countryScoreMap := countryScoreMap[code := countryScoreMap[code] + MeasureOf(e, m)];
      TallyPrefix(games, m, i);
      i := i + 1;
    }
    assert games[..|games|] == games;
    data := Entries(keys, countryScoreMap);
  }
}
