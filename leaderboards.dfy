/// The leaderboard of backend/src/rotuers/leaderboards.ts: one pass over all
/// game listings that builds, per username, the summed score, the number of
/// games, the summed playing time, the user record first seen and the country
/// last seen. backend/src/app.ts runs the same pass with durations in minutes,
/// so the unit is a parameter here.
module Leaderboards {
  import opened Models
  import opened DataAccess

  /** The unit a game's duration is summed in. */
  datatype Unit = Milliseconds | Minutes

  /** `SingleUserAggregate`. */
  datatype UserAggregate = UserAggregate(user: User, score: int, duration: real, count: nat, country: Country)

  /** `Leaderboard`: username to aggregate. */
  type Leaderboard = map<string, UserAggregate>

  /** The country an entry starts with, before any listing has been added to it. */
  const Placeholder: Country := Country("", "")

  const MillisPerMinute: real := 60000.0

  /** The duration one game adds to its player's entry. */
  function GameDuration(g: Game, unit: Unit): real
  {
    match unit
    case Milliseconds => Duration(g) as real
    case Minutes => Duration(g) as real / MillisPerMinute
  }

  /** The entry a listing is added to: the existing one, or a fresh one for a new username. */
  function EntryFor(board: Leaderboard, l: GameListing): UserAggregate
  {
    if l.user.username in board then board[l.user.username] else UserAggregate(l.user, 0, 0.0, 0, Placeholder)
  }

  /** The four updates of one listing to its player's entry. */
  function Accumulate(e: UserAggregate, l: GameListing, unit: Unit): UserAggregate
  {
    e.(score := e.score + l.game.score, count := e.count + 1,
       duration := e.duration + GameDuration(l.game, unit), country := l.country)
  }

  /** The body of the `forEach`: create the entry on first sight of the username, then accumulate into it. */
  function Step(board: Leaderboard, l: GameListing, unit: Unit): Leaderboard
  {
    board[l.user.username := Accumulate(EntryFor(board, l), l, unit)]
  }

  /** One step adds the listing's username to the keys, changes no other entry, keeps the user
      record of an existing entry, and sets the entry's country to the listing's. */
  lemma StepEffect(board: Leaderboard, l: GameListing, unit: Unit)
    ensures var r := Step(board, l, unit);
      && r.Keys == board.Keys + {l.user.username}
      && (forall n :: n in board && n != l.user.username ==> r[n] == board[n])
      && (l.user.username in board ==> r[l.user.username].user == board[l.user.username].user)
      && (l.user.username !in board ==> r[l.user.username].user == l.user)
      && r[l.user.username].country == l.country
  {
  }

  /** The leaderboard of a list of listings: `Step` applied to each listing in list order. */
  function Fold(games: seq<GameListing>, unit: Unit): Leaderboard
  {
    if games == [] then map[] else Step(Fold(games[..|games| - 1], unit), games[|games| - 1], unit)
  }

  // Reference definitions the fold is proved against.

  /** The listings of one username, in list order. */
  function ListingsOf(games: seq<GameListing>, name: string): seq<GameListing>
  {
    if games == [] then []
    else
      var last := games[|games| - 1];
      ListingsOf(games[..|games| - 1], name) + (if last.user.username == name then [last] else [])
  }

  function TotalScore(ls: seq<GameListing>): int
  {
    if ls == [] then 0 else TotalScore(ls[..|ls| - 1]) + ls[|ls| - 1].game.score
  }

  function TotalDuration(ls: seq<GameListing>, unit: Unit): real
  {
    if ls == [] then 0.0 else TotalDuration(ls[..|ls| - 1], unit) + GameDuration(ls[|ls| - 1].game, unit)
  }

  function Usernames(games: seq<GameListing>): set<string>
  {
    set l | l in games :: l.user.username
  }

  /** The entry the leaderboard should hold for a username with listings `ls`. */
  function Expected(ls: seq<GameListing>, unit: Unit): UserAggregate
    requires ls != []
  {
    UserAggregate(ls[0].user, TotalScore(ls), TotalDuration(ls, unit), |ls|, ls[|ls| - 1].country)
  }

  /** The leaderboard has an entry exactly for the usernames that have listings, and that entry holds
      the user record of the first listing, the sum of the scores, the number of listings, the sum of
      the durations and the country of the last listing. */
  lemma {:induction false} FoldEntry(games: seq<GameListing>, unit: Unit, name: string)
    ensures name in Fold(games, unit) <==> ListingsOf(games, name) != []
    ensures name in Fold(games, unit) ==> Fold(games, unit)[name] == Expected(ListingsOf(games, name), unit)
  {
    if games != [] {
      var init, last := games[..|games| - 1], games[|games| - 1];
      FoldEntry(init, unit, name);
      var before := ListingsOf(init, name);
      if last.user.username == name {
        assert ListingsOf(games, name) == before + [last];
        if before == [] {
          assert before + [last] == [last];
          ExpectedFirst(last, unit);
        } else {
          ExpectedSnoc(before, last, unit);
        }
      } else {
        assert ListingsOf(games, name) == before;
      }
    }
  }

  /** A username's first listing gives the fresh entry with that listing accumulated. */
  lemma ExpectedFirst(l: GameListing, unit: Unit)
    ensures Expected([l], unit) == Accumulate(UserAggregate(l.user, 0, 0.0, 0, Placeholder), l, unit)
  {
    var ls := [l];
    assert ls[..0] == [];
    assert TotalScore(ls) == l.game.score;
    assert TotalDuration(ls, unit) == GameDuration(l.game, unit);
  }

  /** Every further listing of a username is accumulated into what the earlier ones gave. */
  lemma ExpectedSnoc(ls: seq<GameListing>, l: GameListing, unit: Unit)
    requires ls != []
    ensures Expected(ls + [l], unit) == Accumulate(Expected(ls, unit), l, unit)
  {
    var more := ls + [l];
    assert more[..|more| - 1] == ls;
  }

  /** The keys of the leaderboard are exactly the usernames of the listings. */
  lemma {:induction false} FoldKeys(games: seq<GameListing>, unit: Unit)
    ensures Fold(games, unit).Keys == Usernames(games)
  {
    if games != [] {
      var init, last := games[..|games| - 1], games[|games| - 1];
      FoldKeys(init, unit);
      assert games == init + [last];
      assert Usernames(games) == Usernames(init) + {last.user.username};
    }
  }

  /** Every entry counts at least one game, so a client dividing by `count` never divides by zero. */
  lemma CountPositive(games: seq<GameListing>, unit: Unit, name: string)
    requires name in Fold(games, unit)
    ensures Fold(games, unit)[name].count >= 1
    ensures Fold(games, unit)[name].count == |ListingsOf(games, name)|
  {
    FoldEntry(games, unit, name);
  }

  /** The placeholder country never survives: an entry's country is that of one of its user's listings. */
  lemma CountryIsLastSeen(games: seq<GameListing>, unit: Unit, name: string)
    requires name in Fold(games, unit)
    ensures exists i :: 0 <= i < |games| && games[i].user.username == name
                        && Fold(games, unit)[name].country == games[i].country
                        && forall j :: i < j < |games| ==> games[j].user.username != name
  {
    var i := LastIndexOf(games, name);
    assert games[i].user.username == name;
    CountryOfLast(games, unit, name);
  }

  /** The position of the last listing of `name`. */
  function LastIndexOf(games: seq<GameListing>, name: string): (i: int)
    ensures -1 <= i < |games|
    ensures i >= 0 ==> games[i].user.username == name
    ensures forall j :: i < j < |games| ==> games[j].user.username != name
    ensures i == -1 <==> name !in Usernames(games)
  {
    if games == [] then -1
    else if games[|games| - 1].user.username == name then |games| - 1
    else
      var init := games[..|games| - 1];
      assert Usernames(games) == Usernames(init) + {games[|games| - 1].user.username};
      LastIndexOf(init, name)
  }

  lemma {:induction false} CountryOfLast(games: seq<GameListing>, unit: Unit, name: string)
    requires name in Fold(games, unit)
    ensures LastIndexOf(games, name) >= 0
    ensures Fold(games, unit)[name].country == games[LastIndexOf(games, name)].country
  {
    FoldKeys(games, unit);
    var init, last := games[..|games| - 1], games[|games| - 1];
    if last.user.username != name {
      FoldKeys(init, unit);
      CountryOfLast(init, unit, name);
    }
  }

  lemma FoldPrefix(games: seq<GameListing>, unit: Unit, i: nat)
    requires i < |games|
    ensures Fold(games[..i + 1], unit) == Step(Fold(games[..i], unit), games[i], unit)
  {
    assert games[..i + 1][..i] == games[..i];
  }

  /** The keys of the leaderboard in the order they were created, which is the order `res.send`
      writes them: each username at its first listing. */
  function Order(games: seq<GameListing>): seq<string>
  {
    if games == [] then []
    else
      var seen := Order(games[..|games| - 1]);
      var name := games[|games| - 1].user.username;
      if name in seen then seen else seen + [name]
  }

  /** The order lists every key of the leaderboard exactly once, and nothing else. */
  lemma {:induction false} OrderIsKeys(games: seq<GameListing>, unit: Unit)
    ensures Distinct(Order(games))
    ensures forall n :: n in Order(games) <==> n in Fold(games, unit)
  {
    if games != [] {
      OrderIsKeys(games[..|games| - 1], unit);
    }
  }

  /** Later listings only append to the order: the usernames of any prefix of the listings come
      first, in the same order, so a username listed earlier is written earlier. */
  lemma {:induction false} OrderGrows(games: seq<GameListing>, k: nat)
    requires k <= |games|
    ensures Order(games[..k]) <= Order(games)
  {
    if k < |games| {
      var init := games[..|games| - 1];
      assert init[..k] == games[..k];
      OrderGrows(init, k);
    } else {
      assert games[..k] == games;
    }
  }

  /** The handler's loop: `games.forEach` updating `aggregateLeaderbaord` in place. The object is
      returned as its keys in order and the entries they map to. */
  method AggregateLeaderboard(games: seq<GameListing>, unit: Unit) returns (names: seq<string>, board: Leaderboard)
    ensures names == Order(games)
    ensures board == Fold(games, unit)
  {
    names, board := [], map[];
    var i := 0;
    while i < |games|
      invariant 0 <= i <= |games|
      invariant names == Order(games[..i])
      invariant board == Fold(games[..i], unit)
    {
      OrderIsKeys(games[..i], unit);
      var el := games[i];
      var name := el.user.username;
      ghost var before := board;
      if name !in board {
        names := names + [name];
        board := board[name := UserAggregate(el.user, 0, 0.0, 0, Placeholder)];
      }
      // the four updates go to the one aggregate object the map holds for `name`
      var entry := board[name];
      assert entry == EntryFor(before, el);
      entry := entry.(score := entry.score + el.game.score);
      entry := entry.(count := entry.count + 1);
      entry := entry.(duration := entry.duration + GameDuration(el.game, unit));
      entry := entry.(country := el.country);
      assert entry == Accumulate(EntryFor(before, el), el, unit);
      board := board[name := entry];
      assert board == Step(before, el, unit);
      FoldPrefix(games, unit, i);
      assert games[..i + 1][..i] == games[..i];
      i := i + 1;
    }
    assert games[..|games|] == games;
  }

  /** `GET /api/leaderboards` of the leaderboard router: fetch every listing, fold it in milliseconds. */
  method Get(store: Store) returns (names: seq<string>, board: Leaderboard)
    modifies store`log
    ensures store.log == old(store.log) + [GetGames]
    ensures names == Order(store.listingsReply(old(store.log)))
    ensures board == Fold(store.listingsReply(old(store.log)), Milliseconds)
  {
    var games := store.GetGamesCall();
    names, board := AggregateLeaderboard(games, Milliseconds);
  }

  // The handler as written tests `username in aggregateLeaderbaord`, and JavaScript's `in` also sees
  // the properties every object inherits from Object.prototype. For such a username no entry is
  // created and the four updates land on the inherited value: on a function they add properties to
  // it, and the user is missing from the JSON that is sent. The name "__proto__" reaches
  // Object.prototype itself, and the updates give every object in the process inherited `score`,
  // `count`, `duration` and `country` properties. From then on a player called "country" is
  // dropped too, and one called "score", "count" or "duration" makes the handler assign a property
  // of a number, a TypeError in strict-mode code, so that request gets no response.

  /** The property names of Object.prototype. */
  const InheritedKeys: set<string> := {
    "constructor", "hasOwnProperty", "isPrototypeOf", "propertyIsEnumerable", "toLocaleString",
    "toString", "valueOf", "__proto__", "__defineGetter__", "__defineSetter__", "__lookupGetter__",
    "__lookupSetter__"
  }

  /** The properties a "__proto__" listing writes onto Object.prototype: three numbers and a country. */
  const PollutedNumbers: set<string> := {"score", "count", "duration"}
  const PollutedFields: set<string> := PollutedNumbers + {"country"}

  /** Where a request leaves the handler as written: the leaderboard sent, or the TypeError that ends
      it; either way the names Object.prototype now provides, which outlive the request. */
  datatype Run = Sent(board: Leaderboard, inherited: set<string>) | Thrown(inherited: set<string>)

  /** One step of the `forEach` as written. */
  function StepAsWritten(run: Run, l: GameListing, unit: Unit): (r: Run)
    ensures run.inherited <= r.inherited
    ensures run.Thrown? ==> r == run
    ensures run.Sent? && l.user.username == "__proto__" ==>
      r == Sent(run.board, run.inherited + PollutedFields)
    ensures run.Sent? && l.user.username != "__proto__" && (l.user.username in run.board || l.user.username !in run.inherited) ==>
      r == Sent(Step(run.board, l, unit), run.inherited)
    ensures run.Sent? && l.user.username != "__proto__" && l.user.username in run.inherited - run.board.Keys ==>
      r == if l.user.username in PollutedNumbers then Thrown(run.inherited) else run
  {
    var name := l.user.username;
    if run.Thrown? then run
    else if name == "__proto__" then Sent(run.board, run.inherited + PollutedFields)
    else if name in run.board || name !in run.inherited then Sent(Step(run.board, l, unit), run.inherited)
    else if name in PollutedNumbers then Thrown(run.inherited)
    else run
  }

  /** The handler's loop as written, starting from the names Object.prototype provides when the request arrives. */
  function FoldAsWritten(games: seq<GameListing>, unit: Unit, inherited: set<string>): Run
  {
    if games == [] then Sent(map[], inherited)
    else StepAsWritten(FoldAsWritten(games[..|games| - 1], unit, inherited), games[|games| - 1], unit)
  }

  /** Where no username is inherited, the handler as written computes the leaderboard: the
      discrepancy is confined to usernames that name inherited properties. */
  lemma {:induction false} AsWrittenAgrees(games: seq<GameListing>, unit: Unit, inherited: set<string>)
    requires "__proto__" in inherited
    requires forall i :: 0 <= i < |games| ==> games[i].user.username !in inherited
    ensures FoldAsWritten(games, unit, inherited) == Sent(Fold(games, unit), inherited)
  {
    if games != [] {
      AsWrittenAgrees(games[..|games| - 1], unit, inherited);
    }
  }

  /** A player called "constructor" has a game, yet the leaderboard as written has no entry for them. */
  lemma InheritedNameDropped(g: Game, u: User, c: Country, unit: Unit)
    requires u.username == "constructor"
    ensures FoldAsWritten([GameListing(g, u, c)], unit, InheritedKeys) == Sent(map[], InheritedKeys)
    ensures "constructor" in Fold([GameListing(g, u, c)], unit)
  {
    var games := [GameListing(g, u, c)];
    assert games[..0] == [];
  }

  /** A "__proto__" player's game pollutes Object.prototype: a later player called "country" is then
      dropped as well, and the pollution is what the next request starts from. */
  lemma PrototypePolluted(first: GameListing, second: GameListing, unit: Unit)
    requires first.user.username == "__proto__" && second.user.username == "country"
    ensures FoldAsWritten([first, second], unit, InheritedKeys) == Sent(map[], InheritedKeys + PollutedFields)
    ensures Fold([first, second], unit).Keys == {"__proto__", "country"}
  {
    var games := [first, second];
    assert games[..1] == [first];
    assert games[..1][..0] == [];
    assert FoldAsWritten([first], unit, InheritedKeys) == Sent(map[], InheritedKeys + PollutedFields);
    assert "country" in PollutedFields - PollutedNumbers;
    assert Fold([first], unit).Keys == {"__proto__"};
  }

  /** Once Object.prototype is polluted, by this request or an earlier one, a player called "score",
      "count" or "duration" makes the handler throw. */
  lemma PollutedNameThrows(l: GameListing, unit: Unit, inherited: set<string>)
    requires PollutedFields <= inherited
    requires l.user.username in PollutedNumbers
    ensures FoldAsWritten([l], unit, inherited) == Thrown(inherited)
  {
    var games := [l];
    assert games[..0] == [];
  }
}
