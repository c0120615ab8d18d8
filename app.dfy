/// The routes declared directly in backend/src/app.ts. Users, countries and
/// games are created there with the same 201/400 rule as in the routers, but
/// recording a game succeeds only when all four of its calls succeed, and the
/// leaderboard sums durations in minutes.
module App {
  import opened Models
  import opened Http
  import opened DataAccess
  import opened Leaderboards
  import UsersRouter
  import GamesRouter

  /** POST /api/users. */
  method PostUsers(store: Store, obj: User) returns (r: Response<bool>)
    modifies store`log
    ensures store.log == old(store.log) + [CreateUser(obj)]
    ensures r.body == store.succeeds(old(store.log), CreateUser(obj))
    ensures r.status == Created <==> r.body
    ensures r.status == BadRequest <==> !r.body
  {
    var created := store.Flag(CreateUser(obj));
    r := Response(Outcome(created, Created), created);
  }

  /** POST /api/countries. */
  method PostCountries(store: Store, obj: Country) returns (r: Response<bool>)
    modifies store`log
    ensures store.log == old(store.log) + [CreateCountry(obj)]
    ensures r.body == store.succeeds(old(store.log), CreateCountry(obj))
    ensures r.status == Created <==> r.body
    ensures r.status == BadRequest <==> !r.body
  {
    var created := store.Flag(CreateCountry(obj));
    r := Response(Outcome(created, Created), created);
  }

  /** POST /api/games: the four calls of the games router, made with the user as sent (no
      'Anonymous' default), every one of them even after a failure; 201 exactly when all four
      succeeded. */
  method PostGames(store: Store, obj: GamesRouter.GameRequest) returns (r: Response<bool>)
    modifies store`log
    ensures var steps := GamesRouter.Steps(obj);
            var h := old(store.log);
            && store.log == h + steps
            && (r.body <==> store.succeeds(h, steps[0]) && store.succeeds(h + steps[..1], steps[1])
                            && store.succeeds(h + steps[..2], steps[2]) && store.gameReply(h + steps[..3], steps[3]).Some?)
    ensures r.status == Created <==> r.body
    ensures r.status == BadRequest <==> !r.body
  {
    ghost var steps := GamesRouter.Steps(obj);
    var createdUser := store.Flag(CreateUser(obj.user));
    assert store.log == old(store.log) + steps[..1];
    var createdCountry := store.Flag(CreateCountry(obj.country));
    assert store.log == old(store.log) + steps[..2];
    var addedUser := store.Flag(AddUserToCountry(obj.country, obj.user));
    assert store.log == old(store.log) + steps[..3];
    var createdGame := store.CreateGameCall(obj.game, obj.user);
    assert store.log == old(store.log) + steps;
    var allCreatedSuccessfully := createdUser && createdCountry && addedUser && createdGame.Some?;
    r := Response(Outcome(allCreatedSuccessfully, Created), allCreatedSuccessfully);
  }

  /** GET /api/users: the same filter defaults as the users router. */
  method GetUsers(store: Store, q: UsersRouter.UserQuery) returns (r: Response<seq<User>>)
    modifies store`log
    ensures store.log == old(store.log) + [Call.GetUsers(UsersRouter.FilterOf(q))]
    ensures r == Response(Ok, store.usersReply(old(store.log), Call.GetUsers(UsersRouter.FilterOf(q))))
  {
    var filterUser := User(UsersRouter.QueryValue(q.name), UsersRouter.QueryValue(q.surname), UsersRouter.QueryValue(q.username));
    var users := store.GetUsersCall(filterUser);
    r := Response(Ok, users);
  }

  /** GET /api/games. */
  method GetGames(store: Store) returns (r: Response<seq<GameListing>>)
    modifies store`log
    ensures store.log == old(store.log) + [Call.GetGames]
    ensures r == Response(Ok, store.listingsReply(old(store.log)))
  {
    var games := store.GetGamesCall();
    r := Response(Ok, games);
  }

  /** GET /api/leaderboards: the leaderboard fold with durations in minutes. */
  method GetLeaderboards(store: Store) returns (names: seq<string>, board: Leaderboard)
    modifies store`log
    ensures store.log == old(store.log) + [Call.GetGames]
    ensures names == Order(store.listingsReply(old(store.log)))
    ensures board == Fold(store.listingsReply(old(store.log)), Minutes)
  {
    var games := store.GetGamesCall();
    names, board := AggregateLeaderboard(games, Minutes);
  }

  /** The minutes leaderboard has the same entries as the millisecond one, with the same user,
      score, count and country, and each duration divided by 60000. */
  lemma {:induction false} MinutesLeaderboard(games: seq<GameListing>)
    ensures Fold(games, Minutes).Keys == Fold(games, Milliseconds).Keys
    ensures forall n :: n in Fold(games, Minutes) ==>
              var m, ms := Fold(games, Minutes)[n], Fold(games, Milliseconds)[n];
              && m.user == ms.user && m.score == ms.score && m.count == ms.count && m.country == ms.country
              && m.duration == ms.duration / MillisPerMinute
  {
    if games != [] {
      MinutesLeaderboard(games[..|games| - 1]);
    }
  }
}
