/// The games router of backend/src/rotuers/games.ts: recording a game is four
/// data-access calls in a row, and only the last one decides the status.
module GamesRouter {
  import opened Models
  import opened Http
  import opened DataAccess
  import UsersRouter

  /** The body of POST: `{ game, user, country }`. */
  datatype GameRequest = GameRequest(game: Game, user: User, country: Country)

  /** The four calls that record a game, in the order they are made: create the user, create the
      country, move the user to the country, create the game scored by the user. */
  function Steps(req: GameRequest): (calls: seq<Call>)
    ensures |calls| == 4
    ensures calls[0] == CreateUser(req.user) && calls[1] == CreateCountry(req.country)
    ensures calls[2] == AddUserToCountry(req.country, req.user) && calls[3] == CreateGame(req.game, req.user)
  {
    [CreateUser(req.user), CreateCountry(req.country), AddUserToCountry(req.country, req.user), CreateGame(req.game, req.user)]
  }

  /** The request after `obj.user.username = obj.user.username || 'Anonymous'`. */
  function WithPlayerName(req: GameRequest): (r: GameRequest)
    ensures r.user.username != ""
    ensures r.game == req.game && r.country == req.country
    ensures r.user.name == req.user.name && r.user.surname == req.user.surname
    ensures req.user.username != "" ==> r == req
  {
    req.(user := req.user.(username := UsersRouter.OrAnonymous(req.user.username)))
  }

  /** Every call that names a user names the same one, and its username is never empty. */
  lemma StepsNameOnePlayer(req: GameRequest)
    ensures var calls := Steps(WithPlayerName(req));
            && calls[0].user == calls[2].user == calls[3].player
            && calls[3].player.username != ""
  {
  }

  /** POST: all four calls are made whatever the first three answer; 201 exactly when `createGame`
      returned a game, 400 otherwise. */
  method Post(store: Store, req: GameRequest) returns (r: Response<Option<Game>>)
    modifies store`log
    ensures var obj := WithPlayerName(req);
            var steps := Steps(obj);
            && store.log == old(store.log) + steps
            && r.body == store.gameReply(old(store.log) + steps[..3], steps[3])
    ensures r.status == Created <==> r.body.Some?
    ensures r.status == BadRequest <==> r.body.None?
  {
    var obj := req;
    obj := obj.(user := obj.user.(username := UsersRouter.OrAnonymous(obj.user.username)));
    var _ := store.Flag(CreateUser(obj.user));
    var _ := store.Flag(CreateCountry(obj.country));
    var _ := store.Flag(AddUserToCountry(obj.country, obj.user));
    ghost var before := store.log;
    var createdGame := store.CreateGameCall(obj.game, obj.user);
    ghost var steps := Steps(obj);
    assert before == old(store.log) + steps[..3];
    r := Response(Outcome(createdGame.Some?, Created), createdGame);
  }

  /** GET: the listings exactly as `getGames` returned them. */
  method Get(store: Store) returns (r: Response<seq<GameListing>>)
    modifies store`log
    ensures store.log == old(store.log) + [GetGames]
    ensures r == Response(Ok, store.listingsReply(old(store.log)))
  {
    var games := store.GetGamesCall();
    r := Response(Ok, games);
  }
}
