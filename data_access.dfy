/// The data-access layer as the routes see it. Every function of
/// backend/src/database.ts sends a query to an external graph database and
/// turns any failure into `false`, `null` or `[]`; what the database answers
/// is not part of this model. A `Store` records, in order, the calls the
/// routes make, and answers each call with a fixed function of the calls
/// made before it, which covers any deterministic database behind it.
module DataAccess {
  import opened Models

  datatype Call =
    | CreateUser(user: User)
    | CreateCountry(country: Country)
    | AddUserToCountry(country: Country, user: User)
    | CreateGame(game: Game, player: User)
    | GetUsers(filter: User)
    | GetGames
    | DeleteUser(username: string)
    | UpdateUser(user: User, username: string)

  class Store {
    /** The calls made so far, oldest first. */
    var log: seq<Call>
    /** The answer of the calls that report success or failure. */
    const succeeds: (seq<Call>, Call) -> bool
    /** The answer of `createGame`: the stored game, or `null` on failure. */
    const gameReply: (seq<Call>, Call) -> Option<Game>
    /** The answer of `getUsers`. */
    const usersReply: (seq<Call>, Call) -> seq<User>
    /** The answer of `getGames`: the joined game listings. */
    const listingsReply: seq<Call> -> seq<GameListing>

    constructor (succeeds: (seq<Call>, Call) -> bool, gameReply: (seq<Call>, Call) -> Option<Game>,
                 usersReply: (seq<Call>, Call) -> seq<User>, listingsReply: seq<Call> -> seq<GameListing>)
      ensures log == []
      ensures this.succeeds == succeeds && this.gameReply == gameReply
      ensures this.usersReply == usersReply && this.listingsReply == listingsReply
    {
      log := [];
      this.succeeds := succeeds;
      this.gameReply := gameReply;
      this.usersReply := usersReply;
      this.listingsReply := listingsReply;
    }

    /** Issues a call that answers with a success flag. */
    method Flag(call: Call) returns (ok: bool)
      modifies this`log
      ensures log == old(log) + [call]
      ensures ok == succeeds(old(log), call)
    {
      ok := succeeds(log, call);
      log := log + [call];
    }

    method CreateGameCall(game: Game, player: User) returns (created: Option<Game>)
      modifies this`log
      ensures log == old(log) + [CreateGame(game, player)]
      ensures created == gameReply(old(log), CreateGame(game, player))
    {
      created := gameReply(log, CreateGame(game, player));
      log := log + [CreateGame(game, player)];
    }

    method GetUsersCall(filter: User) returns (users: seq<User>)
      modifies this`log
      ensures log == old(log) + [GetUsers(filter)]
      ensures users == usersReply(old(log), GetUsers(filter))
    {
      users := usersReply(log, GetUsers(filter));
      log := log + [GetUsers(filter)];
    }

    method GetGamesCall() returns (listings: seq<GameListing>)
      modifies this`log
      ensures log == old(log) + [GetGames]
      ensures listings == listingsReply(old(log))
    {
      listings := listingsReply(log);
      log := log + [GetGames];
    }
  }
}
