/// The records the backend stores and the front end displays
/// (backend/src/models.ts, frontend/src/types.ts).
module Models {

  datatype Option<T> = None | Some(value: T)

  datatype User = User(name: string, surname: string, username: string)

  datatype Country = Country(country: string, countryCode: string)

  /** A finished game. `start` and `end` are instants, in milliseconds since the epoch. */
  datatype Game = Game(score: int, start: int, end: int)

  /** One game joined with the user who scored it and that user's country. */
  datatype GameListing = GameListing(game: Game, user: User, country: Country)

  /** No key occurs twice: the keys of a JavaScript object, listed in order. */
  predicate Distinct(keys: seq<string>)
  {
    forall i, j :: 0 <= i < j < |keys| ==> keys[i] != keys[j]
  }

  /** `new Date(end).getTime() - new Date(start).getTime()`: the length of a game in milliseconds. */
  function Duration(g: Game): int
  {
    g.end - g.start
  }
}
