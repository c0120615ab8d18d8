# asteroid-wasm: leaderboard, routes, charts and cube geometry in Dafny

This project models the parts of the asteroid-wasm game that compute
something, and proves what they promise.

- **The leaderboard** (`backend/src/rotuers/leaderboards.ts`, and the copy in `backend/src/app.ts`).
  - It folds the game listings into a dictionary keyed by username.
  - The loop is a method over a map and the order of its keys. It is proved equal to the fold `Leaderboards.Fold`, and its key order to `Leaderboards.Order`: each username at its first listing.
  - Every entry of the fold is proved against reference definitions: the user's listings, the summed score and duration, the count, the first user record and the last country.
  - The app.ts copy sums durations in minutes. A lemma relates it to the millisecond board.
- **The routes** of `app.ts`, `users.ts` and `games.ts`.
  - Each handler is a method on a `DataAccess.Store`.
  - The Store records the data-access calls in order. It answers each call with a fixed function of the calls made before it, which stands in for the graph database.
  - Each handler's contract states:
    - the calls it makes, in order;
    - its defaults (`''` for absent query values, `'Anonymous'` for an empty username);
    - its status code: 201 or 204 exactly when the deciding call succeeded, 400 otherwise.
- **The country charts** of `GameHistory.tsx`, `CountryChart.tsx` and `CountryChartPlaytime.tsx`.
  - Each keeps the first 30 listings and sums the score, or the playing time, per country code into a plain object.
  - The object is modelled as its key order together with a map.
  - The loop is proved to produce `CountryScores.Chart`. `ChartOf` then states what the chart means:
    - one entry per country code, none twice;
    - each entry holds the sum over that country's listings;
    - the entries add up to the total.
- **The statistics carousel** (`Statistics.tsx`): the wrap-around of `handleChange` and the two arrows.
- **The lives display** (`Status.tsx`): full hearts, then empty hearts, three in all. Any other number of lives is the RangeError that `Array(n)` throws.
- **The cube** (`rust/src/programs/cube.rs`, `cube/plane.rs`, `cube/point.rs`).
  - Points and planes flatten into coordinate vectors, and the six faces into the 72-float vertex buffer.
  - Each face colour is repeated for its four corners, giving the 96-float colour buffer.
  - The 36 indices draw two triangles per face. The `Cube` class holds the uploaded buffer data and the rotation state that `draw_scene` advances.

Timestamps are integer milliseconds. Leaderboard durations are reals. Cube coordinates, which the source only copies, are reals.

## Model

| member | source | states |
|---|---|---|
| Leaderboards.StepEffect | backend/src/rotuers/leaderboards.ts:26-39 | one listing adds its username to the keys and changes no other entry; an existing entry keeps its user record, a new one takes the listing's; the entry's country becomes the listing's |
| Leaderboards.FoldEntry | backend/src/rotuers/leaderboards.ts:25-39 | a username has an entry exactly when it has listings; the entry is the first listing's user, the summed score, the summed duration, the number of listings and the last listing's country |
| Leaderboards.FoldKeys | backend/src/rotuers/leaderboards.ts:25-34 | the keys are exactly the usernames occurring in the listings |
| Leaderboards.CountPositive | backend/src/rotuers/leaderboards.ts:26-37 | every entry's count is the number of that user's listings, hence at least 1 |
| Leaderboards.CountryIsLastSeen | backend/src/rotuers/leaderboards.ts:32-39 | an entry's country is that of the user's last listing in list order, never the empty placeholder |
| Leaderboards.CountryOfLast | backend/src/rotuers/leaderboards.ts:39 | the entry's country equals the country of the listing at the last index of the username |
| Leaderboards.OrderIsKeys | backend/src/rotuers/leaderboards.ts:26-34 | the key order names every key of the leaderboard once and nothing else |
| Leaderboards.OrderGrows | backend/src/rotuers/leaderboards.ts:25-34 | the key order of any prefix of the listings is a prefix of the whole key order, so a username first listed earlier is written earlier |
| Leaderboards.AggregateLeaderboard | backend/src/rotuers/leaderboards.ts:23-40 | the in-place loop over the listings builds exactly the fold of the listings, with its keys in first-listing order |
| Leaderboards.Get | backend/src/rotuers/leaderboards.ts:21-43 | one `getGames` call; the body is the millisecond leaderboard of its answer, keys in first-listing order |
| Leaderboards.StepAsWritten | backend/src/rotuers/leaderboards.ts:26-39 | with the prototype-chain `in` test: after a throw nothing happens; `__proto__` records nothing and adds score, count, duration and country to the inherited names; an own or non-inherited username steps as intended; another inherited one records nothing, or throws when it names one of the polluted numbers; inherited names only grow |
| Leaderboards.AsWrittenAgrees | backend/src/rotuers/leaderboards.ts:25-40 | when no listed username is inherited, the loop as written sends exactly the intended leaderboard and pollutes nothing |
| Leaderboards.InheritedNameDropped | backend/src/rotuers/leaderboards.ts:26-34 | a user named "constructor" with one game is missing from the leaderboard as written, yet present in the intended one |
| Leaderboards.PrototypePolluted | backend/src/rotuers/leaderboards.ts:26-39 | a `__proto__` game followed by a `country` game leaves the board as written empty and Object.prototype polluted with the four fields, where the intended board has both users |
| Leaderboards.PollutedNameThrows | backend/src/rotuers/leaderboards.ts:36-38 | once Object.prototype is polluted, in this request or an earlier one, a game by `score`, `count` or `duration` makes the handler throw |
| App.PostUsers | backend/src/app.ts:42-47 | one `createUser` call; 201 exactly when it succeeded, else 400; the body is the flag |
| App.PostCountries | backend/src/app.ts:49-54 | one `createCountry` call; 201 exactly when it succeeded, else 400 |
| App.PostGames | backend/src/app.ts:61-72 | the four calls user, country, link, game always all made in that order; 201 exactly when all four succeeded, 400 after any failure |
| App.GetUsers | backend/src/app.ts:74-82 | one `getUsers` call with absent query values replaced by `''`; 200 with its answer |
| App.GetGames | backend/src/app.ts:84-87 | one `getGames` call; its listings returned unchanged |
| App.GetLeaderboards | backend/src/app.ts:99-121 | one `getGames` call; the body is the leaderboard of its answer with durations in minutes, keys in first-listing order |
| App.MinutesLeaderboard | backend/src/app.ts:103-118 | the minutes leaderboard has the same keys, users, scores, counts and countries as the millisecond one, and every duration divided by 60000 |
| Http.Outcome | backend/src/rotuers/users.ts:22 | the status is the success code exactly when the call succeeded, and 400 exactly when it failed |
| UsersRouter.QueryValue | backend/src/rotuers/users.ts:11-13 | an absent query value becomes `''`, a present one is kept unchanged |
| UsersRouter.FilterOf | backend/src/rotuers/users.ts:10-14 | each absent filter field is `''`, each present one is the query value |
| UsersRouter.OrAnonymous | backend/src/rotuers/users.ts:34 | the result is never empty: a non-empty username is kept, an empty one becomes 'Anonymous' |
| UsersRouter.Get | backend/src/rotuers/users.ts:9-17 | one `getUsers` call with the defaulted filter; its answer returned with 200 |
| UsersRouter.Post | backend/src/rotuers/users.ts:19-23 | one `createUser` call; 201 exactly when it succeeded, else 400 |
| UsersRouter.Delete | backend/src/rotuers/users.ts:25-29 | one `deleteUser` call with the path username; 204 exactly when it succeeded, else 400 |
| UsersRouter.Put | backend/src/rotuers/users.ts:31-37 | one `updateUser` call with the body, its username defaulted to 'Anonymous', and the path username as the key; 204 exactly when it succeeded, else 400 |
| GamesRouter.Steps | backend/src/rotuers/games.ts:20-23 | recording a game is exactly four calls: create user, create country, link user to country, create game |
| GamesRouter.WithPlayerName | backend/src/rotuers/games.ts:19 | the player's username is never empty afterwards; nothing else in the request changes; a non-empty username is kept |
| GamesRouter.StepsNameOnePlayer | backend/src/rotuers/games.ts:19-23 | the user, link and game calls all name the same player, whose username is not empty |
| GamesRouter.Post | backend/src/rotuers/games.ts:17-26 | the four calls are made in order whatever the first three answer; 201 exactly when `createGame` returned a game, 400 otherwise |
| GamesRouter.Get | backend/src/rotuers/games.ts:28-31 | one `getGames` call; its listings returned unchanged |
| CountryScores.Latest | frontend/src/core/main/GameHistory/GameHistory.tsx:15 | at most 30 listings are kept, and they are a prefix of the fetched list |
| CountryScores.CodesAreCountries | frontend/src/core/main/GameHistory/GameHistory.tsx:22-25 | the object's keys hold no code twice, and the keys and the map's domain are exactly the country codes of the listings |
| CountryScores.TotalOfIsSum | frontend/src/core/main/GameHistory/GameHistory.tsx:22-27 | every code's running total, reading an absent code as 0, is the sum of the measure over that country's listings |
| CountryScores.TotalIsSumOfCountry | frontend/src/core/main/GameHistory/GameHistory.tsx:22-27 | every code of the listings is a key, and its value is the sum of the measure over that country's listings |
| CountryScores.NoListingsOutside | frontend/src/core/main/GameHistory/GameHistory.tsx:22-27 | a code that no listing has has no listings to sum |
| CountryScores.EntriesLength | frontend/src/core/main/GameHistory/GameHistory.tsx:28-30 | one entry per key, in key order, holding the key's value |
| CountryScores.ChartSum | frontend/src/core/main/GameHistory/GameHistory.tsx:21-30 | the entries' data add up to the total measure of the listings: nothing lost, nothing counted twice |
| CountryScores.ChartCorrect | frontend/src/core/main/GameHistory/GameHistory.tsx:21-30 | the chart has distinct codes, exactly the codes of the listings, each with its country's sum, adding up to the total |
| CountryScores.CountryScoreData | frontend/src/core/main/GameHistory/GameHistory.tsx:21-30 | the insert-then-add loop and the `Object.keys` mapping produce exactly the chart of the listings |
| GameHistory.TableRows | frontend/src/core/main/GameHistory/GameHistory.tsx:46-55 | one row per kept game, in order, with duration `end - start` in milliseconds, score, username and country code |
| GameHistory.View | frontend/src/core/main/GameHistory/GameHistory.tsx:12-30 | the rows are those of the first 30 fetched listings, and the score chart is correct for those 30 |
| CountryChart.View | frontend/src/core/main/Statistics/Charts/CountryChart.tsx:12-27 | the chart is the correct score chart of the first 30 fetched listings |
| CountryChartPlaytime.View | src/core/main/Statistics/Charts/CountryChartPlaytime.tsx:12-27 | the chart is the correct playtime chart of the first 30 fetched listings, each entry the summed `end - start` of its country |
| Statistics.HandleChange | src/core/main/Statistics/Statistics.tsx:45-56 | past the end gives 0, below 0 gives `maxItems - 1`, anything else is passed on unchanged |
| Statistics.ArrowsWrapAround | src/core/main/Statistics/Statistics.tsx:66-100 | from a valid index both arrows give a valid index, one step on modulo the item count; the last wraps to the first and the first to the last |
| Statistics.ArrowsAreInverse | src/core/main/Statistics/Statistics.tsx:66-100 | the left and right arrows undo each other |
| Statistics.TwoItemsToggle | src/core/main/Statistics/Statistics.tsx:57-58 | with the two tables or the two charts, either arrow shows the other one |
| Status.Repeat | src/core/main/Game/Status.tsx:18-19 | a row of `length` equal hearts, or the RangeError exactly when the length is not a valid array length (below 0 or at least 2^32) |
| Status.Hearts | src/core/main/Game/Status.tsx:17-19 | a row exists exactly for 0 to 3 lives; it has 3 hearts, and heart `i` is full exactly when `i < lives`, so full hearts come first |
| Status.HeartCounts | src/core/main/Game/Status.tsx:17-19 | for 0 to 3 lives the row has `lives` full hearts and `3 - lives` empty ones |
| Point.Point3D.AsArray | rust/src/programs/cube/point.rs:13-15 | three coordinates: x, y, z |
| Point.Point2D.AsArray | rust/src/programs/cube/point.rs:29-31 | two coordinates: x, y |
| Colors.SingleColor.AsArray | rust/src/programs/colors.rs:12-19 | four components: r, g, b, a, in that order |
| Plane.NewPlane3D | rust/src/programs/cube/plane.rs:12-16 | the four corners stored in argument order bl, tl, tr, br |
| Plane.NewPlane2D | rust/src/programs/cube/plane.rs:34-38 | the four corners stored in argument order bl, tl, tr, br |
| Plane.PushEach | rust/src/programs/cube/plane.rs:21-23 | pushing the items one by one appends exactly those items, in order |
| Plane.Plane3D.PointsAsArray | rust/src/programs/cube/plane.rs:17-26 | the nested push loops yield the corners' coordinate arrays concatenated in order |
| Plane.Plane2D.PointsAsArray | rust/src/programs/cube/plane.rs:39-48 | the nested push loops yield the corners' coordinate arrays concatenated in order |
| Plane.Plane3DLayout | rust/src/programs/cube/plane.rs:17-26 | a plane flattens to 12 coordinates, element `3i + j` being coordinate j of corner i |
| Plane.Plane2DLayout | rust/src/programs/cube/plane.rs:39-48 | a flat plane flattens to 8 coordinates, element `2i + j` being coordinate j of corner i |
| Cube.Faces | rust/src/programs/cube.rs:109-146 | six faces of four corners each, in the order front, back, left, right, top, bottom |
| Cube.BuildVertices | rust/src/programs/cube.rs:147-153 | the nested push loops yield every side's flattened corners concatenated in side order |
| Cube.PushVertexColors | rust/src/programs/cube.rs:55-61 | the four pushes, done four times, append four copies of the colour's r, g, b, a |
| Cube.BuildColors | rust/src/programs/cube.rs:52-62 | the colour data is each colour's components four times over, colour by colour |
| Cube.InitBuffers | rust/src/programs/cube.rs:35-89 | the three buffers receive the vertices unchanged, the expanded colours and the index literal |
| Cube.CornersOnFaces | rust/src/programs/cube.rs:109-145 | every corner coordinate is +s or -s, and each face's own axis is at that face's sign |
| Cube.VertexAt | rust/src/programs/cube.rs:146-153 | coordinate k of corner c of side f is element `12f + 3c + k` of the vertices |
| Cube.VertexLayout | rust/src/programs/cube.rs:109-153 | 72 coordinates; element i is coordinate `i % 3` of corner `(i % 12) / 3` of face `i / 12`; all are ±0.5; each face's corners share its fixed coordinate |
| Cube.ColorLayout | rust/src/programs/cube.rs:54-62 | 16 components per colour (96 for six); entry i is component `i % 4` of colour `i / 16` |
| Cube.IndexLayout | rust/src/programs/cube.rs:70-77 | 36 indices, the number drawn at line 296; entry i is `4 * (i / 6)` plus 0, 1, 2, 0, 2, 3, so every index is below 24 and names a corner of its own face |
| Cube.Cube.constructor | rust/src/programs/cube.rs:93-181 | the faces and colours as built, 72 vertex floats, 96 colour floats, indices all naming one of the 24 vertices, rotation 0 and last rotation at the given time |
| Cube.Cube.AdvanceRotation | rust/src/programs/cube.rs:315-317 | the rotation grows by a thousandth of the milliseconds since the last frame, and the last-frame time becomes now |

## Left out

- The graph database behind `backend/src/database.ts` is not modelled. Its answers are the `DataAccess.Store` oracle functions, deterministic in the calls made before. Concurrent requests and the database's own behaviour (prefix match, relationship replacement, the join) are outside the model.
- `backend/src/rotuers/countries.ts` is not modelled: it repeats the 201/400 rule of `App.PostCountries`.
- `GET /api/nodes` and the start-up `initial()` call in `backend/src/app.ts` are not modelled: they are a database count and database setup.
- The CORS headers, `express.json()` and the listening port are not modelled. They are framework configuration.
- App.MinutesLeaderboard: durations are exact reals, so the floating-point rounding of the division by 60000 and of the running sums is not modelled.
- Leaderboards.AggregateLeaderboard: the sums are unbounded integers and reals, not IEEE doubles.
- Leaderboards.Order: `JSON.stringify` writes integer-like usernames (`"42"`) first, in numeric order, and the other keys in creation order; the model keeps creation order for every key.
- Leaderboards.StepAsWritten: the handler's module code is taken to run in strict mode, where assigning a property of a number throws; the model does not follow what the polluted fields go on to do outside the leaderboard.
- GamesRouter.Post: the request body is taken to have a `user` object; without one, line 19 of `games.ts` throws a TypeError before any call, and the request gets no response. App.PostGames has no such line: there the missing user reaches `createUser`, whose `try` turns the error into a `false` answer, an answer the Store oracle can give.
- UsersRouter.Delete and UsersRouter.Put: Express drops the body of a 204 response, so `{ deleted }` and `{ updated }` reach the client only with a 400; the model keeps the body either way.
- App.PostGames: `allCretedSuccessfully` is JavaScript's `&&` of three flags and the created game, so the value sent is the game object or a falsy value; the model sends the boolean it stands for.
- UsersRouter.QueryValue: a query parameter given several times arrives as an array, whose `toString()` joins the values with commas; query values are modelled as strings or absent.
- UsersRouter.Put: a body without a `username` field is modelled as one whose username is `''`; both are falsy and get 'Anonymous'.
- CountryScores.CountryScoreData: `Object.keys` lists integer-like keys first, in numeric order, but the model keeps insertion order for every key. The model also does not cover the country code `__proto__`, which a plain object never stores as its own key.
- Status.Repeat: the engine's limit on the number of arguments `Array.apply` passes (a RangeError for rows of some hundred thousand hearts or more, depending on the engine) is not modelled; `Status.Hearts` only builds rows of at most 3.
- Status.Hearts: lives are integers, so the RangeError for a fractional number of lives is not modelled.
- The fetching in the React components is not modelled (`useEffect` and `Requester.FetchGames`). The listings they receive are a parameter. Rendering is not modelled either, including the pie chart geometry of `Chart.tsx`.
- The WebGL calls are not modelled: buffer creation, binding and upload, attribute and uniform locations, and the draw call. A buffer is the data uploaded into it.
- The matrices of `draw_scene` are not modelled: the perspective, the translation and the mouse-driven rotations. They are floating-point calls into nalgebra-glm.
- `Date::now()` is the `now` parameter of `Cube.Cube.constructor` and `Cube.Cube.AdvanceRotation`. The clock is not modelled.
- The `program`, `transform` and `input` fields of the cube and their accessors are not modelled.
- Coordinates and colours are reals, not `f32`, so no rounding is modelled. The source only copies them.
- Colors.SingleColor.AsArray: `as_array` returns references to the four components; the model returns their values, which is all `cube.rs` reads from them.
- The asteroid game, `box_2d.rs`, the input and canvas helpers, and the remaining React components are outside the modelled core.

## Findings

| source | as written | input that shows it | evidently intended | confidence | as-written member | corrected member |
|---|---|---|---|---|---|---|
| backend/src/rotuers/leaderboards.ts:26 (also backend/src/app.ts:104) | `el.user.username in aggregateLeaderbaord` also finds the properties the empty object inherits from Object.prototype, so for such a username no own entry is ever created and the user is missing from the JSON sent | one listing whose user has the username `constructor` | every username with a game gets its own entry (an own-property test such as `Object.prototype.hasOwnProperty.call`) | not executed | Leaderboards.InheritedNameDropped | Leaderboards.FoldEntry |
| backend/src/rotuers/leaderboards.ts:26-39 (also backend/src/app.ts:104-117) | for the username `__proto__` the four updates go to Object.prototype, so every object of the process then inherits `score`, `count`, `duration` and `country`; a later `country` player is dropped and a later `score`, `count` or `duration` player makes the handler throw, in this request and in every later one | a listing by `__proto__` followed by a listing by `country` (or, once polluted, one listing by `score`) | each username gets its own entry and nothing is written outside the leaderboard (an object without a prototype, or a `Map`) | not executed | Leaderboards.PrototypePolluted | Leaderboards.FoldEntry |
