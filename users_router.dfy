/// The users router of backend/src/rotuers/users.ts: list with prefix filters,
/// create, delete and update, each a single data-access call whose answer
/// decides the status code.
module UsersRouter {
  import opened Models
  import opened Http
  import opened DataAccess

  /** The `name`, `surname` and `username` query parameters; `None` when absent. */
  datatype UserQuery = UserQuery(name: Option<string>, surname: Option<string>, username: Option<string>)

  /** `req.query.x?.toString() || ''`. */
  function QueryValue(q: Option<string>): (r: string)
    ensures q.None? ==> r == ""
    ensures q.Some? ==> r == q.value
  {
    match q
    case None => ""
    case Some(s) => if s == "" then "" else s
  }

  /** The filter handed to `getUsers`: absent parameters become the empty prefix, which matches every user. */
  function FilterOf(q: UserQuery): (f: User)
    ensures q.name.None? ==> f.name == ""
    ensures q.surname.None? ==> f.surname == ""
    ensures q.username.None? ==> f.username == ""
    ensures q.name.Some? ==> f.name == q.name.value
    ensures q.surname.Some? ==> f.surname == q.surname.value
    ensures q.username.Some? ==> f.username == q.username.value
  {
    User(QueryValue(q.name), QueryValue(q.surname), QueryValue(q.username))
  }

  /** `obj.username || 'Anonymous'`. A missing body field is modelled as the empty string. */
  function OrAnonymous(username: string): (r: string)
    ensures r != ""
    ensures username != "" ==> r == username
    ensures username == "" ==> r == "Anonymous"
  {
    if username != "" then username else "Anonymous"
  }

  /** GET: the users matching the filter built from the query. */
  method Get(store: Store, q: UserQuery) returns (r: Response<seq<User>>)
    modifies store`log
    ensures store.log == old(store.log) + [GetUsers(FilterOf(q))]
    ensures r == Response(Ok, store.usersReply(old(store.log), GetUsers(FilterOf(q))))
  {
    var filterUser := FilterOf(q);
    var users := store.GetUsersCall(filterUser);
    r := Response(Ok, users);
  }

  /** POST: 201 when `createUser` succeeded, 400 otherwise; the body carries the flag. */
  method Post(store: Store, obj: User) returns (r: Response<bool>)
    modifies store`log
    ensures store.log == old(store.log) + [CreateUser(obj)]
    ensures r.body == store.succeeds(old(store.log), CreateUser(obj))
    ensures r.status == Created <==> r.body
    ensures r.status == BadRequest <==> !r.body
  {
    var created := store.Flag(CreateUser(obj));
    r := Response(Outcome(created, Created), created);
  }

  /** DELETE /:username: 204 when `deleteUser` succeeded, 400 otherwise. */
  method Delete(store: Store, username: string) returns (r: Response<bool>)
    modifies store`log
    ensures store.log == old(store.log) + [DeleteUser(username)]
    ensures r.body == store.succeeds(old(store.log), DeleteUser(username))
    ensures r.status == NoContent <==> r.body
    ensures r.status == BadRequest <==> !r.body
  {
    var deleted := store.Flag(DeleteUser(username));
    r := Response(Outcome(deleted, NoContent), deleted);
  }

  /** PUT /:username: the path names the user to replace, the body is the new record, whose empty
      username is first replaced by 'Anonymous'; 204 when `updateUser` succeeded, 400 otherwise. */
  method Put(store: Store, username: string, body: User) returns (r: Response<bool>)
    modifies store`log
    ensures var obj := body.(username := OrAnonymous(body.username));
            store.log == old(store.log) + [UpdateUser(obj, username)]
            && r.body == store.succeeds(old(store.log), UpdateUser(obj, username))
    ensures r.status == NoContent <==> r.body
    ensures r.status == BadRequest <==> !r.body
  {
    var obj := body;
    obj := obj.(username := OrAnonymous(obj.username));
    var updated := store.Flag(UpdateUser(obj, username));
    r := Response(Outcome(updated, NoContent), updated);
  }
}
