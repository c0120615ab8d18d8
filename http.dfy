/// What an Express handler sends back: a status code and a JSON body.
module Http {

  datatype Response<T> = Response(status: int, body: T)

  const Ok: int := 200
  const Created: int := 201
  const NoContent: int := 204
  const BadRequest: int := 400

  /** `res.status(ok ? success : 400)`: every route answers failure with 400. */
  function Outcome(ok: bool, success: int): (status: int)
    requires success != BadRequest
    ensures status == success <==> ok
    ensures status == BadRequest <==> !ok
  {
    if ok then success else BadRequest
  }
}
