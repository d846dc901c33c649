/** What a route hands back: an HTTP status with a JSON body, together with
    the store as the route leaves it. */
module Http {
  import opened Store

  const Ok := 200
  const Created := 201
  const BadRequest := 400
  const Unauthorized := 401
  const Forbidden := 403
  const NotFound := 404
  const ServerError := 500

  datatype Body =
    | Invalid(errors: seq<string>)          // { errors: [...] }: failed validators, in check order
    | Error(error: string)                  // { error }
    | Message(message: string)              // { message }
    | Saved(message: string, id: Id)        // { message, <document> }: the document is store'[id]
    | Token(token: string, role: Role)      // { token, role }
    | Programs(programs: map<Id, Program>)  // { programs }

  datatype Response = Response(status: nat, body: Body)

  datatype Step = Step(response: Response, store: Store)

  /** An early return: the store is left as it was. */
  function Halt(s: Store, status: nat, error: string): (r: Step)
    ensures r.store == s && r.response.status == status
  {
    Step(Response(status, Error(error)), s)
  }

  /** A 400 carrying the failed validators' messages. */
  function Reject(s: Store, errors: seq<string>): (r: Step)
    ensures r.store == s && r.response.status == BadRequest
  {
    Step(Response(BadRequest, Invalid(errors)), s)
  }

  /** The catch block: a TypeError thrown while walking a broken chain. */
  function Crash(s: Store): (r: Step)
    ensures r.store == s && r.response.status == ServerError
  {
    Halt(s, ServerError, "Server error")
  }
}
