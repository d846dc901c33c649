/** The two Express middlewares in front of the protected routes:
    `authMiddleware`, which reads a bearer token from the Authorization
    header and verifies it, and `authorize(roles)`, the role gate. */
module Middleware {
  import opened Common
  import opened Store
  import opened Http

  /** `req.headers.authorization?.split(' ')[1]`, where a missing or empty
      second field counts as no token. */
  function BearerToken(authorization: Option<string>): (token: Option<string>)
    ensures token.Some? ==> token.value != "" && ' ' !in token.value
    ensures authorization.None? ==> token.None?
    ensures authorization.Some? ==>
              var fields := Split(authorization.value, ' ');
              (token.Some? <==> |fields| >= 2 && fields[1] != "")
    ensures token.Some? ==> token.value == Split(authorization.value, ' ')[1]
  {
    match authorization
    case None => None
    case Some(header) =>
      var fields := Split(header, ' ');
      if |fields| >= 2 && fields[1] != "" then Some(fields[1]) else None
  }

  /** `Bearer <token>` yields the token back, whatever the scheme word is. */
  lemma BearerRoundTrip(scheme: string, token: string)
    requires ' ' !in scheme && ' ' !in token && token != ""
    ensures BearerToken(Some(scheme + " " + token)) == Some(token)
  {
    SplitJoin([scheme, token], ' ');
    assert Join([scheme, token], ' ') == scheme + " " + token by {
      assert [scheme, token][1..] == [token];
    }
  }

  /** A header without a space has no second field. */
  lemma NoSpaceNoToken(header: string)
    requires ' ' !in header
    ensures BearerToken(Some(header)) == None
  {
    SplitJoin([header], ' ');
  }

  /** Two spaces after the scheme make the second field empty, so the token
      is not found even though the header carries one. */
  lemma DoubleSpaceNoToken(scheme: string, token: string)
    requires ' ' !in scheme && ' ' !in token
    ensures BearerToken(Some(scheme + "  " + token)) == None
  {
    SplitJoin([scheme, "", token], ' ');
    assert Join([scheme, "", token], ' ') == scheme + "  " + token by {
      assert [scheme, "", token][1..] == ["", token];
      assert ["", token][1..] == [token];
    }
  }

  /** Outcome of a middleware: pass to the next handler, or answer now. */
  datatype Gate<T> = Next(value: T) | Stop(response: Response)

  /** `authMiddleware`: on success the verified payload becomes the caller. */
  function Authenticate(env: Env, authorization: Option<string>): (g: Gate<Payload>)
    ensures BearerToken(authorization).None? ==>
              g == Stop(Response(Unauthorized, Error("No token provided")))
    ensures BearerToken(authorization).Some? && env.verify(BearerToken(authorization).value).None? ==>
              g == Stop(Response(Unauthorized, Error("Invalid token")))
    ensures g.Next? <==> BearerToken(authorization).Some? && env.verify(BearerToken(authorization).value).Some?
    ensures g.Next? ==> Some(g.value) == env.verify(BearerToken(authorization).value)
  {
    match BearerToken(authorization)
    case None => Stop(Response(Unauthorized, Error("No token provided")))
    case Some(token) =>
      match env.verify(token)
      case None => Stop(Response(Unauthorized, Error("Invalid token")))
      case Some(payload) => Next(payload)
  }

  /** `authorize(roles)`: the caller passes, unchanged, exactly when its role
      is listed. */
  function Authorize(roles: seq<Role>, caller: Payload): (g: Gate<Payload>)
    ensures g.Next? <==> caller.role in roles
    ensures g.Next? ==> g.value == caller
    ensures g.Stop? ==> g.response == Response(Forbidden, Error("Access denied"))
  {
    if caller.role in roles then Next(caller)
    else Stop(Response(Forbidden, Error("Access denied")))
  }

  /** The gate every hierarchy route uses admits trainers only. */
  lemma TrainerGate(caller: Payload)
    ensures Authorize([Trainer], caller).Next? <==> caller.role == Trainer
  {
  }
}
