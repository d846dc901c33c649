/** The Express application: the six routers mounted under their paths,
    all but `/auth` behind the authentication middleware. The properties
    here hold across every route. */
module Server {
  import opened Common
  import opened Store
  import opened Http
  import opened Middleware
  import AuthRoutes
  import Programs
  import TrainingDays
  import Exercises
  import Sets
  import Users

  /** A request, by the router it is mounted under. */
  datatype Request =
    | AtAuth(auth: AuthRoutes.Request)                  // /auth
    | AtPrograms(programs: Programs.Request)            // /programs
    | AtTrainingDays(trainingDays: TrainingDays.Request) // /trainingDays
    | AtExercises(exercises: Exercises.Request)         // /exercises
    | AtSets(sets: Sets.Request)                        // /sets
    | AtUsers                                           // /users/programs

  /** A request that got past the authentication middleware. */
  function Route(s: Store, caller: Payload, req: Request): Step
    requires !req.AtAuth?
  {
    match req
    case AtPrograms(r) => Programs.Dispatch(s, caller, r)
    case AtTrainingDays(r) => TrainingDays.Dispatch(s, caller, r)
    case AtExercises(r) => Exercises.Dispatch(s, caller, r)
    case AtSets(r) => Sets.Dispatch(s, caller, r)
    case AtUsers => Users.GetPrograms(s, caller)
  }

  /** The whole application: one request against the store. */
  function Handle(env: Env, s: Store, authorization: Option<string>, req: Request): (r: Step)
    ensures req.AtAuth? ==> r == AuthRoutes.Dispatch(env, s, req.auth)
    ensures !req.AtAuth? && Authenticate(env, authorization).Stop? ==>
              r == Step(Authenticate(env, authorization).response, s)
    ensures !req.AtAuth? && Authenticate(env, authorization).Next? ==>
              r == Route(s, Authenticate(env, authorization).value, req)
  {
    if req.AtAuth? then AuthRoutes.Dispatch(env, s, req.auth)
    else
      match Authenticate(env, authorization)
      case Stop(refused) => Step(refused, s)
      case Next(caller) => Route(s, caller, req)
  }

  // Properties over every route.

  lemma RouteValid(s: Store, caller: Payload, req: Request)
    requires Valid(s) && !req.AtAuth?
    ensures Valid(Route(s, caller, req).store)
  {
    match req
    case AtPrograms(r) => Programs.DispatchValid(s, caller, r);
    case AtTrainingDays(r) => TrainingDays.DispatchValid(s, caller, r);
    case AtExercises(r) => Exercises.DispatchValid(s, caller, r);
    case AtSets(r) => Sets.DispatchValid(s, caller, r);
    case AtUsers =>
  }

  /** Every request keeps the store invariant. */
  lemma HandleValid(env: Env, s: Store, authorization: Option<string>, req: Request)
    requires Valid(s)
    ensures Valid(Handle(env, s, authorization, req).store)
  {
    if req.AtAuth? {
      AuthRoutes.DispatchValid(env, s, req.auth);
    } else if Authenticate(env, authorization).Next? {
      RouteValid(s, Authenticate(env, authorization).value, req);
    }
  }

  /** Without a usable bearer token no protected route runs and nothing is
      written. */
  lemma NoTokenNoEffect(env: Env, s: Store, authorization: Option<string>, req: Request)
    requires !req.AtAuth? && BearerToken(authorization).None?
    ensures Handle(env, s, authorization, req) == Step(Response(Unauthorized, Error("No token provided")), s)
  {
  }

  /** A caller with the user role is refused by every trainer route and can
      only read its assigned programs; it never writes. */
  lemma UserRoleCannotWrite(s: Store, caller: Payload, req: Request)
    requires !req.AtAuth? && caller.role == User
    ensures Route(s, caller, req).store == s
    ensures !req.AtUsers? ==> Route(s, caller, req) == Step(Response(Forbidden, Error("Access denied")), s)
  {
    match req
    case AtPrograms(r) => Programs.DispatchRefusesUsers(s, caller, r);
    case AtTrainingDays(r) => TrainingDays.DispatchRefusesUsers(s, caller, r);
    case AtExercises(r) => Exercises.DispatchRefusesUsers(s, caller, r);
    case AtSets(r) => Sets.DispatchRefusesUsers(s, caller, r);
    case AtUsers =>
  }

  lemma RouteIsolation(s: Store, caller: Payload, req: Request, trainer: Id)
    requires IdsFresh(s) && !req.AtAuth? && trainer != caller.id
    ensures TreeUnchanged(s, Route(s, caller, req).store, trainer)
  {
    match req
    case AtPrograms(r) => Programs.DispatchIsolation(s, caller, r, trainer);
    case AtTrainingDays(r) => TrainingDays.DispatchIsolation(s, caller, r, trainer);
    case AtExercises(r) => Exercises.DispatchIsolation(s, caller, r, trainer);
    case AtSets(r) => Sets.DispatchIsolation(s, caller, r, trainer);
    case AtUsers =>
  }

  /** Ownership isolation: a request leaves the tree of every trainer other
      than the authenticated caller as it was. */
  lemma HandleIsolation(env: Env, s: Store, authorization: Option<string>, req: Request, trainer: Id)
    requires IdsFresh(s)
    requires !req.AtAuth? && Authenticate(env, authorization).Next? ==>
               trainer != Authenticate(env, authorization).value.id
    ensures TreeUnchanged(s, Handle(env, s, authorization, req).store, trainer)
  {
    if req.AtAuth? {
      AuthRoutes.DispatchLeavesHierarchy(env, s, req.auth);
    } else if Authenticate(env, authorization).Next? {
      RouteIsolation(s, Authenticate(env, authorization).value, req, trainer);
    }
  }

  /** The token a login hands out opens every protected route for the
      account that logged in, sent as `Bearer <token>`, provided the
      verifier accepts what the signer produced and the token has no
      space in it. */
  lemma LoginTokenAuthenticates(env: Env, s: Store, email: Option<string>, password: Option<string>, req: Request)
    requires AuthRoutes.Login(env, s, email, password).response.status == Ok
    requires !req.AtAuth?
    ensures var body := AuthRoutes.Login(env, s, email, password).response.body;
            var u := AuthRoutes.FindByEmail(s, email.value).value;
            var caller := Payload(u, s.users[u].role);
            env.verify(body.token) == Some(caller) && ' ' !in body.token && body.token != "" ==>
              Handle(env, s, Some("Bearer " + body.token), req) == Route(s, caller, req)
  {
    var token := AuthRoutes.Login(env, s, email, password).response.body.token;
    var u := AuthRoutes.FindByEmail(s, email.value).value;
    var caller := Payload(u, s.users[u].role);
    if ' ' !in token && token != "" && env.verify(token) == Some(caller) {
      BearerRoundTrip("Bearer", token);
      AuthenticatedRoute(env, s, Some("Bearer " + token), req, caller);
    }
  }

  /** A request the middleware lets through runs as the verified caller. */
  lemma AuthenticatedRoute(env: Env, s: Store, authorization: Option<string>, req: Request, caller: Payload)
    requires !req.AtAuth? && BearerToken(authorization).Some?
    requires env.verify(BearerToken(authorization).value) == Some(caller)
    ensures Handle(env, s, authorization, req) == Route(s, caller, req)
  {
  }
}
