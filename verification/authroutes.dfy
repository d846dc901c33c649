/** The `/auth` routes: register an account and log in. They sit in front
    of the authentication middleware, so they take no caller. */
module AuthRoutes {
  import opened Common
  import opened Store
  import opened Http
  import Models

  /** The role names `isIn(['trainer', 'user'])` admits. */
  function RoleName(role: Role): (name: string)
    ensures name == "trainer" || name == "user"
  {
    match role
    case Trainer => "trainer"
    case User => "user"
  }

  function ParseRole(name: Option<string>): (role: Option<Role>)
    ensures role.Some? <==> name == Some("trainer") || name == Some("user")
    ensures role.Some? ==> name == Some(RoleName(role.value))
  {
    if name == Some("trainer") then Some(Trainer)
    else if name == Some("user") then Some(User)
    else None
  }

  lemma RoleNameRoundTrip(role: Role)
    ensures ParseRole(Some(RoleName(role))) == Some(role)
  {
  }

  /** `User.findOne({ email })` looking at ids `from`, `from + 1`, ... below
      `n`: the first account with that email in id order. */
  function FindFrom(users: map<Id, Account>, email: string, from: Id, n: Id): (found: Option<Id>)
    ensures found.Some? ==>
              && from <= found.value < n && found.value in users && users[found.value].email == email
              && forall v :: from <= v < found.value && v in users ==> users[v].email != email
    ensures found.None? ==> forall v :: from <= v < n && v in users ==> users[v].email != email
    decreases n - from
  {
    if from >= n then None
    else if from in users && users[from].email == email then Some(from)
    else FindFrom(users, email, from + 1, n)
  }

  /** `User.findOne({ email })`: the first account, in id order, holding
      the email. */
  function FindByEmail(s: Store, email: string): (found: Option<Id>)
    ensures found.Some? ==>
              && found.value in s.users && s.users[found.value].email == email
              && forall v :: v < found.value && v in s.users ==> s.users[v].email != email
    ensures found.None? ==> forall v :: v < s.nextId && v in s.users ==> s.users[v].email != email
  {
    FindFrom(s.users, email, 0, s.nextId)
  }

  /** In a valid store the lookup finds exactly the account holding the
      email, if there is one. */
  lemma FindByEmailExact(s: Store, email: string)
    requires Valid(s)
    ensures forall u :: FindByEmail(s, email) == Some(u) <==> u in s.users && s.users[u].email == email
    ensures FindByEmail(s, email).None? <==> forall u :: u in s.users ==> s.users[u].email != email
  {
  }

  /** Messages of the failing register validators, in declaration order. */
  function RegisterErrors(env: Env, email: Option<string>, password: Option<string>, role: Option<string>): seq<string>
  {
    (if email.Some? && env.isEmail(email.value) then [] else ["Please include a valid email"])
    + (if password.Some? && |password.value| >= 6 then [] else ["Password must be at least 6 characters"])
    + (if ParseRole(role).Some? then [] else ["Role must be either \"trainer\" or \"user\""])
  }

  predicate RegisterFieldsOk(env: Env, email: Option<string>, password: Option<string>, role: Option<string>) {
    email.Some? && env.isEmail(email.value) && password.Some? && |password.value| >= 6 && ParseRole(role).Some?
  }

  /** POST /auth/register. The stored password is the hash of the given
      one; nothing about the new account is returned. */
  function Register(env: Env, s: Store, email: Option<string>, password: Option<string>, role: Option<string>): (r: Step)
    ensures !RegisterFieldsOk(env, email, password, role) ==>
              r == Reject(s, RegisterErrors(env, email, password, role)) && RegisterErrors(env, email, password, role) != []
    ensures RegisterFieldsOk(env, email, password, role) && FindByEmail(s, email.value).Some? ==>
              r == Halt(s, BadRequest, "Email already in use")
    ensures r.response.status == Created <==>
              RegisterFieldsOk(env, email, password, role) && FindByEmail(s, email.value).None?
    ensures r.response.status != Created ==> r.store == s && r.response.status == BadRequest
    ensures r.response.status == Created ==>
              && r.response.body == Message("User registered successfully")
              && r.store.users == s.users[s.nextId := Account(email.value, env.hash(password.value), ParseRole(role).value)]
              && r.store.programs == s.programs && r.store.days == s.days
              && r.store.exercises == s.exercises && r.store.sets == s.sets
              && r.store.nextId == s.nextId + 1
  {
    var errors := RegisterErrors(env, email, password, role);
    if errors != [] then Reject(s, errors)
    else if FindByEmail(s, email.value).Some? then Halt(s, BadRequest, "Email already in use")
    else
      var account := Account(email.value, env.hash(password.value), ParseRole(role).value);
      Step(Response(Created, Message("User registered successfully")), Models.InsertUser(s, account))
  }

  /** Messages of the failing login validators. `exists()` only asks for
      the password to be present. */
  function LoginErrors(env: Env, email: Option<string>, password: Option<string>): seq<string>
  {
    (if email.Some? && env.isEmail(email.value) then [] else ["Please include a valid email"])
    + (if password.Some? then [] else ["Password is required"])
  }

  /** POST /auth/login. An unknown email and a wrong password get the same
      answer; a login never writes. */
  function Login(env: Env, s: Store, email: Option<string>, password: Option<string>): (r: Step)
    ensures r.store == s
    ensures LoginErrors(env, email, password) != [] ==> r.response == Response(BadRequest, Invalid(LoginErrors(env, email, password)))
    ensures r.response.status == Ok <==>
              && LoginErrors(env, email, password) == []
              && FindByEmail(s, email.value).Some?
              && env.compare(password.value, s.users[FindByEmail(s, email.value).value].password)
    ensures r.response.status != Ok ==> r.response.status == BadRequest
    ensures r.response.status == Ok ==>
              var u := FindByEmail(s, email.value).value;
              r.response.body == Token(env.sign(Payload(u, s.users[u].role)), s.users[u].role)
    ensures LoginErrors(env, email, password) == [] && r.response.status != Ok ==>
              r.response.body == Error("Invalid email or password")
  {
    var errors := LoginErrors(env, email, password);
    if errors != [] then Reject(s, errors)
    else
      match FindByEmail(s, email.value)
      case None => Halt(s, BadRequest, "Invalid email or password")
      case Some(u) =>
        var account := s.users[u];
        if !env.compare(password.value, account.password) then Halt(s, BadRequest, "Invalid email or password")
        else Step(Response(Ok, Token(env.sign(Payload(u, account.role)), account.role)), s)
  }

  // Properties of the two routes.

  lemma RegisterValid(env: Env, s: Store, email: Option<string>, password: Option<string>, role: Option<string>)
    requires Valid(s)
    ensures Valid(Register(env, s, email, password, role).store)
  {
    if Register(env, s, email, password, role).response.status == Created {
      FindByEmailExact(s, email.value);
      Models.InsertUserValid(s, Account(email.value, env.hash(password.value), ParseRole(role).value));
    }
  }

  /** An account registered with a password the hash comparison accepts
      can log in at once, and the token names the new account and its
      role. */
  lemma RegisterThenLogin(env: Env, s: Store, email: Option<string>, password: Option<string>, role: Option<string>)
    requires Valid(s)
    requires Register(env, s, email, password, role).response.status == Created
    requires env.compare(password.value, env.hash(password.value))
    ensures var s1 := Register(env, s, email, password, role).store;
            var r := ParseRole(role).value;
            Login(env, s1, email, password) == Step(Response(Ok, Token(env.sign(Payload(s.nextId, r)), r)), s1)
  {
    var s1 := Register(env, s, email, password, role).store;
    RegisterValid(env, s, email, password, role);
    FindByEmailExact(s1, email.value);
    assert s1.users[s.nextId].email == email.value;
  }

  /** An email registers once: the second attempt is refused and writes
      nothing. */
  lemma RegisterTwiceRefused(env: Env, s: Store, email: Option<string>, password: Option<string>, role: Option<string>,
                             password2: Option<string>, role2: Option<string>)
    requires Register(env, s, email, password, role).response.status == Created
    requires RegisterFieldsOk(env, email, password2, role2)
    ensures var s1 := Register(env, s, email, password, role).store;
            Register(env, s1, email, password2, role2) == Halt(s1, BadRequest, "Email already in use")
  {
    var s1 := Register(env, s, email, password, role).store;
    assert s.nextId in s1.users && s1.users[s.nextId].email == email.value;
  }

  /** A login with a password the comparison rejects is refused exactly
      like a login with an unknown email. */
  lemma WrongPasswordLikeUnknownEmail(env: Env, s: Store, email: string, password: string, unknown: string)
    requires env.isEmail(email) && env.isEmail(unknown)
    requires FindByEmail(s, email).Some?
    requires !env.compare(password, s.users[FindByEmail(s, email).value].password)
    requires FindByEmail(s, unknown).None?
    ensures Login(env, s, Some(email), Some(password)) == Login(env, s, Some(unknown), Some(password))
  {
  }

  // The router: `app.use('/auth', authRoutes)`.

  /** The requests the `/auth` router answers. */
  datatype Request =
    | NewAccount(email: Option<string>, password: Option<string>, role: Option<string>)  // POST /auth/register
    | Credentials(email: Option<string>, password: Option<string>)                      // POST /auth/login

  function Dispatch(env: Env, s: Store, req: Request): Step
  {
    match req
    case NewAccount(email, password, role) => Register(env, s, email, password, role)
    case Credentials(email, password) => Login(env, s, email, password)
  }

  lemma DispatchValid(env: Env, s: Store, req: Request)
    requires Valid(s)
    ensures Valid(Dispatch(env, s, req).store)
  {
    if req.NewAccount? {
      RegisterValid(env, s, req.email, req.password, req.role);
    }
  }

  /** Neither route touches the program hierarchy. */
  lemma DispatchLeavesHierarchy(env: Env, s: Store, req: Request)
    ensures var s' := Dispatch(env, s, req).store;
            s'.programs == s.programs && s'.days == s.days && s'.exercises == s.exercises && s'.sets == s.sets
  {
  }
}
