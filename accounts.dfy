/**
 * The account and session handlers of handler.go as pure transitions over
 * the two stores they touch: the `users` table (user name to stored hash)
 * and the values of the caller's session (key to a possibly nil string).
 *
 * The HTTP context, the SQL driver and the session library are gone: a
 * request is its two already-bound strings, the failures those libraries can
 * report are a set of `Fault`s given with the request, and bcrypt is an
 * abstract `Hasher`. Each function returns the status code the handler
 * writes and the new contents of the stores; the imperative handlers in
 * module Server are proved to behave exactly so.
 */
module Accounts {
  import opened Wrappers
  import opened Hashing

  const StatusOK: int := 200
  const StatusCreated: int := 201
  const StatusBadRequest: int := 400
  const StatusUnauthorized: int := 401
  const StatusConflict: int := 409
  const StatusInternalServerError: int := 500

  /** The session key that login writes and the gate reads. */
  const UserNameKey: string := "userName"
  /** The session key that logout writes: the same word in lower case. */
  const LogoutKey: string := "username"
  /** The key under which the gate hands the user name to the protected handler (c.Set / c.Get). */
  const ContextUserKey: string := "userName"

  /** The users table: Username to HashedPass, one row per user name. */
  type Users = map<string, string>
  /** sess.Values of the caller's session; None is Go's nil. */
  type SessionValues = map<string, Option<string>>
  /** The values a request carries from middleware to handler. */
  type RequestContext = map<string, string>

  /** The bound request body of /signup and /login. */
  datatype Request = Request(username: string, password: string)

  /** A failure reported by a collaborator at one point of a handler. */
  datatype Fault =
    | CountQueryFails   // the COUNT(*) query of signup
    | InsertFails       // the INSERT of signup
    | SelectFails       // the user lookup of login, with an error other than "no rows"
    | SessionGetFails   // session.Get
    | SessionSaveFails  // sess.Save in login, whose error the handler ignores

  /** The process-wide salt and the password hasher. */
  datatype Config = Config(salt: string, hasher: Hasher)

  predicate MissingField(req: Request)
  {
    req.password == "" || req.username == ""
  }

  /** What SELECT COUNT(*) FROM users WHERE Username=? returns on this table. */
  function UserCount(users: Users, username: string): (n: nat)
    ensures n > 0 <==> username in users
    ensures n <= 1
  {
    if username in users then 1 else 0
  }

  /** The hash signup would store for `req`, drawing `seed` as bcrypt's randomness. */
  function NewHash(cfg: Config, req: Request, seed: nat): (r: Option<string>)
    ensures Sound(cfg.hasher) && r.Some? ==> cfg.hasher.compare(r.value, Salted(req.password, cfg.salt)) == Match
  {
    cfg.hasher.generate(Salted(req.password, cfg.salt), seed)
  }

  /** What comparing the stored hash of `username` with `password` reports. */
  function Check(cfg: Config, users: Users, username: string, password: string): (v: Verdict)
    requires username in users
    ensures Sound(cfg.hasher) ==>
      forall seed :: cfg.hasher.generate(Salted(password, cfg.salt), seed) == Some(users[username]) ==> v == Match
    ensures Binding(cfg.hasher) ==>
      forall seed, other :: (other != password && cfg.hasher.generate(Salted(other, cfg.salt), seed) == Some(users[username]))
        ==> v == Mismatch
  {
    cfg.hasher.compare(users[username], Salted(password, cfg.salt))
  }

  datatype SignUpOutcome = SignUpOutcome(status: int, users: Users)

  /** signUpHandler. */
  function SignUp(cfg: Config, users: Users, req: Request, faults: set<Fault>, seed: nat): (r: SignUpOutcome)
    ensures r.status in {StatusCreated, StatusBadRequest, StatusConflict, StatusInternalServerError}
    ensures r.status == StatusBadRequest <==> MissingField(req)
    ensures r.status == StatusConflict <==>
      !MissingField(req) && CountQueryFails !in faults && req.username in users
    ensures r.status == StatusCreated <==>
      && !MissingField(req) && req.username !in users && NewHash(cfg, req, seed).Some?
      && CountQueryFails !in faults && InsertFails !in faults
    ensures r.status == StatusCreated ==> r.users == users[req.username := NewHash(cfg, req, seed).value]
    ensures r.status != StatusCreated ==> r.users == users
  {
    if req.password == "" || req.username == "" then
      SignUpOutcome(StatusBadRequest, users)
    else if CountQueryFails in faults then
      SignUpOutcome(StatusInternalServerError, users)
    else if UserCount(users, req.username) > 0 then
      SignUpOutcome(StatusConflict, users)
    else
      match NewHash(cfg, req, seed)
      case None => SignUpOutcome(StatusInternalServerError, users)
      case Some(hashed) =>
        if InsertFails in faults then SignUpOutcome(StatusInternalServerError, users)
        else SignUpOutcome(StatusCreated, users[req.username := hashed])
  }

  datatype LogInOutcome = LogInOutcome(status: int, session: SessionValues)

  /** loginHandler. It is given the users table but returns none: it never changes it. */
  function LogIn(cfg: Config, users: Users, session: SessionValues, req: Request, faults: set<Fault>): (r: LogInOutcome)
    ensures r.status in {StatusOK, StatusBadRequest, StatusUnauthorized, StatusInternalServerError}
    ensures r.status == StatusBadRequest <==> MissingField(req)
    ensures r.status == StatusUnauthorized <==>
      && !MissingField(req) && SelectFails !in faults
      && (req.username !in users || Check(cfg, users, req.username, req.password) == Mismatch)
    ensures r.status == StatusOK <==>
      && !MissingField(req) && SelectFails !in faults && SessionGetFails !in faults
      && req.username in users && Check(cfg, users, req.username, req.password) == Match
    ensures r.status != StatusOK ==> r.session == session
    ensures r.status == StatusOK ==>
      r.session == if SessionSaveFails in faults then session else session[UserNameKey := Some(req.username)]
  {
    if req.password == "" || req.username == "" then
      LogInOutcome(StatusBadRequest, session)
    else if SelectFails in faults then
      LogInOutcome(StatusInternalServerError, session)
    else if req.username !in users then
      LogInOutcome(StatusUnauthorized, session)
    else
      match Check(cfg, users, req.username, req.password)
      case Mismatch => LogInOutcome(StatusUnauthorized, session)
      case Error => LogInOutcome(StatusInternalServerError, session)
      case Match =>
        if SessionGetFails in faults then LogInOutcome(StatusInternalServerError, session)
        else if SessionSaveFails in faults then LogInOutcome(StatusOK, session)
        else LogInOutcome(StatusOK, session[UserNameKey := Some(req.username)])
  }

  /**
   * What logoutHandler leaves behind: `request` is the request's copy of the
   * session values after its write (None when session.Get failed), `session`
   * what the session store keeps.
   */
  datatype LogOutOutcome = LogOutOutcome(status: int, request: Option<SessionValues>, session: SessionValues)

  /** logoutHandler as written: it clears the lower-case key, and never saves the session. */
  function LogOut(session: SessionValues, faults: set<Fault>): (r: LogOutOutcome)
    ensures r.status == StatusOK <==> SessionGetFails !in faults
    ensures r.status != StatusOK ==> r.status == StatusInternalServerError && r.request == None
    ensures r.status == StatusOK ==> r.request == Some(session[LogoutKey := None])
    ensures r.session == session
  {
    if SessionGetFails in faults then
      LogOutOutcome(StatusInternalServerError, None, session)
    else
      LogOutOutcome(StatusOK, Some(session[LogoutKey := None]), session)
  }

  /** What userAuthMiddleware decides: stop with a status, or go on with a user name. */
  datatype GateOutcome = Reject(status: int) | Proceed(userName: string)

  /** userAuthMiddleware's decision. */
  function Authenticate(session: SessionValues, faults: set<Fault>): (g: GateOutcome)
    ensures g.Proceed? <==>
      SessionGetFails !in faults && UserNameKey in session && session[UserNameKey].Some?
    ensures g.Proceed? ==> session[UserNameKey] == Some(g.userName)
    ensures g.Reject? ==>
      g.status == if SessionGetFails in faults then StatusInternalServerError else StatusUnauthorized
  {
    if SessionGetFails in faults then Reject(StatusInternalServerError)
    else if UserNameKey !in session || session[UserNameKey].None? then Reject(StatusUnauthorized)
    else Proceed(session[UserNameKey].value)
  }

  /** A response: the status code and, for /whoami, the user name of the JSON body. */
  datatype Response = Response(status: int, me: Option<string>)

  /** getWhoAmIHandler: reports the name the gate put in the request context. */
  function WhoAmI(ctx: RequestContext): (r: Response)
    requires ContextUserKey in ctx
    ensures r.status == StatusOK
    ensures r.me == Some(ctx[ContextUserKey])
  {
    Response(StatusOK, Some(ctx[ContextUserKey]))
  }

  /** The /whoami route: the gate in front of getWhoAmIHandler. */
  function ProtectedWhoAmI(session: SessionValues, ctx: RequestContext, faults: set<Fault>): (r: Response)
    ensures r.status == StatusOK <==> Authenticate(session, faults).Proceed?
    ensures r.status == StatusOK ==> r.me == Some(Authenticate(session, faults).userName)
    ensures r.status != StatusOK ==> r == Response(Authenticate(session, faults).status, None)
  {
    match Authenticate(session, faults)
    case Reject(status) => Response(status, None)
    case Proceed(name) => WhoAmI(ctx[ContextUserKey := name])
  }

  // ---------------------------------------------------------------------
  // Properties relating several handlers
  // ---------------------------------------------------------------------

  /**
   * A successful signup followed by a login with the same pair succeeds,
   * because the same salted string is hashed and then verified; the session
   * then names the user, and /whoami reports exactly that name.
   */
  lemma SignUpThenLogIn(cfg: Config, users: Users, session: SessionValues, ctx: RequestContext,
                        req: Request, signUpFaults: set<Fault>, seed: nat)
    requires Sound(cfg.hasher)
    requires SignUp(cfg, users, req, signUpFaults, seed).status == StatusCreated
    ensures var after := LogIn(cfg, SignUp(cfg, users, req, signUpFaults, seed).users, session, req, {});
      && after == LogInOutcome(StatusOK, session[UserNameKey := Some(req.username)])
      && ProtectedWhoAmI(after.session, ctx, {}) == Response(StatusOK, Some(req.username))
  {
  }

  /**
   * An unknown user name and a wrong password for a known one are answered
   * alike: 401, and the session untouched.
   */
  lemma FailedLogInsLookAlike(cfg: Config, users: Users, session: SessionValues, req: Request,
                              signUpFaults: set<Fault>, seed: nat, other: string, stranger: string)
    requires Binding(cfg.hasher)
    requires SignUp(cfg, users, req, signUpFaults, seed).status == StatusCreated
    requires other != "" && other != req.password
    requires stranger != "" && stranger !in SignUp(cfg, users, req, signUpFaults, seed).users
    ensures var table := SignUp(cfg, users, req, signUpFaults, seed).users;
      && LogIn(cfg, table, session, Request(req.username, other), {}) == LogInOutcome(StatusUnauthorized, session)
      && LogIn(cfg, table, session, Request(stranger, other), {}) == LogInOutcome(StatusUnauthorized, session)
  {
    SaltedInjective(other, req.password, cfg.salt);
  }

  /**
   * Logout as written does not revoke access: the stored session is not
   * saved, and even the request's copy keeps the "userName" entry the gate
   * reads, since logout clears "username". A request that passed the gate
   * before logout passes it, with the same name, afterwards.
   */
  lemma LogOutDoesNotRevoke(session: SessionValues, ctx: RequestContext, logOutFaults: set<Fault>, faults: set<Fault>)
    requires Authenticate(session, faults).Proceed?
    ensures ProtectedWhoAmI(LogOut(session, logOutFaults).session, ctx, faults)
            == Response(StatusOK, Some(Authenticate(session, faults).userName))
    ensures LogOut(session, logOutFaults).status == StatusOK ==>
      Authenticate(LogOut(session, logOutFaults).request.value, faults) == Authenticate(session, faults)
  {
  }

  /**
   * The logout evidently intended: clear the key the gate reads and save
   * the session, reporting a failed save instead of ignoring it.
   */
  function RevokingLogOut(session: SessionValues, faults: set<Fault>): (r: LogOutOutcome)
    ensures r.status == StatusOK <==> SessionGetFails !in faults && SessionSaveFails !in faults
    ensures r.status != StatusOK ==> r.status == StatusInternalServerError && r.session == session
    ensures r.status == StatusOK ==> r.session.Keys == session.Keys + {UserNameKey}
    ensures r.status == StatusOK ==> r.session[UserNameKey] == None
    ensures forall key :: key in session && key != UserNameKey ==> r.session[key] == session[key]
  {
    if SessionGetFails in faults then
      LogOutOutcome(StatusInternalServerError, None, session)
    else if SessionSaveFails in faults then
      LogOutOutcome(StatusInternalServerError, Some(session[UserNameKey := None]), session)
    else
      LogOutOutcome(StatusOK, Some(session[UserNameKey := None]), session[UserNameKey := None])
  }

  /** After the corrected logout succeeds, /whoami is refused whatever the session held. */
  lemma RevokingLogOutRevokes(session: SessionValues, ctx: RequestContext, logOutFaults: set<Fault>, faults: set<Fault>)
    requires RevokingLogOut(session, logOutFaults).status == StatusOK
    requires SessionGetFails !in faults
    ensures ProtectedWhoAmI(RevokingLogOut(session, logOutFaults).session, ctx, faults)
            == Response(StatusUnauthorized, None)
  {
  }
}
