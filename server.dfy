/**
 * The handlers of handler.go as the step-by-step code they are: each reads
 * and writes the users table, the caller's session and the request context
 * in the order the Go code does, with an early return at every failed check,
 * and each is proved to end with exactly the status and stores that the
 * matching function of module Accounts gives.
 */
module Server {
  import opened Wrappers
  import opened Hashing
  import opened Accounts

  /** A row of the users table, as a SELECT * returns it. */
  datatype User = User(username: string, hashedPass: string)

  /** What a single-row SELECT reports. */
  datatype Lookup = Found(user: User) | NoRows | QueryError

  /** The SQL database, reduced to its users table. */
  class Database {
    var users: Users

    constructor (users: Users)
      ensures this.users == users
    {
      this.users := users;
    }

    /** SELECT COUNT(*) FROM users WHERE Username=?; None when the query reports an error. */
    method CountUsers(username: string, fails: bool) returns (count: Option<nat>)
      ensures count.None? <==> fails
      ensures count.Some? ==> (count.value > 0 <==> username in users)
    {
      if fails {
        return None;
      }
      return Some(UserCount(users, username));
    }

    /** SELECT * FROM users WHERE username=? */
    method SelectUser(username: string, fails: bool) returns (r: Lookup)
      ensures fails ==> r == QueryError
      ensures !fails ==> (r.NoRows? <==> username !in users) && !r.QueryError?
      ensures r.Found? ==> username in users && r.user == User(username, users[username])
    {
      if fails {
        return QueryError;
      }
      if username !in users {
        return NoRows;
      }
      return Found(User(username, users[username]));
    }

    /** INSERT INTO users (Username, HashedPass) VALUES (?, ?); false when it reports an error. */
    method InsertUser(username: string, hashedPass: string, fails: bool) returns (ok: bool)
      requires username !in users
      modifies this
      ensures ok <==> !fails
      ensures users == if ok then old(users)[username := hashedPass] else old(users)
    {
      if fails {
        return false;
      }
      users := users[username := hashedPass];
      return true;
    }
  }

  /** The caller's session as the session store keeps it. */
  class Session {
    var values: SessionValues

    constructor (values: SessionValues)
      ensures this.values == values
    {
      this.values := values;
    }

    /** session.Get: the request's own copy of the stored values; None when it reports an error. */
    method Get(fails: bool) returns (copy: Option<SessionValues>)
      ensures copy.None? <==> fails
      ensures copy.Some? ==> copy.value == values
    {
      if fails {
        return None;
      }
      return Some(values);
    }

    /** sess.Save: stores the request's copy; on an error the store keeps what it had. */
    method Save(copy: SessionValues, fails: bool) returns (ok: bool)
      modifies this
      ensures ok <==> !fails
      ensures values == if ok then copy else old(values)
    {
      if fails {
        return false;
      }
      values := copy;
      return true;
    }
  }

  /** The per-request values that middleware passes on to the handler (c.Set / c.Get). */
  class Context {
    var values: RequestContext

    constructor ()
      ensures values == map[]
    {
      values := map[];
    }
  }

  /** signUpHandler. */
  method SignUpHandler(db: Database, cfg: Config, req: Request, faults: set<Fault>, seed: nat) returns (status: int)
    modifies db
    ensures status == SignUp(cfg, old(db.users), req, faults, seed).status
    ensures db.users == SignUp(cfg, old(db.users), req, faults, seed).users
  {
    if req.password == "" || req.username == "" {
      return StatusBadRequest;
    }
    var count := db.CountUsers(req.username, CountQueryFails in faults);
    if count.None? {
      return StatusInternalServerError;
    }
    if count.value > 0 {
      return StatusConflict;
    }
    var pw := Salted(req.password, cfg.salt);
    var hashedPass := cfg.hasher.generate(pw, seed);
    if hashedPass.None? {
      return StatusInternalServerError;
    }
    var ok := db.InsertUser(req.username, hashedPass.value, InsertFails in faults);
    if !ok {
      return StatusInternalServerError;
    }
    return StatusCreated;
  }

  /** loginHandler. It may change only the session: the users table is outside its frame. */
  method LogInHandler(db: Database, sess: Session, cfg: Config, req: Request, faults: set<Fault>) returns (status: int)
    modifies sess
    ensures status == LogIn(cfg, db.users, old(sess.values), req, faults).status
    ensures sess.values == LogIn(cfg, db.users, old(sess.values), req, faults).session
  {
    if req.password == "" || req.username == "" {
      return StatusBadRequest;
    }
    var user := db.SelectUser(req.username, SelectFails in faults);
    if user.QueryError? {
      return StatusInternalServerError;
    }
    if user.NoRows? {
      return StatusUnauthorized;
    }
    var verdict := cfg.hasher.compare(user.user.hashedPass, Salted(req.password, cfg.salt));
    if verdict == Mismatch {
      return StatusUnauthorized;
    }
    if verdict == Error {
      return StatusInternalServerError;
    }
    var copy := sess.Get(SessionGetFails in faults);
    if copy.None? {
      return StatusInternalServerError;
    }
    var updated := copy.value[UserNameKey := Some(req.username)];
    var saved := sess.Save(updated, SessionSaveFails in faults);  // the handler ignores a failed save
    return StatusOK;
  }

  /**
   * logoutHandler. It writes only the request's copy of the session, and
   * returns that copy as `request`; the stored session is left as it was.
   */
  method LogOutHandler(sess: Session, faults: set<Fault>) returns (status: int, request: Option<SessionValues>)
    ensures status == LogOut(sess.values, faults).status
    ensures request == LogOut(sess.values, faults).request
  {
    var copy := sess.Get(SessionGetFails in faults);
    if copy.None? {
      return StatusInternalServerError, None;
    }
    var cleared := copy.value[LogoutKey := None];
    return StatusOK, Some(cleared);
  }

  /**
   * userAuthMiddleware, up to the call of the protected handler: it either
   * rejects, leaving the request context alone, or records the session's
   * user name in the context and lets the request through.
   */
  method UserAuthMiddleware(sess: Session, ctx: Context, faults: set<Fault>) returns (g: GateOutcome)
    modifies ctx
    ensures g == Authenticate(sess.values, faults)
    ensures g.Reject? ==> ctx.values == old(ctx.values)
    ensures g.Proceed? ==> ctx.values == old(ctx.values)[ContextUserKey := g.userName]
  {
    var copy := sess.Get(SessionGetFails in faults);
    if copy.None? {
      return Reject(StatusInternalServerError);
    }
    var values := copy.value;
    if UserNameKey !in values || values[UserNameKey].None? {
      return Reject(StatusUnauthorized);
    }
    var name := values[UserNameKey].value;
    ctx.values := ctx.values[ContextUserKey := name];
    return Proceed(name);
  }

  /** getWhoAmIHandler: answers 200 with the user name the context holds. */
  method GetWhoAmIHandler(ctx: Context) returns (r: Response)
    requires ContextUserKey in ctx.values
    ensures r.status == StatusOK
    ensures r.me == Some(ctx.values[ContextUserKey])
  {
    var name := ctx.values[ContextUserKey];
    return Response(StatusOK, Some(name));
  }

  /** The /whoami route: the middleware, and the handler only when the middleware lets the request through. */
  method WhoAmIRoute(sess: Session, ctx: Context, faults: set<Fault>) returns (r: Response)
    modifies ctx
    ensures r == ProtectedWhoAmI(sess.values, old(ctx.values), faults)
  {
    var g := UserAuthMiddleware(sess, ctx, faults);
    if g.Reject? {
      return Response(g.status, None);
    }
    r := GetWhoAmIHandler(ctx);
  }

  /**
   * The walk-through of module Lifecycle, run through the handlers on fresh
   * stores: sign up alice, log in, ask who she is, log out, ask again. The
   * second /whoami still answers 200 with "alice", because logout leaves the
   * stored session as it was.
   */
  method WalkThrough(cfg: Config, seed: nat)
      returns (signedUp: int, loggedIn: int, before: Response, loggedOut: int, after: Response)
    requires Sound(cfg.hasher)
    requires cfg.hasher.generate(Salted("s3cret", cfg.salt), seed).Some?
    ensures signedUp == StatusCreated && loggedIn == StatusOK
    ensures before == Response(StatusOK, Some("alice"))
    ensures loggedOut == StatusOK
    ensures after == Response(StatusOK, Some("alice"))
  {
    var db := new Database(map[]);
    var sess := new Session(map[]);
    var alice := Request("alice", "s3cret");
    signedUp := SignUpHandler(db, cfg, alice, {}, seed);
    SignUpThenLogIn(cfg, map[], map[], map[], alice, {}, seed);
    loggedIn := LogInHandler(db, sess, cfg, alice, {});
    var ctx := new Context();
    before := WhoAmIRoute(sess, ctx, {});
    var request;
    loggedOut, request := LogOutHandler(sess, {});
    ctx := new Context();
    after := WhoAmIRoute(sess, ctx, {});
  }
}
