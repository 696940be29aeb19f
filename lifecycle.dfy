/**
 * Sequences of requests against one users table and one client's session:
 * what holds after any run of the four routes, and the sign-up / login /
 * logout walk-through the service is meant to support.
 */
module Lifecycle {
  import opened Wrappers
  import opened Hashing
  import opened Accounts

  /** The users table and the caller's stored session values. */
  datatype State = State(users: Users, session: SessionValues)

  /** One request, with whatever its collaborators report. */
  datatype Event =
    | SignUpEvent(req: Request, faults: set<Fault>, seed: nat)
    | LogInEvent(req: Request, faults: set<Fault>)
    | LogOutEvent(faults: set<Fault>)
    | WhoAmIEvent(ctx: RequestContext, faults: set<Fault>)  // changes no store, whatever context and faults it carries

  /** The stores after one request. */
  function Apply(cfg: Config, s: State, e: Event): State
  {
    match e
    case SignUpEvent(req, faults, seed) => State(SignUp(cfg, s.users, req, faults, seed).users, s.session)
    case LogInEvent(req, faults) => State(s.users, LogIn(cfg, s.users, s.session, req, faults).session)
    case LogOutEvent(faults) => State(s.users, LogOut(s.session, faults).session)
    case WhoAmIEvent(_, _) => s
  }

  /** The stores after the requests of `events`, in order. */
  function Run(cfg: Config, s: State, events: seq<Event>): State
    decreases |events|
  {
    if events == [] then s else Run(cfg, Apply(cfg, s, events[0]), events[1..])
  }

  /** `later` keeps every row of `earlier` exactly as it was. */
  ghost predicate KeepsRows(earlier: Users, later: Users)
  {
    forall name :: name in earlier ==> name in later && later[name] == earlier[name]
  }

  /**
   * The invariant of the stores: no row has an empty user name, and a
   * session that names a user names one that has a row.
   */
  ghost predicate Consistent(s: State)
  {
    && (forall name :: name in s.users ==> name != "")
    && (UserNameKey in s.session && s.session[UserNameKey].Some? ==> s.session[UserNameKey].value in s.users)
  }

  /** A stored hash never changes and a row is never removed, whatever requests arrive. */
  lemma {:induction false} CredentialsImmutable(cfg: Config, s: State, events: seq<Event>)
    ensures KeepsRows(s.users, Run(cfg, s, events).users)
    decreases |events|
  {
    if events != [] {
      var next := Apply(cfg, s, events[0]);
      assert KeepsRows(s.users, next.users);
      CredentialsImmutable(cfg, next, events[1..]);
    }
  }

  /** Every request keeps the stores consistent. */
  lemma ApplyConsistent(cfg: Config, s: State, e: Event)
    requires Consistent(s)
    ensures Consistent(Apply(cfg, s, e))
  {
  }

  lemma {:induction false} RunConsistent(cfg: Config, s: State, events: seq<Event>)
    requires Consistent(s)
    ensures Consistent(Run(cfg, s, events))
    decreases |events|
  {
    if events != [] {
      ApplyConsistent(cfg, s, events[0]);
      RunConsistent(cfg, Apply(cfg, s, events[0]), events[1..]);
    }
  }

  /**
   * Starting from empty stores, after any run the gate admits only names
   * that are registered, and never the empty name.
   */
  lemma GateAdmitsOnlyRegistered(cfg: Config, events: seq<Event>, ctx: RequestContext, faults: set<Fault>)
    ensures var end := Run(cfg, State(map[], map[]), events);
      var r := ProtectedWhoAmI(end.session, ctx, faults);
      r.status == StatusOK ==> r.me.value in end.users && r.me.value != ""
  {
    RunConsistent(cfg, State(map[], map[]), events);
  }

  /**
   * The walk-through: sign up alice, log in, ask who she is, log out, ask
   * again, log in with a wrong password, sign up alice again. As written, the
   * second /whoami still answers 200 with "alice"; with the corrected logout
   * it answers 401.
   */
  lemma AliceWalkThrough(cfg: Config, seed: nat, seed': nat, ctx: RequestContext)
    requires Sound(cfg.hasher) && Binding(cfg.hasher)
    requires cfg.hasher.generate(Salted("s3cret", cfg.salt), seed).Some?
    ensures var alice := Request("alice", "s3cret");
      var signedUp := SignUp(cfg, map[], alice, {}, seed);
      var loggedIn := LogIn(cfg, signedUp.users, map[], alice, {});
      var loggedOut := LogOut(loggedIn.session, {});
      && signedUp.status == StatusCreated
      && loggedIn.status == StatusOK
      && ProtectedWhoAmI(loggedIn.session, ctx, {}) == Response(StatusOK, Some("alice"))
      && loggedOut.status == StatusOK
      && ProtectedWhoAmI(loggedOut.session, ctx, {}) == Response(StatusOK, Some("alice"))
      && ProtectedWhoAmI(RevokingLogOut(loggedIn.session, {}).session, ctx, {}) == Response(StatusUnauthorized, None)
      && LogIn(cfg, signedUp.users, loggedOut.session, Request("alice", "wrong"), {}).status == StatusUnauthorized
      && SignUp(cfg, signedUp.users, Request("alice", "other"), {}, seed').status == StatusConflict
  {
  }
}
