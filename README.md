# naro-backend handlers, modelled in Dafny

This project models the two parts of `handler.go` that do more than pass
rows between HTTP and SQL.

1. **The population aggregation** (`calculatePopulationSumHandler`). It
   folds a list of `city` rows into a map from country code to total
   population. Rows whose `CountryCode` is NULL are skipped.
2. **The account and session handlers**: `signUpHandler`, `loginHandler`,
   `logoutHandler`, the `userAuthMiddleware` gate and `getWhoAmIHandler`.
   Without Echo, the SQL driver and bcrypt, they are a decision procedure
   over two stores:
   - the `users` table, user name to bcrypt hash;
   - the values of the caller's session, where a value may be nil.

Modules:

- `Population` (population.dfy). `City` is a datatype whose nullable
  columns are `NullString`/`NullInt64` values, as in `database/sql`.
  `PopulationSum` is the fold the loop performs. `ValidCodes` and
  `CodeTotal` are independent reference definitions.
  `CalculatePopulationSum` is the loop itself, updating a `map<string, int>`.
- `Hashing` (hashing.dfy). bcrypt is an abstract `Hasher` with two
  operations. `generate(password, seed)` may fail; `seed` stands for
  bcrypt's random salt. `compare(hash, password)` answers
  `Match | Mismatch | Error`. The property the handlers rely on,
  `compare(generate(p), p) == Match`, is the predicate `Sound`. It is a
  precondition of the lemmas that need it, not an axiom. `Binding`
  (another password gives `Mismatch`) is kept as a separate assumption.
- `Accounts` (accounts.dfy). Each handler is a pure function from the
  stores, the bound request and the set of `Fault`s its collaborators
  report, to the status code and the new stores. The lemmas relating
  several handlers live here.
- `Lifecycle` (lifecycle.dfy). This module covers runs of requests. A
  stored hash never changes. The stores stay consistent. The gate admits
  only registered names. It also holds the sign-up / login / logout
  walk-through.
- `Server` (server.dfy). This is the imperative form. The classes are
  `Database` (the users table), `Session` (the stored session values) and
  `Context` (the request context). The handler methods run the Go code
  statement by statement, with its early returns. Each is proved to end in
  exactly the state its `Accounts` function gives. `LogInHandler` does not
  have the database in its frame, so login cannot change the users table.

Behaviour the model follows from the code. In some places it differs from
the design description of the service:

- Logout as written does not revoke access (see Findings). It assigns nil
  to `"username"`, but login and the gate use `"userName"`. It also never
  calls `sess.Save`, so the store keeps the session untouched.
  `LogOutHandler` returns the request's modified copy as `request`.
- Signup checks uniqueness with a `COUNT(*)` and then runs a separate
  `INSERT`. The pair is not atomic. The model is sequential and claims no
  atomicity.
- Login ignores the error of `sess.Save`. When the save fails, login still
  answers 200 and the stored session stays unchanged (`SessionSaveFails`).
- A hash comparison that fails for a reason other than a mismatch answers
  500, not 401.

## Model

| member | source | states |
|---|---|---|
| Population.AddCity | handler.go:214-216 | reading any code with Go's zero default, the new total is the old total plus the city's population when the city carries that valid code, and unchanged otherwise; a valid code joins the keys, and a NULL code leaves the map unchanged |
| Population.PopulationSum | handler.go:213-217 | a code is a key of the result exactly when some city carries it as a valid country code |
| Population.PopulationSumKeys | handler.go:211-219 | the result's key set equals the set of valid country codes present in the input |
| Population.PopulationSumAt | handler.go:211-219 | looking up any code (0 when absent, as a Go map reads) gives the sum of the populations of the cities with that valid code |
| Population.PopulationSumCharacterized | handler.go:211-219 | key set equals the valid codes, and each value equals the per-code total |
| Population.PopulationSumEmpty | calculate_test.go:8-16 | an empty input gives an empty map |
| Population.InvalidCitiesIgnored | handler.go:214 | dropping every city with a NULL country code leaves the result unchanged |
| Population.PopulationSumPermutation | handler.go:213-217 | any reordering of the rows gives the same map |
| Population.OneCountryExample | calculate_test.go:18-89 | the test's three US cities give {"USA": 11493435} |
| Population.MultiCountryExample | calculate_test.go:91-208 | the test's five cities give {"USA": 3485157, "JPN": 1866788, "CAN": 688275} |
| Population.InvalidCodeExample | calculate_test.go:210-262 | the test's city with a NULL code is left out: {"USA": 8008278} |
| Population.CalculatePopulationSum | handler.go:211-219 | the loop returns the fold, its keys are the valid codes and each value is the per-code total |
| Hashing.Salted | handler.go:124 | the hashed string is the password followed by the salt |
| Hashing.SaltedInjective | handler.go:158 | different passwords stay different once salted |
| Accounts.NewHash | handler.go:124-126 | for a sound hasher, a hash that signup obtains verifies against the salted password it was made from |
| Accounts.Check | handler.go:158 | for a sound hasher, a stored hash made from this password gives Match; for a binding hasher, one made from any other password gives Mismatch |
| Accounts.UserCount | handler.go:114-120 | the COUNT(*) is positive exactly when the name has a row |
| Accounts.SignUp | handler.go:104-138 | 400 exactly for an empty name or password; 409 exactly when the count succeeds and the name exists; 201 exactly when the name is new and hashing and insert succeed, and then the table gains exactly name ↦ hash of password+salt; every other outcome leaves the table unchanged |
| Accounts.LogIn | handler.go:140-176 | 400 exactly for an empty field; 401 exactly for an unknown name or a Mismatch; 200 exactly on Match with a working session; every non-200 leaves the session untouched; 200 sets "userName" to the name unless the ignored save failed |
| Accounts.LogOut | handler.go:178-187 | 200 unless session.Get fails (then 500); the request copy has "username" set to nil; the stored session is unchanged |
| Accounts.Authenticate | handler.go:189-199 | goes on exactly when session.Get works and "userName" holds a non-nil value, with that value; otherwise 500 on a session error, else 401 |
| Accounts.WhoAmI | handler.go:205-209 | answers 200 with the name the context holds |
| Accounts.ProtectedWhoAmI | handler.go:189-209 | 200 exactly when the gate lets the request through, with exactly the session's name; otherwise the gate's status and no body |
| Accounts.SignUpThenLogIn | handler.go:124-175 | for a sound hasher, a successful signup then login with the same pair answers 200, sets "userName", and /whoami answers 200 with that name |
| Accounts.FailedLogInsLookAlike | handler.go:148-162 | a wrong password for a registered name and an unknown name both answer 401 and leave the session untouched |
| Accounts.LogOutDoesNotRevoke | handler.go:184-186 | a session that passed the gate before logout passes it afterwards with the same name, in the store and in the request copy |
| Accounts.RevokingLogOut | handler.go:178-187 | corrected logout: 200 exactly when get and save succeed, and then the stored "userName" is nil and no other key changes; otherwise 500 and the session unchanged |
| Accounts.RevokingLogOutRevokes | handler.go:196-197 | after a successful corrected logout, /whoami answers 401 |
| Lifecycle.CredentialsImmutable | handler.go:132 | over any run of requests, every stored row is kept with its hash |
| Lifecycle.ApplyConsistent | handler.go:104-187 | each request keeps the invariant: no empty user name is stored, and a session user name has a row |
| Lifecycle.RunConsistent | handler.go:104-187 | any run of requests keeps that invariant |
| Lifecycle.GateAdmitsOnlyRegistered | handler.go:196-199 | starting from empty stores, /whoami answers 200 only with a registered, non-empty name |
| Lifecycle.AliceWalkThrough | handler.go:104-209 | signup 201, login 200, whoami 200 "alice", logout 200, whoami still 200 "alice" (401 with the corrected logout), wrong password 401, second signup 409 |
| Server.Database.CountUsers | handler.go:114-118 | an error exactly when the query fails; otherwise a count that is positive exactly when the name has a row |
| Server.Database.SelectUser | handler.go:147-156 | an error when the query fails; otherwise no rows exactly for an unknown name, else that user's row |
| Server.Database.InsertUser | handler.go:132-136 | on success the table gains exactly the new row; on failure it is unchanged |
| Server.Session.Get | handler.go:167-171 | an error exactly when the session store fails, else a copy of the stored values |
| Server.Session.Save | handler.go:173 | stores the copy unless the save fails |
| Server.SignUpHandler | handler.go:104-138 | status and new users table are those of Accounts.SignUp |
| Server.LogInHandler | handler.go:140-176 | status and new session are those of Accounts.LogIn; the users table is outside its frame |
| Server.LogOutHandler | handler.go:178-187 | status and request copy are those of Accounts.LogOut; it changes no store |
| Server.UserAuthMiddleware | handler.go:189-203 | decides as Accounts.Authenticate; a rejection leaves the request context alone, letting the request through binds "userName" to the session's name |
| Server.GetWhoAmIHandler | handler.go:205-209 | answers 200 with exactly the name bound in the request context |
| Server.WhoAmIRoute | handler.go:189-209 | answers as Accounts.ProtectedWhoAmI; the handler runs only behind a passing gate |
| Server.WalkThrough | handler.go:104-209 | through the imperative handlers on fresh stores: signup 201, login 200, whoami 200 "alice", logout 200, whoami still 200 "alice" |

## Findings

| source | as written | input that shows it | evidently intended | confidence | as-written member | corrected member |
|---|---|---|---|---|---|---|
| handler.go:184-186 | logout assigns nil to `"username"` (login and the gate use `"userName"`) and never calls `sess.Save` | sign up and log in as alice/s3cret, GET /logout, then GET /whoami with the same cookie: 200 `{"username":"alice"}` | logout clears the identity the gate reads and saves the session; /whoami then answers 401 | high; not executed | Accounts.LogOutDoesNotRevoke | Accounts.RevokingLogOut |

## Left out

- main.go is not part of this model. It holds database configuration from environment variables, connection setup, route registration, its own city handlers and commented-out code.
- The city and country handlers (handler.go:41-102) are left out. They are SQL SELECT/INSERT wrappers that map errors to status codes.
- bcrypt internals are left out: cost factor, hash format, constant-time comparison and the 72-byte limit. The hasher is abstract; `Sound` and `Binding` are the only properties relied on, and only where a lemma states them.
- The salt is a package-level value defined outside `handler.go`. It is the `salt` field of `Config`.
- Session mechanics are left out: the cookie, its signing and 14-day lifetime, expiry, and token generation. The model covers one client's session as a value map. Failures of `session.Get` and `sess.Save` are the faults `SessionGetFails` and `SessionSaveFails`.
- Database and hashing failures are not modelled as driver behaviour. They are the `Fault`s given with each request (and a `None` from `generate`), and each maps to the status the handler writes.
- Concurrency is left out. Each request is one sequential step, so the non-atomic COUNT-then-INSERT of signup (handler.go:114-132) is neither modelled nor claimed safe.
- Request binding (`c.Bind`, whose error the handlers ignore) is left out: a request is its two bound strings.
- The text bodies of the 400, 401, 409 and 500 answers are left out, among them the gate's 401 "please login" (handler.go:197); a response is its status and, for /whoami, the user name.
- Logging is left out: the `log.Println` and `fmt.Println` calls on error paths (handler.go:116, 128, 134, 153, 169, 181, 193) write nothing the model could observe.
- User names are compared as exact strings. The collation of the MySQL connection (main.go:46) can make the database compare them case-insensitively; that is not modelled.
- Server.Database.InsertUser: requires that the name has no row, because the table is a map with one row per name and cannot hold a duplicate row; signup calls it only after a zero count.
- Population.CalculatePopulationSum: populations and totals are unbounded integers; Go's 64-bit `int` conversion and wrap-around are not modelled.
- The gate's type assertion on a non-string session value (handler.go:199) cannot arise, because session values are `Option<string>`. Neither can the panic of `c.Get("userName").(string)` without the gate, because `GetWhoAmIHandler` requires the key.
