/**
  The authentication handler: `register` and `login` POST actions, which insert
  users and sessions, and GET, which resolves the X-Auth-Token header to its user.
  `Register`, `Login`, `CurrentUser` and `Handle` are the specification; the
  methods below them perform the same steps on a `Db` in place.
 */
module AuthBackend {
  import opened Wrappers
  import opened Text
  import opened Http
  import opened Schema

  const MsgRequired := "Email and password are required"
  const MsgTooShort := "Password must be at least 6 characters"
  const MsgSameAsEmail := "Email and password must be different"
  const MsgExists := "User with this email already exists"
  const MsgBadCredentials := "Invalid email or password"

  /** Every check of `register` passes for the stripped email and password. */
  predicate CanRegister(t: Tables, email: string, password: string) {
    && email != "" && password != ""
    && |password| >= MinPasswordLength
    && Lower(email) != Lower(password)
    && email !in t.users
  }

  /** `t'` is `t` with one new user `email` (next id, hash of `password`) and one session for it. */
  ghost predicate Registered(t: Tables, t': Tables, email: string, password: string, now: int, token: string) {
    && t'.users.Keys == t.users.Keys + {email}
    && (forall e :: e in t.users ==> t'.users[e] == t.users[e])
    && t'.users[email] == NewUser(t.nextUserId, HashPassword(password), now)
    && t'.nextUserId == t.nextUserId + 1
    && t'.sessions == t.sessions[token := Session(t.nextUserId, now + SessionLifetime)]
    && t'.donations == t.donations
    && t'.nextDonationId == t.nextDonationId
  }

  /** The `register` action; `token` is the fresh `generate_token()` value. */
  function Register(t: Tables, email: string, password: string, now: int, token: string): (o: Outcome)
    requires token !in t.sessions
    ensures Strip(email) == "" || Strip(password) == "" ==> o == Outcome(t, Fail(400, MsgRequired))
    ensures Strip(email) != "" && Strip(password) != "" && |Strip(password)| < MinPasswordLength ==>
      o == Outcome(t, Fail(400, MsgTooShort))
    ensures Strip(email) != "" && |Strip(password)| >= MinPasswordLength && Lower(Strip(email)) == Lower(Strip(password)) ==>
      o == Outcome(t, Fail(400, MsgSameAsEmail))
    ensures (Strip(email) != "" && |Strip(password)| >= MinPasswordLength && Lower(Strip(email)) != Lower(Strip(password))
             && Strip(email) in t.users) ==> o == Outcome(t, Fail(400, MsgExists))
    ensures o.response.status == 201 <==> CanRegister(t, Strip(email), Strip(password))
    ensures o.response.status != 201 ==> o.tables == t && o.response.status == 400
    ensures o.response.status == 201 ==>
      && Registered(t, o.tables, Strip(email), Strip(password), now, token)
      && o.response.payload == SignedIn(UserView(t.nextUserId, Strip(email), now), token)
    ensures Valid(t) ==> Valid(o.tables)
  {
    var e := Strip(email);
    var p := Strip(password);
    if e == "" || p == "" then Outcome(t, Fail(400, MsgRequired))
    else if |p| < MinPasswordLength then Outcome(t, Fail(400, MsgTooShort))
    else if Lower(e) == Lower(p) then Outcome(t, Fail(400, MsgSameAsEmail))
    else if e in t.users then Outcome(t, Fail(400, MsgExists))
    else AddUser(t, e, p, now, token)
  }

  /** The two INSERTs of a successful `register`: the user row, then its first session. */
  function AddUser(t: Tables, email: string, password: string, now: int, token: string): (o: Outcome)
    requires email !in t.users && token !in t.sessions
    ensures Registered(t, o.tables, email, password, now, token)
    ensures o.response == Response(201, SignedIn(UserView(t.nextUserId, email, now), token))
    ensures Valid(t) ==> Valid(o.tables)
  {
    var id := t.nextUserId;
    var withUser := t.(users := t.users[email := NewUser(id, HashPassword(password), now)], nextUserId := id + 1);
    var withSession := withUser.(sessions := withUser.sessions[token := Session(id, now + SessionLifetime)]);
    InsertKeepsValid(t, email, NewUser(id, HashPassword(password), now), token, Session(id, now + SessionLifetime));
    Outcome(withSession, Response(201, SignedIn(UserView(id, email, now), token)))
  }

  /** `SELECT ... FROM users WHERE email = %s AND password_hash = %s` finds a row. */
  predicate PasswordMatches(users: map<string, User>, email: string, password: string) {
    email in users && users[email].passwordHash == HashPassword(password)
  }

  /** The `login` action; `token` is the fresh `generate_token()` value. */
  function Login(t: Tables, email: string, password: string, now: int, token: string): (o: Outcome)
    requires token !in t.sessions
    ensures Strip(email) == "" || Strip(password) == "" ==> o == Outcome(t, Fail(400, MsgRequired))
    ensures Strip(email) != "" && Strip(password) != "" && !PasswordMatches(t.users, Strip(email), Strip(password)) ==>
      o == Outcome(t, Fail(401, MsgBadCredentials))
    ensures o.response.status == 200 <==>
      Strip(email) != "" && Strip(password) != "" && PasswordMatches(t.users, Strip(email), Strip(password))
    ensures o.response.status == 200 ==>
      var u := t.users[Strip(email)];
      && o.tables == t.(sessions := t.sessions[token := Session(u.id, now + SessionLifetime)])
      && o.response.payload == SignedIn(UserView(u.id, Strip(email), u.createdAt), token)
    ensures forall k :: k in t.sessions ==> k in o.tables.sessions && o.tables.sessions[k] == t.sessions[k]
    ensures Valid(t) ==> Valid(o.tables)
  {
    var e := Strip(email);
    var p := Strip(password);
    if e == "" || p == "" then Outcome(t, Fail(400, MsgRequired))
    else if !PasswordMatches(t.users, e, p) then Outcome(t, Fail(401, MsgBadCredentials))
    else OpenSession(t, e, now, token)
  }

  /** The INSERT into sessions of a successful login and the 200 body it produces. */
  function OpenSession(t: Tables, email: string, now: int, token: string): (o: Outcome)
    requires email in t.users && token !in t.sessions
    ensures var u := t.users[email];
      && o.tables == t.(sessions := t.sessions[token := Session(u.id, now + SessionLifetime)])
      && o.response == Response(200, SignedIn(UserView(u.id, email, u.createdAt), token))
    ensures forall k :: k in t.sessions ==> k in o.tables.sessions && o.tables.sessions[k] == t.sessions[k]
    ensures Valid(t) ==> Valid(o.tables)
  {
    var u := t.users[email];
    Outcome(t.(sessions := t.sessions[token := Session(u.id, now + SessionLifetime)]),
            Response(200, SignedIn(UserView(u.id, email, u.createdAt), token)))
  }

  /** GET: the user behind the X-Auth-Token header, read-only. */
  function CurrentUser(t: Tables, token: Option<string>, now: int): (r: Response)
    requires IdsUnique(t.users)
    ensures !Truthy(token) ==> r == Fail(401, MsgAuthRequired)
    ensures Truthy(token) && SessionOwner(t, token.value, now).None? ==> r == Fail(401, MsgInvalidToken)
    ensures r.status == 200 <==>
      Truthy(token) && token.value in t.sessions && t.sessions[token.value].expiresAt > now
      && HasUserWithId(t.users, t.sessions[token.value].userId)
    ensures r.status == 200 ==>
      && r.payload.Profile?
      && r.payload.user.email in t.users
      && r.payload.user.id == t.users[r.payload.user.email].id == t.sessions[token.value].userId
      && r.payload.user.createdAt == t.users[r.payload.user.email].createdAt
    ensures r.status != 200 ==> r.status == 401
  {
    if !Truthy(token) then Fail(401, MsgAuthRequired)
    else
      match SessionOwner(t, token.value, now)
      case None => Fail(401, MsgInvalidToken)
      case Some(e) =>
        var u := t.users[e];
        Response(200, Profile(UserView(u.id, e, u.createdAt)))
  }

  /** The handler's dispatch on method and action. */
  function Handle(t: Tables, req: Request, now: int, token: string): (o: Outcome)
    requires token !in t.sessions && IdsUnique(t.users)
    ensures MethodOf(req) !in {"OPTIONS", "GET", "POST"} ==> o == Outcome(t, MethodNotAllowed)
    ensures MethodOf(req) == "POST" && Action(req) != Some("register") && Action(req) != Some("login") ==>
      o == Outcome(t, MethodNotAllowed)
    ensures MethodOf(req) == "OPTIONS" ==> o == Outcome(t, Preflight)
    ensures MethodOf(req) == "GET" ==> o == Outcome(t, CurrentUser(t, req.authToken, now))
    ensures MethodOf(req) == "POST" && Action(req) == Some("register") ==>
      o == Register(t, BodyText(req, "email"), BodyText(req, "password"), now, token)
    ensures MethodOf(req) == "POST" && Action(req) == Some("login") ==>
      o == Login(t, BodyText(req, "email"), BodyText(req, "password"), now, token)
    ensures Valid(t) ==> Valid(o.tables)
  {
    var m := MethodOf(req);
    if m == "OPTIONS" then Outcome(t, Preflight)
    else if m == "POST" then
      var action := Action(req);
      if action == Some("register") then Register(t, BodyText(req, "email"), BodyText(req, "password"), now, token)
      else if action == Some("login") then Login(t, BodyText(req, "email"), BodyText(req, "password"), now, token)
      else Outcome(t, MethodNotAllowed)
    else if m == "GET" then Outcome(t, CurrentUser(t, req.authToken, now))
    else Outcome(t, MethodNotAllowed)
  }

  method HandleRegister(db: Db, email: string, password: string, now: int, token: string) returns (response: Response)
    requires token !in db.sessions
    modifies db
    ensures Outcome(db.State(), response) == Register(old(db.State()), email, password, now, token)
  {
    var e := Strip(email);
    var p := Strip(password);
    if e == "" || p == "" {
      return Fail(400, MsgRequired);
    }
    if |p| < MinPasswordLength {
      return Fail(400, MsgTooShort);
    }
    if Lower(e) == Lower(p) {
      return Fail(400, MsgSameAsEmail);
    }
    if e in db.users {
      return Fail(400, MsgExists);
    }
    response := InsertUser(db, e, p, now, token);
  }

  /** The two INSERTs of a successful `register`. */
  method InsertUser(db: Db, email: string, password: string, now: int, token: string) returns (response: Response)
    requires email !in db.users && token !in db.sessions
    modifies db
    ensures Outcome(db.State(), response) == AddUser(old(db.State()), email, password, now, token)
  {
    var passwordHash := HashPassword(password);
    var id := db.nextUserId;
    db.users := db.users[email := NewUser(id, passwordHash, now)];
    db.nextUserId := id + 1;
    db.sessions := db.sessions[token := Session(id, now + SessionLifetime)];
    response := Response(201, SignedIn(UserView(id, email, now), token));
  }

  method HandleLogin(db: Db, email: string, password: string, now: int, token: string) returns (response: Response)
    requires token !in db.sessions
    modifies db
    ensures Outcome(db.State(), response) == Login(old(db.State()), email, password, now, token)
  {
    var e := Strip(email);
    var p := Strip(password);
    if e == "" || p == "" {
      return Fail(400, MsgRequired);
    }
    var passwordHash := HashPassword(p);
    if !(e in db.users && db.users[e].passwordHash == passwordHash) {
      return Fail(401, MsgBadCredentials);
    }
    response := InsertSession(db, e, now, token);
  }

  /** The INSERT into sessions of a successful `login`. */
  method InsertSession(db: Db, email: string, now: int, token: string) returns (response: Response)
    requires email in db.users && token !in db.sessions
    modifies db
    ensures Outcome(db.State(), response) == OpenSession(old(db.State()), email, now, token)
  {
    var u := db.users[email];
    db.sessions := db.sessions[token := Session(u.id, now + SessionLifetime)];
    response := Response(200, SignedIn(UserView(u.id, email, u.createdAt), token));
  }

  method Handler(db: Db, req: Request, now: int, token: string) returns (response: Response)
    requires token !in db.sessions && IdsUnique(db.users)
    modifies db
    ensures Outcome(db.State(), response) == Handle(old(db.State()), req, now, token)
  {
    var m := MethodOf(req);
    if m == "OPTIONS" {
      return Preflight;
    }
    if m == "POST" {
      var action := Action(req);
      if action == Some("register") {
        response := HandleRegister(db, BodyText(req, "email"), BodyText(req, "password"), now, token);
      } else if action == Some("login") {
        response := HandleLogin(db, BodyText(req, "email"), BodyText(req, "password"), now, token);
      } else {
        response := MethodNotAllowed;
      }
    } else if m == "GET" {
      response := CurrentUser(db.State(), req.authToken, now);
    } else {
      response := MethodNotAllowed;
    }
  }
}
