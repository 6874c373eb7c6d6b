/**
  The account handler: the three POST actions of password recovery
  (`request_reset`, `verify_reset_code`, `reset_password`) and DELETE, which
  removes the signed-in user with their sessions and donations.
  The functions are the specification; the methods at the end perform the
  same SQL statements on a `Db` in place.
 */
module AccountBackend {
  import opened Wrappers
  import opened Text
  import opened Http
  import opened Schema

  const MsgEmailRequired := "Email is required"
  const MsgIfExists := "If email exists, reset code has been sent"
  const MsgCodeSent := "Reset code has been sent to your email"
  const MsgEmailAndCodeRequired := "Email and code are required"
  const MsgUserNotFound := "User not found"
  const MsgNoCode := "No reset code requested"
  const MsgExpired := "Reset code expired"
  const MsgInvalidCode := "Invalid reset code"
  const MsgCodeVerified := "Reset code verified"
  const MsgAllRequired := "Email, code and password are required"
  const MsgTooShort := "Password must be at least 6 characters"
  const MsgSameAsEmail := "Email and password must be different"
  const MsgPasswordReset := "Password reset successfully"
  const MsgAccountDeleted := "Account deleted successfully"

  predicate IsDigitChar(c: char) {
    '0' <= c <= '9'
  }

  /** Six results of `random.randint(0, 9)`. */
  predicate ValidDraws(draws: seq<int>) {
    |draws| == 6 && forall i :: 0 <= i < |draws| ==> 0 <= draws[i] <= 9
  }

  /** `generate_reset_code()`: the six draws written as decimal digits. */
  function GenerateResetCode(draws: seq<int>): (code: string)
    requires ValidDraws(draws)
    ensures |code| == 6
    ensures forall i :: 0 <= i < |code| ==> IsDigitChar(code[i]) && code[i] as int - '0' as int == draws[i]
  {
    seq(6, i requires 0 <= i < 6 => ('0' as int + draws[i]) as char)
  }

  /** Different draws give different codes, so the code carries all six digits. */
  lemma ResetCodeDeterminesDraws(a: seq<int>, b: seq<int>)
    requires ValidDraws(a) && ValidDraws(b)
    ensures GenerateResetCode(a) == GenerateResetCode(b) ==> a == b
  {
    if GenerateResetCode(a) == GenerateResetCode(b) {
      forall i | 0 <= i < 6
        ensures a[i] == b[i]
      {
        assert GenerateResetCode(a)[i] == GenerateResetCode(b)[i];
      }
    }
  }

  /** `t'` is `t` with the reset columns of row `email` set to `code` and `expires`, and nothing else changed. */
  ghost predicate CodeIssued(t: Tables, t': Tables, email: string, code: string, expires: int)
    requires email in t.users
  {
    && t'.users.Keys == t.users.Keys
    && (forall e :: e in t.users && e != email ==> t'.users[e] == t.users[e])
    && t'.users[email] == t.users[email].(resetToken := Some(code), resetTokenExpires := Some(expires))
    && t'.sessions == t.sessions
    && t'.donations == t.donations
    && t'.nextUserId == t.nextUserId
    && t'.nextDonationId == t.nextDonationId
  }

  /**
    The `request_reset` action; `draws` are the random digits and `emailSent`
    is what `send_password_reset_email` returned.
   */
  function RequestReset(t: Tables, email: string, now: int, draws: seq<int>, emailSent: bool): (o: Outcome)
    requires ValidDraws(draws)
    ensures Strip(email) == "" ==> o == Outcome(t, Fail(400, MsgEmailRequired))
    ensures Strip(email) != "" && Strip(email) !in t.users ==> o == Outcome(t, Response(200, Message(MsgIfExists)))
    ensures Strip(email) != "" && Strip(email) in t.users ==>
      && CodeIssued(t, o.tables, Strip(email), GenerateResetCode(draws), now + ResetCodeLifetime)
      && o.response == Response(200, ResetCodeSent(MsgCodeSent, emailSent))
    ensures Valid(t) ==> Valid(o.tables)
  {
    var e := Strip(email);
    if e == "" then Outcome(t, Fail(400, MsgEmailRequired))
    else if e !in t.users then Outcome(t, Response(200, Message(MsgIfExists)))
    else IssueCode(t, e, GenerateResetCode(draws), now + ResetCodeLifetime, emailSent)
  }

  /** `UPDATE users SET reset_token = %s, reset_token_expires = %s WHERE email = %s`. */
  function IssueCode(t: Tables, email: string, code: string, expires: int, emailSent: bool): (o: Outcome)
    requires email in t.users
    ensures CodeIssued(t, o.tables, email, code, expires)
    ensures o.response == Response(200, ResetCodeSent(MsgCodeSent, emailSent))
    ensures Valid(t) ==> Valid(o.tables)
  {
    var u := t.users[email];
    var u' := u.(resetToken := Some(code), resetTokenExpires := Some(expires));
    var t' := t.(users := t.users[email := u']);
    UpdateRowKeepsValid(t, email, u');
    Outcome(t', Response(200, ResetCodeSent(MsgCodeSent, emailSent)))
  }

  /**
    The code `code` is the one stored for `email` and has not expired; an
    empty email or code never qualifies.
   */
  predicate CodeAccepted(users: map<string, User>, email: string, code: string, now: int) {
    && email != "" && code != ""
    && email in users
    && users[email].resetToken == Some(code)
    && users[email].resetTokenExpires.Some?
    && now <= users[email].resetTokenExpires.value
  }

  /** The `verify_reset_code` action, which only reads the users table. */
  function VerifyResetCode(t: Tables, email: string, code: string, now: int): (r: Response)
    ensures Strip(email) == "" || Strip(code) == "" ==> r == Fail(400, MsgEmailAndCodeRequired)
    ensures Strip(email) != "" && Strip(code) != "" && Strip(email) !in t.users ==> r == Fail(404, MsgUserNotFound)
    ensures (Strip(email) != "" && Strip(code) != "" && Strip(email) in t.users
             && (!Truthy(t.users[Strip(email)].resetToken) || t.users[Strip(email)].resetTokenExpires.None?)) ==>
      r == Fail(400, MsgNoCode)
    ensures (Strip(email) != "" && Strip(code) != "" && Strip(email) in t.users
             && Truthy(t.users[Strip(email)].resetToken) && t.users[Strip(email)].resetTokenExpires.Some?
             && now > t.users[Strip(email)].resetTokenExpires.value) ==>
      r == Fail(400, MsgExpired)
    ensures (Strip(email) != "" && Strip(code) != "" && Strip(email) in t.users
             && Truthy(t.users[Strip(email)].resetToken) && t.users[Strip(email)].resetTokenExpires.Some?
             && now <= t.users[Strip(email)].resetTokenExpires.value
             && t.users[Strip(email)].resetToken != Some(Strip(code))) ==>
      r == Fail(400, MsgInvalidCode)
    ensures r.status == 200 <==> CodeAccepted(t.users, Strip(email), Strip(code), now)
    ensures r.status == 200 ==> r.payload == CodeVerified(MsgCodeVerified, true)
    ensures r.status != 200 ==> r.status in {400, 404} && r.payload.Error?
  {
    var e := Strip(email);
    var c := Strip(code);
    if e == "" || c == "" then Fail(400, MsgEmailAndCodeRequired)
    else if e !in t.users then Fail(404, MsgUserNotFound)
    else
      var u := t.users[e];
      if !Truthy(u.resetToken) || u.resetTokenExpires.None? then Fail(400, MsgNoCode)
      else if now > u.resetTokenExpires.value then Fail(400, MsgExpired)
      else if u.resetToken.value != c then Fail(400, MsgInvalidCode)
      else Response(200, CodeVerified(MsgCodeVerified, true))
  }

  /** `UPDATE users SET password_hash = %s, reset_token = NULL, reset_token_expires = NULL WHERE id = %s`. */
  function ResetWhereId(users: map<string, User>, id: nat, passwordHash: PasswordHash): map<string, User> {
    map e | e in users :: if users[e].id == id then users[e].(passwordHash := passwordHash, resetToken := None, resetTokenExpires := None) else users[e]
  }

  /** `DELETE FROM sessions WHERE user_id = %s`. */
  function SessionsNotOf(sessions: map<string, Session>, id: nat): map<string, Session> {
    map k | k in sessions && sessions[k].userId != id :: sessions[k]
  }

  /** `DELETE FROM users WHERE id = %s`. */
  function UsersWithoutId(users: map<string, User>, id: nat): map<string, User> {
    map e | e in users && users[e].id != id :: users[e]
  }

  /** The sessions of `t'` are those of `t` that do not belong to user `id`, unchanged. */
  ghost predicate SessionsEnded(t: Tables, t': Tables, id: nat) {
    && (forall k :: k in t'.sessions <==> k in t.sessions && t.sessions[k].userId != id)
    && (forall k :: k in t'.sessions ==> t'.sessions[k] == t.sessions[k])
  }

  /**
    `t'` is `t` with the password of `email` replaced by the hash of `password`,
    its reset code cleared and every session of that user ended.
   */
  ghost predicate PasswordReplaced(t: Tables, t': Tables, email: string, password: string)
    requires email in t.users
  {
    && t'.users.Keys == t.users.Keys
    && (forall e :: e in t.users && e != email ==> t'.users[e] == t.users[e])
    && t'.users[email] == t.users[email].(passwordHash := HashPassword(password), resetToken := None, resetTokenExpires := None)
    && SessionsEnded(t, t', t.users[email].id)
    && t'.donations == t.donations
    && t'.nextUserId == t.nextUserId
    && t'.nextDonationId == t.nextDonationId
  }

  /** Every check of `reset_password` passes for the stripped email, code and password. */
  predicate CanReset(users: map<string, User>, email: string, code: string, password: string, now: int) {
    && password != ""
    && |password| >= MinPasswordLength
    && Lower(email) != Lower(password)
    && CodeAccepted(users, email, code, now)
  }

  /**
    The `reset_password` action. A row with a code but no expiry makes the
    comparison with `None` raise, which the runtime reports as status 500;
    `Valid` rules that row out.
   */
  function ResetPassword(t: Tables, email: string, code: string, password: string, now: int): (o: Outcome)
    requires IdsUnique(t.users)
    ensures Strip(email) == "" || Strip(code) == "" || Strip(password) == "" ==> o == Outcome(t, Fail(400, MsgAllRequired))
    ensures (Strip(email) != "" && Strip(code) != "" && Strip(password) != ""
             && |Strip(password)| < MinPasswordLength) ==> o == Outcome(t, Fail(400, MsgTooShort))
    ensures (Strip(email) != "" && Strip(code) != "" && |Strip(password)| >= MinPasswordLength
             && Lower(Strip(email)) == Lower(Strip(password))) ==> o == Outcome(t, Fail(400, MsgSameAsEmail))
    ensures (Strip(email) != "" && Strip(code) != "" && |Strip(password)| >= MinPasswordLength
             && Lower(Strip(email)) != Lower(Strip(password)) && Strip(email) !in t.users) ==>
      o == Outcome(t, Fail(404, MsgUserNotFound))
    ensures (Strip(email) != "" && Strip(code) != "" && |Strip(password)| >= MinPasswordLength
             && Lower(Strip(email)) != Lower(Strip(password)) && Strip(email) in t.users
             && t.users[Strip(email)].resetToken != Some(Strip(code))) ==>
      o == Outcome(t, Fail(400, MsgInvalidCode))
    ensures (Strip(email) != "" && Strip(code) != "" && |Strip(password)| >= MinPasswordLength
             && Lower(Strip(email)) != Lower(Strip(password)) && Strip(email) in t.users
             && t.users[Strip(email)].resetToken == Some(Strip(code)) && t.users[Strip(email)].resetTokenExpires.None?) ==>
      o == Outcome(t, Response(500, Crash))
    ensures (Strip(email) != "" && Strip(code) != "" && |Strip(password)| >= MinPasswordLength
             && Lower(Strip(email)) != Lower(Strip(password)) && Strip(email) in t.users
             && t.users[Strip(email)].resetToken == Some(Strip(code)) && t.users[Strip(email)].resetTokenExpires.Some?
             && now > t.users[Strip(email)].resetTokenExpires.value) ==>
      o == Outcome(t, Fail(400, MsgExpired))
    ensures o.response.status in {200, 400, 404, 500}
    ensures o.response.status == 200 <==> CanReset(t.users, Strip(email), Strip(code), Strip(password), now)
    ensures o.response.status == 200 ==>
      && PasswordReplaced(t, o.tables, Strip(email), Strip(password))
      && o.response.payload == Message(MsgPasswordReset)
    ensures o.response.status != 200 ==> o.tables == t
    ensures Valid(t) ==> Valid(o.tables) && o.response.status != 500
  {
    var e := Strip(email);
    var c := Strip(code);
    var p := Strip(password);
    if e == "" || c == "" || p == "" then Outcome(t, Fail(400, MsgAllRequired))
    else if |p| < MinPasswordLength then Outcome(t, Fail(400, MsgTooShort))
    else if Lower(e) == Lower(p) then Outcome(t, Fail(400, MsgSameAsEmail))
    else if e !in t.users then Outcome(t, Fail(404, MsgUserNotFound))
    else CheckCodeAndReset(t, e, c, p, now)
  }

  /** The checks of `reset_password` on the stored code, once the user is found, and the reset itself. */
  function CheckCodeAndReset(t: Tables, email: string, code: string, password: string, now: int): (o: Outcome)
    requires email != "" && email in t.users && code != "" && IdsUnique(t.users)
    ensures t.users[email].resetToken != Some(code) ==> o == Outcome(t, Fail(400, MsgInvalidCode))
    ensures t.users[email].resetToken == Some(code) && t.users[email].resetTokenExpires.None? ==>
      o == Outcome(t, Response(500, Crash))
    ensures (t.users[email].resetToken == Some(code) && t.users[email].resetTokenExpires.Some?
             && now > t.users[email].resetTokenExpires.value) ==> o == Outcome(t, Fail(400, MsgExpired))
    ensures o.response.status in {200, 400, 500}
    ensures o.response.status == 200 <==> CodeAccepted(t.users, email, code, now)
    ensures o.response.status == 200 ==> o == ApplyReset(t, email, password)
    ensures o.response.status != 200 ==> o.tables == t
    ensures Valid(t) ==> Valid(o.tables) && o.response.status != 500
  {
    var u := t.users[email];
    if !Truthy(u.resetToken) || u.resetToken.value != code then Outcome(t, Fail(400, MsgInvalidCode))
    else if u.resetTokenExpires.None? then Outcome(t, Response(500, Crash))
    else if now > u.resetTokenExpires.value then Outcome(t, Fail(400, MsgExpired))
    else ApplyReset(t, email, password)
  }

  /** The UPDATE and the DELETE of a successful `reset_password`. */
  function ApplyReset(t: Tables, email: string, password: string): (o: Outcome)
    requires email in t.users && IdsUnique(t.users)
    ensures PasswordReplaced(t, o.tables, email, password)
    ensures o.response == Response(200, Message(MsgPasswordReset))
    ensures Valid(t) ==> Valid(o.tables)
  {
    var id := t.users[email].id;
    var t' := t.(users := ResetWhereId(t.users, id, HashPassword(password)),
                 sessions := SessionsNotOf(t.sessions, id));
    assert IdsUnique(t'.users) by {
      forall a, b | a in t'.users && b in t'.users && t'.users[a].id == t'.users[b].id
        ensures a == b
      {
        assert t.users[a].id == t.users[b].id;
      }
    }
    Outcome(t', Response(200, Message(MsgPasswordReset)))
  }

  /**
    `t'` is `t` without the user `email`: their row, their sessions and their
    donations are gone and every other row is unchanged.
   */
  ghost predicate AccountRemoved(t: Tables, t': Tables, email: string)
    requires email in t.users
  {
    && t'.users.Keys == t.users.Keys - {email}
    && (forall e :: e in t'.users ==> t'.users[e] == t.users[e])
    && SessionsEnded(t, t', t.users[email].id)
    && t'.donations == DonationsNotOf(t.donations, t.users[email].id)
    && t'.nextUserId == t.nextUserId
    && t'.nextDonationId == t.nextDonationId
  }

  /** DELETE: remove the account behind the X-Auth-Token header. */
  function DeleteAccount(t: Tables, token: Option<string>, now: int): (o: Outcome)
    requires IdsUnique(t.users)
    ensures !Truthy(token) ==> o == Outcome(t, Fail(401, MsgAuthRequired))
    ensures Truthy(token) && SessionOwner(t, token.value, now).None? ==> o == Outcome(t, Fail(401, MsgInvalidToken))
    ensures o.response.status == 200 <==> Truthy(token) && SessionOwner(t, token.value, now).Some?
    ensures o.response.status == 200 ==>
      && AccountRemoved(t, o.tables, SessionOwner(t, token.value, now).value)
      && o.response.payload == Message(MsgAccountDeleted)
    ensures o.response.status != 200 ==> o.tables == t && o.response.status == 401
    ensures Valid(t) ==> Valid(o.tables)
  {
    if !Truthy(token) then Outcome(t, Fail(401, MsgAuthRequired))
    else
      match SessionOwner(t, token.value, now)
      case None => Outcome(t, Fail(401, MsgInvalidToken))
      case Some(e) => RemoveAccount(t, e)
  }

  /** The three DELETEs of a successful account deletion: sessions, donations, then the user row. */
  function RemoveAccount(t: Tables, email: string): (o: Outcome)
    requires email in t.users && IdsUnique(t.users)
    ensures AccountRemoved(t, o.tables, email)
    ensures o.response == Response(200, Message(MsgAccountDeleted))
    ensures Valid(t) ==> Valid(o.tables)
  {
    var id := t.users[email].id;
    var t' := t.(sessions := SessionsNotOf(t.sessions, id),
                 donations := DonationsNotOf(t.donations, id),
                 users := UsersWithoutId(t.users, id));
    assert t'.users.Keys == t.users.Keys - {email} by {
      forall e | e in t.users && e != email
        ensures e in t'.users
      {
        assert t.users[e].id != id;
      }
    }
    assert Valid(t) ==> Valid(t') by {
      if Valid(t) {
        forall i | 0 <= i < |t'.donations|
          ensures t'.donations[i].amount > 0
        {
          assert t'.donations[i] in t.donations;
        }
      }
    }
    Outcome(t', Response(200, Message(MsgAccountDeleted)))
  }

  /**
    The handler's dispatch; `draws` and `emailSent` are only used by
    `request_reset`. An unknown POST action falls through to 405.
   */
  function Handle(t: Tables, req: Request, now: int, draws: seq<int>, emailSent: bool): (o: Outcome)
    requires ValidDraws(draws) && IdsUnique(t.users)
    ensures MethodOf(req) !in {"OPTIONS", "POST", "DELETE"} ==> o == Outcome(t, MethodNotAllowed)
    ensures MethodOf(req) == "OPTIONS" ==> o == Outcome(t, Preflight)
    ensures (MethodOf(req) == "POST" && Action(req) != Some("request_reset")
             && Action(req) != Some("verify_reset_code") && Action(req) != Some("reset_password")) ==>
      o == Outcome(t, MethodNotAllowed)
    ensures MethodOf(req) == "POST" && Action(req) == Some("request_reset") ==>
      o == RequestReset(t, BodyText(req, "email"), now, draws, emailSent)
    ensures MethodOf(req) == "POST" && Action(req) == Some("verify_reset_code") ==>
      o == Outcome(t, VerifyResetCode(t, BodyText(req, "email"), BodyText(req, "code"), now))
    ensures MethodOf(req) == "POST" && Action(req) == Some("reset_password") ==>
      o == ResetPassword(t, BodyText(req, "email"), BodyText(req, "code"), BodyText(req, "password"), now)
    ensures MethodOf(req) == "DELETE" ==> o == DeleteAccount(t, req.authToken, now)
    ensures Valid(t) ==> Valid(o.tables)
  {
    var m := MethodOf(req);
    if m == "OPTIONS" then Outcome(t, Preflight)
    else if m == "POST" then
      var action := Action(req);
      if action == Some("request_reset") then RequestReset(t, BodyText(req, "email"), now, draws, emailSent)
      else if action == Some("verify_reset_code") then
        Outcome(t, VerifyResetCode(t, BodyText(req, "email"), BodyText(req, "code"), now))
      else if action == Some("reset_password") then
        ResetPassword(t, BodyText(req, "email"), BodyText(req, "code"), BodyText(req, "password"), now)
      else Outcome(t, MethodNotAllowed)
    else if m == "DELETE" then DeleteAccount(t, req.authToken, now)
    else Outcome(t, MethodNotAllowed)
  }

  method HandleRequestReset(db: Db, email: string, now: int, draws: seq<int>, emailSent: bool) returns (response: Response)
    requires ValidDraws(draws)
    modifies db
    ensures Outcome(db.State(), response) == RequestReset(old(db.State()), email, now, draws, emailSent)
  {
    var e := Strip(email);
    if e == "" {
      return Fail(400, MsgEmailRequired);
    }
    if e !in db.users {
      return Response(200, Message(MsgIfExists));
    }
    var code := GenerateResetCode(draws);
    var expires := now + ResetCodeLifetime;
    db.users := db.users[e := db.users[e].(resetToken := Some(code), resetTokenExpires := Some(expires))];
    response := Response(200, ResetCodeSent(MsgCodeSent, emailSent));
  }

  method HandleResetPassword(db: Db, email: string, code: string, password: string, now: int) returns (response: Response)
    requires IdsUnique(db.users)
    modifies db
    ensures Outcome(db.State(), response) == ResetPassword(old(db.State()), email, code, password, now)
  {
    var e := Strip(email);
    var c := Strip(code);
    var p := Strip(password);
    if e == "" || c == "" || p == "" {
      return Fail(400, MsgAllRequired);
    }
    if |p| < MinPasswordLength {
      return Fail(400, MsgTooShort);
    }
    if Lower(e) == Lower(p) {
      return Fail(400, MsgSameAsEmail);
    }
    if e !in db.users {
      return Fail(404, MsgUserNotFound);
    }
    var u := db.users[e];
    if !Truthy(u.resetToken) || u.resetToken.value != c {
      return Fail(400, MsgInvalidCode);
    }
    if u.resetTokenExpires.None? {
      return Response(500, Crash);
    }
    if now > u.resetTokenExpires.value {
      return Fail(400, MsgExpired);
    }
    response := ReplacePassword(db, e, p);
  }

  /** The UPDATE and the DELETE of a successful `reset_password`. */
  method ReplacePassword(db: Db, email: string, password: string) returns (response: Response)
    requires email in db.users && IdsUnique(db.users)
    modifies db
    ensures Outcome(db.State(), response) == ApplyReset(old(db.State()), email, password)
  {
    var id := db.users[email].id;
    db.users := ResetWhereId(db.users, id, HashPassword(password));
    db.sessions := SessionsNotOf(db.sessions, id);
    response := Response(200, Message(MsgPasswordReset));
  }

  method HandleDeleteAccount(db: Db, token: Option<string>, now: int) returns (response: Response)
    requires IdsUnique(db.users)
    modifies db
    ensures Outcome(db.State(), response) == DeleteAccount(old(db.State()), token, now)
  {
    if !Truthy(token) {
      return Fail(401, MsgAuthRequired);
    }
    var owner := SessionOwner(db.State(), token.value, now);
    if owner.None? {
      return Fail(401, MsgInvalidToken);
    }
    var id := db.users[owner.value].id;
    db.sessions := SessionsNotOf(db.sessions, id);
    db.donations := DonationsNotOf(db.donations, id);
    db.users := UsersWithoutId(db.users, id);
    response := Response(200, Message(MsgAccountDeleted));
  }

  method Handler(db: Db, req: Request, now: int, draws: seq<int>, emailSent: bool) returns (response: Response)
    requires ValidDraws(draws) && IdsUnique(db.users)
    modifies db
    ensures Outcome(db.State(), response) == Handle(old(db.State()), req, now, draws, emailSent)
  {
    var m := MethodOf(req);
    if m == "OPTIONS" {
      return Preflight;
    }
    if m == "POST" {
      var action := Action(req);
      if action == Some("request_reset") {
        response := HandleRequestReset(db, BodyText(req, "email"), now, draws, emailSent);
      } else if action == Some("verify_reset_code") {
        response := VerifyResetCode(db.State(), BodyText(req, "email"), BodyText(req, "code"), now);
      } else if action == Some("reset_password") {
        response := HandleResetPassword(db, BodyText(req, "email"), BodyText(req, "code"), BodyText(req, "password"), now);
      } else {
        response := MethodNotAllowed;
      }
    } else if m == "DELETE" {
      response := HandleDeleteAccount(db, req.authToken, now);
    } else {
      response := MethodNotAllowed;
    }
  }
}
