/**
  Properties of the account lifecycle that span several requests and several
  handlers: registration enables login, a reset code works once and only in
  its window, a password reset and an account deletion end the user's
  sessions, and an unsubscribe link works after subscribing.
 */
module Lifecycle {
  import opened Wrappers
  import opened Text
  import opened Http
  import opened Schema
  import AuthBackend
  import AccountBackend
  import SubscriptionsBackend

  /** After a successful registration the same credentials log in. */
  lemma RegisterThenLogin(t: Tables, email: string, password: string, now: int, token: string,
                          later: int, loginToken: string)
    requires token !in t.sessions
    requires AuthBackend.Register(t, email, password, now, token).response.status == 201
    requires loginToken !in AuthBackend.Register(t, email, password, now, token).tables.sessions
    ensures var t' := AuthBackend.Register(t, email, password, now, token).tables;
      AuthBackend.Login(t', email, password, later, loginToken).response.status == 200
  {
    var t' := RegisteredTables(t, email, password, now, token);
    assert AuthBackend.PasswordMatches(t'.users, Strip(email), Strip(password));
  }

  /** After a successful registration every other password is refused. */
  lemma RegisterThenWrongPassword(t: Tables, email: string, password: string, now: int, token: string,
                                  later: int, loginToken: string, otherPassword: string)
    requires token !in t.sessions
    requires AuthBackend.Register(t, email, password, now, token).response.status == 201
    requires loginToken !in AuthBackend.Register(t, email, password, now, token).tables.sessions
    requires Strip(otherPassword) != "" && Strip(otherPassword) != Strip(password)
    ensures var t' := AuthBackend.Register(t, email, password, now, token).tables;
      AuthBackend.Login(t', email, otherPassword, later, loginToken).response == Fail(401, AuthBackend.MsgBadCredentials)
  {
    var t' := RegisteredTables(t, email, password, now, token);
    HashIsInjective(Strip(otherPassword), Strip(password));
    assert !AuthBackend.PasswordMatches(t'.users, Strip(email), Strip(otherPassword));
  }

  /** The session a registration hands out is accepted until, and not at, its expiry 30 days later. */
  lemma RegisteredSessionLive(t: Tables, email: string, password: string, now: int, token: string, later: int)
    requires Valid(t) && token != "" && token !in t.sessions
    requires AuthBackend.Register(t, email, password, now, token).response.status == 201
    ensures var t' := AuthBackend.Register(t, email, password, now, token).tables;
      AuthBackend.CurrentUser(t', Some(token), later).status == 200 <==> later < now + SessionLifetime
  {
    var t' := RegisteredTables(t, email, password, now, token);
    assert Valid(t');
    assert t'.sessions[token] == Session(t.nextUserId, now + SessionLifetime);
    assert Strip(email) in t'.users && t'.users[Strip(email)].id == t.nextUserId;
    assert HasUserWithId(t'.users, t.nextUserId);
  }

  /** The tables after a successful registration, with what `Register` promises about them. */
  lemma RegisteredTables(t: Tables, email: string, password: string, now: int, token: string) returns (t': Tables)
    requires token !in t.sessions
    requires AuthBackend.Register(t, email, password, now, token).response.status == 201
    ensures t' == AuthBackend.Register(t, email, password, now, token).tables
    ensures AuthBackend.Registered(t, t', Strip(email), Strip(password), now, token)
    ensures Valid(t) ==> Valid(t')
  {
    t' := AuthBackend.Register(t, email, password, now, token).tables;
  }

  /** A session is refused at the very second it expires: `expires_at > NOW()` is strict. */
  lemma SessionExpiryIsStrict(t: Tables, token: string)
    requires IdsUnique(t.users) && token in t.sessions
    ensures AuthBackend.CurrentUser(t, Some(token), t.sessions[token].expiresAt).status == 401
  {
  }

  /**
    A requested code verifies with the emailed digits up to and including its
    expiry second (`datetime.now() > expires` is strict) and not after.
   */
  lemma ResetCodeWindow(t: Tables, email: string, now: int, draws: seq<int>, emailSent: bool, later: int)
    requires AccountBackend.ValidDraws(draws)
    requires Strip(email) != "" && Strip(email) in t.users
    ensures var t' := AccountBackend.RequestReset(t, email, now, draws, emailSent).tables;
      var code := AccountBackend.GenerateResetCode(draws);
      AccountBackend.VerifyResetCode(t', email, code, later).status == 200 <==> later <= now + ResetCodeLifetime
  {
    var code := AccountBackend.GenerateResetCode(draws);
    assert !IsSpace(code[0]) && !IsSpace(code[|code| - 1]);
    StripUnpadded(code);
    var e := Strip(email);
    var t' := AccountBackend.RequestReset(t, email, now, draws, emailSent).tables;
    assert e in t'.users && t'.users[e].resetToken == Some(code);
    assert t'.users[e].resetTokenExpires == Some(now + ResetCodeLifetime);
    assert AccountBackend.CodeAccepted(t'.users, e, Strip(code), later) <==> later <= now + ResetCodeLifetime;
  }

  /**
    A reset code works once: after a successful reset no code at all is
    accepted for that email, neither by verification nor by another reset.
   */
  lemma ResetCodeIsSingleUse(t: Tables, email: string, code: string, password: string, now: int,
                             anyCode: string, anyPassword: string, later: int)
    requires Valid(t)
    requires AccountBackend.ResetPassword(t, email, code, password, now).response.status == 200
    ensures var t' := AccountBackend.ResetPassword(t, email, code, password, now).tables;
      && AccountBackend.VerifyResetCode(t', email, anyCode, later).status != 200
      && AccountBackend.ResetPassword(t', email, anyCode, anyPassword, later).response.status != 200
  {
    var t' := AccountBackend.ResetPassword(t, email, code, password, now).tables;
    assert t'.users[Strip(email)].resetToken == None;
  }

  /**
    A successful reset ends every session of that user, whatever its expiry,
    and keeps every other user's sessions.
   */
  lemma ResetEndsSessions(t: Tables, email: string, code: string, password: string, now: int,
                          token: string, later: int)
    requires Valid(t)
    requires AccountBackend.ResetPassword(t, email, code, password, now).response.status == 200
    requires token in t.sessions
    ensures var t' := AccountBackend.ResetPassword(t, email, code, password, now).tables;
      && (t.sessions[token].userId == t.users[Strip(email)].id ==>
            AuthBackend.CurrentUser(t', Some(token), later).status == 401)
      && (t.sessions[token].userId != t.users[Strip(email)].id ==>
            token in t'.sessions && t'.sessions[token] == t.sessions[token])
  {
    var t' := ResetTables(t, email, code, password, now);
    if t.sessions[token].userId == t.users[Strip(email)].id {
      assert token !in t'.sessions;
    }
  }

  /** After a successful reset the new password logs in. */
  lemma ResetThenLogin(t: Tables, email: string, code: string, password: string, now: int,
                       later: int, loginToken: string)
    requires Valid(t)
    requires AccountBackend.ResetPassword(t, email, code, password, now).response.status == 200
    requires loginToken !in AccountBackend.ResetPassword(t, email, code, password, now).tables.sessions
    ensures var t' := AccountBackend.ResetPassword(t, email, code, password, now).tables;
      AuthBackend.Login(t', email, password, later, loginToken).response.status == 200
  {
    var t' := ResetTables(t, email, code, password, now);
    assert AuthBackend.PasswordMatches(t'.users, Strip(email), Strip(password));
  }

  /** After a successful reset any other password, the old one included, is refused. */
  lemma ResetRevokesOldPassword(t: Tables, email: string, code: string, password: string, now: int,
                                otherPassword: string, later: int, loginToken: string)
    requires Valid(t)
    requires AccountBackend.ResetPassword(t, email, code, password, now).response.status == 200
    requires loginToken !in AccountBackend.ResetPassword(t, email, code, password, now).tables.sessions
    requires Strip(otherPassword) != "" && Strip(otherPassword) != Strip(password)
    ensures var t' := AccountBackend.ResetPassword(t, email, code, password, now).tables;
      AuthBackend.Login(t', email, otherPassword, later, loginToken).response == Fail(401, AuthBackend.MsgBadCredentials)
  {
    var t' := ResetTables(t, email, code, password, now);
    HashIsInjective(Strip(otherPassword), Strip(password));
    assert !AuthBackend.PasswordMatches(t'.users, Strip(email), Strip(otherPassword));
  }

  /** The tables after a successful reset, with what `ResetPassword` promises about them. */
  lemma ResetTables(t: Tables, email: string, code: string, password: string, now: int) returns (t': Tables)
    requires Valid(t)
    requires AccountBackend.ResetPassword(t, email, code, password, now).response.status == 200
    ensures t' == AccountBackend.ResetPassword(t, email, code, password, now).tables
    ensures Strip(email) in t.users
    ensures AccountBackend.PasswordReplaced(t, t', Strip(email), Strip(password))
    ensures Valid(t')
  {
    t' := AccountBackend.ResetPassword(t, email, code, password, now).tables;
  }

  /** After deleting an account its token is refused and its email no longer logs in. */
  lemma DeleteLogsOut(t: Tables, token: string, now: int, later: int,
                      loginEmail: string, anyPassword: string, loginToken: string)
    requires Valid(t)
    requires AccountBackend.DeleteAccount(t, Some(token), now).response.status == 200
    requires Strip(loginEmail) == SessionOwner(t, token, now).value
    requires loginToken !in AccountBackend.DeleteAccount(t, Some(token), now).tables.sessions
    ensures var t' := AccountBackend.DeleteAccount(t, Some(token), now).tables;
      && AuthBackend.CurrentUser(t', Some(token), later).status == 401
      && AuthBackend.Login(t', loginEmail, anyPassword, later, loginToken).response.status != 200
  {
    var t' := AccountBackend.DeleteAccount(t, Some(token), now).tables;
    assert Strip(loginEmail) !in t'.users;
    assert token !in t'.sessions;
  }

  /** The link token handed out by `subscribe` unsubscribes that user, and the status then reads false. */
  lemma SubscribeThenUnsubscribe(t: Tables, email: string, linkToken: string, anyEmail: string)
    requires linkToken != "" && Unpadded(linkToken)
    requires SubscriptionsBackend.Subscribe(t, email, linkToken).response.status == 200
    ensures var t1 := SubscriptionsBackend.Subscribe(t, email, linkToken).tables;
      var o2 := SubscriptionsBackend.Unsubscribe(t1, linkToken, anyEmail);
      && o2.response.status == 200
      && SubscriptionsBackend.Status(o2.tables, email).payload.subscribed == false
  {
    var e := Strip(email);
    var t1 := SubscriptionsBackend.Subscribe(t, email, linkToken).tables;
    assert t1.users[e].unsubscribeToken == Some(linkToken);
    StripUnpadded(linkToken);
    var targets := SubscriptionsBackend.Targets(t1.users, linkToken, Strip(anyEmail));
    assert e in targets;
    var o2 := SubscriptionsBackend.Unsubscribe(t1, linkToken, anyEmail);
    assert o2.tables.users[e].subscribedToUpdates == Some(false);
  }

  /**
    Subscribing again replaces the link token, so an earlier link that only
    this user held stops working.
   */
  lemma ResubscribeRevokesOldLink(t: Tables, email: string, oldToken: string, freshToken: string)
    requires Strip(oldToken) != "" && freshToken != Strip(oldToken)
    requires forall e :: e in t.users && t.users[e].unsubscribeToken == Some(Strip(oldToken)) ==> e == Strip(email)
    requires SubscriptionsBackend.Subscribe(t, email, freshToken).response.status == 200
    ensures var t1 := SubscriptionsBackend.Subscribe(t, email, freshToken).tables;
      SubscriptionsBackend.Unsubscribe(t1, oldToken, "").response == Fail(404, SubscriptionsBackend.MsgSubscriptionNotFound)
  {
    var t1 := SubscriptionsBackend.Subscribe(t, email, freshToken).tables;
    var old' := Strip(oldToken);
    forall e | e in t1.users
      ensures !SubscriptionsBackend.Selected(t1.users, e, old', Strip(""))
    {
      if e == Strip(email) {
        assert t1.users[e].unsubscribeToken == Some(freshToken);
      } else {
        assert t1.users[e] == t.users[e];
      }
    }
    assert SubscriptionsBackend.Targets(t1.users, old', Strip("")) == {};
  }
}
