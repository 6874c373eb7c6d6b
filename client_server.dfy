/**
  How the client and the handlers meet: each request the client builds is
  dispatched by the handler to the action the client means, and what the
  handler answers is what the client then shows or stores.
 */
module Wiring {
  import opened Wrappers
  import opened Text
  import opened Http
  import opened Schema
  import opened Browser
  import AuthBackend
  import AccountBackend
  import SubscriptionsBackend
  import DonationsBackend
  import AuthClient
  import PasswordResetFlow
  import SubscriptionPanel
  import UnsubscribeLink

  /** The auth service's three requests reach register, login and the profile lookup. */
  lemma AuthCallsServed(t: Tables, email: string, password: string, token: string, now: int, sessionToken: string)
    requires token !in t.sessions && IdsUnique(t.users)
    ensures AuthClient.RegisterCall(email, password).endpoint == AuthApi
    ensures AuthBackend.Handle(t, AuthClient.RegisterCall(email, password).request, now, token)
      == AuthBackend.Register(t, email, password, now, token)
    ensures AuthBackend.Handle(t, AuthClient.LoginCall(email, password).request, now, token)
      == AuthBackend.Login(t, email, password, now, token)
    ensures AuthBackend.Handle(t, AuthClient.CurrentUserCall(sessionToken).request, now, token)
      == Outcome(t, AuthBackend.CurrentUser(t, Some(sessionToken), now))
  {
    var register := AuthClient.RegisterCall(email, password).request;
    assert MethodOf(register) == "POST" && Action(register) == Some("register");
    assert BodyText(register, "email") == email && BodyText(register, "password") == password;
    var login := AuthClient.LoginCall(email, password).request;
    assert MethodOf(login) == "POST" && Action(login) == Some("login");
    assert BodyText(login, "email") == email && BodyText(login, "password") == password;
    assert MethodOf(AuthClient.CurrentUserCall(sessionToken).request) == "GET";
  }

  /**
    A successful login hands the client the new session's token, which is
    what it stores under `auth_token`; a refused one reaches it as a non-ok
    reply carrying the handler's message, and changes nothing.
   */
  lemma LoginStoresSessionToken(t: Tables, email: string, password: string, now: int, token: string)
    requires token !in t.sessions
    ensures var o := AuthBackend.Login(t, email, password, now, token);
      var reply := ReplyOf(o.response);
      && (reply.Ok? ==> AuthClient.TokenField(reply.body) == token && token in o.tables.sessions)
      && (!reply.Ok? ==> reply.NotOk? && reply.error.Some? && o.tables == t)
  {
    var o := AuthBackend.Login(t, email, password, now, token);
    var e, p := Strip(email), Strip(password);
    if e == "" || p == "" {
      assert o == Outcome(t, Fail(400, AuthBackend.MsgRequired));
    } else if !AuthBackend.PasswordMatches(t.users, e, p) {
      assert o == Outcome(t, Fail(401, AuthBackend.MsgBadCredentials));
    } else {
      assert o.response.status == 200;
    }
  }

  /** The same for a registration, whose success is a 201. */
  lemma RegisterStoresSessionToken(t: Tables, email: string, password: string, now: int, token: string)
    requires token !in t.sessions
    ensures var o := AuthBackend.Register(t, email, password, now, token);
      var reply := ReplyOf(o.response);
      && (reply.Ok? ==> AuthClient.TokenField(reply.body) == token && token in o.tables.sessions)
      && (!reply.Ok? ==> reply.NotOk? && reply.error.Some? && o.tables == t)
  {
    var o := AuthBackend.Register(t, email, password, now, token);
    var e, p := Strip(email), Strip(password);
    if e == "" || p == "" {
      assert o == Outcome(t, Fail(400, AuthBackend.MsgRequired));
    } else if |p| < MinPasswordLength {
      assert o == Outcome(t, Fail(400, AuthBackend.MsgTooShort));
    } else if Lower(e) == Lower(p) {
      assert o == Outcome(t, Fail(400, AuthBackend.MsgSameAsEmail));
    } else if e in t.users {
      assert o == Outcome(t, Fail(400, AuthBackend.MsgExists));
    } else {
      assert o.response.status == 201;
      assert AuthBackend.Registered(t, o.tables, e, p, now, token);
    }
  }

  /** With a stored token, the profile lookup answers a user exactly when the session is live. */
  lemma StoredTokenIdentifiesUser(t: Tables, token: string, now: int)
    requires IdsUnique(t.users) && token != ""
    ensures var reply := ReplyOf(AuthBackend.CurrentUser(t, Some(token), now));
      && (reply.Ok? <==> SessionOwner(t, token, now).Some?)
      && (reply.Ok? ==> AuthClient.UserField(reply.body).Some? && AuthClient.UserField(reply.body).value.email == SessionOwner(t, token, now).value)
  {
    var r := AuthBackend.CurrentUser(t, Some(token), now);
    assert Truthy(Some(token));
    if r.status == 200 {
      var owner := SessionOwner(t, token, now);
      assert owner.Some?;
      assert t.users[owner.value].id == t.sessions[token].userId;
    }
  }

  /** The reset dialog's first request reaches `request_reset`. */
  lemma RequestResetCallServed(t: Tables, email: string, now: int, draws: seq<int>, emailSent: bool)
    requires AccountBackend.ValidDraws(draws) && IdsUnique(t.users)
    ensures PasswordResetFlow.RequestResetCall(email).endpoint == AccountApi
    ensures AccountBackend.Handle(t, PasswordResetFlow.RequestResetCall(email).request, now, draws, emailSent)
      == AccountBackend.RequestReset(t, email, now, draws, emailSent)
  {
    var req := PasswordResetFlow.RequestResetCall(email).request;
    assert MethodOf(req) == "POST" && Action(req) == Some("request_reset") && BodyText(req, "email") == email;
  }

  /** Its second reaches `verify_reset_code`. */
  lemma VerifyCodeCallServed(t: Tables, email: string, code: string, now: int, draws: seq<int>, emailSent: bool)
    requires AccountBackend.ValidDraws(draws) && IdsUnique(t.users)
    ensures AccountBackend.Handle(t, PasswordResetFlow.VerifyCodeCall(email, code).request, now, draws, emailSent)
      == Outcome(t, AccountBackend.VerifyResetCode(t, email, code, now))
  {
    var req := PasswordResetFlow.VerifyCodeCall(email, code).request;
    assert MethodOf(req) == "POST" && Action(req) == Some("verify_reset_code");
    assert BodyText(req, "email") == email && BodyText(req, "code") == code;
  }

  /** Its third reaches `reset_password`. */
  lemma ResetPasswordCallServed(t: Tables, email: string, code: string, password: string, now: int, draws: seq<int>, emailSent: bool)
    requires AccountBackend.ValidDraws(draws) && IdsUnique(t.users)
    ensures AccountBackend.Handle(t, PasswordResetFlow.ResetPasswordCall(email, code, password).request, now, draws, emailSent)
      == AccountBackend.ResetPassword(t, email, code, password, now)
  {
    var req := PasswordResetFlow.ResetPasswordCall(email, code, password).request;
    assert MethodOf(req) == "POST" && Action(req) == Some("reset_password");
    assert BodyText(req, "email") == email && BodyText(req, "code") == code && BodyText(req, "password") == password;
  }

  /** The code step moves on exactly when the handler accepts the code. */
  lemma CodeStepFollowsHandler(t: Tables, email: string, code: string, now: int)
    ensures ReplyOf(AccountBackend.VerifyResetCode(t, email, code, now)).Ok?
      <==> AccountBackend.CodeAccepted(t.users, Strip(email), Strip(code), now)
  {
    var r := AccountBackend.VerifyResetCode(t, email, code, now);
    assert r.status == 200 || r.status == 400 || r.status == 404;
  }

  /** The panel's requests reach `status`, `subscribe` and `unsubscribe` by email. */
  lemma PanelCallsServed(t: Tables, email: string, freshToken: string)
    ensures SubscriptionsBackend.Handle(t, SubscriptionPanel.StatusCall(email).request, freshToken)
      == Outcome(t, SubscriptionsBackend.Status(t, email))
    ensures SubscriptionsBackend.Handle(t, SubscriptionPanel.ToggleCall(email, true).request, freshToken)
      == SubscriptionsBackend.Subscribe(t, email, freshToken)
    ensures SubscriptionsBackend.Handle(t, SubscriptionPanel.ToggleCall(email, false).request, freshToken)
      == SubscriptionsBackend.Unsubscribe(t, "", email)
  {
    var status := SubscriptionPanel.StatusCall(email).request;
    assert MethodOf(status) == "POST" && Action(status) == Some("status") && BodyText(status, "email") == email;
    var on := SubscriptionPanel.ToggleCall(email, true).request;
    assert MethodOf(on) == "POST" && Action(on) == Some("subscribe") && BodyText(on, "email") == email;
    var off := SubscriptionPanel.ToggleCall(email, false).request;
    assert MethodOf(off) == "POST" && Action(off) == Some("unsubscribe");
    assert BodyText(off, "token") == "" && BodyText(off, "email") == email;
  }

  /** The switch a status check leaves on screen is the user's stored subscription flag. */
  lemma StatusSwitchAgrees(t: Tables, email: string)
    ensures var reply := ReplyOf(SubscriptionsBackend.Status(t, email));
      && (reply.Ok? <==> Strip(email) != "" && Strip(email) in t.users)
      && (reply.Ok? ==> (SubscriptionPanel.SubscribedField(reply.body) <==> t.users[Strip(email)].subscribedToUpdates == Some(true)))
  {
    var r := SubscriptionsBackend.Status(t, email);
    assert r.status == 200 || r.status == 400 || r.status == 404;
  }

  /**
    Flipping the switch on, when the handler accepts it, is what a later
    status check reports.
   */
  lemma SwitchOnPersists(t: Tables, email: string, freshToken: string)
    ensures var o := SubscriptionsBackend.Subscribe(t, email, freshToken);
      ReplyOf(o.response).Ok? ==> SubscriptionPanel.SubscribedField(ReplyOf(SubscriptionsBackend.Status(o.tables, email)).body)
  {
    var o := SubscriptionsBackend.Subscribe(t, email, freshToken);
    if ReplyOf(o.response).Ok? {
      assert o.response.status == 200;
      StatusSwitchAgrees(o.tables, email);
    }
  }

  /** And so is flipping it off. */
  lemma SwitchOffPersists(t: Tables, email: string)
    ensures var o := SubscriptionsBackend.Unsubscribe(t, "", email);
      && (ReplyOf(o.response).Ok? <==> Strip(email) != "" && Strip(email) in t.users)
      && (ReplyOf(o.response).Ok? ==> !SubscriptionPanel.SubscribedField(ReplyOf(SubscriptionsBackend.Status(o.tables, email)).body))
  {
    var o := SubscriptionsBackend.Unsubscribe(t, "", email);
    var e := Strip(email);
    assert |Strip("")| <= 0;
    assert o.response.status == 200 || o.response.status == 400 || o.response.status == 404;
    if e != "" && e in t.users {
      assert e in SubscriptionsBackend.Targets(t.users, "", e);
    }
    if ReplyOf(o.response).Ok? {
      assert e in SubscriptionsBackend.Targets(t.users, "", e);
      StatusSwitchAgrees(o.tables, email);
    }
  }

  /** The unsubscribe page's request reaches `unsubscribe` by token, with no email. */
  lemma LinkCallServed(t: Tables, token: string, freshToken: string)
    ensures SubscriptionsBackend.Handle(t, UnsubscribeLink.UnsubscribeCall(token).request, freshToken)
      == SubscriptionsBackend.Unsubscribe(t, token, "")
  {
    var req := UnsubscribeLink.UnsubscribeCall(token).request;
    assert MethodOf(req) == "POST" && Action(req) == Some("unsubscribe");
    assert BodyText(req, "token") == token && BodyText(req, "email") == "";
  }

  /**
    The page reports success exactly when some user still holds the link's
    token (as the handler strips it); otherwise it shows the handler's message.
   */
  lemma LinkPageOutcome(t: Tables, token: string)
    ensures var reply := ReplyOf(SubscriptionsBackend.Unsubscribe(t, token, "").response);
      && (reply.Ok? <==> Strip(token) != "" && exists e :: e in t.users && t.users[e].unsubscribeToken == Some(Strip(token)))
      && (!reply.Ok? ==> reply.NotOk? && reply.error in {Some(SubscriptionsBackend.MsgTokenOrEmailRequired), Some(SubscriptionsBackend.MsgSubscriptionNotFound)})
  {
    var o := SubscriptionsBackend.Unsubscribe(t, token, "");
    var tok := Strip(token);
    assert |Strip("")| <= 0;
    var targets := SubscriptionsBackend.Targets(t.users, tok, "");
    if tok != "" {
      if exists e :: e in t.users && t.users[e].unsubscribeToken == Some(tok) {
        var e :| e in t.users && t.users[e].unsubscribeToken == Some(tok);
        assert e in targets;
      }
    }
  }

  /** The donation requests reach the listing and the creation for the session's user. */
  lemma DonationCallsServed(t: Tables, token: string, amount: int, now: int)
    requires IdsUnique(t.users) && token != "" && SessionOwner(t, token, now).Some?
    ensures DonationsBackend.Handle(t, AuthClient.DonationStatusCall(token).request, now)
      == Outcome(t, Response(200, Donations(DonationsBackend.ListDonations(t, t.sessions[token].userId))))
    ensures DonationsBackend.Handle(t, AuthClient.CreateDonationCall(token, amount).request, now)
      == DonationsBackend.CreateDonation(t, t.sessions[token].userId, Number(amount), now)
  {
    assert Truthy(Some(token));
  }

  /** Without a live session the donation requests are refused with 401 and change nothing. */
  lemma DonationCallsNeedSession(t: Tables, token: string, amount: int, now: int)
    requires IdsUnique(t.users) && SessionOwner(t, token, now).None?
    ensures var o := DonationsBackend.Handle(t, AuthClient.CreateDonationCall(token, amount).request, now);
      o.tables == t && ReplyOf(o.response) == NotOk(401, Some(if token == "" then MsgAuthRequired else MsgInvalidToken))
  {
    if token != "" {
      assert Truthy(Some(token));
    }
  }
}
