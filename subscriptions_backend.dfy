/**
  The subscriptions handler: POST actions `subscribe`, `unsubscribe` (by the
  link token or by email) and `status`. Every other method is answered 405.
  The functions are the specification; the methods perform the same SQL
  statements on a `Db` in place.
 */
module SubscriptionsBackend {
  import opened Wrappers
  import opened Text
  import opened Http
  import opened Schema

  const MsgEmailRequired := "Email is required"
  const MsgUserNotFound := "User not found"
  const MsgSubscribed := "Successfully subscribed to updates"
  const MsgTokenOrEmailRequired := "Token or email is required"
  const MsgSubscriptionNotFound := "Subscription not found"
  const MsgUnsubscribed := "Successfully unsubscribed from updates"

  /**
    The `subscribe` action; `freshToken` is the value of
    `generate_unsubscribe_token()`, which replaces any earlier link token.
   */
  function Subscribe(t: Tables, email: string, freshToken: string): (o: Outcome)
    ensures Strip(email) == "" ==> o == Outcome(t, Fail(400, MsgEmailRequired))
    ensures Strip(email) != "" && Strip(email) !in t.users ==> o == Outcome(t, Fail(404, MsgUserNotFound))
    ensures o.response.status == 200 <==> Strip(email) != "" && Strip(email) in t.users
    ensures o.response.status == 200 ==>
      && o.tables == t.(users := t.users[Strip(email) :=
                          t.users[Strip(email)].(subscribedToUpdates := Some(true), unsubscribeToken := Some(freshToken))])
      && o.response.payload == Subscription(MsgSubscribed, true)
    ensures Valid(t) ==> Valid(o.tables)
  {
    var e := Strip(email);
    if e == "" then Outcome(t, Fail(400, MsgEmailRequired))
    else if e !in t.users then Outcome(t, Fail(404, MsgUserNotFound))
    else MarkSubscribed(t, e, freshToken)
  }

  /** `UPDATE users SET subscribed_to_updates = TRUE, unsubscribe_token = %s WHERE email = %s`. */
  function MarkSubscribed(t: Tables, email: string, freshToken: string): (o: Outcome)
    requires email in t.users
    ensures o.tables == t.(users := t.users[email :=
                             t.users[email].(subscribedToUpdates := Some(true), unsubscribeToken := Some(freshToken))])
    ensures o.response == Response(200, Subscription(MsgSubscribed, true))
    ensures Valid(t) ==> Valid(o.tables)
  {
    var u' := t.users[email].(subscribedToUpdates := Some(true), unsubscribeToken := Some(freshToken));
    UpdateRowKeepsValid(t, email, u');
    Outcome(t.(users := t.users[email := u']), Response(200, Subscription(MsgSubscribed, true)))
  }

  /**
    The WHERE clause of `unsubscribe` for the stripped inputs: a non-empty
    token selects by `unsubscribe_token`, and only otherwise the email selects
    by `email`.
   */
  predicate Selected(users: map<string, User>, email: string, token: string, byEmail: string)
    requires email in users
  {
    if token != "" then users[email].unsubscribeToken == Some(token) else email == byEmail
  }

  /** The rows the UPDATE of `unsubscribe` touches; its size is `cursor.rowcount`. */
  function Targets(users: map<string, User>, token: string, email: string): (r: set<string>)
    ensures forall e :: e in r <==> e in users && Selected(users, e, token, email)
  {
    set e | e in users && Selected(users, e, token, email)
  }

  /** `UPDATE users SET subscribed_to_updates = FALSE WHERE <Targets>`. */
  function ClearSubscribed(users: map<string, User>, targets: set<string>): (r: map<string, User>)
    ensures r.Keys == users.Keys
    ensures forall e :: e in users && e in targets ==> r[e] == users[e].(subscribedToUpdates := Some(false))
    ensures forall e :: e in users && e !in targets ==> r[e] == users[e]
  {
    map e | e in users :: if e in targets then users[e].(subscribedToUpdates := Some(false)) else users[e]
  }

  /** Clearing the flag changes no id and no reset column, so the invariant holds after it. */
  lemma ClearKeepsValid(t: Tables, targets: set<string>)
    ensures Valid(t) ==> Valid(t.(users := ClearSubscribed(t.users, targets)))
  {
    if Valid(t) {
      var users' := ClearSubscribed(t.users, targets);
      forall a, b | a in users' && b in users' && users'[a].id == users'[b].id
        ensures a == b
      {
        assert t.users[a].id == t.users[b].id;
      }
      forall e | e in users'
        ensures users'[e].id < t.nextUserId
        ensures users'[e].resetToken.Some? <==> users'[e].resetTokenExpires.Some?
      {
        assert users'[e].id == t.users[e].id && users'[e].resetToken == t.users[e].resetToken;
      }
    }
  }

  /** Clearing the flag keeps every link token and email, so the same rows stay selected. */
  lemma ClearKeepsTargets(users: map<string, User>, targets: set<string>, token: string, email: string)
    ensures Targets(ClearSubscribed(users, targets), token, email) == Targets(users, token, email)
  {
    var users' := ClearSubscribed(users, targets);
    forall e | e in users
      ensures Selected(users', e, token, email) == Selected(users, e, token, email)
    {
      assert users'[e].unsubscribeToken == users[e].unsubscribeToken;
    }
  }

  /** An UPDATE that matches no row changes nothing. */
  lemma ClearNothing(users: map<string, User>, targets: set<string>)
    requires |targets| == 0
    ensures ClearSubscribed(users, targets) == users
  {
    assert targets == {};
    var r := ClearSubscribed(users, targets);
    assert forall e :: e in users ==> r[e] == users[e];
  }

  /** Clearing the flag of the same rows twice is clearing it once. */
  lemma ClearSubscribedTwice(users: map<string, User>, targets: set<string>)
    ensures ClearSubscribed(ClearSubscribed(users, targets), targets) == ClearSubscribed(users, targets)
  {
  }

  /** The `unsubscribe` action. */
  function Unsubscribe(t: Tables, token: string, email: string): (o: Outcome)
    ensures Strip(token) == "" && Strip(email) == "" ==> o == Outcome(t, Fail(400, MsgTokenOrEmailRequired))
    ensures (Strip(token) != "" || Strip(email) != "") && Targets(t.users, Strip(token), Strip(email)) == {} ==>
      o == Outcome(t, Fail(404, MsgSubscriptionNotFound))
    ensures o.response.status == 200 <==>
      (Strip(token) != "" || Strip(email) != "") && Targets(t.users, Strip(token), Strip(email)) != {}
    ensures o.response.status == 200 ==>
      && o.tables == t.(users := ClearSubscribed(t.users, Targets(t.users, Strip(token), Strip(email))))
      && o.response.payload == Subscription(MsgUnsubscribed, false)
    ensures Valid(t) ==> Valid(o.tables)
  {
    var tok := Strip(token);
    var e := Strip(email);
    if tok == "" && e == "" then Outcome(t, Fail(400, MsgTokenOrEmailRequired))
    else
      var targets := Targets(t.users, tok, e);
      var t' := t.(users := ClearSubscribed(t.users, targets));
      ClearKeepsValid(t, targets);
      if |targets| == 0 then Outcome(t, Fail(404, MsgSubscriptionNotFound))
      else Outcome(t', Response(200, Subscription(MsgUnsubscribed, false)))
  }

  /** The `status` action, read-only; a NULL `subscribed_to_updates` reads as false. */
  function Status(t: Tables, email: string): (r: Response)
    ensures Strip(email) == "" ==> r == Fail(400, MsgEmailRequired)
    ensures Strip(email) != "" && Strip(email) !in t.users ==> r == Fail(404, MsgUserNotFound)
    ensures r.status == 200 <==> Strip(email) != "" && Strip(email) in t.users
    ensures r.status == 200 ==>
      var u := t.users[Strip(email)];
      && r.payload.SubscriptionStatus?
      && (r.payload.subscribed <==> u.subscribedToUpdates == Some(true))
      && r.payload.unsubscribeToken == u.unsubscribeToken
  {
    var e := Strip(email);
    if e == "" then Fail(400, MsgEmailRequired)
    else if e !in t.users then Fail(404, MsgUserNotFound)
    else
      var u := t.users[e];
      var subscribed := if u.subscribedToUpdates.Some? then u.subscribedToUpdates.value else false;
      Response(200, SubscriptionStatus(subscribed, u.unsubscribeToken))
  }

  /** A link token, when present, decides alone which rows are unsubscribed: the email is ignored. */
  lemma TokenTakesPrecedence(t: Tables, token: string, email1: string, email2: string)
    requires Strip(token) != ""
    ensures Unsubscribe(t, token, email1) == Unsubscribe(t, token, email2)
  {
    var tok := Strip(token);
    forall e | e in t.users
      ensures Selected(t.users, e, tok, Strip(email1)) == Selected(t.users, e, tok, Strip(email2))
    {
    }
    assert Targets(t.users, tok, Strip(email1)) == Targets(t.users, tok, Strip(email2));
  }

  /**
    Unsubscribing twice answers the same as once and changes nothing more:
    the link token is not consumed, and the rows it selects stay selected.
   */
  lemma UnsubscribeIsIdempotent(t: Tables, token: string, email: string)
    ensures var o := Unsubscribe(t, token, email);
      Unsubscribe(o.tables, token, email) == o
  {
    var o := Unsubscribe(t, token, email);
    var tok, e := Strip(token), Strip(email);
    if o.response.status == 200 {
      var targets := Targets(t.users, tok, e);
      ClearKeepsTargets(t.users, targets, tok, e);
      ClearSubscribedTwice(t.users, targets);
    }
  }

  /** The handler's dispatch: only POST is served. */
  function Handle(t: Tables, req: Request, freshToken: string): (o: Outcome)
    ensures MethodOf(req) != "OPTIONS" && MethodOf(req) != "POST" ==> o == Outcome(t, MethodNotAllowed)
    ensures MethodOf(req) == "OPTIONS" ==> o == Outcome(t, Preflight)
    ensures (MethodOf(req) == "POST" && Action(req) != Some("subscribe")
             && Action(req) != Some("unsubscribe") && Action(req) != Some("status")) ==>
      o == Outcome(t, MethodNotAllowed)
    ensures MethodOf(req) == "POST" && Action(req) == Some("subscribe") ==>
      o == Subscribe(t, BodyText(req, "email"), freshToken)
    ensures MethodOf(req) == "POST" && Action(req) == Some("unsubscribe") ==>
      o == Unsubscribe(t, BodyText(req, "token"), BodyText(req, "email"))
    ensures MethodOf(req) == "POST" && Action(req) == Some("status") ==>
      o == Outcome(t, Status(t, BodyText(req, "email")))
    ensures Valid(t) ==> Valid(o.tables)
  {
    var m := MethodOf(req);
    if m == "OPTIONS" then Outcome(t, Preflight)
    else if m == "POST" then
      var action := Action(req);
      if action == Some("subscribe") then Subscribe(t, BodyText(req, "email"), freshToken)
      else if action == Some("unsubscribe") then Unsubscribe(t, BodyText(req, "token"), BodyText(req, "email"))
      else if action == Some("status") then Outcome(t, Status(t, BodyText(req, "email")))
      else Outcome(t, MethodNotAllowed)
    else Outcome(t, MethodNotAllowed)
  }

  method HandleSubscribe(db: Db, email: string, freshToken: string) returns (response: Response)
    modifies db
    ensures Outcome(db.State(), response) == Subscribe(old(db.State()), email, freshToken)
  {
    var e := Strip(email);
    if e == "" {
      return Fail(400, MsgEmailRequired);
    }
    if e !in db.users {
      return Fail(404, MsgUserNotFound);
    }
    db.users := db.users[e := db.users[e].(subscribedToUpdates := Some(true), unsubscribeToken := Some(freshToken))];
    response := Response(200, Subscription(MsgSubscribed, true));
  }

  method HandleUnsubscribe(db: Db, token: string, email: string) returns (response: Response)
    modifies db
    ensures Outcome(db.State(), response) == Unsubscribe(old(db.State()), token, email)
  {
    var tok := Strip(token);
    var e := Strip(email);
    if tok == "" && e == "" {
      return Fail(400, MsgTokenOrEmailRequired);
    }
    ghost var before := db.State();
    var targets := Targets(db.users, tok, e);
    db.users := ClearSubscribed(db.users, targets);
    var rowcount := |targets|;
    if rowcount == 0 {
      ClearNothing(before.users, targets);
      return Fail(404, MsgSubscriptionNotFound);
    }
    response := Response(200, Subscription(MsgUnsubscribed, false));
  }

  method Handler(db: Db, req: Request, freshToken: string) returns (response: Response)
    modifies db
    ensures Outcome(db.State(), response) == Handle(old(db.State()), req, freshToken)
  {
    var m := MethodOf(req);
    if m == "OPTIONS" {
      return Preflight;
    }
    if m != "POST" {
      return MethodNotAllowed;
    }
    var action := Action(req);
    if action == Some("subscribe") {
      response := HandleSubscribe(db, BodyText(req, "email"), freshToken);
    } else if action == Some("unsubscribe") {
      response := HandleUnsubscribe(db, BodyText(req, "token"), BodyText(req, "email"));
    } else if action == Some("status") {
      response := Status(db.State(), BodyText(req, "email"));
    } else {
      response := MethodNotAllowed;
    }
  }
}
