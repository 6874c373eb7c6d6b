/**
  The three tables the handlers share (users, sessions, donations), the
  invariant every handler keeps, the session lookup that the auth, account
  and donations handlers have in common, and the database object that the
  imperative handlers update in place.
 */
module Schema {
  import opened Wrappers
  import opened Http

  /**
    `hashlib.sha256(password.encode()).hexdigest()`, kept symbolic: two
    digests are equal exactly when the passwords are (collision freedom).
   */
  datatype PasswordHash = Sha256Hex(password: string)

  function HashPassword(password: string): PasswordHash {
    Sha256Hex(password)
  }

  lemma HashIsInjective(a: string, b: string)
    ensures HashPassword(a) == HashPassword(b) ==> a == b
  {
  }

  /** A row of `users`; its email is the key of the table. */
  datatype User = User(
    id: nat,
    passwordHash: PasswordHash,
    createdAt: int,
    resetToken: Option<string>,
    resetTokenExpires: Option<int>,
    subscribedToUpdates: Option<bool>,
    unsubscribeToken: Option<string>)

  /** A row of `sessions`; its token is the key of the table. */
  datatype Session = Session(userId: nat, expiresAt: int)

  datatype Donation = Donation(id: nat, userId: nat, amount: int, status: string, createdAt: int)

  /** The database; the next-id counters stand for the SERIAL columns. */
  datatype Tables = Tables(
    users: map<string, User>,
    sessions: map<string, Session>,
    donations: seq<Donation>,
    nextUserId: nat,
    nextDonationId: nat)

  /** What a handler leaves behind: the new tables and its HTTP response. */
  datatype Outcome = Outcome(tables: Tables, response: Response)

  /** `timedelta(days=30)` and `timedelta(minutes=15)` in seconds. */
  const SessionLifetime: int := 30 * 24 * 60 * 60
  const ResetCodeLifetime: int := 15 * 60
  const MinPasswordLength: int := 6

  /** A freshly inserted user: no reset code, no subscription columns set. */
  function NewUser(id: nat, passwordHash: PasswordHash, now: int): User {
    User(id, passwordHash, now, None, None, None, None)
  }

  /** No two users share an id. */
  ghost predicate IdsUnique(users: map<string, User>) {
    forall a, b :: a in users && b in users && users[a].id == users[b].id ==> a == b
  }

  ghost predicate HasUserWithId(users: map<string, User>, id: nat) {
    exists e :: e in users && users[e].id == id
  }

  /**
    The table invariant: ids are unique and below the SERIAL counter, the two
    reset columns are set and cleared together, and every donation is positive.
   */
  ghost predicate Valid(t: Tables) {
    && IdsUnique(t.users)
    && (forall e :: e in t.users ==> t.users[e].id < t.nextUserId)
    && (forall e :: e in t.users ==> (t.users[e].resetToken.Some? <==> t.users[e].resetTokenExpires.Some?))
    && (forall i :: 0 <= i < |t.donations| ==> t.donations[i].amount > 0)
  }

  /** Inserting a user with the next id and no reset code, and any session, keeps the invariant. */
  lemma InsertKeepsValid(t: Tables, email: string, u: User, token: string, s: Session)
    requires email !in t.users && u.id == t.nextUserId && u.resetToken.None? && u.resetTokenExpires.None?
    ensures Valid(t) ==>
      Valid(t.(users := t.users[email := u], nextUserId := t.nextUserId + 1, sessions := t.sessions[token := s]))
  {
    if Valid(t) {
      var t' := t.(users := t.users[email := u], nextUserId := t.nextUserId + 1, sessions := t.sessions[token := s]);
      forall a, b | a in t'.users && b in t'.users && t'.users[a].id == t'.users[b].id
        ensures a == b
      {
        if a != email && b != email {
          assert t.users[a].id == t.users[b].id;
        }
      }
    }
  }

  /** Replacing one user row by one with the same id and paired reset columns keeps the invariant. */
  lemma UpdateRowKeepsValid(t: Tables, email: string, u: User)
    requires email in t.users && u.id == t.users[email].id
    ensures Valid(t) && (u.resetToken.Some? <==> u.resetTokenExpires.Some?) ==> Valid(t.(users := t.users[email := u]))
  {
    if Valid(t) && (u.resetToken.Some? <==> u.resetTokenExpires.Some?) {
      var users' := t.users[email := u];
      forall a, b | a in users' && b in users' && users'[a].id == users'[b].id
        ensures a == b
      {
        assert t.users[a].id == t.users[b].id;
      }
    }
  }

  /**
    `SELECT ... FROM users u JOIN sessions s ON u.id = s.user_id WHERE s.token = %s
    AND s.expires_at > NOW()`: the email of the user whose unexpired session
    carries `token`.
   */
  function SessionOwner(t: Tables, token: string, now: int): (r: Option<string>)
    requires IdsUnique(t.users)
    ensures r.Some? <==>
      token in t.sessions && t.sessions[token].expiresAt > now && HasUserWithId(t.users, t.sessions[token].userId)
    ensures r.Some? ==> r.value in t.users && t.users[r.value].id == t.sessions[token].userId
  {
    if token in t.sessions && t.sessions[token].expiresAt > now
       && exists e | e in t.users :: t.users[e].id == t.sessions[token].userId
    then
      var e :| e in t.users && t.users[e].id == t.sessions[token].userId;
      Some(e)
    else
      None
  }

  /** `SELECT ... FROM donations WHERE user_id = %s`, in table order. */
  function DonationsOf(ds: seq<Donation>, uid: nat): (r: seq<Donation>)
    ensures |r| <= |ds|
    ensures forall d :: d in r <==> d in ds && d.userId == uid
  {
    if ds == [] then []
    else (if ds[0].userId == uid then [ds[0]] else []) + DonationsOf(ds[1..], uid)
  }

  /** The rows `DELETE FROM donations WHERE user_id = %s` leaves, in table order. */
  function DonationsNotOf(ds: seq<Donation>, uid: nat): (r: seq<Donation>)
    ensures |r| <= |ds|
    ensures forall d :: d in r <==> d in ds && d.userId != uid
  {
    if ds == [] then []
    else (if ds[0].userId != uid then [ds[0]] else []) + DonationsNotOf(ds[1..], uid)
  }

  /** Every donation row is either the user's or survives the user's deletion, and none is both or duplicated. */
  lemma {:induction false} DonationsSplit(ds: seq<Donation>, uid: nat)
    ensures multiset(ds) == multiset(DonationsOf(ds, uid)) + multiset(DonationsNotOf(ds, uid))
  {
    if ds != [] {
      DonationsSplit(ds[1..], uid);
      assert ds == [ds[0]] + ds[1..];
    }
  }

  /** The database connection the handlers mutate; `State()` is its abstract value. */
  class Db {
    var users: map<string, User>
    var sessions: map<string, Session>
    var donations: seq<Donation>
    var nextUserId: nat
    var nextDonationId: nat

    function State(): Tables
      reads this
    {
      Tables(users, sessions, donations, nextUserId, nextDonationId)
    }

    constructor (t: Tables)
      ensures State() == t
    {
      users, sessions, donations := t.users, t.sessions, t.donations;
      nextUserId, nextDonationId := t.nextUserId, t.nextDonationId;
    }
  }
}
