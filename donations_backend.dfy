/**
  The donations handler: every request except the preflight needs a live
  session; POST records a completed donation for the session's user and GET
  lists that user's donations newest first with the completed total.
  POST changes the database and is modelled on a `Db` in place as well; GET is
  a read-only projection.
 */
module DonationsBackend {
  import opened Wrappers
  import opened Text
  import opened Http
  import opened Schema

  const MsgInvalidAmount := "Invalid amount"
  const StatusCompleted := "completed"

  /** `body_data.get('amount', 0)`. */
  function AmountOf(req: Request): Amount {
    if req.amount.Some? then req.amount.value else Number(0)
  }

  /** The amount is a number and positive. */
  predicate ValidAmount(a: Amount) {
    a.Number? && a.value > 0
  }

  function View(d: Donation): DonationView {
    DonationView(d.id, d.amount, d.status, d.createdAt)
  }

  function Views(ds: seq<Donation>): (r: seq<DonationView>)
    ensures |r| == |ds| && forall i :: 0 <= i < |ds| ==> r[i] == View(ds[i])
  {
    seq(|ds|, i requires 0 <= i < |ds| => View(ds[i]))
  }

  /** `ORDER BY created_at DESC`. */
  ghost predicate NewestFirstOrder(ds: seq<Donation>) {
    forall i, j :: 0 <= i < j < |ds| ==> ds[i].createdAt >= ds[j].createdAt
  }

  /** A row no older than every row of a sorted sequence can go in front of it. */
  lemma PrependNewest(x: Donation, ds: seq<Donation>)
    requires NewestFirstOrder(ds)
    requires forall j :: 0 <= j < |ds| ==> x.createdAt >= ds[j].createdAt
    ensures NewestFirstOrder([x] + ds)
  {
    var r := [x] + ds;
    forall i, j | 0 <= i < j < |r|
      ensures r[i].createdAt >= r[j].createdAt
    {
      if i > 0 {
        assert r[i] == ds[i - 1] && r[j] == ds[j - 1];
      }
    }
  }

  /** Inserts `d` before the first row that is not newer than it. */
  function InsertByDate(d: Donation, ds: seq<Donation>): (r: seq<Donation>)
    requires NewestFirstOrder(ds)
    ensures NewestFirstOrder(r)
    ensures multiset(r) == multiset(ds) + multiset{d}
    ensures |r| == |ds| + 1
  {
    if ds == [] then [d]
    else if d.createdAt >= ds[0].createdAt then
      PrependNewest(d, ds);
      [d] + ds
    else
      var rest := InsertByDate(d, ds[1..]);
      assert ds == [ds[0]] + ds[1..];
      assert forall j :: 0 <= j < |rest| ==> ds[0].createdAt >= rest[j].createdAt by {
        forall j | 0 <= j < |rest|
          ensures ds[0].createdAt >= rest[j].createdAt
        {
          assert rest[j] in multiset(rest);
          if rest[j] != d {
            assert rest[j] in multiset(ds[1..]);
            var k :| 0 <= k < |ds[1..]| && ds[1..][k] == rest[j];
            assert ds[k + 1] == rest[j];
          }
        }
      }
      PrependNewest(ds[0], rest);
      [ds[0]] + rest
  }

  /** The rows sorted newest first; among rows of the same date the table order is kept. */
  function NewestFirst(ds: seq<Donation>): (r: seq<Donation>)
    ensures NewestFirstOrder(r)
    ensures multiset(r) == multiset(ds)
    ensures |r| == |ds|
  {
    if ds == [] then []
    else
      assert ds == [ds[0]] + ds[1..];
      InsertByDate(ds[0], NewestFirst(ds[1..]))
  }

  /** `SELECT COALESCE(SUM(amount), 0) ... AND status = 'completed'` over `ds`. */
  function CompletedTotal(ds: seq<Donation>): (total: int)
    ensures (forall i :: 0 <= i < |ds| ==> ds[i].amount > 0) ==> total >= 0
  {
    if ds == [] then 0
    else (if ds[0].status == StatusCompleted then ds[0].amount else 0) + CompletedTotal(ds[1..])
  }

  /** With positive amounts, the total is positive exactly when some row is completed. */
  lemma {:induction false} TotalPositiveIffCompleted(ds: seq<Donation>)
    requires forall i :: 0 <= i < |ds| ==> ds[i].amount > 0
    ensures CompletedTotal(ds) > 0 <==> exists i :: 0 <= i < |ds| && ds[i].status == StatusCompleted
  {
    if ds != [] {
      TotalPositiveIffCompleted(ds[1..]);
      if exists i :: 0 <= i < |ds[1..]| && ds[1..][i].status == StatusCompleted {
        var i :| 0 <= i < |ds[1..]| && ds[1..][i].status == StatusCompleted;
        assert ds[i + 1].status == StatusCompleted;
      }
      if exists i :: 0 <= i < |ds| && ds[i].status == StatusCompleted {
        var i :| 0 <= i < |ds| && ds[i].status == StatusCompleted;
        if i > 0 {
          assert ds[1..][i - 1].status == StatusCompleted;
        }
      }
    }
  }

  lemma {:induction false} CompletedTotalAppend(ds: seq<Donation>, d: Donation)
    ensures CompletedTotal(ds + [d]) == CompletedTotal(ds) + (if d.status == StatusCompleted then d.amount else 0)
  {
    if ds != [] {
      assert (ds + [d])[1..] == ds[1..] + [d];
      CompletedTotalAppend(ds[1..], d);
    }
  }

  lemma {:induction false} DonationsOfAppend(ds: seq<Donation>, d: Donation, uid: nat)
    ensures DonationsOf(ds + [d], uid) == DonationsOf(ds, uid) + (if d.userId == uid then [d] else [])
  {
    if ds != [] {
      assert (ds + [d])[1..] == ds[1..] + [d];
      DonationsOfAppend(ds[1..], d, uid);
    }
  }

  /** In a valid database, a user's completed total is positive exactly when they have a completed donation. */
  lemma CompletedTotalOfUser(t: Tables, uid: nat)
    ensures Valid(t) ==>
      (CompletedTotal(DonationsOf(t.donations, uid)) > 0 <==>
       exists d :: d in t.donations && d.userId == uid && d.status == StatusCompleted)
  {
    var mine := DonationsOf(t.donations, uid);
    if Valid(t) {
      MineArePositive(t, uid);
      TotalPositiveIffCompleted(mine);
      SomeCompletedIn(mine);
      if exists d :: d in t.donations && d.userId == uid && d.status == StatusCompleted {
        var d :| d in t.donations && d.userId == uid && d.status == StatusCompleted;
        assert d in mine;
      }
    }
  }

  /** Some position holds a completed row exactly when some completed row is a member. */
  lemma SomeCompletedIn(ds: seq<Donation>)
    ensures (exists i :: 0 <= i < |ds| && ds[i].status == StatusCompleted) <==>
            (exists d :: d in ds && d.status == StatusCompleted)
  {
    if exists d :: d in ds && d.status == StatusCompleted {
      var d :| d in ds && d.status == StatusCompleted;
      var i :| 0 <= i < |ds| && ds[i] == d;
    }
  }

  lemma MineArePositive(t: Tables, uid: nat)
    requires Valid(t)
    ensures var mine := DonationsOf(t.donations, uid);
      forall i :: 0 <= i < |mine| ==> mine[i].amount > 0
  {
    var mine := DonationsOf(t.donations, uid);
    forall i | 0 <= i < |mine|
      ensures mine[i].amount > 0
    {
      assert mine[i] in t.donations;
    }
  }

  /** GET: the user's donations newest first, the completed total and whether it is positive. */
  function ListDonations(t: Tables, uid: nat): (r: DonationStatus)
    ensures var mine := DonationsOf(t.donations, uid);
      && r.donations == Views(NewestFirst(mine))
      && r.total == CompletedTotal(mine)
      && (r.hasDonated <==> r.total > 0)
    ensures Valid(t) ==>
      (r.hasDonated <==> exists d :: d in t.donations && d.userId == uid && d.status == StatusCompleted)
  {
    var mine := DonationsOf(t.donations, uid);
    var total := CompletedTotal(mine);
    CompletedTotalOfUser(t, uid);
    DonationStatus(Views(NewestFirst(mine)), total, total > 0)
  }

  /** The row a successful POST inserts. */
  function NewDonation(t: Tables, uid: nat, amount: int, now: int): Donation {
    Donation(t.nextDonationId, uid, amount, StatusCompleted, now)
  }

  /** POST for the session's user `uid`. */
  function CreateDonation(t: Tables, uid: nat, amount: Amount, now: int): (o: Outcome)
    ensures !ValidAmount(amount) ==> o == Outcome(t, Fail(400, MsgInvalidAmount))
    ensures ValidAmount(amount) ==>
      var d := NewDonation(t, uid, amount.value, now);
      && o.tables == t.(donations := t.donations + [d], nextDonationId := t.nextDonationId + 1)
      && o.response == Response(201, DonationCreated(View(d)))
    ensures Valid(t) ==> Valid(o.tables)
  {
    if !ValidAmount(amount) then Outcome(t, Fail(400, MsgInvalidAmount))
    else
      var d := NewDonation(t, uid, amount.value, now);
      Outcome(t.(donations := t.donations + [d], nextDonationId := t.nextDonationId + 1),
              Response(201, DonationCreated(View(d))))
  }

  /** The handler: preflight, then the token and session checks, then the method. */
  function Handle(t: Tables, req: Request, now: int): (o: Outcome)
    requires IdsUnique(t.users)
    ensures MethodOf(req) == "OPTIONS" ==> o == Outcome(t, Preflight)
    ensures MethodOf(req) != "OPTIONS" && !Truthy(req.authToken) ==> o == Outcome(t, Fail(401, MsgAuthRequired))
    ensures (MethodOf(req) != "OPTIONS" && Truthy(req.authToken)
             && SessionOwner(t, req.authToken.value, now).None?) ==> o == Outcome(t, Fail(401, MsgInvalidToken))
    ensures o.response.status != 401 <==>
      MethodOf(req) == "OPTIONS" || (Truthy(req.authToken) && SessionOwner(t, req.authToken.value, now).Some?)
    ensures (MethodOf(req) !in {"OPTIONS", "GET", "POST"} && Truthy(req.authToken)
             && SessionOwner(t, req.authToken.value, now).Some?) ==> o == Outcome(t, MethodNotAllowed)
    ensures (MethodOf(req) == "POST" && Truthy(req.authToken) && SessionOwner(t, req.authToken.value, now).Some?) ==>
      o == CreateDonation(t, t.sessions[req.authToken.value].userId, AmountOf(req), now)
    ensures (MethodOf(req) == "GET" && Truthy(req.authToken) && SessionOwner(t, req.authToken.value, now).Some?) ==>
      o == Outcome(t, Response(200, Donations(ListDonations(t, t.sessions[req.authToken.value].userId))))
    ensures MethodOf(req) != "POST" ==> o.tables == t
    ensures Valid(t) ==> Valid(o.tables)
  {
    var m := MethodOf(req);
    if m == "OPTIONS" then Outcome(t, Preflight)
    else if !Truthy(req.authToken) then Outcome(t, Fail(401, MsgAuthRequired))
    else
      match SessionOwner(t, req.authToken.value, now)
      case None => Outcome(t, Fail(401, MsgInvalidToken))
      case Some(e) =>
        var uid := t.users[e].id;
        if m == "POST" then CreateDonation(t, uid, AmountOf(req), now)
        else if m == "GET" then Outcome(t, Response(200, Donations(ListDonations(t, uid))))
        else Outcome(t, MethodNotAllowed)
  }

  /** A row appended to a user's rows appears in their newest-first listing. */
  lemma AppendedIsListed(mine: seq<Donation>, d: Donation)
    ensures View(d) in Views(NewestFirst(mine + [d]))
  {
    var sorted := NewestFirst(mine + [d]);
    assert (mine + [d])[|mine|] == d;
    assert d in multiset(mine + [d]);
    assert d in multiset(sorted);
    var i :| 0 <= i < |sorted| && sorted[i] == d;
    assert Views(sorted)[i] == View(d);
  }

  /** A recorded donation shows up in the donor's listing: it adds its amount to the total, which is then positive. */
  lemma DonationIsListed(t: Tables, uid: nat, amount: int, now: int)
    requires amount > 0
    ensures var o := CreateDonation(t, uid, Number(amount), now);
      var before := ListDonations(t, uid);
      var after := ListDonations(o.tables, uid);
      && o.response.payload.DonationCreated? && o.response.payload.donation in after.donations
      && |after.donations| == |before.donations| + 1
      && after.total == before.total + amount
      && (Valid(t) ==> after.hasDonated)
  {
    var d := NewDonation(t, uid, amount, now);
    DonationsOfAppend(t.donations, d, uid);
    AppendedIsListed(DonationsOf(t.donations, uid), d);
    CompletedTotalAppend(DonationsOf(t.donations, uid), d);
    if Valid(t) {
      MineArePositive(t, uid);
    }
  }

  method HandleCreateDonation(db: Db, uid: nat, amount: Amount, now: int) returns (response: Response)
    modifies db
    ensures Outcome(db.State(), response) == CreateDonation(old(db.State()), uid, amount, now)
  {
    if !(amount.Number? && amount.value > 0) {
      return Fail(400, MsgInvalidAmount);
    }
    var d := Donation(db.nextDonationId, uid, amount.value, StatusCompleted, now);
    db.donations := db.donations + [d];
    db.nextDonationId := db.nextDonationId + 1;
    response := Response(201, DonationCreated(View(d)));
  }

  method Handler(db: Db, req: Request, now: int) returns (response: Response)
    requires IdsUnique(db.users)
    modifies db
    ensures Outcome(db.State(), response) == Handle(old(db.State()), req, now)
  {
    var m := MethodOf(req);
    if m == "OPTIONS" {
      return Preflight;
    }
    if !Truthy(req.authToken) {
      return Fail(401, MsgAuthRequired);
    }
    var owner := SessionOwner(db.State(), req.authToken.value, now);
    if owner.None? {
      return Fail(401, MsgInvalidToken);
    }
    var uid := db.users[owner.value].id;
    if m == "POST" {
      response := HandleCreateDonation(db, uid, AmountOf(req), now);
    } else if m == "GET" {
      response := Response(200, Donations(ListDonations(db.State(), uid)));
    } else {
      response := MethodNotAllowed;
    }
  }
}
