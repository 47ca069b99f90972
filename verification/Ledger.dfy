/** The append-only ledger against the cached balances, over every run of the handlers. */
module Ledger {
  import opened Basics
  import opened Calendar
  import opened Store
  import Lifecycle

  /** The sum of a user's ledger deltas. */
  function Total(ledger: seq<LedgerRow>, user: int): int {
    if ledger == [] then 0
    else
      var n := |ledger| - 1;
      Total(ledger[..n], user) + if ledger[n].user == user then ledger[n].delta else 0
  }

  /** Every row's balance_after is its user's running sum up to and including the row. */
  ghost predicate Running(ledger: seq<LedgerRow>) {
    forall i :: 0 <= i < |ledger| ==> ledger[i].balanceAfter == Total(ledger[..i + 1], ledger[i].user)
  }

  ghost predicate Books(db: Db) {
    && Running(db.ledger)
    && (forall u :: u in db.users ==> db.users[u].balance == Total(db.ledger, u))
    && (forall i :: 0 <= i < |db.ledger| ==> db.ledger[i].user < db.nextId)
    && (forall u :: u in db.users ==> u < db.nextId)
  }

  lemma TotalAppend(ledger: seq<LedgerRow>, row: LedgerRow, user: int)
    ensures Total(ledger + [row], user) == Total(ledger, user) + if row.user == user then row.delta else 0
  {
    assert (ledger + [row])[..|ledger|] == ledger;
  }

  lemma RunningAppend(ledger: seq<LedgerRow>, row: LedgerRow)
    requires Running(ledger)
    ensures Running(ledger + [row]) <==> row.balanceAfter == Total(ledger, row.user) + row.delta
  {
    hide Total;
    TotalAppend(ledger, row, row.user);
    var more := ledger + [row];
    forall i | 0 <= i < |ledger| ensures more[i].balanceAfter == Total(more[..i + 1], more[i].user) {
      assert more[..i + 1] == ledger[..i + 1];
    }
    assert more[..|ledger| + 1] == more && more[|ledger|] == row;
  }

  lemma PostKeepsBooks(db: Db, user: int, delta: int, kind: LedgerKind)
    requires Books(db) && user in db.users
    ensures Books(Post(db, user, delta, kind))
  {
    hide Total, Running;
    var row := LedgerRow(user, delta, kind, db.users[user].balance + delta);
    RunningAppend(db.ledger, row);
    forall u | u in db.users
      ensures Total(db.ledger + [row], u) == Total(db.ledger, u) + if row.user == u then row.delta else 0
    {
      TotalAppend(db.ledger, row, u);
    }
  }

  /** Changes that leave balances and ledger alone. */
  lemma BooksIgnore(db: Db, t: Db)
    requires Books(db)
    requires t.ledger == db.ledger && t.users.Keys == db.users.Keys && t.nextId >= db.nextId
    requires forall u :: u in db.users ==> t.users[u].balance == db.users[u].balance
    ensures Books(t)
  {
    hide Total, Running;
  }

  /** A user with no row yet totals zero. */
  lemma {:induction false} NoRowsNoTotal(ledger: seq<LedgerRow>, user: int)
    requires forall i :: 0 <= i < |ledger| ==> ledger[i].user != user
    ensures Total(ledger, user) == 0
  {
    if ledger != [] {
      NoRowsNoTotal(ledger[..|ledger| - 1], user);
    }
  }

  lemma {:induction false} WithoutKeepsOthers(ledger: seq<LedgerRow>, gone: int, user: int)
    requires user != gone
    ensures Total(RowsWithout(ledger, gone), user) == Total(ledger, user)
  {
    if ledger != [] {
      var n := |ledger| - 1;
      WithoutKeepsOthers(ledger[..n], gone, user);
      if ledger[n].user != gone {
        TotalAppend(RowsWithout(ledger[..n], gone), ledger[n], user);
      }
    }
  }

  lemma {:induction false} WithoutKeepsRunning(ledger: seq<LedgerRow>, gone: int, bound: int)
    requires Running(ledger)
    requires forall i :: 0 <= i < |ledger| ==> ledger[i].user < bound
    ensures Running(RowsWithout(ledger, gone))
    ensures forall i :: 0 <= i < |RowsWithout(ledger, gone)| ==> RowsWithout(ledger, gone)[i].user < bound
  {
    hide Total;
    if ledger != [] {
      var n := |ledger| - 1;
      var before := ledger[..n];
      forall i | 0 <= i < n ensures before[i].balanceAfter == Total(before[..i + 1], before[i].user) {
        assert before[..i + 1] == ledger[..i + 1];
      }
      WithoutKeepsRunning(before, gone, bound);
      if ledger[n].user != gone {
        assert ledger == before + [ledger[n]];
        RunningAppend(before, ledger[n]);
        WithoutKeepsOthers(before, gone, ledger[n].user);
        RunningAppend(RowsWithout(before, gone), ledger[n]);
      }
    }
  }

  lemma DeleteKeepsBooks(db: Db, user: int)
    requires Books(db)
    ensures DeleteUser(db, user).Done? ==> Books(DeleteUser(db, user).db)
  {
    hide Total, Running, RowsWithout, CancelAllOf, NumbersOf, ReturnAll;
    if DeleteUser(db, user).Done? {
      WithoutKeepsRunning(db.ledger, user, db.nextId);
      forall u | u in db.users && u != user ensures Total(RowsWithout(db.ledger, user), u) == Total(db.ledger, u) {
        WithoutKeepsOthers(db.ledger, user, u);
      }
    }
  }

  // ---------- billing ----------

  lemma ChargeKeepsBooks(db: Db, oid: int, target: int, now: Time)
    requires Books(db) && oid in db.orders && db.orders[oid].user in db.users && db.orders[oid].card in db.cards
    ensures Books(ChargeOrder(db, oid, target, now))
  {
    hide Books, Post, NextAnniversary, Fee;
    var o := db.orders[oid];
    var mrcPart: int := db.cards[o.card].mrc;
    var chanPart := Fee(db.cards[o.card], target) - mrcPart;
    var db1 := if mrcPart > 0 then Post(db, o.user, -mrcPart, MrcEntry) else db;
    if mrcPart > 0 {
      PostKeepsBooks(db, o.user, -mrcPart, MrcEntry);
      Lifecycle.PostFrame(db, o.user, -mrcPart, MrcEntry);
    }
    var db2 := if chanPart > 0 then Post(db1, o.user, -chanPart, ChannelFeeEntry) else db1;
    if chanPart > 0 {
      PostKeepsBooks(db1, o.user, -chanPart, ChannelFeeEntry);
    }
    BooksIgnore(db2, ChargeOrder(db, oid, target, now));
  }

  lemma BillOrderKeepsBooks(db: Db, oid: int, now: Time)
    requires Books(db)
    ensures Books(BillOrder(db, oid, now).0)
  {
    hide Books, Ladder, ChargeOrder;
    var (t, r) := BillOrder(db, oid, now);
    if r == Some(CancelledOutcome) {
      BooksIgnore(db, SuspendOrder(db, oid));
    }
    if r.Some? {
      var o := db.orders[oid];
      var target := Ladder(db.cards[o.card], db.users[o.user].balance, o.channels);
      if target >= 0 {
        ChargeKeepsBooks(db, oid, target, now);
      }
    }
  }

  // ---------- orders ----------

  lemma PlaceKeepsBooks(db: Db, user: int, did: int, channels: int, route: Route, day: int, bundle: Option<int>,
                        card: int, status: OrderStatus, now: Time)
    requires Books(db) && user in db.users && did in db.dids && card in db.cards
    ensures var r := PlaceOrder(db, user, did, channels, route, day, bundle, card, status, now); r.Done? ==> Books(r.db)
  {
    hide Books, Post, NextAnniversary, ActiveOn;
    var r := PlaceOrder(db, user, did, channels, route, day, bundle, card, status, now);
    if r.Done? {
      var d := DayOrToday(day, now);
      var o := Order(user, did, status, if channels < 0 then 0 else channels, route, None, None, card, d,
                     NextAnniversary(now, d), bundle);
      var db1 := db.(orders := db.orders[db.nextId := o], nextId := db.nextId + 1,
                     dids := db.dids[did := db.dids[did].(status := Assigned)]);
      BooksIgnore(db, db1);
      var nrc: int := db.cards[card].nrc;
      if nrc > 0 {
        PostKeepsBooks(db1, user, -nrc, NrcEntry);
      }
    }
  }

  lemma CreateKeepsBooks(db: Db, reseller: int, user: int, did: int, channels: int, route: Route, day: int,
                         bundle: Option<int>, now: Time)
    requires Books(db)
    ensures var r := CreateOrder(db, reseller, user, did, channels, route, day, bundle, now); r.Done? ==> Books(r.db)
    ensures var r := AdminCreateOrder(db, user, did, channels, route, day, bundle, now); r.Done? ==> Books(r.db)
  {
    hide Books, PlaceOrder;
    if CreateOrder(db, reseller, user, did, channels, route, day, bundle, now).Done?
       || AdminCreateOrder(db, user, did, channels, route, day, bundle, now).Done? {
      PlaceKeepsBooks(db, user, did, channels, route, day, bundle, db.dids[did].card.value,
                      StartStatus(db, user, bundle).value, now);
    }
  }

  lemma AddUserKeepsBooks(db: Db, owner: Option<int>)
    requires Books(db)
    ensures Books(Next(db, AddUser(owner)))
  {
    hide Total, Running;
    NoRowsNoTotal(db.ledger, db.nextId);
  }

  // ---------- every run ----------

  lemma StepKeepsBooks(db: Db, step: Step)
    requires Books(db)
    ensures Books(Next(db, step))
  {
    hide Books, CreateOrder, AdminCreateOrder, BillOrder, DeleteUser, Post, UniqueActive, ActiveOn;
    match step
    case AddUser(owner) => AddUserKeepsBooks(db, owner);
    case DoCreateOrder(reseller, user, did, channels, route, day, bundle, now) =>
      CreateKeepsBooks(db, reseller, user, did, channels, route, day, bundle, now);
    case DoAdminCreate(user, did, channels, route, day, bundle, now) =>
      CreateKeepsBooks(db, 0, user, did, channels, route, day, bundle, now);
    case DoDeleteUser(user) => DeleteKeepsBooks(db, user);
    case DoBill(order, now) => BillOrderKeepsBooks(db, order, now);
    case DoResellerTopUp(_, user, cents) => if user in db.users { PostKeepsBooks(db, user, cents, TopUpEntry); }
    case DoAdminTopUp(user, cents) => if user in db.users { PostKeepsBooks(db, user, cents, TopUpEntry); }
    case DoCallCharge(user, cents) => if user in db.users { PostKeepsBooks(db, user, -cents, CallChargeEntry); }
    case _ => OthersKeepBooks(db, step);
  }

  lemma OthersKeepBooks(db: Db, step: Step)
    requires Books(db)
    requires !step.AddUser? && !step.DoCreateOrder? && !step.DoAdminCreate? && !step.DoDeleteUser? && !step.DoBill?
          && !step.DoResellerTopUp? && !step.DoAdminTopUp? && !step.DoCallCharge?
    ensures Books(Next(db, step))
  {
    hide Books, UniqueActive, ActiveOn, QuarantineAll, RestoreAll, ActivateFor, WriteOrder;
    if step.DoEdit? || step.DoPatch? {
      Lifecycle.EditShape(db, step);
    }
    BooksIgnore(db, Next(db, step));
  }

  /** Over every run, without any guard, each balance is the sum of its ledger rows and each row
      carries the running balance. */
  lemma {:induction false} LedgerConservation(db: Db, steps: seq<Step>)
    requires Books(db)
    ensures Books(Exec(db, steps))
    decreases |steps|
  {
    hide Books, Next;
    if steps != [] {
      StepKeepsBooks(db, steps[0]);
      LedgerConservation(Next(db, steps[0]), steps[1..]);
    }
  }

  lemma FreshBooks(cards: map<int, RateCard>)
    ensures Books(Fresh(cards))
  {
  }
}
