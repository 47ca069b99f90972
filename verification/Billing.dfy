/** The anniversary billing run: the downgrade ladder, and what a whole run settles. */
module Billing {
  import opened Basics
  import opened Calendar
  import opened Store
  import Lifecycle
  import Blocking

  // ---------- the ladder ----------

  lemma FeeMonotone(card: RateCard, a: int, b: int)
    requires a <= b
    ensures card.mrc <= Fee(card, a) <= Fee(card, b)
    ensures a <= 2 ==> Fee(card, a) == card.mrc
  {
    var ea := if a - 2 < 0 then 0 else a - 2;
    var eb := if b - 2 < 0 then 0 else b - 2;
    assert (eb - ea) * card.channelFee >= 0;
    assert eb * card.channelFee - ea * card.channelFee == (eb - ea) * card.channelFee;
    assert ea * card.channelFee >= 0;
  }

  /** The walk stops at the largest affordable count; it never drops below two channels (or the
      current count, if smaller), and finds nothing exactly when even the MRC is out of reach. */
  lemma {:induction false} LadderIsBest(card: RateCard, balance: int, current: int)
    ensures var t := Ladder(card, balance, current);
      && (t == -1 <==> current < 0 || balance < card.mrc)
      && (t != -1 ==> 0 <= t <= current && Fee(card, t) <= balance && (t < current ==> balance < Fee(card, t + 1))
                      && (t >= 2 || t == current))
    ensures forall k :: Ladder(card, balance, current) < k <= current ==> balance < Fee(card, k)
    decreases current + 1
  {
    hide Fee;
    if current >= 0 {
      FeeMonotone(card, current, current);
      LadderIsBest(card, balance, current - 1);
      FeeMonotone(card, 0, 2);
      FeeMonotone(card, 1, 2);
    }
  }

  lemma QuotientIs(a: nat, d: nat, k: nat)
    requires d > 0
    ensures k * d <= a <==> k <= a / d
  {
    var q := a / d;
    assert a == d * q + a % d;
    if k <= q {
      assert (q - k) * d >= 0;
      assert k * d == q * d - (q - k) * d;
    } else {
      assert (k - q - 1) * d >= 0;
      assert k * d == q * d + d + (k - q - 1) * d;
    }
  }

  /** The walk as one division. */
  lemma LadderClosedForm(card: RateCard, balance: int, current: int)
    requires current >= 0 && balance >= card.mrc
    ensures Ladder(card, balance, current) ==
              if current <= 2 || card.channelFee == 0 then current
              else
                var extra := (balance - card.mrc) / card.channelFee;
                if 2 + extra < current then 2 + extra else current
  {
    LadderIsBest(card, balance, current);
    var t := Ladder(card, balance, current);
    hide Ladder;
    if current <= 2 || card.channelFee == 0 {
      FeeMonotone(card, current, if current <= 2 then 2 else current);
      assert Fee(card, current) == card.mrc by { if current > 2 { assert (current - 2) * card.channelFee == 0; } }
    } else {
      var extra := (balance - card.mrc) / card.channelFee;
      QuotientIs(balance - card.mrc, card.channelFee, t - 2);
      if t < current {
        QuotientIs(balance - card.mrc, card.channelFee, t - 1);
      }
    }
  }

  // ---------- one order ----------

  predicate Billable(db: Db, oid: int) {
    oid in db.orders && db.orders[oid].status == Active && db.orders[oid].user in db.users
        && db.orders[oid].card in db.cards
  }

  lemma ChargeOrderMoney(db: Db, oid: int, target: int, now: Time)
    requires Billable(db, oid)
    ensures var t := ChargeOrder(db, oid, target, now);
      var o := db.orders[oid];
      var mrc: int := db.cards[o.card].mrc;
      && t.users == db.users[o.user := db.users[o.user].(balance := db.users[o.user].balance - Fee(db.cards[o.card],
          target))]
      && t.runs == db.runs + [BillingRow(oid, target, mrc, Fee(db.cards[o.card], target) - mrc,
                                         if target < o.channels then Downgraded else Charged)]
  {
    var o := db.orders[oid];
    FeeMonotone(db.cards[o.card], target, target);
    hide Fee, NextAnniversary;
  }

  /** Billing one active order: it is suspended with balances and ledger untouched exactly when its
      balance is below the MRC (or its count is negative); otherwise the fee of the best count is taken
      and the next bill falls after `now`. Every other order, and every other user, is left alone. */
  lemma BillOrderEffect(db: Db, oid: int, now: Time)
    requires Billable(db, oid) && Valid(now)
    ensures var (t, r) := BillOrder(db, oid, now);
      var o := db.orders[oid];
      var u := db.users[o.user];
      && r.Some?
      && (forall a :: a in db.orders && a != oid ==> a in t.orders && t.orders[a] == db.orders[a])
      && t.orders.Keys == db.orders.Keys && t.users.Keys == db.users.Keys && t.cards == db.cards
      && oid in t.orders && t.orders[oid].user == o.user && t.orders[oid].card == o.card
      && (forall v :: v in db.users && v != o.user ==> t.users[v] == db.users[v])
      && |t.runs| == |db.runs| + 1 && t.runs[..|db.runs|] == db.runs && t.runs[|db.runs|].order == oid
      && r == Some(t.runs[|db.runs|].outcome)
      && t.users[o.user].balance == u.balance - t.runs[|db.runs|].mrcCents - t.runs[|db.runs|].channelCents
      && (r == Some(CancelledOutcome) <==> o.channels < 0 || u.balance < db.cards[o.card].mrc)
      && (r == Some(CancelledOutcome) ==>
          t.orders[oid].status == Suspended && t.users == db.users && t.ledger == db.ledger)
      && (r != Some(CancelledOutcome) ==>
            && t.orders[oid].status == Active && Instant(t.orders[oid].nextBilling) > Instant(now)
            && 0 <= t.users[o.user].balance <= u.balance
            && t.orders[oid].channels <= o.channels && (r == Some(Downgraded) <==> t.orders[oid].channels < o.channels))
  {
    var o := db.orders[oid];
    var card := db.cards[o.card];
    var target := Ladder(card, db.users[o.user].balance, o.channels);
    LadderIsBest(card, db.users[o.user].balance, o.channels);
    FeeMonotone(card, target, target);
    NextAnniversaryIsLeast(now, o.anniversaryDay);
    hide NextAnniversary, Ladder, Fee, ChargeOrder, Instant;
    if target >= 0 {
      Lifecycle.ChargeOrderFrame(db, oid, target, now);
      ChargeOrderMoney(db, oid, target, now);
    }
  }

  // ---------- the run ----------

  /** What the due query returns: the active orders whose billing time has come, earliest first. */
  ghost predicate IsDue(db: Db, ids: seq<int>, now: Time) {
    && (forall i, j :: 0 <= i < j < |ids| ==> ids[i] != ids[j])
    && (forall a :: a in ids <==> (a in db.orders && db.orders[a].status == Active
                                   && Instant(db.orders[a].nextBilling) <= Instant(now)))
    && (forall i, j :: 0 <= i < j < |ids| && ids[i] in db.orders && ids[j] in db.orders ==>
          Instant(db.orders[ids[i]].nextBilling) <= Instant(db.orders[ids[j]].nextBilling))
  }

  datatype Result = Result(processed: int, charged: int, downgraded: int, suspended: int, errors: int)

  function Count(r: Result, outcome: Option<BillOutcome>): Result {
    match outcome
    case None => r.(processed := r.processed + 1)
    case Some(Charged) => r.(processed := r.processed + 1, charged := r.charged + 1)
    case Some(Downgraded) => r.(processed := r.processed + 1, downgraded := r.downgraded + 1)
    case Some(CancelledOutcome) => r.(processed := r.processed + 1, suspended := r.suspended + 1)
  }

  function Tally(db: Db, ids: seq<int>, now: Time, r: Result): Result
    decreases |ids|
  {
    if ids == [] then r else Tally(BillOrder(db, ids[0], now).0, ids[1..], now, Count(r, BillOrder(db, ids[0], now).1))
  }

  /** Cents billed to a user by a stretch of billing rows. */
  function BilledTo(rows: seq<BillingRow>, orders: map<int, Order>, user: int): int {
    if rows == [] then 0
    else
      (if rows[0].order in orders && orders[rows[0].order].user == user then rows[0].mrcCents + rows[0].channelCents
       else 0)
      + BilledTo(rows[1..], orders, user)
  }

  lemma {:induction false} BilledToSameUsers(rows: seq<BillingRow>, a: map<int, Order>, b: map<int, Order>, user: int)
    requires a.Keys == b.Keys && forall o :: o in a ==> a[o].user == b[o].user
    ensures BilledTo(rows, a, user) == BilledTo(rows, b, user)
  {
    if rows != [] {
      BilledToSameUsers(rows[1..], a, b, user);
    }
  }

  ghost predicate AllBillable(db: Db, ids: seq<int>) {
    && (forall i, j :: 0 <= i < j < |ids| ==> ids[i] != ids[j])
    && (forall i :: 0 <= i < |ids| ==> Billable(db, ids[i]))
  }

  /** What billing a list of distinct active orders leaves of the orders. */
  ghost predicate Settled(db: Db, t: Db, ids: seq<int>, now: Time) {
    && t.orders.Keys == db.orders.Keys
    && (forall a :: a in db.orders ==> t.orders[a].user == db.orders[a].user)
    && (forall a :: a in db.orders && a !in ids ==> t.orders[a] == db.orders[a])
    && (forall a :: a in ids && a in t.orders ==>
          t.orders[a].status == Suspended
              || (t.orders[a].status == Active && Instant(t.orders[a].nextBilling) > Instant(now)))
  }

  /** The new billing rows: one a listed order, in list order, after the old ones. */
  ghost predicate RowsFor(db: Db, t: Db, ids: seq<int>) {
    && |t.runs| == |db.runs| + |ids| && t.runs[..|db.runs|] == db.runs
    && (forall i :: 0 <= i < |ids| ==> t.runs[|db.runs| + i].order == ids[i])
  }

  ghost predicate MoneyMatches(db: Db, t: Db) {
    && t.users.Keys == db.users.Keys && |t.runs| >= |db.runs|
    && (forall u :: u in db.users ==>
          && t.users[u].balance == db.users[u].balance - BilledTo(t.runs[|db.runs|..], db.orders, u)
          && t.users[u].balance <= db.users[u].balance
          && (t.users[u].balance == db.users[u].balance || t.users[u].balance >= 0))
  }

  lemma OneStepBillable(db: Db, ids: seq<int>, now: Time)
    requires AllBillable(db, ids) && ids != [] && Valid(now)
    ensures AllBillable(BillOrder(db, ids[0], now).0, ids[1..])
  {
    hide BillOrder;
    BillOrderEffect(db, ids[0], now);
    var t := BillOrder(db, ids[0], now).0;
    forall i | 0 <= i < |ids[1..]| ensures Billable(t, ids[1..][i]) {
      assert Billable(db, ids[i + 1]) && ids[i + 1] != ids[0];
    }
  }

  lemma {:induction false} BillAllSettles(db: Db, ids: seq<int>, now: Time)
    requires AllBillable(db, ids) && Valid(now)
    ensures Settled(db, BillAll(db, ids, now), ids, now)
    decreases |ids|
  {
    hide BillOrder, Instant;
    if ids != [] {
      var t := BillOrder(db, ids[0], now).0;
      BillOrderEffect(db, ids[0], now);
      OneStepBillable(db, ids, now);
      BillAllSettles(t, ids[1..], now);
      assert ids[0] !in ids[1..];
      assert forall a :: a in ids <==> a == ids[0] || a in ids[1..];
    }
  }

  lemma {:induction false} BillAllRows(db: Db, ids: seq<int>, now: Time)
    requires AllBillable(db, ids) && Valid(now)
    ensures RowsFor(db, BillAll(db, ids, now), ids)
    decreases |ids|
  {
    hide BillOrder, Instant;
    if ids != [] {
      var t := BillOrder(db, ids[0], now).0;
      BillOrderEffect(db, ids[0], now);
      OneStepBillable(db, ids, now);
      BillAllRows(t, ids[1..], now);
      var e := BillAll(db, ids, now);
      assert e.runs[..|db.runs|] == t.runs[..|db.runs|];
      assert e.runs[|db.runs|] == t.runs[|db.runs|];
      forall i | 1 <= i < |ids| ensures e.runs[|db.runs| + i].order == ids[i] {
        assert ids[1..][i - 1] == ids[i];
        assert e.runs[|t.runs| + (i - 1)].order == ids[1..][i - 1];
      }
    }
  }

  lemma MoneyStep(db: Db, ids: seq<int>, now: Time)
    requires AllBillable(db, ids) && ids != [] && Valid(now)
    requires var t := BillOrder(db, ids[0], now).0;
      MoneyMatches(t, BillAll(t, ids[1..], now)) && RowsFor(t, BillAll(t, ids[1..], now), ids[1..])
    ensures MoneyMatches(db, BillAll(db, ids, now))
  {
    hide BillOrder, BillAll, Instant;
    var t := BillOrder(db, ids[0], now).0;
    var e := BillAll(t, ids[1..], now);
    assert e == BillAll(db, ids, now) by { BillAllUnfolds(db, ids, now); }
    BillOrderEffect(db, ids[0], now);
    var rows := e.runs[|db.runs|..];
    assert rows[1..] == e.runs[|t.runs|..];
    assert rows[0] == t.runs[|db.runs|] by { assert e.runs[..|t.runs|] == t.runs; }
    forall u | u in db.users
      ensures e.users[u].balance == db.users[u].balance - BilledTo(rows, db.orders, u)
    {
      BilledToSameUsers(rows[1..], t.orders, db.orders, u);
    }
  }

  lemma BillAllUnfolds(db: Db, ids: seq<int>, now: Time)
    requires ids != []
    ensures BillAll(db, ids, now) == BillAll(BillOrder(db, ids[0], now).0, ids[1..], now)
  {
  }

  lemma {:induction false} BillAllMoney(db: Db, ids: seq<int>, now: Time)
    requires AllBillable(db, ids) && Valid(now)
    ensures MoneyMatches(db, BillAll(db, ids, now))
    decreases |ids|
  {
    hide BillOrder, Billable;
    if ids == [] {
      assert db.runs[|db.runs|..] == [];
    } else {
      var t := BillOrder(db, ids[0], now).0;
      OneStepBillable(db, ids, now);
      BillAllMoney(t, ids[1..], now);
      BillAllRows(t, ids[1..], now);
      MoneyStep(db, ids, now);
    }
  }

  lemma {:induction false} TallyAddsUp(db: Db, ids: seq<int>, now: Time, r: Result)
    requires AllBillable(db, ids) && Valid(now)
    ensures var e := Tally(db, ids, now, r);
      && e.processed == r.processed + |ids| && e.errors == r.errors
      && e.charged + e.downgraded + e.suspended == r.charged + r.downgraded + r.suspended + |ids|
    decreases |ids|
  {
    hide BillOrder, Instant;
    if ids != [] {
      BillOrderEffect(db, ids[0], now);
      OneStepBillable(db, ids, now);
      TallyAddsUp(BillOrder(db, ids[0], now).0, ids[1..], now, Count(r, BillOrder(db, ids[0], now).1));
    }
  }

  /** How many of the rows tell of this outcome. */
  function HowMany(rows: seq<BillingRow>, outcome: BillOutcome): nat {
    if rows == [] then 0 else (if rows[0].outcome == outcome then 1 else 0) + HowMany(rows[1..], outcome)
  }

  /** Each counter is the number of new billing rows of its outcome. */
  lemma {:induction false} TallyCounts(db: Db, ids: seq<int>, now: Time, r: Result)
    requires AllBillable(db, ids) && Valid(now)
    ensures |BillAll(db, ids, now).runs| >= |db.runs|
    ensures var rows := BillAll(db, ids, now).runs[|db.runs|..];
      var e := Tally(db, ids, now, r);
      && e.charged == r.charged + HowMany(rows, Charged) && e.downgraded == r.downgraded + HowMany(rows, Downgraded)
      && e.suspended == r.suspended + HowMany(rows, CancelledOutcome)
    decreases |ids|
  {
    hide BillOrder, Instant;
    if ids == [] {
      assert db.runs[|db.runs|..] == [];
    } else {
      var t := BillOrder(db, ids[0], now).0;
      BillOrderEffect(db, ids[0], now);
      OneStepBillable(db, ids, now);
      BillAllRows(t, ids[1..], now);
      TallyCounts(t, ids[1..], now, Count(r, BillOrder(db, ids[0], now).1));
      var e := BillAll(db, ids, now);
      var rows := e.runs[|db.runs|..];
      assert rows[1..] == e.runs[|t.runs|..];
      assert rows[0] == t.runs[|db.runs|] by { assert e.runs[..|t.runs|] == t.runs; }
    }
  }

  /** A run leaves nothing due: every due order got exactly one billing row, the counters add up,
      what the rows bill is what the balances lost, no billed balance ends below zero, and any due
      list drawn afterwards for the same instant is empty. */
  lemma RunSettlesEverything(db: Db, ids: seq<int>, now: Time, again: seq<int>)
    requires Lifecycle.Inv(db) && Valid(now) && IsDue(db, ids, now)
    requires IsDue(BillAll(db, ids, now), again, now)
    ensures var t := BillAll(db, ids, now);
      var r := Tally(db, ids, now, Result(0, 0, 0, 0, 0));
      && (forall a :: a in t.orders && t.orders[a].status == Active ==> Instant(t.orders[a].nextBilling) > Instant(now))
      && Settled(db, t, ids, now) && RowsFor(db, t, ids) && MoneyMatches(db, t)
      && r.processed == |ids| && r.processed == r.charged + r.downgraded + r.suspended && r.errors == 0
      && again == [] && BillAll(t, again, now) == t
  {
    hide Instant, BillOrder, Lifecycle.OneOrder, Lifecycle.Placed;
    forall i | 0 <= i < |ids| ensures Billable(db, ids[i]) {
      assert ids[i] in ids;
    }
    BillAllSettles(db, ids, now);
    BillAllRows(db, ids, now);
    BillAllMoney(db, ids, now);
    TallyAddsUp(db, ids, now, Result(0, 0, 0, 0, 0));
    NothingDue(db, BillAll(db, ids, now), ids, now, again);
  }

  lemma NothingDue(db: Db, t: Db, ids: seq<int>, now: Time, again: seq<int>)
    requires IsDue(db, ids, now) && Settled(db, t, ids, now) && IsDue(t, again, now)
    ensures forall a :: a in t.orders && t.orders[a].status == Active ==>
        Instant(t.orders[a].nextBilling) > Instant(now)
    ensures again == []
  {
    hide Instant;
    forall a | a in t.orders && t.orders[a].status == Active ensures Instant(t.orders[a].nextBilling) > Instant(now) {
      if a !in ids {
        assert t.orders[a] == db.orders[a];
      }
    }
    HasMember(again);
  }

  lemma HasMember(ids: seq<int>)
    ensures ids == [] || exists a :: a in ids
  {
    if ids != [] {
      var a := ids[0];
      assert a in ids;
    }
  }

  // ---------- the run, among everything else ----------

  function Bills(ids: seq<int>, now: Time): seq<Step> {
    seq(|ids|, i requires 0 <= i < |ids| => DoBill(ids[i], now))
  }

  /** A billing run is a run of the machine: one transaction an order. */
  lemma {:induction false} BillAllIsARun(db: Db, ids: seq<int>, now: Time)
    ensures BillAll(db, ids, now) == Exec(db, Bills(ids, now))
    decreases |ids|
  {
    hide BillOrder;
    if ids != [] {
      assert Bills(ids, now)[1..] == Bills(ids[1..], now);
      BillAllIsARun(BillOrder(db, ids[0], now).0, ids[1..], now);
    }
  }

  /** Never due at or before `now` again, whatever its status becomes. */
  ghost predicate Past(o: Order, now: Time) {
    o.status in {Suspended, Cancelled} || Instant(o.nextBilling) > Instant(now)
  }

  /** No bill of another run is drawn for an earlier time. */
  ghost predicate NotEarlier(step: Step, now: Time) {
    step.DoBill? ==> Valid(step.now) && Instant(now) <= Instant(step.now)
  }

  lemma StepKeepsPast(db: Db, step: Step, a: int, now: Time)
    requires Lifecycle.Linked(db) && a in db.orders && Past(db.orders[a], now) && NotEarlier(step, now)
    ensures a in Next(db, step).orders && Past(Next(db, step).orders[a], now)
  {
    hide Instant, Next;
    if step.DoCreateOrder? || step.DoAdminCreate? {
      CreationKeepsPast(db, step, a, now);
    } else if step.DoBill? {
      hide Lifecycle.Linked;
      BillKeepsPast(db, step.order, step.now, a, now);
      Lifecycle.BillIs(db, step);
    } else if step.DoEdit? || step.DoPatch? {
      Lifecycle.EditShape(db, step);
    } else if step.DoCancel? || step.DoSwap? || step.DoBlock? || step.DoUnblock? || step.DoApprove? {
      StatusKeepsPast(db, step, a, now);
    } else {
      Blocking.OthersKeepOrders(db, step);
    }
  }

  lemma CreationKeepsPast(db: Db, step: Step, a: int, now: Time)
    requires a in db.orders && a < db.nextId && Past(db.orders[a], now) && (step.DoCreateOrder? || step.DoAdminCreate?)
    ensures a in Next(db, step).orders && Past(Next(db, step).orders[a], now)
  {
    hide Instant, CreateOrder, AdminCreateOrder;
    match step
    case DoCreateOrder(reseller, user, did, channels, route, day, bundle, t) =>
      Blocking.CreateAddsOne(db, reseller, user, did, channels, route, day, bundle, t);
    case DoAdminCreate(user, did, channels, route, day, bundle, t) =>
      Blocking.CreateAddsOne(db, 0, user, did, channels, route, day, bundle, t);
  }

  lemma StatusKeepsPast(db: Db, step: Step, a: int, now: Time)
    requires a in db.orders && Past(db.orders[a], now)
    requires step.DoCancel? || step.DoSwap? || step.DoBlock? || step.DoUnblock? || step.DoApprove?
    ensures a in Next(db, step).orders && Past(Next(db, step).orders[a], now)
  {
    hide Perform, Instant, ActiveOn, UniqueActive, CancelOrder, SwapDid, Block, Unblock, ApproveBundle;
    OrderStepIs(db, step);
    if step.DoCancel? || step.DoSwap? {
      CancelKeepsPast(db, step, a, now);
    } else {
      SweepKeepsPast(db, step, a, now);
    }
  }

  lemma CancelKeepsPast(db: Db, step: Step, a: int, now: Time)
    requires a in db.orders && Past(db.orders[a], now)
    ensures step.DoCancel? ==> var r := CancelOrder(db, step.requester, step.order);
              r.Done? ==> a in r.db.orders && Past(r.db.orders[a], now)
    ensures step.DoSwap? ==> var r := SwapDid(db, step.order, step.did); r.Done? ==>
        a in r.db.orders && Past(r.db.orders[a], now)
  {
    hide Instant, ActiveOn;
  }

  lemma SweepKeepsPast(db: Db, step: Step, a: int, now: Time)
    requires a in db.orders && Past(db.orders[a], now)
    ensures step.DoBlock? ==> var r := Block(db, step.user, step.reason); r.Done? ==>
        a in r.db.orders && Past(r.db.orders[a], now)
    ensures step.DoUnblock? ==> var r := Unblock(db, step.user); r.Done? ==>
        a in r.db.orders && Past(r.db.orders[a], now)
    ensures step.DoApprove? ==> var r := ApproveBundle(db, step.kyc); r.Done? ==>
        a in r.db.orders && Past(r.db.orders[a], now)
  {
    hide Instant, UniqueActive;
  }

  lemma BillKeepsPast(db: Db, oid: int, t: Time, a: int, now: Time)
    requires Lifecycle.Linked(db) && a in db.orders && Past(db.orders[a], now) && Valid(t) && Instant(now) <= Instant(t)
    ensures a in BillOrder(db, oid, t).0.orders && Past(BillOrder(db, oid, t).0.orders[a], now)
  {
    hide BillOrder, Instant;
    if Billable(db, oid) {
      BillOrderEffect(db, oid, t);
    } else {
      NotBillable(db, oid, t);
    }
  }

  lemma NotBillable(db: Db, oid: int, t: Time)
    requires !Billable(db, oid)
    ensures BillOrder(db, oid, t) == (db, None)
  {
  }

  lemma {:induction false} RunKeepsPast(db: Db, steps: seq<Step>, a: int, now: Time)
    requires Lifecycle.Linked(db) && a in db.orders && Past(db.orders[a], now)
    requires forall i :: 0 <= i < |steps| ==> NotEarlier(steps[i], now)
    ensures a in Exec(db, steps).orders && Past(Exec(db, steps).orders[a], now)
    decreases |steps|
  {
    hide Next, Past, NotEarlier, Lifecycle.Linked;
    if steps != [] {
      StepKeepsPast(db, steps[0], a, now);
      Lifecycle.StepKeepsLinked(db, steps[0]);
      RunKeepsPast(Next(db, steps[0]), steps[1..], a, now);
    }
  }

  /** Over every interleaving of a billing run with all other handlers: an order that is active when its turn comes
      is not due at `now` afterwards, be it blocked, unblocked, edited, swapped or billed by a later run meanwhile. */
  lemma BilledStaysSettled(db: Db, a: int, now: Time, after: seq<Step>)
    requires Lifecycle.Linked(db) && Valid(now) && a in db.orders && db.orders[a].status == Active
    requires forall i :: 0 <= i < |after| ==> NotEarlier(after[i], now)
    ensures var t := Exec(Next(db, DoBill(a, now)), after);
      a in t.orders && (t.orders[a].status == Active ==> Instant(t.orders[a].nextBilling) > Instant(now))
  {
    hide Instant, BillOrder, NotEarlier, Exec;
    BillOrderEffect(db, a, now);
    Lifecycle.StepKeepsLinked(db, DoBill(a, now));
    RunKeepsPast(Next(db, DoBill(a, now)), after, a, now);
  }

  // ---------- debits that are not calls ----------

  lemma BillIsCovered(db: Db, oid: int, now: Time, u: int)
    requires u in db.users
    ensures var t := BillOrder(db, oid, now).0;
      u in t.users && (t.users[u].balance != db.users[u].balance ==> 0 <= t.users[u].balance)
  {
    hide ChargeOrder, Ladder, Fee, NextAnniversary;
    if Billable(db, oid) {
      var o := db.orders[oid];
      var target := Ladder(db.cards[o.card], db.users[o.user].balance, o.channels);
      LadderIsBest(db.cards[o.card], db.users[o.user].balance, o.channels);
      ChargeOrderMoney(db, oid, target, now);
    } else {
      NotBillable(db, oid, now);
    }
  }

  lemma SetupFeeIsCovered(db: Db, step: Step, u: int)
    requires u in db.users && (step.DoCreateOrder? || step.DoAdminCreate?)
    ensures var t := Next(db, step);
      u in t.users && (t.users[u].balance != db.users[u].balance ==> 0 <= t.users[u].balance)
  {
    hide NextAnniversary, ActiveOn;
  }

  /** Money leaves a balance in four ways: a call's charge, a correction by an admin, the monthly bill and the setup
      fee of an order. The last two never take what is not there. */
  lemma FeesAreCovered(db: Db, step: Step, u: int)
    requires u in db.users && u < db.nextId && u in Next(db, step).users
    requires !step.DoCallCharge? && !(step.DoAdminTopUp? && step.cents < 0)
    ensures Next(db, step).users[u].balance < db.users[u].balance ==> 0 <= Next(db, step).users[u].balance
  {
    hide Next;
    if step.DoBill? {
      Lifecycle.BillIs(db, step);
      BillIsCovered(db, step.order, step.now, u);
    } else if step.DoCreateOrder? || step.DoAdminCreate? {
      SetupFeeIsCovered(db, step, u);
    } else if step.DoEdit? || step.DoPatch? {
      Lifecycle.EditShape(db, step);
    } else {
      NothingTaken(db, step, u);
    }
  }

  lemma NothingTaken(db: Db, step: Step, u: int)
    requires u in db.users && u < db.nextId && u in Next(db, step).users
    requires !step.DoCallCharge? && !(step.DoAdminTopUp? && step.cents < 0)
    requires !step.DoBill? && !step.DoCreateOrder? && !step.DoAdminCreate? && !step.DoEdit? && !step.DoPatch?
    ensures Next(db, step).users[u].balance >= db.users[u].balance
  {
    hide BillOrder, CreateOrder, AdminCreateOrder, EditWrite, PatchWrite, ActiveOn, UniqueActive, RowsWithout,
        QuarantineAll,
         RestoreAll, ActivateFor, CancelAllOf, ReturnAll, NumbersOf;
  }
}
