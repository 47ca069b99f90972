/** The order/number invariant over every run of the handlers. */
module Lifecycle {
  import opened Basics
  import opened Calendar
  import opened Store

  predicate Live(o: Order) {
    o.status != Cancelled
  }

  /** A number has at most one order that is not cancelled. */
  ghost predicate OneOrder(orders: map<int, Order>) {
    forall a, b :: a in orders && b in orders && a != b && Live(orders[a]) && Live(orders[b]) ==>
        orders[a].did != orders[b].did
  }

  /** The number behind a live order is assigned; only a suspended order's number may be retired. */
  predicate WellPlaced(o: Order, dids: map<int, Did>) {
    o.did in dids && (dids[o.did].status == Assigned || (o.status == Suspended && dids[o.did].status == Retired))
  }

  ghost predicate Placed(db: Db) {
    forall a :: a in db.orders && Live(db.orders[a]) ==> WellPlaced(db.orders[a], db.dids)
  }

  /** References resolve and ids come from one growing sequence. */
  ghost predicate Linked(db: Db) {
    && (forall a :: a in db.orders ==> a < db.nextId && db.orders[a].user in db.users && db.orders[a].card in db.cards)
    && (forall d :: d in db.dids ==> d < db.nextId)
    && (forall u :: u in db.users ==> u < db.nextId)
  }

  ghost predicate Inv(db: Db) {
    OneOrder(db.orders) && Placed(db) && Linked(db)
  }

  predicate Open(db: Db, did: int) {
    exists a :: a in db.orders && Live(db.orders[a]) && db.orders[a].did == did
  }

  /** The consequence the number pages rely on. */
  lemma FreeNumbersHaveNoOrder(db: Db, did: int)
    requires Inv(db) && did in db.dids && (db.dids[did].status == Available || db.dids[did].status == Reserved)
    ensures !Open(db, did)
  {
  }

  // ---------- generic changes ----------

  /** Orders that keep their number and stay live or get cancelled, over unchanged numbers. */
  lemma StatusOnly(db: Db, t: Db)
    requires Inv(db)
    requires t.dids == db.dids && t.users.Keys == db.users.Keys && t.cards == db.cards && t.nextId == db.nextId
    requires t.orders.Keys == db.orders.Keys
    requires forall a :: a in t.orders ==>
               t.orders[a].did == db.orders[a].did && t.orders[a].user == db.orders[a].user
                   && t.orders[a].card == db.orders[a].card
               && (Live(t.orders[a]) ==> Live(db.orders[a]))
               && (db.orders[a].status == Suspended ==>
                   t.orders[a].status == Suspended || t.orders[a].status == Cancelled)
    ensures Inv(t)
  {
  }

  lemma PostFrame(db: Db, user: int, delta: int, kind: LedgerKind)
    requires user in db.users
    ensures var t := Post(db, user, delta, kind);
      && t.users.Keys == db.users.Keys && t.dids == db.dids && t.orders == db.orders && t.bundles == db.bundles
      && t.cards == db.cards && t.runs == db.runs && t.history == db.history && t.nextId == db.nextId
      && (forall u :: u in db.users ==>
          t.users[u].status == db.users[u].status && t.users[u].reseller == db.users[u].reseller)
  {
  }

  lemma PostKeeps(db: Db, user: int, delta: int, kind: LedgerKind)
    requires Inv(db) && user in db.users
    ensures Inv(Post(db, user, delta, kind))
  {
    hide Post;
    PostFrame(db, user, delta, kind);
    StatusOnly(db, Post(db, user, delta, kind));
  }

  // ---------- orders ----------

  /** Placing an order keeps the invariant exactly when the number has no live order yet. */
  lemma PlaceKeepsIff(db: Db, user: int, did: int, channels: int, route: Route, day: int, bundle: Option<int>,
                      card: int, status: OrderStatus, now: Time)
    requires Inv(db) && user in db.users && did in db.dids && card in db.cards
    requires status == Active || status == KycPending
    requires PlaceOrder(db, user, did, channels, route, day, bundle, card, status, now).Done?
    ensures Inv(PlaceOrder(db, user, did, channels, route, day, bundle, card, status, now).db) <==> !Open(db, did)
  {
    hide NextAnniversary, Post;
    var d := DayOrToday(day, now);
    var o := Order(user, did, status, if channels < 0 then 0 else channels, route, None, None, card, d,
                   NextAnniversary(now, d), bundle);
    var db1 := db.(orders := db.orders[db.nextId := o], nextId := db.nextId + 1,
                   dids := db.dids[did := db.dids[did].(status := Assigned)]);
    InsertKeepsIff(db, db1, o);
    var nrc: int := db.cards[card].nrc;
    if nrc > 0 {
      PostFrame(db1, user, -nrc, NrcEntry);
      if Inv(db1) {
        PostKeeps(db1, user, -nrc, NrcEntry);
      }
    }
  }

  lemma InsertKeepsIff(db: Db, t: Db, o: Order)
    requires Inv(db) && o.user in db.users && o.did in db.dids && o.card in db.cards && Live(o)
    requires t == db.(orders := db.orders[db.nextId := o], nextId := db.nextId + 1,
                      dids := db.dids[o.did := db.dids[o.did].(status := Assigned)])
    ensures Inv(t) <==> !Open(db, o.did)
    ensures OneOrder(t.orders) ==> Inv(t)
  {
    assert db.nextId !in db.orders;
    if Open(db, o.did) {
      var a :| a in db.orders && Live(db.orders[a]) && db.orders[a].did == o.did;
      assert a != db.nextId && t.orders[a] == db.orders[a] && t.orders[db.nextId] == o;
    } else {
      forall a | a in t.orders && Live(t.orders[a]) ensures WellPlaced(t.orders[a], t.dids) {
        if a != db.nextId {
          assert t.orders[a] == db.orders[a];
        }
      }
    }
  }

  lemma CreateKeeps(db: Db, reseller: int, user: int, did: int, channels: int, route: Route, day: int,
                    bundle: Option<int>, now: Time)
    requires Inv(db)
    ensures var r := CreateOrder(db, reseller, user, did, channels, route, day, bundle, now); r.Done? ==> Inv(r.db)
  {
    hide PlaceOrder;
    var r := CreateOrder(db, reseller, user, did, channels, route, day, bundle, now);
    if r.Done? {
      FreeNumbersHaveNoOrder(db, did);
      PlaceKeepsIff(db, user, did, channels, route, day, bundle, db.dids[did].card.value,
                    StartStatus(db, user, bundle).value, now);
    }
  }

  /** The admin form checks no status: it keeps the invariant exactly on numbers without a live order. */
  lemma AdminCreateKeepsIff(db: Db, user: int, did: int, channels: int, route: Route, day: int, bundle: Option<int>,
                            now: Time)
    requires Inv(db) && AdminCreateOrder(db, user, did, channels, route, day, bundle, now).Done?
    ensures Inv(AdminCreateOrder(db, user, did, channels, route, day, bundle, now).db) <==> !Open(db, did)
  {
    hide PlaceOrder;
    PlaceKeepsIff(db, user, did, channels, route, day, bundle, db.dids[did].card.value,
                  StartStatus(db, user, bundle).value, now);
  }

  lemma CancelKeeps(db: Db, requester: Option<int>, oid: int)
    requires Inv(db)
    ensures var r := CancelOrder(db, requester, oid); r.Done? ==> Inv(r.db)
  {
    var r := CancelOrder(db, requester, oid);
    if r.Done? {
      var o := db.orders[oid];
      forall a | a in r.db.orders && Live(r.db.orders[a]) ensures WellPlaced(r.db.orders[a], r.db.dids) {
        assert a != oid && r.db.orders[a] == db.orders[a] && WellPlaced(db.orders[a], db.dids);
        assert db.orders[a].did != o.did;
      }
    }
  }

  lemma SwapKeeps(db: Db, oid: int, did: int)
    requires Inv(db)
    ensures var r := SwapDid(db, oid, did); r.Done? ==> Inv(r.db)
  {
    var r := SwapDid(db, oid, did);
    if r.Done? {
      var o := db.orders[oid];
      FreeNumbersHaveNoOrder(db, did);
      forall a | a in r.db.orders && Live(r.db.orders[a]) ensures WellPlaced(r.db.orders[a], r.db.dids) {
        if a != oid {
          assert r.db.orders[a] == db.orders[a] && WellPlaced(db.orders[a], db.dids);
          assert db.orders[a].did != o.did && db.orders[a].did != did;
        }
      }
      forall a, b | a in r.db.orders && b in r.db.orders && a != b && Live(r.db.orders[a]) && Live(r.db.orders[b])
        ensures r.db.orders[a].did != r.db.orders[b].did
      {
        assert a != oid ==> r.db.orders[a] == db.orders[a];
        assert b != oid ==> r.db.orders[b] == db.orders[b];
      }
    }
  }

  /** What the write of an edit changes: one order's route, terms and bundle, and a pending status. */
  ghost predicate Edited(before: Order, after: Order) {
    && after.user == before.user && after.did == before.did && after.card == before.card
    && after.preKind == before.preKind && after.preTarget == before.preTarget && after.nextBilling == before.nextBilling
    && (after.status == before.status || (before.status == KycPending && after.status == Active))
  }

  lemma WriteShape(db: Db, oid: int, o: Order, backing: Option<int>)
    requires oid in db.orders && Edited(db.orders[oid], o.(status := db.orders[oid].status))
    ensures var r := WriteOrder(db, oid, o, backing);
      r.Done? ==>
        && oid in r.db.orders && Edited(db.orders[oid], r.db.orders[oid])
        && r.db == db.(orders := db.orders[oid := r.db.orders[oid]])
        && (r.db.orders[oid].status == Active && db.orders[oid].status != Active ==>
            !ActiveOn(db.orders, db.orders[oid].did, oid))
  {
    hide ActiveOn, ApprovedBundle;
  }

  lemma EditShape(db: Db, step: Step)
    requires step.DoEdit? || step.DoPatch?
    ensures var t := Next(db, step);
      t == db ||
      (&& step.order in db.orders && step.order in t.orders && Edited(db.orders[step.order], t.orders[step.order])
       && t == db.(orders := db.orders[step.order := t.orders[step.order]])
       && (t.orders[step.order].status == Active && db.orders[step.order].status != Active ==>
             !ActiveOn(db.orders, db.orders[step.order].did, step.order)))
  {
    hide WriteOrder, ActiveOn;
    if step.order in db.orders {
      var o := db.orders[step.order];
      if step.DoEdit? {
        WriteShape(db, step.order, o.(route := step.route, channels := step.channels, anniversaryDay := step.day,
                                      bundle := step.bundle),
                   step.bundle);
      } else {
        WriteShape(db, step.order, o.(route := step.route, channels := step.channels,
                                      bundle := if step.bundle.Some? then step.bundle else o.bundle), step.bundle);
      }
    }
  }

  lemma EditsKeep(db: Db, step: Step)
    requires Inv(db) && (step.DoEdit? || step.DoPatch?)
    ensures Inv(Next(db, step))
  {
    hide Next, ActiveOn;
    EditShape(db, step);
    StatusOnly(db, Next(db, step));
  }

  // ---------- numbers ----------

  /** Changing the status of a number without a live order is harmless. */
  lemma IdleNumberKeeps(db: Db, t: Db, did: int)
    requires Inv(db) && !Open(db, did) && did in db.dids
    requires t.orders == db.orders && t.users == db.users && t.cards == db.cards && t.nextId == db.nextId
    requires t.dids.Keys == db.dids.Keys && forall d :: d in db.dids && d != did ==> t.dids[d] == db.dids[d]
    ensures Inv(t)
  {
    forall a | a in t.orders && Live(t.orders[a]) ensures WellPlaced(t.orders[a], t.dids) {
      assert WellPlaced(db.orders[a], db.dids);
    }
  }

  lemma NumberKeeps(db: Db, did: int, r: Reservation)
    requires Inv(db)
    ensures ReserveDid(db, did, r).Done? ==> Inv(ReserveDid(db, did, r).db)
    ensures ReleaseDid(db, did).Done? ==> Inv(ReleaseDid(db, did).db)
  {
    if ReserveDid(db, did, r).Done? {
      FreeNumbersHaveNoOrder(db, did);
      IdleNumberKeeps(db, ReserveDid(db, did, r).db, did);
    }
    if ReleaseDid(db, did).Done? {
      FreeNumbersHaveNoOrder(db, did);
      IdleNumberKeeps(db, ReleaseDid(db, did).db, did);
    }
  }

  /** The write of a retirement keeps the invariant exactly when, at the write, no active, pending or
      quarantined order is on the number. */
  lemma RetireKeepsIff(db: Db, did: int)
    requires Inv(db)
    ensures Inv(RetireWrite(db, did)) <==> !InService(db.orders, did)
  {
    var t := RetireWrite(db, did);
    if InService(db.orders, did) {
      var a :| a in db.orders && db.orders[a].did == did && Editable(db.orders[a].status);
      assert WellPlaced(db.orders[a], db.dids) && !WellPlaced(t.orders[a], t.dids);
    } else {
      forall a | a in t.orders && Live(t.orders[a]) ensures WellPlaced(t.orders[a], t.dids) {
        assert WellPlaced(db.orders[a], db.dids);
        assert db.orders[a].did == did ==> !Editable(db.orders[a].status);
      }
    }
  }

  /** Whatever the rows: on a number that an order can be created for, the count passes, and if the order is
      created before the write, the number is retired under it. */
  lemma RetireOvertaken(db: Db, reseller: int, user: int, did: int, channels: int, route: Route, day: int,
                        bundle: Option<int>, now: Time)
    requires Inv(db) && CreateOrder(db, reseller, user, did, channels, route, day, bundle, now).Done?
    ensures RetireRefusal(db, did).None?
    ensures var t := Next(db, DoCreateOrder(reseller, user, did, channels, route, day, bundle, now));
      Inv(t) && InService(t.orders, did) && !Inv(Next(t, DoRetire(did)))
  {
    hide Inv, CreateOrder, RetireWrite;
    var t := CreateOrder(db, reseller, user, did, channels, route, day, bundle, now).db;
    CreateKeeps(db, reseller, user, did, channels, route, day, bundle, now);
    CreatedInService(db, reseller, user, did, channels, route, day, bundle, now);
    RetireKeepsIff(t, did);
  }

  lemma CreatedInService(db: Db, reseller: int, user: int, did: int, channels: int, route: Route, day: int,
                         bundle: Option<int>, now: Time)
    requires Inv(db) && CreateOrder(db, reseller, user, did, channels, route, day, bundle, now).Done?
    ensures RetireRefusal(db, did).None?
    ensures InService(CreateOrder(db, reseller, user, did, channels, route, day, bundle, now).db.orders, did)
  {
    hide NextAnniversary, ActiveOn;
    FreeNumbersHaveNoOrder(db, did);
    var t := CreateOrder(db, reseller, user, did, channels, route, day, bundle, now).db;
    assert t.orders[db.nextId].did == did && Editable(t.orders[db.nextId].status);
  }

  // ---------- users, KYC ----------

  lemma BlockKeeps(db: Db, user: int, reason: string)
    requires Inv(db)
    ensures Block(db, user, reason).Done? ==> Inv(Block(db, user, reason).db)
    ensures Unblock(db, user).Done? ==> Inv(Unblock(db, user).db)
  {
    hide UniqueActive;
    if Block(db, user, reason).Done? {
      StatusOnly(db, Block(db, user, reason).db);
    }
    if Unblock(db, user).Done? {
      StatusOnly(db, Unblock(db, user).db);
    }
  }

  lemma KycKeeps(db: Db, bundle: int)
    requires Inv(db)
    ensures ApproveBundle(db, bundle).Done? ==> Inv(ApproveBundle(db, bundle).db)
    ensures RejectBundle(db, bundle).Done? ==> Inv(RejectBundle(db, bundle).db)
  {
    hide UniqueActive;
    if ApproveBundle(db, bundle).Done? {
      StatusOnly(db, ApproveBundle(db, bundle).db);
    }
    StatusOnly(db, RejectBundle(db, bundle).db);
  }

  /** Deleting a user succeeds exactly when no order row, cancelled ones included, refers to the user;
      so a deletion that succeeds never cancels an order or frees a number. */
  lemma DeleteUserIff(db: Db, user: int)
    ensures DeleteUser(db, user).Done? <==>
        user in db.users && !(exists a :: a in db.orders && db.orders[a].user == user)
    ensures DeleteUser(db, user).Done? ==>
              DeleteUser(db, user).db.orders == db.orders && DeleteUser(db, user).db.dids == db.dids
  {
    hide RowsWithout;
    var orders := CancelAllOf(db.orders, user);
    if a :| a in db.orders && db.orders[a].user == user {
      assert a in orders && orders[a].user == user;
    }
    if DeleteUser(db, user).Done? {
      forall a | a in db.orders ensures db.orders[a].user != user && orders[a] == db.orders[a] {
        assert a in orders && (orders[a].user == user <==> db.orders[a].user == user);
      }
      assert orders == db.orders;
      assert NumbersOf(db.orders, user) == {};
      assert ReturnAll(db.dids, {}) == db.dids;
    }
  }

  lemma DeleteUserKeeps(db: Db, user: int)
    requires Inv(db)
    ensures DeleteUser(db, user).Done? ==> Inv(DeleteUser(db, user).db)
  {
    hide RowsWithout;
    DeleteUserIff(db, user);
  }

  // ---------- billing ----------

  lemma ChargeOrderFrame(db: Db, oid: int, target: int, now: Time)
    requires oid in db.orders && db.orders[oid].user in db.users && db.orders[oid].card in db.cards
    ensures var t := ChargeOrder(db, oid, target, now);
      && t.users.Keys == db.users.Keys && t.dids == db.dids && t.bundles == db.bundles && t.cards == db.cards
      && t.nextId == db.nextId && t.history == db.history
      && t.orders == db.orders[oid := db.orders[oid].(channels := target,
                                                     nextBilling := NextAnniversary(now,
                                                         db.orders[oid].anniversaryDay))]
      && (forall u :: u in db.users ==>
          t.users[u].status == db.users[u].status && t.users[u].reseller == db.users[u].reseller)
  {
    hide NextAnniversary, Fee;
  }

  lemma BillOrderKeeps(db: Db, oid: int, now: Time)
    requires Inv(db)
    ensures Inv(BillOrder(db, oid, now).0)
  {
    hide NextAnniversary, Ladder, ChargeOrder;
    var (t, r) := BillOrder(db, oid, now);
    if r.Some? {
      if r != Some(CancelledOutcome) {
        ChargeOrderFrame(db, oid, Ladder(db.cards[db.orders[oid].card], db.users[db.orders[oid].user].balance,
                                         db.orders[oid].channels), now);
      }
      StatusOnly(db, t);
    }
  }

  // ---------- every run ----------

  /** Two steps need care: an admin form that succeeds on a number with a live order, and the write of a
      retirement whose number has come into service since the count. */
  predicate Harmless(db: Db, step: Step) {
    && (step.DoAdminCreate? && Perform(db, step).Done? ==> !Open(db, step.did))
    && (step.DoRetire? ==> !InService(db.orders, step.did))
  }

  lemma AddingKeeps(db: Db, step: Step)
    requires Inv(db) && (step.AddUser? || step.AddDid? || step.AddBundle?)
    ensures Inv(Next(db, step))
  {
    var t := Next(db, step);
    assert t.orders == db.orders;
    forall a | a in t.orders && Live(t.orders[a]) ensures WellPlaced(t.orders[a], t.dids) {
      assert WellPlaced(db.orders[a], db.dids);
    }
  }

  lemma MoneyKeeps(db: Db, step: Step)
    requires Inv(db) && (step.DoResellerTopUp? || step.DoAdminTopUp? || step.DoCallCharge?)
    ensures Inv(Next(db, step))
  {
    hide Inv, Post;
    match step
    case DoResellerTopUp(reseller, user, cents) =>
      if ResellerTopUp(db, reseller, user, cents).Done? { PostKeeps(db, user, cents, TopUpEntry); }
    case DoAdminTopUp(user, cents) =>
      if AdminTopUp(db, user, cents).Done? { PostKeeps(db, user, cents, TopUpEntry); }
    case DoCallCharge(user, cents) =>
      if user in db.users { PostKeeps(db, user, -cents, CallChargeEntry); }
  }

  lemma StepKeepsInvIff(db: Db, step: Step)
    requires Inv(db)
    ensures Inv(Next(db, step)) <==> Harmless(db, step)
  {
    hide Inv, CreateOrder, AdminCreateOrder, CancelOrder, SwapDid, EditWrite, PatchWrite, ReserveDid, ReleaseDid,
        RetireWrite,
         Block, Unblock, DeleteUser, ApproveBundle, RejectBundle, BillOrder, ResellerTopUp, AdminTopUp, CallCharge;
    match step
    case AddUser(_) => AddingKeeps(db, step);
    case AddDid(_) => AddingKeeps(db, step);
    case AddBundle(_) => AddingKeeps(db, step);
    case DoCreateOrder(reseller, user, did, channels, route, day, bundle, now) =>
      CreateKeeps(db, reseller, user, did, channels, route, day, bundle, now);
    case DoAdminCreate(user, did, channels, route, day, bundle, now) =>
      if AdminCreateOrder(db, user, did, channels, route, day, bundle, now).Done? {
        AdminCreateKeepsIff(db, user, did, channels, route, day, bundle, now);
      }
    case DoCancel(requester, order) => CancelKeeps(db, requester, order);
    case DoSwap(order, did) => SwapKeeps(db, order, did);
    case DoEdit(_, _, _, _, _) => EditsKeep(db, step);
    case DoPatch(_, _, _, _) => EditsKeep(db, step);
    case DoReserve(did, reservation) => NumberKeeps(db, did, reservation);
    case DoRelease(did) => NumberKeeps(db, did, Reservation("", ""));
    case DoRetire(did) => RetireKeepsIff(db, did);
    case DoBlock(user, reason) => BlockKeeps(db, user, reason);
    case DoUnblock(user) => BlockKeeps(db, user, "");
    case DoEditUser(user, status) => EditUserKeeps(db, user, status);
    case DoDeleteUser(user) => DeleteUserKeeps(db, user);
    case DoApprove(kyc) => KycKeeps(db, kyc);
    case DoReject(kyc) => KycKeeps(db, kyc);
    case DoResellerTopUp(_, _, _) => MoneyKeeps(db, step);
    case DoAdminTopUp(_, _) => MoneyKeeps(db, step);
    case DoCallCharge(_, _) => MoneyKeeps(db, step);
    case DoBill(order, now) => BillOrderKeeps(db, order, now);
  }

  lemma EditUserKeeps(db: Db, user: int, status: string)
    requires Inv(db)
    ensures Inv(EditUser(db, user, status).db)
  {
    StatusOnly(db, EditUser(db, user, status).db);
  }

  ghost predicate HarmlessRun(db: Db, steps: seq<Step>)
    decreases |steps|
  {
    steps != [] ==> Harmless(db, steps[0]) && HarmlessRun(Next(db, steps[0]), steps[1..])
  }

  ghost predicate InvThroughout(db: Db, steps: seq<Step>)
    decreases |steps|
  {
    Inv(db) && (steps != [] ==> InvThroughout(Next(db, steps[0]), steps[1..]))
  }

  /** A run keeps one live order a number, and every live order's number out of the pool, in all its states
      exactly when each of its admin forms and retirements is harmless at the time of its write. */
  lemma {:induction false} OneOrderPerNumberIff(db: Db, steps: seq<Step>)
    requires Inv(db)
    ensures InvThroughout(db, steps) <==> HarmlessRun(db, steps)
    decreases |steps|
  {
    hide Inv, Next, Harmless;
    if steps != [] {
      StepKeepsInvIff(db, steps[0]);
      if Harmless(db, steps[0]) {
        OneOrderPerNumberIff(Next(db, steps[0]), steps[1..]);
      } else {
        assert !InvThroughout(Next(db, steps[0]), steps[1..]);
      }
    }
  }

  // ---------- what one action gives back ----------

  /** A cancelled order gives its number back: nobody's live order is on it any more, it can be ordered by whoever may
      order at all, and a second cancellation is refused. */
  lemma CancelReopens(db: Db, requester: Option<int>, oid: int)
    requires Inv(db) && CancelOrder(db, requester, oid).Done?
    ensures var t := CancelOrder(db, requester, oid).db;
      var did := db.orders[oid].did;
      && Inv(t) && !Open(t, did) && did in t.dids && t.dids[did].status == Available
      && CancelOrder(t, requester, oid).Failed?
      && (forall a :: a in db.orders && a != oid ==> t.orders[a] == db.orders[a])
      && (forall d :: d in db.dids && d != did ==> t.dids[d] == db.dids[d])
  {
    CancelKeeps(db, requester, oid);
    hide CancelOrder;
    CancelWrites(db, requester, oid);
    FreeNumbersHaveNoOrder(CancelOrder(db, requester, oid).db, db.orders[oid].did);
  }

  lemma CancelWrites(db: Db, requester: Option<int>, oid: int)
    requires Inv(db) && CancelOrder(db, requester, oid).Done?
    ensures oid in db.orders
    ensures var t := CancelOrder(db, requester, oid).db;
      var did := db.orders[oid].did;
      && did in t.dids && t.dids[did].status == Available && CancelOrder(t, requester, oid).Failed?
      && (forall a :: a in db.orders && a != oid ==> t.orders[a] == db.orders[a])
      && (forall d :: d in db.dids && d != did ==> t.dids[d] == db.dids[d])
  {
    assert WellPlaced(db.orders[oid], db.dids);
  }

  /** A reservation can be released and then made again, and no second one fits in between; releasing it restores the
      rows exactly when the number carried no old reservation, and archives it once. */
  lemma ReserveReleaseRoundTrip(db: Db, did: int, r: Reservation, other: Reservation)
    requires ReserveDid(db, did, r).Done?
    ensures var t := ReserveDid(db, did, r).db;
      && ReserveDid(t, did, other).Failed? && ReleaseDid(t, did).Done?
      && var u := ReleaseDid(t, did).db;
         && u.history == db.history + [HistoryRow(did, Some(r))] && ReserveDid(u, did, r).Done?
         && ReleaseDid(u, did).Failed?
         && (u.(history := db.history) == db <==> db.dids[did].reserved.None?)
  {
    var u := ReleaseDid(ReserveDid(db, did, r).db, did).db;
    if db.dids[did].reserved.None? {
      assert u.dids[did] == db.dids[did];
      assert u.dids == db.dids;
    }
  }

  // ---------- references, in every run ----------

  lemma LinksIgnore(db: Db, t: Db)
    requires Linked(db)
    requires t.users.Keys == db.users.Keys && t.cards == db.cards && t.dids.Keys == db.dids.Keys
        && t.nextId == db.nextId
    requires t.orders.Keys == db.orders.Keys
    requires forall a :: a in db.orders ==>
        t.orders[a].user == db.orders[a].user && t.orders[a].card == db.orders[a].card
    ensures Linked(t)
  {
  }

  lemma PlaceKeepsLinks(db: Db, user: int, did: int, channels: int, route: Route, day: int, bundle: Option<int>,
                        card: int, status: OrderStatus, now: Time)
    requires Linked(db) && user in db.users && did in db.dids && card in db.cards
    ensures var r := PlaceOrder(db, user, did, channels, route, day, bundle, card, status, now); r.Done? ==>
        Linked(r.db)
  {
    hide NextAnniversary, Post, ActiveOn;
    var r := PlaceOrder(db, user, did, channels, route, day, bundle, card, status, now);
    if r.Done? {
      var d := DayOrToday(day, now);
      var o := Order(user, did, status, if channels < 0 then 0 else channels, route, None, None, card, d,
                     NextAnniversary(now, d), bundle);
      var db1 := db.(orders := db.orders[db.nextId := o], nextId := db.nextId + 1,
                     dids := db.dids[did := db.dids[did].(status := Assigned)]);
      var nrc: int := db.cards[card].nrc;
      if nrc > 0 {
        PostFrame(db1, user, -nrc, NrcEntry);
        LinksIgnore(db1, r.db);
      }
    }
  }

  lemma CreationKeepsLinks(db: Db, step: Step)
    requires Linked(db) && (step.DoCreateOrder? || step.DoAdminCreate?)
    ensures Linked(Next(db, step))
  {
    hide PlaceOrder, Linked;
    if Perform(db, step).Done? {
      PlaceKeepsLinks(db, step.user, step.did, step.channels, step.route, step.day, step.bundle,
                      db.dids[step.did].card.value,
                      StartStatus(db, step.user, step.bundle).value, step.now);
    }
  }

  lemma BillKeepsLinks(db: Db, oid: int, now: Time)
    requires Linked(db)
    ensures Linked(BillOrder(db, oid, now).0)
  {
    hide NextAnniversary, Ladder, ChargeOrder;
    var (t, r) := BillOrder(db, oid, now);
    if r.Some? {
      if r != Some(CancelledOutcome) {
        ChargeOrderFrame(db, oid, Ladder(db.cards[db.orders[oid].card], db.users[db.orders[oid].user].balance,
                                         db.orders[oid].channels), now);
      }
      LinksIgnore(db, t);
    }
  }

  lemma CancelKeepsLinks(db: Db, requester: Option<int>, oid: int)
    requires Linked(db)
    ensures var r := CancelOrder(db, requester, oid); r.Done? ==> Linked(r.db)
  {
    hide Linked;
    var r := CancelOrder(db, requester, oid);
    if r.Done? { LinksIgnore(db, r.db); }
  }

  lemma SwapKeepsLinks(db: Db, oid: int, did: int)
    requires Linked(db)
    ensures var r := SwapDid(db, oid, did); r.Done? ==> Linked(r.db)
  {
    hide ActiveOn, Linked;
    var r := SwapDid(db, oid, did);
    if r.Done? { LinksIgnore(db, r.db); }
  }

  lemma EditsKeepLinks(db: Db, step: Step)
    requires Linked(db) && (step.DoEdit? || step.DoPatch?)
    ensures Linked(Next(db, step))
  {
    hide Next, ActiveOn, Linked;
    EditShape(db, step);
    LinksIgnore(db, Next(db, step));
  }

  lemma SweepsKeepLinks(db: Db, step: Step)
    requires Linked(db) && (step.DoBlock? || step.DoUnblock? || step.DoApprove?)
    ensures Linked(Next(db, step))
  {
    hide UniqueActive, Linked;
    LinksIgnore(db, Next(db, step));
  }

  lemma RowsKeepLinks(db: Db, step: Step)
    requires Linked(db)
    requires step.DoReserve? || step.DoRelease? || step.DoRetire? || step.DoEditUser? || step.DoReject?
    ensures Linked(Next(db, step))
  {
    hide Linked, Next;
    RowsOnly(db, step);
    LinksIgnore(db, Next(db, step));
  }

  lemma RowsOnly(db: Db, step: Step)
    requires step.DoReserve? || step.DoRelease? || step.DoRetire? || step.DoEditUser? || step.DoReject?
    ensures var t := Next(db, step);
      && t.users.Keys == db.users.Keys && t.cards == db.cards && t.dids.Keys == db.dids.Keys && t.nextId == db.nextId
      && t.orders == db.orders
  {
  }

  lemma MoneyKeepsLinks(db: Db, step: Step)
    requires Linked(db) && (step.DoResellerTopUp? || step.DoAdminTopUp? || step.DoCallCharge?)
    ensures Linked(Next(db, step))
  {
    hide Linked;
    LinksIgnore(db, Next(db, step));
  }

  /** Every step keeps the references resolved, harmless or not. */
  lemma StepKeepsLinked(db: Db, step: Step)
    requires Linked(db)
    ensures Linked(Next(db, step))
  {
    if step.DoCreateOrder? || step.DoAdminCreate? {
      CreationKeepsLinks(db, step);
    } else if step.DoBill? {
      BillKeepsLinks(db, step.order, step.now);
    } else if step.DoDeleteUser? {
      hide RowsWithout, DeleteUser;
      DeleteKeepsLinks(db, step.user);
    } else if step.DoReserve? || step.DoRelease? || step.DoRetire? || step.DoEditUser? || step.DoReject? {
      RowsKeepLinks(db, step);
    } else if step.DoResellerTopUp? || step.DoAdminTopUp? || step.DoCallCharge? {
      MoneyKeepsLinks(db, step);
    } else if step.AddUser? || step.AddDid? || step.AddBundle? {
      AddingKeepsLinks(db, step);
    } else if step.DoBlock? || step.DoUnblock? || step.DoApprove? {
      SweepsKeepLinks(db, step);
    } else if step.DoEdit? || step.DoPatch? {
      EditsKeepLinks(db, step);
    } else if step.DoCancel? {
      hide CancelOrder;
      CancelKeepsLinks(db, step.requester, step.order);
    } else {
      hide SwapDid;
      SwapKeepsLinks(db, step.order, step.did);
    }
  }

  lemma AddingKeepsLinks(db: Db, step: Step)
    requires Linked(db) && (step.AddUser? || step.AddDid? || step.AddBundle?)
    ensures Linked(Next(db, step))
  {
  }

  lemma DeleteKeepsLinks(db: Db, user: int)
    requires Linked(db)
    ensures DeleteUser(db, user).Done? ==> Linked(DeleteUser(db, user).db)
  {
    hide RowsWithout;
    DeleteUserIff(db, user);
  }

  lemma FreshIsValid(cards: map<int, RateCard>)
    ensures Inv(Fresh(cards))
  {
  }

  // ---------- consequences ----------

  /** Under the invariant the partial unique index on active orders never refuses anything but an admin form for
      a number with an active order. */
  lemma IndexNeverFires(db: Db, step: Step)
    requires Inv(db)
    ensures Perform(db, step) == Failed("orders_one_active_per_did") ==>
              step.DoAdminCreate? && ActiveOn(db.orders, step.did, db.nextId)
  {
    hide Perform, ActiveOn;
    if step.DoCreateOrder? || step.DoAdminCreate? {
      CreationIndex(db, step);
    } else if step.DoSwap? || step.DoEdit? || step.DoPatch? {
      ChangeIndex(db, step);
    } else {
      OtherIndex(db, step);
    }
  }

  lemma CreationIndex(db: Db, step: Step)
    requires Inv(db) && (step.DoCreateOrder? || step.DoAdminCreate?)
    ensures Perform(db, step) == Failed("orders_one_active_per_did") ==>
              step.DoAdminCreate? && ActiveOn(db.orders, step.did, db.nextId)
  {
    hide NextAnniversary, Post;
    if step.DoCreateOrder? && step.did in db.dids && db.dids[step.did].status == Available {
      FreeNumbersHaveNoOrder(db, step.did);
      assert !ActiveOn(db.orders, step.did, db.nextId);
    }
  }

  lemma ChangeIndex(db: Db, step: Step)
    requires Inv(db) && (step.DoSwap? || step.DoEdit? || step.DoPatch?)
    ensures Perform(db, step) != Failed("orders_one_active_per_did")
  {
    hide ActiveOn;
    if !step.DoSwap? {
      OneOrderOneActive(db, step.order);
    } else if step.did in db.dids && db.dids[step.did].status == Available {
      FreeNumbersHaveNoOrder(db, step.did);
      OneOrderOneActive(db, step.order);
      NobodyActive(db, step.did, step.order);
    }
  }

  lemma NobodyActive(db: Db, did: int, except: int)
    requires !Open(db, did)
    ensures !ActiveOn(db.orders, did, except)
  {
  }

  lemma OtherIndex(db: Db, step: Step)
    requires OneOrder(db.orders)
    requires !step.DoCreateOrder? && !step.DoAdminCreate? && !step.DoSwap? && !step.DoEdit? && !step.DoPatch?
    ensures Perform(db, step) != Failed("orders_one_active_per_did")
  {
    hide BillOrder, RowsWithout, Post, NumbersOf, ReturnAll;
    if step.DoUnblock? {
      assert UniqueActive(RestoreAll(db.orders, step.user));
    } else if step.DoApprove? {
      assert UniqueActive(ActivateFor(db.orders, step.kyc));
    }
  }

  lemma OneOrderOneActive(db: Db, oid: int)
    requires OneOrder(db.orders)
    ensures oid in db.orders && Live(db.orders[oid]) ==> !ActiveOn(db.orders, db.orders[oid].did, oid)
  {
  }

  /** Whatever the rows, a retired number changes status by exactly three things: the cancellation or the swap of
      an order that is on it, and the admin form. */
  lemma RetiredLeavesIff(db: Db, step: Step, did: int)
    requires did in db.dids && db.dids[did].status == Retired && did < db.nextId
    ensures did in Next(db, step).dids
    ensures Next(db, step).dids[did].status != Retired <==>
            (Perform(db, step).Done? &&
             (((step.DoCancel? || step.DoSwap?) && db.orders[step.order].did == did)
              || (step.DoAdminCreate? && step.did == did)))
  {
    hide Perform, Next;
    if step.DoCreateOrder? || step.DoAdminCreate? {
      CreationLeaves(db, step, did);
    } else if step.DoSwap? || step.DoCancel? {
      OrderLeaves(db, step, did);
    } else if step.DoReserve? || step.DoRelease? || step.DoRetire? || step.AddDid? {
      FormLeaves(db, step, did);
    } else if step.DoDeleteUser? {
      DeletionLeaves(db, step);
    } else {
      OthersKeepNumbers(db, step);
    }
  }

  lemma CreationLeaves(db: Db, step: Step, did: int)
    requires did in db.dids && db.dids[did].status == Retired && (step.DoCreateOrder? || step.DoAdminCreate?)
    ensures did in Next(db, step).dids
    ensures Next(db, step).dids[did].status != Retired <==>
        Perform(db, step).Done? && step.DoAdminCreate? && step.did == did
  {
    hide CreateOrder, AdminCreateOrder;
    match step
    case DoCreateOrder(reseller, user, other, channels, route, day, bundle, now) =>
      CreateNumbers(db, reseller, user, other, channels, route, day, bundle, now);
    case DoAdminCreate(user, other, channels, route, day, bundle, now) =>
      AdminCreateNumbers(db, user, other, channels, route, day, bundle, now);
  }

  lemma OrderLeaves(db: Db, step: Step, did: int)
    requires did in db.dids && db.dids[did].status == Retired && (step.DoSwap? || step.DoCancel?)
    ensures did in Next(db, step).dids
    ensures Next(db, step).dids[did].status != Retired <==> Perform(db, step).Done? && db.orders[step.order].did == did
  {
    hide Perform, ActiveOn;
    OrderStepIs(db, step);
  }

  lemma FormLeaves(db: Db, step: Step, did: int)
    requires did in db.dids && db.dids[did].status == Retired && did < db.nextId
    requires step.DoReserve? || step.DoRelease? || step.DoRetire? || step.AddDid?
    ensures did in Next(db, step).dids && Next(db, step).dids[did].status == Retired
  {
  }

  lemma DeletionLeaves(db: Db, step: Step)
    requires step.DoDeleteUser?
    ensures Next(db, step).dids == db.dids
  {
    hide DeleteUser;
    DeleteUserIff(db, step.user);
  }

  lemma OthersKeepNumbers(db: Db, step: Step)
    requires step.AddUser? || step.AddBundle? || step.DoEdit? || step.DoPatch? || step.DoBlock? || step.DoUnblock?
        || step.DoEditUser?
          || step.DoApprove? || step.DoReject? || step.DoResellerTopUp? || step.DoAdminTopUp? || step.DoCallCharge?
          || step.DoBill?
    ensures Next(db, step).dids == db.dids
  {
    hide Next;
    if step.DoBill? {
      BillKeepsNumbers(db, step.order, step.now);
      BillIs(db, step);
    } else if step.DoEdit? || step.DoPatch? {
      EditShape(db, step);
    } else if step.DoBlock? || step.DoUnblock? || step.DoApprove? {
      SweepsKeepNumbers(db, step);
    } else {
      UsersKeepNumbers(db, step);
    }
  }

  lemma BillIs(db: Db, step: Step)
    requires step.DoBill?
    ensures Next(db, step) == BillOrder(db, step.order, step.now).0
  {
    hide BillOrder;
  }

  lemma SweepsKeepNumbers(db: Db, step: Step)
    requires step.DoBlock? || step.DoUnblock? || step.DoApprove?
    ensures Next(db, step).dids == db.dids
  {
    hide UniqueActive, QuarantineAll, RestoreAll, ActivateFor;
  }

  lemma UsersKeepNumbers(db: Db, step: Step)
    requires step.AddUser? || step.AddBundle? || step.DoEditUser? || step.DoReject?
          || step.DoResellerTopUp? || step.DoAdminTopUp? || step.DoCallCharge?
    ensures Next(db, step).dids == db.dids
  {
    hide BillOrder;
  }

  lemma BillKeepsNumbers(db: Db, oid: int, now: Time)
    ensures BillOrder(db, oid, now).0.dids == db.dids
  {
    hide ChargeOrder, Ladder;
    var r := BillOrder(db, oid, now).1;
    if r.Some? && r != Some(CancelledOutcome) {
      var o := db.orders[oid];
      ChargeOrderFrame(db, oid, Ladder(db.cards[o.card], db.users[o.user].balance, o.channels), now);
    }
  }

  lemma PlaceNumbers(db: Db, user: int, did: int, channels: int, route: Route, day: int, bundle: Option<int>,
                     card: int, status: OrderStatus, now: Time)
    requires user in db.users && did in db.dids && card in db.cards
    ensures var r := PlaceOrder(db, user, did, channels, route, day, bundle, card, status, now);
      r.Done? ==> r.db.dids == db.dids[did := db.dids[did].(status := Assigned)]
  {
    hide NextAnniversary, ActiveOn;
  }

  lemma CreateNumbers(db: Db, reseller: int, user: int, did: int, channels: int, route: Route, day: int,
                      bundle: Option<int>, now: Time)
    ensures var r := CreateOrder(db, reseller, user, did, channels, route, day, bundle, now);
      r.Done? ==>
        did in db.dids && db.dids[did].status == Available
            && r.db.dids == db.dids[did := db.dids[did].(status := Assigned)]
  {
    hide PlaceOrder;
    if CreateOrder(db, reseller, user, did, channels, route, day, bundle, now).Done? {
      PlaceNumbers(db, user, did, channels, route, day, bundle, db.dids[did].card.value,
                   StartStatus(db, user, bundle).value, now);
    }
  }

  lemma AdminCreateNumbers(db: Db, user: int, did: int, channels: int, route: Route, day: int, bundle: Option<int>,
                           now: Time)
    ensures var r := AdminCreateOrder(db, user, did, channels, route, day, bundle, now);
      r.Done? ==> did in db.dids && r.db.dids == db.dids[did := db.dids[did].(status := Assigned)]
  {
    hide PlaceOrder;
    if AdminCreateOrder(db, user, did, channels, route, day, bundle, now).Done? {
      PlaceNumbers(db, user, did, channels, route, day, bundle, db.dids[did].card.value,
                   StartStatus(db, user, bundle).value, now);
    }
  }
}
