/** Blocking a user quarantines the active orders; unblocking brings them back. */
module Blocking {
  import opened Basics
  import opened Calendar
  import opened Store
  import opened Lifecycle

  predicate Blank(o: Order) {
    o.preKind.None? && o.preTarget.None?
  }

  lemma RestoreUndoesQuarantineIff(o: Order)
    requires o.status == Active
    ensures Restore(Quarantine(o)) == o <==> Blank(o)
    ensures Restore(Quarantine(o)).route == o.route
  {
  }

  lemma BackIsUnique(db: Db, user: int)
    requires OneOrder(db.orders)
    ensures UniqueActive(RestoreAll(QuarantineAll(db.orders, user), user))
  {
  }

  /** Over rows that satisfy the unique index, block then unblock is the identity on users and orders exactly when
      the user had no quarantined order and no active order with saved route columns. With one order a number the
      unblock never fails. */
  lemma BlockUnblockIsIdentityIff(db: Db, user: int, reason: string)
    requires UniqueActive(db.orders)
    requires Block(db, user, reason).Done?
    ensures var u := Unblock(Block(db, user, reason).db, user);
      u == Done(db) <==>
        (forall a :: a in db.orders && db.orders[a].user == user ==>
           db.orders[a].status != Quarantined && (db.orders[a].status == Active ==> Blank(db.orders[a])))
    ensures OneOrder(db.orders) ==>
              var u := Unblock(Block(db, user, reason).db, user); u.Done? && u.db.users == db.users
  {
    var b := Block(db, user, reason).db;
    var back := RestoreAll(b.orders, user);
    if OneOrder(db.orders) { BackIsUnique(db, user); }
    hide UniqueActive;
    assert SetUserStatus(b, user, "active").users == db.users;
    forall a | a in db.orders
      ensures back[a] == db.orders[a] <==>
              (db.orders[a].user == user ==>
                 db.orders[a].status != Quarantined && (db.orders[a].status == Active ==> Blank(db.orders[a])))
    {
      if db.orders[a].status == Active {
        RestoreUndoesQuarantineIff(db.orders[a]);
      }
    }
    if forall a :: a in db.orders ==> back[a] == db.orders[a] {
      assert back == db.orders;
    }
  }

  // ---------- how one order moves ----------

  predicate BlocksOrUnblocks(step: Step, user: int) {
    (step.DoBlock? && step.user == user) || (step.DoUnblock? && step.user == user)
  }

  /** Outside its user's own block and unblock, an order keeps its user, leaves quarantine only by
      being cancelled, keeps its saved route there, and never enters it. */
  predicate Moves(before: Order, after: Order) {
    && after.user == before.user && after.preKind == before.preKind && after.preTarget == before.preTarget
    && (before.status == Quarantined ==> after.status in {Quarantined, Cancelled})
    && (before.status == Cancelled ==> after.status == Cancelled)
    && (before.status !in {Quarantined, Cancelled} ==> after.status != Quarantined)
  }

  lemma BillOrderMoves(db: Db, oid: int, now: Time, a: int)
    requires a in db.orders
    ensures var t := BillOrder(db, oid, now).0; a in t.orders && Moves(db.orders[a], t.orders[a])
  {
    hide NextAnniversary, Ladder, ChargeOrder;
    var (t, r) := BillOrder(db, oid, now);
    if r.Some? && r != Some(CancelledOutcome) {
      var o := db.orders[oid];
      ChargeOrderFrame(db, oid, Ladder(db.cards[o.card], db.users[o.user].balance, o.channels), now);
    }
  }

  lemma MovesCompose(x: Order, y: Order, z: Order)
    requires Moves(x, y) && Moves(y, z)
    ensures Moves(x, z)
  {
  }

  lemma MovesReflexive(o: Order)
    ensures Moves(o, o)
  {
  }

  lemma PlaceOrders(db: Db, user: int, did: int, channels: int, route: Route, day: int, bundle: Option<int>,
                    card: int, status: OrderStatus, now: Time)
    requires user in db.users && did in db.dids && card in db.cards
    ensures var r := PlaceOrder(db, user, did, channels, route, day, bundle, card, status, now);
      r.Done? ==>
        && db.nextId in r.db.orders
        && r.db.orders == db.orders[db.nextId := r.db.orders[db.nextId]]
        && r.db.orders[db.nextId].status == status && Blank(r.db.orders[db.nextId])
        && r.db.orders[db.nextId].user == user && r.db.users.Keys == db.users.Keys
        && (forall u :: u in db.users ==> r.db.users[u].status == db.users[u].status)
  {
    hide NextAnniversary, ActiveOn;
  }

  ghost predicate AddsOne(db: Db, t: Db) {
    && db.nextId in t.orders
    && t.orders == db.orders[db.nextId := t.orders[db.nextId]]
    && t.orders[db.nextId].status in {Active, KycPending} && Blank(t.orders[db.nextId])
    && t.users.Keys == db.users.Keys
    && (forall u :: u in db.users ==> t.users[u].status == db.users[u].status)
  }

  lemma CreateAddsOne(db: Db, reseller: int, user: int, did: int, channels: int, route: Route, day: int,
                      bundle: Option<int>, now: Time)
    ensures var r := CreateOrder(db, reseller, user, did, channels, route, day, bundle, now); r.Done? ==>
        AddsOne(db, r.db)
    ensures var r := AdminCreateOrder(db, user, did, channels, route, day, bundle, now); r.Done? ==> AddsOne(db, r.db)
  {
    hide PlaceOrder;
    if CreateOrder(db, reseller, user, did, channels, route, day, bundle, now).Done?
       || AdminCreateOrder(db, user, did, channels, route, day, bundle, now).Done? {
      PlaceOrders(db, user, did, channels, route, day, bundle, db.dids[did].card.value,
                  StartStatus(db, user, bundle).value, now);
    }
  }

  lemma EditMoves(db: Db, step: Step, a: int)
    requires a in db.orders && (step.DoEdit? || step.DoPatch?)
    ensures a in Next(db, step).orders && Moves(db.orders[a], Next(db, step).orders[a])
  {
    hide Next, ActiveOn;
    EditShape(db, step);
  }

  lemma StepMoves(db: Db, step: Step, a: int)
    requires a in db.orders && a < db.nextId && !BlocksOrUnblocks(step, db.orders[a].user)
    ensures a in Next(db, step).orders && Moves(db.orders[a], Next(db, step).orders[a])
  {
    hide Next, Moves;
    if step.DoCreateOrder? || step.DoAdminCreate? {
      CreationMoves(db, step, a);
    } else if step.DoBill? {
      BillOrderMoves(db, step.order, step.now, a);
      BillIs(db, step);
    } else if step.DoEdit? || step.DoPatch? {
      EditMoves(db, step, a);
    } else if step.DoCancel? || step.DoSwap? || step.DoBlock? || step.DoUnblock? || step.DoApprove? {
      StatusMoves(db, step, a);
    } else {
      OthersKeepOrders(db, step);
      MovesReflexive(db.orders[a]);
    }
  }

  lemma CreationMoves(db: Db, step: Step, a: int)
    requires a in db.orders && a < db.nextId && (step.DoCreateOrder? || step.DoAdminCreate?)
    ensures a in Next(db, step).orders && Moves(db.orders[a], Next(db, step).orders[a])
  {
    hide CreateOrder, AdminCreateOrder;
    match step
    case DoCreateOrder(reseller, user, did, channels, route, day, bundle, now) =>
      CreateAddsOne(db, reseller, user, did, channels, route, day, bundle, now);
    case DoAdminCreate(user, did, channels, route, day, bundle, now) =>
      CreateAddsOne(db, 0, user, did, channels, route, day, bundle, now);
  }

  lemma StatusMoves(db: Db, step: Step, a: int)
    requires a in db.orders && !BlocksOrUnblocks(step, db.orders[a].user)
    requires step.DoCancel? || step.DoSwap? || step.DoBlock? || step.DoUnblock? || step.DoApprove?
    ensures a in Next(db, step).orders && Moves(db.orders[a], Next(db, step).orders[a])
  {
    hide Perform, UniqueActive, ActiveOn, Unblock, ApproveBundle, Block, Moves;
    OrderStepIs(db, step);
    if step.DoBlock? || step.DoUnblock? {
      BlockMovesOthers(db, step.user, if step.DoBlock? then step.reason else "", a);
    } else if step.DoApprove? {
      ApprovalMoves(db, step.kyc, a);
    } else {
      CancelMoves(db, step, a);
    }
  }

  lemma CancelMoves(db: Db, step: Step, a: int)
    requires a in db.orders
    ensures step.DoCancel? ==> var r := CancelOrder(db, step.requester, step.order);
              r.Done? ==> a in r.db.orders && Moves(db.orders[a], r.db.orders[a])
    ensures step.DoSwap? ==> var r := SwapDid(db, step.order, step.did);
              r.Done? ==> a in r.db.orders && Moves(db.orders[a], r.db.orders[a])
    ensures Moves(db.orders[a], db.orders[a])
  {
    hide ActiveOn;
  }

  lemma BlockMovesOthers(db: Db, user: int, reason: string, a: int)
    requires a in db.orders && db.orders[a].user != user
    ensures Block(db, user, reason).Done? ==>
        var t := Block(db, user, reason).db; a in t.orders && Moves(db.orders[a], t.orders[a])
    ensures Unblock(db, user).Done? ==> var t := Unblock(db, user).db; a in t.orders && Moves(db.orders[a], t.orders[a])
    ensures Moves(db.orders[a], db.orders[a])
  {
    hide UniqueActive;
  }

  lemma ApprovalMoves(db: Db, kyc: int, a: int)
    requires a in db.orders
    ensures ApproveBundle(db, kyc).Done? ==>
              var t := ApproveBundle(db, kyc).db; a in t.orders && Moves(db.orders[a], t.orders[a])
    ensures Moves(db.orders[a], db.orders[a])
  {
    hide UniqueActive;
  }

  lemma OthersKeepOrders(db: Db, step: Step)
    requires step.AddUser? || step.AddDid? || step.AddBundle? || step.DoReserve? || step.DoRelease? || step.DoRetire?
          || step.DoEditUser? || step.DoDeleteUser? || step.DoReject? || step.DoResellerTopUp? || step.DoAdminTopUp?
          || step.DoCallCharge?
    ensures Next(db, step).orders == db.orders
  {
    hide DeleteUser;
    if step.DoDeleteUser? { DeleteUserIff(db, step.user); }
  }

  ghost predicate NoBlocking(steps: seq<Step>, user: int) {
    forall i :: 0 <= i < |steps| ==> !BlocksOrUnblocks(steps[i], user)
  }

  lemma {:induction false} RunMoves(db: Db, steps: seq<Step>, a: int)
    requires Linked(db) && a in db.orders && NoBlocking(steps, db.orders[a].user)
    ensures a in Exec(db, steps).orders && Moves(db.orders[a], Exec(db, steps).orders[a])
    decreases |steps|
  {
    hide Next, Moves;
    if steps == [] {
      MovesReflexive(db.orders[a]);
    } else {
      var t := Next(db, steps[0]);
      StepMoves(db, steps[0], a);
      StepKeepsLinked(db, steps[0]);
      assert t.orders[a].user == db.orders[a].user by { MovesKeepUser(db.orders[a], t.orders[a]); }
      RunMoves(t, steps[1..], a);
      MovesCompose(db.orders[a], t.orders[a], Exec(db, steps).orders[a]);
    }
  }

  lemma MovesKeepUser(x: Order, y: Order)
    requires Moves(x, y)
    ensures y.user == x.user
  {
  }

  /** Whatever happens between a block and the unblock, order route edits included: an order that
      was active at the block and is still quarantined gets its block-time route back, and an order
      that was neither active nor quarantined is touched by neither of the two. */
  lemma RoutesComeBack(db: Db, user: int, reason: string, between: seq<Step>, a: int)
    requires Linked(db) && a in db.orders && db.orders[a].user == user
    requires Block(db, user, reason).Done? && NoBlocking(between, user)
    requires Unblock(Exec(Block(db, user, reason).db, between), user).Done?
    ensures var b := Block(db, user, reason).db;
      var t := Exec(b, between);
      var u := Unblock(t, user).db;
      && a in t.orders && a in u.orders
      && (db.orders[a].status == Active && t.orders[a].status == Quarantined ==>
            u.orders[a].route == db.orders[a].route && u.orders[a].status == Active && Blank(u.orders[a]))
      && (db.orders[a].status == Active && t.orders[a].status != Quarantined ==>
            t.orders[a].status == Cancelled && u.orders[a] == t.orders[a])
      && (db.orders[a].status !in {Active, Quarantined} ==> b.orders[a] == db.orders[a] && u.orders[a] == t.orders[a])
  {
    hide NoBlocking, UniqueActive, Exec;
    var b := Block(db, user, reason).db;
    StepKeepsLinked(db, DoBlock(user, reason));
    RunMoves(b, between, a);
  }

  // ---------- the identity holds in every reachable state ----------

  /** Only blocked users have quarantined orders, and saved routes are kept only on quarantined or
      cancelled orders. */
  ghost predicate Tidy(db: Db) {
    forall a :: a in db.orders ==>
      var o := db.orders[a];
      && (o.status == Quarantined ==> o.user in db.users && db.users[o.user].status != "active")
      && (o.status !in {Quarantined, Cancelled} ==> Blank(o))
  }

  lemma TidyIf(db: Db, t: Db)
    requires Tidy(db)
    requires forall a :: a in t.orders ==>
               (t.orders[a].status in {Active, KycPending} && Blank(t.orders[a])) ||
               (a in db.orders && Moves(db.orders[a], t.orders[a]))
    requires forall a :: a in t.orders && t.orders[a].status == Quarantined && t.orders[a].user in db.users ==>
               t.orders[a].user in t.users && t.users[t.orders[a].user].status == db.users[t.orders[a].user].status
    ensures Tidy(t)
  {
  }

  lemma AddsOneKeepsTidy(db: Db, t: Db)
    requires Tidy(db) && AddsOne(db, t)
    ensures Tidy(t)
  {
    forall a | a in t.orders && a != db.nextId ensures t.orders[a] == db.orders[a] {
    }
    TidyIf(db, t);
  }

  lemma BillOrderKeepsTidy(db: Db, oid: int, now: Time)
    requires Tidy(db)
    ensures Tidy(BillOrder(db, oid, now).0)
  {
    hide NextAnniversary, Ladder, ChargeOrder, Moves;
    var (t, r) := BillOrder(db, oid, now);
    if r.Some? && r != Some(CancelledOutcome) {
      var o := db.orders[oid];
      ChargeOrderFrame(db, oid, Ladder(db.cards[o.card], db.users[o.user].balance, o.channels), now);
    }
    forall a | a in t.orders ensures a in db.orders && Moves(db.orders[a], t.orders[a]) {
      BillOrderMoves(db, oid, now, a);
    }
    TidyIf(db, t);
  }

  lemma BlockKeepsTidy(db: Db, user: int, reason: string)
    requires Tidy(db)
    ensures Block(db, user, reason).Done? ==> Tidy(Block(db, user, reason).db)
  {
  }

  lemma UnblockKeepsTidy(db: Db, user: int)
    requires Tidy(db)
    ensures Unblock(db, user).Done? ==> Tidy(Unblock(db, user).db)
  {
    hide UniqueActive;
  }

  lemma StepKeepsTidy(db: Db, step: Step)
    requires Linked(db) && Tidy(db) && !step.DoEditUser?
    ensures Tidy(Next(db, step))
  {
    hide Tidy, CreateOrder, AdminCreateOrder, BillOrder, UniqueActive, ActiveOn, RowsWithout, NumbersOf, ReturnAll,
        Block, Unblock,
         Post, Moves, StartStatus;
    match step
    case DoCreateOrder(reseller, user, did, channels, route, day, bundle, now) =>
      CreateAddsOne(db, reseller, user, did, channels, route, day, bundle, now);
      if Perform(db, step).Done? { AddsOneKeepsTidy(db, Next(db, step)); }
    case DoAdminCreate(user, did, channels, route, day, bundle, now) =>
      CreateAddsOne(db, 0, user, did, channels, route, day, bundle, now);
      if Perform(db, step).Done? { AddsOneKeepsTidy(db, Next(db, step)); }
    case DoBlock(user, reason) => BlockKeepsTidy(db, user, reason);
    case DoUnblock(user) => UnblockKeepsTidy(db, user);
    case DoBill(order, now) => BillOrderKeepsTidy(db, order, now);
    case DoDeleteUser(user) => DeleteUserIff(db, user); OthersKeepTidy(db, step);
    case _ => OthersKeepTidy(db, step);
  }

  lemma OthersKeepTidy(db: Db, step: Step)
    requires Linked(db) && Tidy(db)
    requires !step.DoEditUser? && !step.DoBlock? && !step.DoUnblock? && !step.DoBill? && !step.DoCreateOrder?
        && !step.DoAdminCreate?
    ensures Tidy(Next(db, step))
  {
    hide Perform, Next, Tidy;
    var t := Next(db, step);
    forall a | a in db.orders ensures a in t.orders && Moves(db.orders[a], t.orders[a]) {
      StepMoves(db, step, a);
    }
    OthersKeepUsers(db, step);
    TidyIf(db, t);
  }

  lemma OthersKeepUsers(db: Db, step: Step)
    requires Linked(db)
    requires !step.DoEditUser? && !step.DoBlock? && !step.DoUnblock? && !step.DoBill? && !step.DoCreateOrder?
        && !step.DoAdminCreate?
    ensures Next(db, step).orders.Keys == db.orders.Keys
    ensures forall a :: a in db.orders ==>
              db.orders[a].user in Next(db, step).users
                  && Next(db, step).users[db.orders[a].user].status == db.users[db.orders[a].user].status
  {
    hide Next, Linked;
    OwnersExist(db);
    if step.DoDeleteUser? {
      DeletionKeepsUsers(db, step.user);
    } else if step.DoEdit? || step.DoPatch? {
      EditShape(db, step);
    } else if step.DoResellerTopUp? || step.DoAdminTopUp? || step.DoCallCharge? || step.AddUser? {
      MoneyKeepsUsers(db, step);
    } else {
      UsersUntouched(db, step);
    }
  }

  lemma MoneyKeepsUsers(db: Db, step: Step)
    requires step.DoResellerTopUp? || step.DoAdminTopUp? || step.DoCallCharge? || step.AddUser?
    ensures var t := Next(db, step);
      t.orders == db.orders && forall u :: u in db.users && u < db.nextId ==>
          u in t.users && t.users[u].status == db.users[u].status
  {
  }

  lemma UsersUntouched(db: Db, step: Step)
    requires step.DoCancel? || step.DoSwap? || step.DoApprove? || step.DoReject? || step.DoReserve? || step.DoRelease?
          || step.DoRetire? || step.AddDid? || step.AddBundle?
    ensures Next(db, step).users == db.users && Next(db, step).orders.Keys == db.orders.Keys
  {
    hide Next;
    if step.DoCancel? || step.DoSwap? || step.DoApprove? {
      OrdersSpareUsers(db, step);
    } else {
      NumberFormsSpareUsers(db, step);
    }
  }

  lemma OrdersSpareUsers(db: Db, step: Step)
    requires step.DoCancel? || step.DoSwap? || step.DoApprove?
    ensures Next(db, step).users == db.users && Next(db, step).orders.Keys == db.orders.Keys
  {
    hide Perform, UniqueActive, ActiveOn;
    OrderStepIs(db, step);
  }

  lemma NumberFormsSpareUsers(db: Db, step: Step)
    requires step.DoReject? || step.DoReserve? || step.DoRelease? || step.DoRetire? || step.AddDid? || step.AddBundle?
    ensures Next(db, step).users == db.users && Next(db, step).orders == db.orders
  {
  }

  lemma OwnersExist(db: Db)
    requires Linked(db)
    ensures forall a :: a in db.orders ==> db.orders[a].user in db.users && db.orders[a].user < db.nextId
  {
  }

  lemma DeletionKeepsUsers(db: Db, user: int)
    requires Linked(db)
    ensures var t := Next(db, DoDeleteUser(user));
      t.orders.Keys == db.orders.Keys &&
      forall a :: a in db.orders ==>
        db.orders[a].user in t.users && t.users[db.orders[a].user].status == db.users[db.orders[a].user].status
  {
    hide RowsWithout;
    DeleteUserIff(db, user);
  }

  /** As long as nobody edits a user's status by hand, every reachable state is tidy. */
  lemma {:induction false} TidyInEveryRun(db: Db, steps: seq<Step>)
    requires Linked(db) && Tidy(db)
    requires forall i :: 0 <= i < |steps| ==> !steps[i].DoEditUser?
    ensures Tidy(Exec(db, steps))
    decreases |steps|
  {
    hide Linked, Tidy, Next;
    if steps != [] {
      StepKeepsLinked(db, steps[0]);
      StepKeepsTidy(db, steps[0]);
      TidyInEveryRun(Next(db, steps[0]), steps[1..]);
    }
  }

  // ---------- the unique index, in every run ----------

  lemma FewerActive(before: map<int, Order>, after: map<int, Order>)
    requires UniqueActive(before)
    requires forall a :: a in after && after[a].status == Active ==>
               a in before && before[a].status == Active && after[a].did == before[a].did
    ensures UniqueActive(after)
  {
  }

  lemma OneMoreActive(before: map<int, Order>, after: map<int, Order>, oid: int)
    requires UniqueActive(before) && oid in after
    requires forall a :: a in after && a != oid ==> a in before && after[a] == before[a]
    requires after[oid].status == Active ==> !ActiveOn(before, after[oid].did, oid)
    ensures UniqueActive(after)
  {
    forall a, b | a in after && b in after && a != b && after[a].status == Active && after[b].status == Active
      ensures after[a].did != after[b].did
    {
      if b == oid {
        assert a in before && before[a].status == Active && a != oid;
      }
    }
  }

  lemma PlaceKeepsIndex(db: Db, user: int, did: int, channels: int, route: Route, day: int, bundle: Option<int>,
                        card: int, status: OrderStatus, now: Time)
    requires UniqueActive(db.orders) && user in db.users && did in db.dids && card in db.cards
    ensures var r := PlaceOrder(db, user, did, channels, route, day, bundle, card, status, now); r.Done? ==>
        UniqueActive(r.db.orders)
  {
    hide NextAnniversary, ActiveOn, UniqueActive;
    var r := PlaceOrder(db, user, did, channels, route, day, bundle, card, status, now);
    if r.Done? {
      OneMoreActive(db.orders, r.db.orders, db.nextId);
    }
  }

  lemma CreationKeepsIndex(db: Db, step: Step)
    requires UniqueActive(db.orders) && (step.DoCreateOrder? || step.DoAdminCreate?)
    ensures UniqueActive(Next(db, step).orders)
  {
    hide PlaceOrder, UniqueActive;
    if Perform(db, step).Done? {
      PlaceKeepsIndex(db, step.user, step.did, step.channels, step.route, step.day, step.bundle,
                      db.dids[step.did].card.value,
                      StartStatus(db, step.user, step.bundle).value, step.now);
    }
  }

  lemma SwapKeepsIndex(db: Db, oid: int, did: int)
    requires UniqueActive(db.orders)
    ensures UniqueActive(Next(db, DoSwap(oid, did)).orders)
  {
    hide ActiveOn, UniqueActive;
    if SwapDid(db, oid, did).Done? {
      OneMoreActive(db.orders, Next(db, DoSwap(oid, did)).orders, oid);
    }
  }

  lemma EditKeepsIndex(db: Db, step: Step)
    requires UniqueActive(db.orders) && (step.DoEdit? || step.DoPatch?)
    ensures UniqueActive(Next(db, step).orders)
  {
    hide ActiveOn, UniqueActive, Next;
    EditShape(db, step);
    if Next(db, step) != db {
      if db.orders[step.order].status == Active {
        StillAlone(db.orders, step.order);
      }
      OneMoreActive(db.orders, Next(db, step).orders, step.order);
    }
  }

  lemma StillAlone(orders: map<int, Order>, oid: int)
    requires UniqueActive(orders) && oid in orders && orders[oid].status == Active
    ensures !ActiveOn(orders, orders[oid].did, oid)
  {
  }

  lemma BillKeepsIndex(db: Db, oid: int, now: Time)
    requires UniqueActive(db.orders)
    ensures UniqueActive(BillOrder(db, oid, now).0.orders)
  {
    hide NextAnniversary, Ladder, ChargeOrder, UniqueActive;
    var (t, r) := BillOrder(db, oid, now);
    if r.Some? {
      if r != Some(CancelledOutcome) {
        ChargeOrderFrame(db, oid, Ladder(db.cards[db.orders[oid].card], db.users[db.orders[oid].user].balance,
                                         db.orders[oid].channels), now);
      }
      FewerActive(db.orders, t.orders);
    }
  }

  lemma StepKeepsIndex(db: Db, step: Step)
    requires UniqueActive(db.orders)
    ensures UniqueActive(Next(db, step).orders)
  {
    hide UniqueActive, DeleteUser;
    if step.DoCreateOrder? || step.DoAdminCreate? {
      CreationKeepsIndex(db, step);
    } else if step.DoSwap? {
      SwapKeepsIndex(db, step.order, step.did);
    } else if step.DoEdit? || step.DoPatch? {
      EditKeepsIndex(db, step);
    } else if step.DoBill? {
      BillKeepsIndex(db, step.order, step.now);
    } else if step.DoCancel? || step.DoBlock? {
      FewerActive(db.orders, Next(db, step).orders);
    } else if !step.DoUnblock? && !step.DoApprove? {
      OthersKeepOrders(db, step);
    }
  }

  lemma {:induction false} IndexHoldsInEveryRun(db: Db, steps: seq<Step>)
    requires UniqueActive(db.orders)
    ensures UniqueActive(Exec(db, steps).orders)
    decreases |steps|
  {
    hide UniqueActive, Next;
    if steps != [] {
      StepKeepsIndex(db, steps[0]);
      IndexHoldsInEveryRun(Next(db, steps[0]), steps[1..]);
    }
  }

  /** In every state reached without the status form, harmlessly or not, blocking an active user and unblocking
      again changes nothing. */
  lemma BlockUnblockIsIdentityWhenReachable(cards: map<int, RateCard>, steps: seq<Step>, user: int, reason: string)
    requires forall i :: 0 <= i < |steps| ==> !steps[i].DoEditUser?
    requires Block(Exec(Fresh(cards), steps), user, reason).Done?
    ensures var db := Exec(Fresh(cards), steps);
      Unblock(Block(db, user, reason).db, user) == Done(db)
  {
    hide Exec, Block, Unblock;
    assert Tidy(Fresh(cards));
    TidyInEveryRun(Fresh(cards), steps);
    IndexHoldsInEveryRun(Fresh(cards), steps);
    var db := Exec(Fresh(cards), steps);
    BlockNeedsActive(db, user, reason);
    NoneQuarantined(db, user);
    BlockUnblockIsIdentityIff(db, user, reason);
  }

  lemma NoneQuarantined(db: Db, user: int)
    requires Tidy(db) && user in db.users && db.users[user].status == "active"
    ensures forall a :: a in db.orders && db.orders[a].user == user ==>
              db.orders[a].status != Quarantined && (db.orders[a].status == Active ==> Blank(db.orders[a]))
  {
  }

  lemma BlockNeedsActive(db: Db, user: int, reason: string)
    requires Block(db, user, reason).Done?
    ensures user in db.users && db.users[user].status == "active"
  {
  }

  /** The user form breaks it: reactivating by hand leaves an order quarantined under an active user,
      and the next block and unblock wakes that order up. */
  lemma EditedStatusBreaksIdentity(db: Db, user: int, reason: string)
    requires Inv(db) && Block(db, user, reason).Done?
    requires exists a :: a in db.orders && db.orders[a].user == user && db.orders[a].status == Active
    ensures var e := EditUser(Block(db, user, reason).db, user, "active").db;
      && !Tidy(e)
      && Block(e, user, reason).Done?
      && Unblock(Block(e, user, reason).db, user).Done?
      && Unblock(Block(e, user, reason).db, user).db != e
  {
    var a :| a in db.orders && db.orders[a].user == user && db.orders[a].status == Active;
    var b := Block(db, user, reason).db;
    var e := EditUser(b, user, "active").db;
    assert e.orders[a].status == Quarantined && e.users[user].status == "active";
    BlockKeeps(db, user, reason);
    EditUserKeeps(b, user, "active");
    BlockUnblockIsIdentityIff(e, user, reason);
  }
}
