/** Each transaction in its own terms: when it succeeds, and what every row holds afterwards. */
module Transactions {
  import opened Basics
  import opened Calendar
  import opened Store
  import Lifecycle
  import Billing

  // ---------- rows that stay ----------

  lemma SameMap<V>(was: map<int, V>, m: map<int, V>, n: map<int, V>)
    requires m.Keys == was.Keys && n.Keys == was.Keys && forall x :: x in was ==> m[x] == n[x]
    ensures m == n
  {
    forall x | x in m ensures x in n && m[x] == n[x] {
      assert x in was;
    }
  }

  ghost predicate SameOrders(db: Db, t: Db, except: set<int>) {
    t.orders.Keys == db.orders.Keys && forall a :: a in db.orders && a !in except ==> t.orders[a] == db.orders[a]
  }

  ghost predicate SameDids(db: Db, t: Db, except: set<int>) {
    t.dids.Keys == db.dids.Keys && forall d :: d in db.dids && d !in except ==> t.dids[d] == db.dids[d]
  }

  ghost predicate SameUsers(db: Db, t: Db, except: set<int>) {
    t.users.Keys == db.users.Keys && forall u :: u in db.users && u !in except ==> t.users[u] == db.users[u]
  }

  /** Another order is in service on the number. */
  ghost predicate Clashes(db: Db, oid: int, did: int) {
    exists a :: a in db.orders && a != oid && db.orders[a].status == Active && db.orders[a].did == did
  }

  // ---------- KYC ----------

  /** In service once the bundle is approved: already, or pending on this very bundle. */
  predicate InForce(o: Order, bundle: int) {
    o.status == Active || (o.status == KycPending && o.bundle == Some(bundle))
  }

  ghost predicate TwoInForce(db: Db, bundle: int) {
    exists a, b :: a in db.orders && b in db.orders && a != b && db.orders[a].did == db.orders[b].did
                   && InForce(db.orders[a], bundle) && InForce(db.orders[b], bundle)
  }

  /** Whom an approval activates: an order's status changes if and only if it was pending on this bundle. */
  ghost predicate Approves(db: Db, bundle: int, r: Outcome) {
    && (r.Done? <==>
          && bundle in db.bundles && (db.bundles[bundle].status == Pending || db.bundles[bundle].status == Rejected)
          && !TwoInForce(db, bundle))
    && (r.Done? ==>
          && r.db == db.(orders := r.db.orders, bundles := r.db.bundles) && r.db.orders.Keys == db.orders.Keys
          && r.db.bundles == db.bundles[bundle := Bundle(db.bundles[bundle].user, Approved)]
          && forall a :: a in db.orders ==>
               && (r.db.orders[a].status != db.orders[a].status <==>
                     db.orders[a].status == KycPending && db.orders[a].bundle == Some(bundle))
               && (r.db.orders[a].status != db.orders[a].status ==> r.db.orders[a].status == Active)
               && r.db.orders[a].(status := db.orders[a].status) == db.orders[a])
  }

  lemma ApprovalMeans(db: Db, bundle: int)
    ensures Approves(db, bundle, ApproveBundle(db, bundle))
  {
    ActivationClashes(db, bundle);
    hide UniqueActive;
  }

  lemma ActivationClashes(db: Db, bundle: int)
    ensures UniqueActive(ActivateFor(db.orders, bundle)) <==> !TwoInForce(db, bundle)
  {
    var after := ActivateFor(db.orders, bundle);
    assert forall a :: a in db.orders ==>
        a in after && after[a].did == db.orders[a].did
            && (after[a].status == Active <==> InForce(db.orders[a], bundle));
  }

  /** A rejection writes the bundle alone: no order goes out of service. */
  ghost predicate Rejects(db: Db, bundle: int, r: Outcome) {
    && r.Done? && r.db == db.(bundles := r.db.bundles) && r.db.bundles.Keys == db.bundles.Keys
    && forall b :: b in db.bundles ==>
         r.db.bundles[b] == if b == bundle then Bundle(db.bundles[b].user, Rejected) else db.bundles[b]
  }

  lemma RejectionMeans(db: Db, bundle: int)
    ensures Rejects(db, bundle, RejectBundle(db, bundle))
  {
  }

  // ---------- moving and ending an order ----------

  predicate Serviceable(o: Order) {
    o.status == Active || o.status == KycPending || o.status == Quarantined
  }

  ghost predicate Swaps(db: Db, oid: int, did: int, r: Outcome) {
    && (r.Done? <==>
          && oid in db.orders && Serviceable(db.orders[oid]) && did in db.dids && db.dids[did].status == Available
          && db.orders[oid].did != did && !(db.orders[oid].status == Active && Clashes(db, oid, did)))
    && (r.Done? ==>
          var from := db.orders[oid].did;
          && r.db == db.(orders := r.db.orders, dids := r.db.dids)
          && SameOrders(db, r.db, {oid}) && r.db.orders[oid].did == did
          && r.db.orders[oid].(did := from) == db.orders[oid]
          && SameDids(db, r.db, {from, did}) && r.db.dids[did] == db.dids[did].(status := Assigned)
          && (from in db.dids ==> r.db.dids[from] == db.dids[from].(status := Available)))
  }

  lemma SwapMeans(db: Db, oid: int, did: int)
    ensures Swaps(db, oid, did, SwapDid(db, oid, did))
  {
  }

  /** Under the invariant: a swap succeeds exactly onto another number that is available, leaves the old one available
      with no live order and the new one assigned with this order on it, and swapping back undoes it. */
  lemma SwapMoves(db: Db, oid: int, did: int)
    requires Lifecycle.Inv(db)
    ensures var r := SwapDid(db, oid, did);
      && (r.Done? <==>
            oid in db.orders && Serviceable(db.orders[oid]) && did in db.dids && db.dids[did].status == Available)
      && (r.Done? ==>
            var from := db.orders[oid].did;
            && from != did && from in r.db.dids && r.db.dids[from].status == Available && !Lifecycle.Open(r.db, from)
            && r.db.dids[did].status == Assigned && r.db.orders[oid] == db.orders[oid].(did := did)
            && (forall a :: a in r.db.orders && a != oid && Lifecycle.Live(r.db.orders[a]) ==>
                r.db.orders[a].did != did)
            && SameOrders(db, r.db, {oid}) && SameDids(db, r.db, {from, did})
            && SwapDid(r.db, oid, from) == Done(db))
  {
    SwapMeans(db, oid, did);
    Lifecycle.SwapKeeps(db, oid, did);
    var r := SwapDid(db, oid, did);
    if oid in db.orders && Serviceable(db.orders[oid]) && did in db.dids && db.dids[did].status == Available {
      Lifecycle.FreeNumbersHaveNoOrder(db, did);
      assert Lifecycle.WellPlaced(db.orders[oid], db.dids);
    }
    if r.Done? {
      hide SwapDid;
      Lifecycle.FreeNumbersHaveNoOrder(r.db, db.orders[oid].did);
      SwapBack(db, oid, did);
    }
  }

  lemma SwapBack(db: Db, oid: int, did: int)
    requires Lifecycle.Inv(db) && SwapDid(db, oid, did).Done?
    ensures var from := db.orders[oid].did; SwapDid(SwapDid(db, oid, did).db, oid, from) == Done(db)
  {
    SwapMeans(db, oid, did);
    Lifecycle.SwapKeeps(db, oid, did);
    var t := SwapDid(db, oid, did).db;
    var from := db.orders[oid].did;
    assert Lifecycle.WellPlaced(db.orders[oid], db.dids);
    hide SwapDid;
    SwapMeans(t, oid, from);
    Lifecycle.FreeNumbersHaveNoOrder(t, from);
    var u := SwapDid(t, oid, from);
    assert u.db.orders == db.orders && u.db.dids == db.dids;
  }

  /** `reseller` is None for the admin; a reseller reaches the orders of its own users only. */
  ghost predicate Cancels(db: Db, reseller: Option<int>, oid: int, r: Outcome) {
    && (r.Done? <==>
          && oid in db.orders && db.orders[oid].status != Cancelled
          && (reseller == None || (db.orders[oid].user in db.users
                                   && db.users[db.orders[oid].user].reseller == Some(reseller.value))))
    && (r.Done? ==>
          var did := db.orders[oid].did;
          && r.db == db.(orders := r.db.orders, dids := r.db.dids)
          && SameOrders(db, r.db, {oid}) && r.db.orders[oid] == db.orders[oid].(status := Cancelled)
          && SameDids(db, r.db, {did}) && (did in db.dids ==> r.db.dids[did] == db.dids[did].(status := Available)))
  }

  lemma CancelMeans(db: Db, reseller: Option<int>, oid: int)
    ensures Cancels(db, reseller, oid, CancelOrder(db, reseller, oid))
  {
  }

  // ---------- money ----------

  /** One user's balance moves by `delta`, and the ledger says so. */
  ghost predicate Posted(db: Db, t: Db, user: int, delta: int, kind: LedgerKind)
    requires user in db.users
  {
    && t == db.(users := t.users, ledger := t.ledger)
    && SameUsers(db, t, {user}) && t.users[user].balance == db.users[user].balance + delta
    && t.users[user].status == db.users[user].status && t.users[user].reseller == db.users[user].reseller
    && |t.ledger| == |db.ledger| + 1 && t.ledger[..|db.ledger|] == db.ledger
    && t.ledger[|db.ledger|] == LedgerRow(user, delta, kind, t.users[user].balance)
  }

  ghost predicate ResellerTopsUp(db: Db, reseller: int, user: int, cents: int, r: Outcome) {
    && (r.Done? <==> cents > 0 && user in db.users && db.users[user].reseller == Some(reseller))
    && (r.Done? ==> Posted(db, r.db, user, cents, TopUpEntry))
  }

  lemma ResellerTopUpMeans(db: Db, reseller: int, user: int, cents: int)
    ensures ResellerTopsUp(db, reseller, user, cents, ResellerTopUp(db, reseller, user, cents))
  {
  }

  ghost predicate AdminTopsUp(db: Db, user: int, cents: int, r: Outcome) {
    && (r.Done? <==> cents != 0 && user in db.users)
    && (r.Done? ==> Posted(db, r.db, user, cents, TopUpEntry))
  }

  lemma AdminTopUpMeans(db: Db, user: int, cents: int)
    ensures AdminTopsUp(db, user, cents, AdminTopUp(db, user, cents))
  {
  }

  ghost predicate Charges(db: Db, user: int, cents: int, r: Outcome) {
    && (r.Done? <==> cents <= 0 || user in db.users)
    && (r.Done? && cents <= 0 ==> r.db == db)
    && (r.Done? && cents > 0 ==> Posted(db, r.db, user, -cents, CallChargeEntry))
  }

  lemma CallChargeMeans(db: Db, user: int, cents: int)
    ensures Charges(db, user, cents, CallCharge(db, user, cents))
  {
  }

  // ---------- creating an order ----------

  predicate Backed(db: Db, bundle: Option<int>) {
    bundle.Some? && bundle.value in db.bundles && db.bundles[bundle.value].status == Approved
  }

  predicate BundleFits(db: Db, user: int, bundle: Option<int>) {
    bundle.Some? ==> bundle.value in db.bundles && db.bundles[bundle.value].user == user
  }

  predicate Priced(db: Db, did: int) {
    did in db.dids && db.dids[did].card.Some? && db.dids[did].card.value in db.cards
  }

  /** What both forms demand: a route, a priced number, a user whose balance covers the setup fee, a bundle of that
      user if any, and no other active order on the number if this one is active at once. */
  ghost predicate Orderable(db: Db, user: int, did: int, route: Route, bundle: Option<int>) {
    && route.kind != "" && route.target != "" && user in db.users && Priced(db, did)
    && db.users[user].balance >= db.cards[db.dids[did].card.value].nrc && BundleFits(db, user, bundle)
    && !(Backed(db, bundle) && Clashes(db, db.nextId, did))
  }

  /** The new order: active only with an approved bundle behind it, pending otherwise. */
  ghost predicate NewOrder(db: Db, o: Order, user: int, did: int, channels: int, route: Route, day: int,
                           bundle: Option<int>, now: Time)
    requires Priced(db, did)
  {
    && o.user == user && o.did == did && o.route == route && o.bundle == bundle && o.card == db.dids[did].card.value
    && o.status == (if Backed(db, bundle) then Active else KycPending)
    && (if channels >= 0 then o.channels == channels else o.channels == 0)
    && (if 1 <= day <= 28 then o.anniversaryDay == day
        else if now.day <= 28 then o.anniversaryDay == now.day else o.anniversaryDay == 28)
    && o.nextBilling == NextAnniversary(now, o.anniversaryDay) && o.preKind == None && o.preTarget == None
  }

  /** One order more, its number assigned, and the setup fee taken, if there is one. */
  ghost predicate Created(db: Db, t: Db, user: int, did: int, channels: int, route: Route, day: int,
                          bundle: Option<int>,
                          now: Time)
    requires Priced(db, did) && user in db.users
  {
    && t == db.(orders := t.orders, nextId := t.nextId, dids := t.dids, users := t.users, ledger := t.ledger)
    && t.nextId == db.nextId + 1 && t.orders.Keys == db.orders.Keys + {db.nextId}
    && (forall a :: a in db.orders && a != db.nextId ==> t.orders[a] == db.orders[a])
    && NewOrder(db, t.orders[db.nextId], user, did, channels, route, day, bundle, now)
    && SameDids(db, t, {did}) && t.dids[did] == db.dids[did].(status := Assigned)
    && var nrc: int := db.cards[db.dids[did].card.value].nrc;
       if nrc == 0 then t.users == db.users && t.ledger == db.ledger
       else Posted(db, db.(users := t.users, ledger := t.ledger), user, -nrc, NrcEntry)
  }

  lemma PlacedIsCreated(db: Db, user: int, did: int, channels: int, route: Route, day: int, bundle: Option<int>,
                        now: Time)
    requires Priced(db, did) && user in db.users && BundleFits(db, user, bundle)
    ensures StartStatus(db, user, bundle) == Some(if Backed(db, bundle) then Active else KycPending)
    ensures var status := StartStatus(db, user, bundle).value;
      var r := PlaceOrder(db, user, did, channels, route, day, bundle, db.dids[did].card.value, status, now);
      && (r.Done? <==> !(Backed(db, bundle) && Clashes(db, db.nextId, did)))
      && (r.Done? ==> Created(db, r.db, user, did, channels, route, day, bundle, now))
  {
    hide NextAnniversary;
  }

  /** The reseller's form also wants a user of its own and an available number. */
  ghost predicate Creates(db: Db, reseller: int, user: int, did: int, channels: int, route: Route, day: int,
                      bundle: Option<int>, now: Time, r: Outcome) {
    && (r.Done? <==> Orderable(db, user, did, route, bundle) && db.users[user].reseller == Some(reseller)
                     && db.dids[did].status == Available)
    && (r.Done? ==> Created(db, r.db, user, did, channels, route, day, bundle, now))
  }

  lemma CreationMeans(db: Db, reseller: int, user: int, did: int, channels: int, route: Route, day: int,
                      bundle: Option<int>, now: Time)
    ensures Creates(db, reseller, user, did, channels, route, day, bundle, now,
                    CreateOrder(db, reseller, user, did, channels, route, day, bundle, now))
  {
    hide PlaceOrder, Clashes, Created;
    if Priced(db, did) && user in db.users && BundleFits(db, user, bundle) {
      PlacedIsCreated(db, user, did, channels, route, day, bundle, now);
    }
  }

  /** The admin's form asks neither whose user it is nor whether the number is free. */
  ghost predicate AdminCreates(db: Db, user: int, did: int, channels: int, route: Route, day: int, bundle: Option<int>,
                           now: Time, r: Outcome) {
    && (r.Done? <==> Orderable(db, user, did, route, bundle))
    && (r.Done? ==> Created(db, r.db, user, did, channels, route, day, bundle, now))
  }

  lemma AdminCreationMeans(db: Db, user: int, did: int, channels: int, route: Route, day: int, bundle: Option<int>,
                           now: Time)
    ensures AdminCreates(db, user, did, channels, route, day, bundle, now,
                         AdminCreateOrder(db, user, did, channels, route, day, bundle, now))
  {
    hide PlaceOrder, Clashes, Created;
    if Priced(db, did) && user in db.users && BundleFits(db, user, bundle) {
      PlacedIsCreated(db, user, did, channels, route, day, bundle, now);
    }
  }

  // ---------- editing an order ----------

  /** What either write leaves: the terms given, the bundle kept or given, and a pending order activated by an approved
      bundle that the form names. It fails on a bundle that is gone, or on another active order on the number. */
  ghost predicate Rewrites(db: Db, r: Outcome, oid: int, route: Route, channels: int, day: int, bundle: Option<int>,
                           named: Option<int>)
    requires oid in db.orders
  {
    var o := db.orders[oid];
    var activates := o.status == KycPending && Backed(db, named);
    && (r.Done? <==> (bundle.Some? ==> bundle.value in db.bundles) && !(activates && Clashes(db, oid, o.did)))
    && (r.Done? ==>
          && r.db == db.(orders := r.db.orders) && SameOrders(db, r.db, {oid})
          && var p := r.db.orders[oid];
             && p.user == o.user && p.did == o.did && p.card == o.card && p.preKind == o.preKind
             && p.preTarget == o.preTarget && p.nextBilling == o.nextBilling
             && p.route == route && p.channels == channels && p.anniversaryDay == day && p.bundle == bundle
             && p.status == if activates then Active else o.status)
  }

  ghost predicate Edits(db: Db, oid: int, route: Route, channels: int, day: int, bundle: Option<int>, r: Outcome) {
    if oid in db.orders then Rewrites(db, r, oid, route, channels, day, bundle, bundle) else r == Done(db)
  }

  lemma EditWriteMeans(db: Db, oid: int, route: Route, channels: int, day: int, bundle: Option<int>)
    ensures Edits(db, oid, route, channels, day, bundle, EditWrite(db, oid, route, channels, day, bundle))
  {
  }

  /** A PATCH that names no bundle keeps the old one and activates nothing. */
  ghost predicate Patches(db: Db, oid: int, route: Route, channels: int, bundle: Option<int>, r: Outcome) {
    if oid !in db.orders then r == Done(db)
    else
      var o := db.orders[oid];
      && (bundle.Some? ==> Rewrites(db, r, oid, route, channels, o.anniversaryDay, bundle, bundle))
      && (bundle.None? ==> Rewrites(db, r, oid, route, channels, o.anniversaryDay, o.bundle, None))
      && (bundle.None? && r.Done? ==> r.db.orders[oid].status == o.status)
  }

  lemma PatchWriteMeans(db: Db, oid: int, route: Route, channels: int, bundle: Option<int>)
    ensures Patches(db, oid, route, channels, bundle, PatchWrite(db, oid, route, channels, bundle))
  {
  }

  /** What the edit form takes. */
  lemma EditTakes(db: Db, oid: int, route: Route, channels: int, day: int, bundle: Option<int>)
    ensures EditRefusal(db, oid, route, channels, day, bundle) == None <==>
      && oid in db.orders && Serviceable(db.orders[oid]) && route.target != ""
      && (route.kind == "sip_uri" || route.kind == "ip" || route.kind == "sip_account" || route.kind == "audio")
      && (0 <= channels <= 8192 || channels == db.orders[oid].channels)
      && (1 <= day <= 28 || day == db.orders[oid].anniversaryDay)
      && (bundle == db.orders[oid].bundle || BundleFits(db, db.orders[oid].user, bundle))
  {
  }

  /** What the reseller's PATCH takes. */
  lemma PatchTakes(db: Db, reseller: int, oid: int, route: Route, channels: int, bundle: Option<int>)
    ensures PatchRefusal(db, reseller, oid, route, channels, bundle) == None <==>
      && oid in db.orders && db.orders[oid].user in db.users && db.users[db.orders[oid].user].reseller == Some(reseller)
      && Serviceable(db.orders[oid]) && route.target != ""
      && (route.kind == "sip_uri" || route.kind == "ip" || route.kind == "sip_account")
      && (0 <= channels || channels == db.orders[oid].channels) && BundleFits(db, db.orders[oid].user, bundle)
  {
  }

  // ---------- numbers ----------

  /** `at` is the only number row that changes. */
  ghost predicate OnlyNumber(db: Db, t: Db, at: int, row: Did) {
    SameDids(db, t, {at}) && at in t.dids && t.dids[at] == row
  }

  ghost predicate Reserves(db: Db, did: int, r: Reservation, e: Outcome) {
    && (e.Done? <==> did in db.dids && db.dids[did].status == Available && r.kind != ""
                     && (r.target != "" || r.kind == "audio_group"))
    && (e.Done? ==>
          && e.db == db.(dids := e.db.dids) && OnlyNumber(db, e.db, did, Did(Reserved, db.dids[did].card, Some(r))))
  }

  lemma ReservationMeans(db: Db, did: int, r: Reservation)
    ensures Reserves(db, did, r, ReserveDid(db, did, r))
  {
  }

  ghost predicate Releases(db: Db, did: int, e: Outcome) {
    && (e.Done? <==> did in db.dids && db.dids[did].status == Reserved)
    && (e.Done? ==>
          && e.db == db.(dids := e.db.dids, history := e.db.history)
          && OnlyNumber(db, e.db, did, Did(Available, db.dids[did].card, None))
          && e.db.history == db.history + [HistoryRow(did, db.dids[did].reserved)])
  }

  lemma ReleaseMeans(db: Db, did: int)
    ensures Releases(db, did, ReleaseDid(db, did))
  {
  }

  /** A suspended order does not hold up a retirement, and neither does a cancelled one. */
  lemma RetirementTakes(db: Db, did: int)
    ensures RetireRefusal(db, did).None? <==>
              (forall a :: a in db.orders && db.orders[a].did == did ==>
                 db.orders[a].status == Suspended || db.orders[a].status == Cancelled)
  {
  }

  /** Its write. */
  ghost predicate Retires(db: Db, did: int, r: Outcome) {
    && r.Done? && r.db == db.(dids := r.db.dids) && SameDids(db, r.db, {did})
    && (did in db.dids ==> r.db.dids[did] == Did(Retired, db.dids[did].card, db.dids[did].reserved))
  }

  lemma RetirementMeans(db: Db, did: int)
    ensures Retires(db, did, Done(RetireWrite(db, did)))
  {
  }

  // ---------- users ----------

  ghost predicate OnlyStatus(db: Db, t: Db, user: int, status: string) {
    SameUsers(db, t, {user}) && (user in db.users ==> t.users[user] == db.users[user].(status := status))
  }

  /** A block needs a reason and an active user, and quarantines that user's active orders, saving their routes. */
  ghost predicate Blocks(db: Db, user: int, reason: string, r: Outcome) {
    && (r.Done? <==> reason != "" && user in db.users && db.users[user].status == "active")
    && (r.Done? ==>
          && r.db == db.(users := r.db.users, orders := r.db.orders) && OnlyStatus(db, r.db, user, "inactive")
          && r.db.orders.Keys == db.orders.Keys
          && forall a :: a in db.orders ==>
               var o := db.orders[a];
               if o.user == user && o.status == Active then
                 r.db.orders[a] == o.(status := Quarantined, preKind := Some(o.route.kind),
                                      preTarget := Some(o.route.target))
               else r.db.orders[a] == o)
  }

  lemma BlockMeans(db: Db, user: int, reason: string)
    ensures Blocks(db, user, reason, Block(db, user, reason))
  {
  }

  predicate BackInForce(o: Order, user: int) {
    o.status == Active || (o.user == user && o.status == Quarantined)
  }

  ghost predicate TwoBack(db: Db, user: int) {
    exists a, b :: a in db.orders && b in db.orders && a != b && db.orders[a].did == db.orders[b].did
                   && BackInForce(db.orders[a], user) && BackInForce(db.orders[b], user)
  }

  /** An unblock puts the quarantined orders of the user back into service, each saved column back into its place. */
  ghost predicate Unblocks(db: Db, user: int, r: Outcome) {
    && (r.Done? <==> user in db.users && db.users[user].status == "inactive" && !TwoBack(db, user))
    && (r.Done? ==>
          && r.db == db.(users := r.db.users, orders := r.db.orders) && OnlyStatus(db, r.db, user, "active")
          && r.db.orders.Keys == db.orders.Keys
          && forall a :: a in db.orders ==>
               var o, p := db.orders[a], r.db.orders[a];
               if o.user == user && o.status == Quarantined then
                 && p.(route := o.route, preKind := o.preKind, preTarget := o.preTarget, status := o.status) == o
                 && p.status == Active && p.preKind == None && p.preTarget == None
                 && Some(p.route.kind) == (if o.preKind == None then Some(o.route.kind) else o.preKind)
                 && Some(p.route.target) == (if o.preTarget == None then Some(o.route.target) else o.preTarget)
               else p == o)
  }

  lemma UnblockMeans(db: Db, user: int)
    ensures Unblocks(db, user, Unblock(db, user))
  {
    RestorationClashes(db, user);
    hide UniqueActive;
  }

  lemma RestorationClashes(db: Db, user: int)
    ensures UniqueActive(RestoreAll(db.orders, user)) <==> !TwoBack(db, user)
  {
    var after := RestoreAll(db.orders, user);
    assert forall a :: a in db.orders ==>
        a in after && after[a].did == db.orders[a].did
            && (after[a].status == Active <==> BackInForce(db.orders[a], user));
  }

  /** The user form touches no order, whatever status it writes; a blank one means active. */
  ghost predicate WritesUser(db: Db, user: int, status: string, r: Outcome) {
    r.Done? && r.db == db.(users := r.db.users) && OnlyStatus(db, r.db, user, if status == "" then "active" else status)
  }

  lemma UserFormMeans(db: Db, user: int, status: string)
    ensures WritesUser(db, user, status, EditUser(db, user, status))
  {
  }

  // ---------- deleting a user ----------

  /** `kept` lists the positions of the ledger that stay: in their order, and exactly those of other users. */
  ghost predicate LedgerWithout(before: seq<LedgerRow>, after: seq<LedgerRow>, user: int, kept: seq<int>) {
    && |kept| == |after|
    && (forall i, j :: 0 <= i < j < |kept| ==> kept[i] < kept[j])
    && (forall i :: 0 <= i < |kept| ==>
        0 <= kept[i] < |before| && before[kept[i]].user != user && after[i] == before[kept[i]])
    && (forall k :: 0 <= k < |before| && before[k].user != user ==> k in kept)
  }

  lemma {:induction false} RowsWithoutMeans(before: seq<LedgerRow>, user: int) returns (kept: seq<int>)
    ensures LedgerWithout(before, RowsWithout(before, user), user, kept)
    decreases |before|
  {
    if before == [] {
      kept := [];
    } else {
      hide LedgerWithout;
      var n := |before| - 1;
      kept := RowsWithoutMeans(before[..n], user);
      OneMoreRow(before, RowsWithout(before[..n], user), user, kept);
      kept := if before[n].user == user then kept else kept + [n];
    }
  }

  lemma OneMoreRow(before: seq<LedgerRow>, after: seq<LedgerRow>, user: int, kept: seq<int>)
    requires before != [] && LedgerWithout(before[..|before| - 1], after, user, kept)
    ensures var n := |before| - 1;
      if before[n].user == user then LedgerWithout(before, after, user, kept)
      else LedgerWithout(before, after + [before[n]], user, kept + [n])
  {
    var n := |before| - 1;
    assert forall k :: 0 <= k < n ==> before[..n][k] == before[k];
    var longer := kept + [n];
    assert forall k :: k in kept ==> k in longer;
    assert longer[|kept|] == n;
  }

  ghost predicate HasOrders(db: Db, user: int) {
    exists a :: a in db.orders && db.orders[a].user == user
  }

  /** A deletion succeeds exactly for a user with no order row, cancelled ones included; it takes the user's bundles and
      ledger rows along and leaves all else. */
  ghost predicate Deletes(db: Db, user: int, r: Outcome) {
    && (r.Done? <==> user in db.users && !HasOrders(db, user))
    && (r.Done? ==>
          && r.db == db.(users := r.db.users, bundles := r.db.bundles, ledger := r.db.ledger)
          && r.db.users == db.users - {user}
          && (forall b :: b in r.db.bundles <==> b in db.bundles && db.bundles[b].user != user)
          && (forall b :: b in r.db.bundles ==> r.db.bundles[b] == db.bundles[b])
          && exists kept :: LedgerWithout(db.ledger, r.db.ledger, user, kept))
  }

  lemma DeletionMeans(db: Db, user: int)
    ensures Deletes(db, user, DeleteUser(db, user))
  {
    Lifecycle.DeleteUserIff(db, user);
    hide RowsWithout, NumbersOf, CancelAllOf, ReturnAll, LedgerWithout;
    var kept := RowsWithoutMeans(db.ledger, user);
  }

  // ---------- one order's bill ----------

  /** The rows a bill writes: a suspension costs nothing, and otherwise the MRC and the fee for every channel beyond two
      are a ledger row each unless zero, MRC first. */
  ghost predicate Billed(db: Db, t: Db, oid: int, now: Time)
    requires oid in db.orders && db.orders[oid].user in db.users && db.orders[oid].card in db.cards
  {
    var o := db.orders[oid];
    var mrc: int, bal := db.cards[o.card].mrc, db.users[o.user].balance;
    oid in t.orders && SameOrders(db, t, {oid}) &&
    if o.channels < 0 || bal < mrc then
      && t == db.(orders := t.orders, runs := db.runs + [BillingRow(oid, 0, 0, 0, CancelledOutcome)])
      && t.orders[oid] == o.(status := Suspended)
    else
      var n := t.orders[oid].channels;
      var extra := if n <= 2 then 0 else (n - 2) * db.cards[o.card].channelFee;
      && t == db.(users := t.users, orders := t.orders, ledger := t.ledger, runs := t.runs)
      && t.orders[oid] == o.(channels := n, nextBilling := NextAnniversary(now, o.anniversaryDay))
      && 0 <= n <= o.channels && mrc + extra <= bal
      && (n < o.channels ==> n >= 2 && bal < mrc + (n - 1) * db.cards[o.card].channelFee)
      && SameUsers(db, t, {o.user}) && t.users[o.user] == db.users[o.user].(balance := bal - mrc - extra)
      && t.ledger == db.ledger
                     + (if mrc == 0 then [] else [LedgerRow(o.user, -mrc, MrcEntry, bal - mrc)])
                     + (if extra == 0 then [] else [LedgerRow(o.user, -extra, ChannelFeeEntry, bal - mrc - extra)])
      && t.runs == db.runs + [BillingRow(oid, n, mrc, extra, if n == o.channels then Charged else Downgraded)]
  }

  lemma SuspensionMeans(db: Db, oid: int, now: Time)
    requires Billing.Billable(db, oid)
    requires db.orders[oid].channels < 0 || db.users[db.orders[oid].user].balance < db.cards[db.orders[oid].card].mrc
    ensures var (t, r) := BillOrder(db, oid, now);
      Billed(db, t, oid, now) && |t.runs| == |db.runs| + 1 && r == Some(t.runs[|db.runs|].outcome)
  {
    var o := db.orders[oid];
    Billing.LadderIsBest(db.cards[o.card], db.users[o.user].balance, o.channels);
    hide Ladder, ChargeOrder;
  }

  lemma FeeIs(card: RateCard, n: int)
    ensures Fee(card, n) == card.mrc + if n <= 2 then 0 else (n - 2) * card.channelFee
  {
  }

  lemma ChargeMeans(db: Db, oid: int, now: Time)
    requires Billing.Billable(db, oid)
    requires db.orders[oid].channels >= 0 && db.users[db.orders[oid].user].balance >= db.cards[db.orders[oid].card].mrc
    ensures var (t, r) := BillOrder(db, oid, now);
      Billed(db, t, oid, now) && |t.runs| == |db.runs| + 1 && r == Some(t.runs[|db.runs|].outcome)
  {
    var o := db.orders[oid];
    var card := db.cards[o.card];
    var n := Ladder(card, db.users[o.user].balance, o.channels);
    Billing.LadderIsBest(card, db.users[o.user].balance, o.channels);
    Billing.FeeMonotone(card, n, n);
    FeeIs(card, n);
    FeeIs(card, n + 1);
    hide Ladder, Fee, NextAnniversary;
    if n < o.channels {
      assert (n + 1 - 2) == n - 1;
    }
  }

  /** Billing an active order writes exactly these rows; any other order it leaves alone. */
  ghost predicate Bills(db: Db, oid: int, now: Time, r: Outcome) {
    r.Done? &&
    if oid in db.orders && db.orders[oid].status == Active && db.orders[oid].user in db.users
        && db.orders[oid].card in db.cards
    then Billed(db, r.db, oid, now) && |r.db.runs| == |db.runs| + 1
    else r.db == db
  }

  lemma BillMeans(db: Db, oid: int, now: Time)
    ensures var (t, r) := BillOrder(db, oid, now);
      Bills(db, oid, now, Done(t)) && r == if t.runs == db.runs then None else Some(t.runs[|db.runs|].outcome)
  {
    hide BillOrder, Billed;
    if !Billing.Billable(db, oid) {
      Billing.NotBillable(db, oid, now);
    } else if db.orders[oid].channels < 0
              || db.users[db.orders[oid].user].balance < db.cards[db.orders[oid].card].mrc {
      SuspensionMeans(db, oid, now);
    } else {
      ChargeMeans(db, oid, now);
    }
  }

  // ---------- every step ----------

  /** New users, numbers and bundles take the next id. */
  ghost predicate Adds(db: Db, step: Step, r: Outcome)
    requires step.AddUser? || step.AddDid? || step.AddBundle?
  {
    && r.Done? && r.db.nextId == db.nextId + 1
    && match step
       case AddUser(owner) => r.db == db.(users := db.users[db.nextId := User("active", 0, owner)],
                                          nextId := r.db.nextId)
       case AddDid(card) => r.db == db.(dids := db.dids[db.nextId := Did(Available, card, None)], nextId := r.db.nextId)
       case AddBundle(user) =>
         r.db == db.(bundles := db.bundles[db.nextId := Bundle(user, Pending)], nextId := r.db.nextId)
       case _ => false
  }

  ghost predicate Fits(db: Db, step: Step, r: Outcome) {
    match step
    case AddUser(_) => Adds(db, step, r)
    case AddDid(_) => Adds(db, step, r)
    case AddBundle(_) => Adds(db, step, r)
    case DoCreateOrder(reseller, user, did, channels, route, day, bundle, now) =>
      Creates(db, reseller, user, did, channels, route, day, bundle, now, r)
    case DoAdminCreate(user, did, channels, route, day, bundle, now) =>
      AdminCreates(db, user, did, channels, route, day, bundle, now, r)
    case DoCancel(reseller, order) => Cancels(db, reseller, order, r)
    case DoSwap(order, did) => Swaps(db, order, did, r)
    case DoEdit(order, route, channels, day, bundle) => Edits(db, order, route, channels, day, bundle, r)
    case DoPatch(order, route, channels, bundle) => Patches(db, order, route, channels, bundle, r)
    case DoReserve(did, reservation) => Reserves(db, did, reservation, r)
    case DoRelease(did) => Releases(db, did, r)
    case DoRetire(did) => Retires(db, did, r)
    case DoBlock(user, reason) => Blocks(db, user, reason, r)
    case DoUnblock(user) => Unblocks(db, user, r)
    case DoEditUser(user, status) => WritesUser(db, user, status, r)
    case DoDeleteUser(user) => Deletes(db, user, r)
    case DoApprove(kyc) => Approves(db, kyc, r)
    case DoReject(kyc) => Rejects(db, kyc, r)
    case DoResellerTopUp(reseller, user, cents) => ResellerTopsUp(db, reseller, user, cents, r)
    case DoAdminTopUp(user, cents) => AdminTopsUp(db, user, cents, r)
    case DoCallCharge(user, cents) => Charges(db, user, cents, r)
    case DoBill(order, now) => Bills(db, order, now, r)
  }

  predicate OnOrders(step: Step) {
    step.DoCreateOrder? || step.DoAdminCreate? || step.DoCancel? || step.DoSwap? || step.DoEdit? || step.DoPatch?
    || step.DoApprove? || step.DoReject? || step.DoBill?
  }

  lemma OrderStepMeans(db: Db, step: Step)
    requires OnOrders(step)
    ensures Fits(db, step, Perform(db, step))
  {
    hide CreateOrder, AdminCreateOrder, CancelOrder, SwapDid, EditWrite, PatchWrite, ApproveBundle, RejectBundle,
        BillOrder,
         Creates, AdminCreates, Cancels, Swaps, Edits, Patches, Approves, Rejects, Bills;
    match step
    case DoCreateOrder(reseller, user, did, channels, route, day, bundle, now) =>
      CreationMeans(db, reseller, user, did, channels, route, day, bundle, now);
    case DoAdminCreate(user, did, channels, route, day, bundle, now) =>
      AdminCreationMeans(db, user, did, channels, route, day, bundle, now);
    case DoCancel(reseller, order) => CancelMeans(db, reseller, order);
    case DoSwap(order, did) => SwapMeans(db, order, did);
    case DoEdit(order, route, channels, day, bundle) => EditWriteMeans(db, order, route, channels, day, bundle);
    case DoPatch(order, route, channels, bundle) => PatchWriteMeans(db, order, route, channels, bundle);
    case DoApprove(kyc) => ApprovalMeans(db, kyc);
    case DoReject(kyc) => RejectionMeans(db, kyc);
    case DoBill(order, now) => BillMeans(db, order, now);
  }

  lemma RowStepMeans(db: Db, step: Step)
    requires !OnOrders(step)
    ensures Fits(db, step, Perform(db, step))
  {
    hide ReserveDid, ReleaseDid, RetireWrite, Block, Unblock, EditUser, DeleteUser, ResellerTopUp, AdminTopUp,
        CallCharge,
         Reserves, Releases, Retires, Blocks, Unblocks, WritesUser, Deletes, ResellerTopsUp, AdminTopsUp, Charges;
    match step
    case DoReserve(did, reservation) => ReservationMeans(db, did, reservation);
    case DoRelease(did) => ReleaseMeans(db, did);
    case DoRetire(did) => RetirementMeans(db, did);
    case DoBlock(user, reason) => BlockMeans(db, user, reason);
    case DoUnblock(user) => UnblockMeans(db, user);
    case DoEditUser(user, status) => UserFormMeans(db, user, status);
    case DoDeleteUser(user) => DeletionMeans(db, user);
    case DoResellerTopUp(reseller, user, cents) => ResellerTopUpMeans(db, reseller, user, cents);
    case DoAdminTopUp(user, cents) => AdminTopUpMeans(db, user, cents);
    case DoCallCharge(user, cents) => CallChargeMeans(db, user, cents);
    case _ =>
  }

  /** Every step does what its description says. */
  lemma StepMeans(db: Db, step: Step)
    ensures Fits(db, step, Perform(db, step))
  {
    hide Fits, Perform;
    if OnOrders(step) {
      OrderStepMeans(db, step);
    } else {
      RowStepMeans(db, step);
    }
  }

  // ---------- the description leaves nothing open ----------

  ghost predicate Alike(a: Outcome, b: Outcome) {
    (a.Done? <==> b.Done?) && (a.Done? && b.Done? ==> a.db == b.db)
  }

  lemma OrdersAlike(db: Db, t: Db, u: Db, oid: int)
    requires SameOrders(db, t, {oid}) && SameOrders(db, u, {oid})
        && (oid in db.orders ==> t.orders[oid] == u.orders[oid])
    ensures t.orders == u.orders
  {
    SameMap(db.orders, t.orders, u.orders);
  }

  lemma UsersAlike(db: Db, t: Db, u: Db, user: int)
    requires SameUsers(db, t, {user}) && SameUsers(db, u, {user})
        && (user in db.users ==> t.users[user] == u.users[user])
    ensures t.users == u.users
  {
    SameMap(db.users, t.users, u.users);
  }

  lemma PostedAlike(db: Db, t: Db, u: Db, user: int, delta: int, kind: LedgerKind)
    requires user in db.users && Posted(db, t, user, delta, kind) && Posted(db, u, user, delta, kind)
    ensures t == u
  {
    UsersAlike(db, t, u, user);
    var n := |db.ledger|;
    assert t.ledger == t.ledger[..n] + [t.ledger[n]] && u.ledger == u.ledger[..n] + [u.ledger[n]];
  }

  lemma CreatedAlike(db: Db, t: Db, u: Db, user: int, did: int, channels: int, route: Route, day: int,
                     bundle: Option<int>, now: Time)
    requires Priced(db, did) && user in db.users
    requires Created(db, t, user, did, channels, route, day, bundle, now)
    requires Created(db, u, user, did, channels, route, day, bundle, now)
    ensures t == u
  {
    hide NextAnniversary, Posted, Backed;
    var nrc: int := db.cards[db.dids[did].card.value].nrc;
    if nrc != 0 {
      PostedAlike(db, db.(users := t.users, ledger := t.ledger), db.(users := u.users, ledger := u.ledger), user, -nrc,
                  NrcEntry);
    }
    SameMap(t.orders, t.orders, u.orders);
    SameMap(db.dids, t.dids, u.dids);
  }

  lemma MoneyAlike(db: Db, step: Step, a: Outcome, b: Outcome)
    requires step.DoResellerTopUp? || step.DoAdminTopUp? || step.DoCallCharge? || step.DoCreateOrder?
        || step.DoAdminCreate?
    requires Fits(db, step, a) && Fits(db, step, b)
    ensures Alike(a, b)
  {
    hide Posted, Created, NextAnniversary;
    if a.Done? && b.Done? {
      match step
      case DoResellerTopUp(_, user, cents) => PostedAlike(db, a.db, b.db, user, cents, TopUpEntry);
      case DoAdminTopUp(user, cents) => PostedAlike(db, a.db, b.db, user, cents, TopUpEntry);
      case DoCallCharge(user, cents) =>
        if cents > 0 { PostedAlike(db, a.db, b.db, user, -cents, CallChargeEntry); }
      case DoCreateOrder(_, user, did, channels, route, day, bundle, now) =>
        CreatedAlike(db, a.db, b.db, user, did, channels, route, day, bundle, now);
      case DoAdminCreate(user, did, channels, route, day, bundle, now) =>
        CreatedAlike(db, a.db, b.db, user, did, channels, route, day, bundle, now);
    }
  }

  lemma OneOrderAlike(db: Db, step: Step, a: Outcome, b: Outcome)
    requires step.DoCancel? || step.DoSwap? || step.DoEdit? || step.DoPatch?
    requires Fits(db, step, a) && Fits(db, step, b)
    ensures Alike(a, b)
  {
    hide Clashes;
    if a.Done? && b.Done? && step.order in db.orders {
      OrdersAlike(db, a.db, b.db, step.order);
      SameMap(db.dids, a.db.dids, b.db.dids);
    }
  }

  lemma RowsAlike(db: Db, step: Step, a: Outcome, b: Outcome)
    requires step.DoReserve? || step.DoRelease? || step.DoRetire? || step.DoReject? || step.DoEditUser? || step.AddUser?
             || step.AddDid? || step.AddBundle?
    requires Fits(db, step, a) && Fits(db, step, b)
    ensures Alike(a, b)
  {
    if a.Done? && b.Done? {
      if step.DoEditUser? { UsersAlike(db, a.db, b.db, step.user); }
      if step.DoReject? { SameMap(db.bundles, a.db.bundles, b.db.bundles); }
      if step.DoReserve? || step.DoRelease? || step.DoRetire? { SameMap(db.dids, a.db.dids, b.db.dids); }
    }
  }

  lemma SweepsAlike(db: Db, step: Step, a: Outcome, b: Outcome)
    requires step.DoBlock? || step.DoUnblock? || step.DoApprove?
    requires Fits(db, step, a) && Fits(db, step, b)
    ensures Alike(a, b)
  {
    hide TwoInForce, TwoBack;
    if a.Done? && b.Done? {
      if !step.DoApprove? { UsersAlike(db, a.db, b.db, step.user); }
      SameMap(db.orders, a.db.orders, b.db.orders);
    }
  }

  lemma {:induction false} KeptIsUnique(before: seq<LedgerRow>, after: seq<LedgerRow>, user: int, kept: seq<int>)
    requires LedgerWithout(before, after, user, kept)
    ensures after == RowsWithout(before, user)
    decreases |before|
  {
    if before == [] {
      assert kept == [];
    } else {
      hide LedgerWithout;
      var n := |before| - 1;
      if before[n].user == user {
        LastStays(before, after, user, kept);
        KeptIsUnique(before[..n], after, user, kept);
      } else {
        LastGoes(before, after, user, kept);
        KeptIsUnique(before[..n], after[..|after| - 1], user, kept[..|kept| - 1]);
        assert after == after[..|after| - 1] + [before[n]];
      }
    }
  }

  lemma LastStays(before: seq<LedgerRow>, after: seq<LedgerRow>, user: int, kept: seq<int>)
    requires before != [] && before[|before| - 1].user == user && LedgerWithout(before, after, user, kept)
    ensures LedgerWithout(before[..|before| - 1], after, user, kept)
  {
  }

  lemma TopIsLast(kept: seq<int>, i: int)
    requires forall a, b :: 0 <= a < b < |kept| ==> kept[a] < kept[b]
    requires 0 <= i < |kept| && forall a :: 0 <= a < |kept| ==> kept[a] <= kept[i]
    ensures i == |kept| - 1
  {
    assert kept[|kept| - 1] <= kept[i];
  }

  lemma LastGoes(before: seq<LedgerRow>, after: seq<LedgerRow>, user: int, kept: seq<int>)
    requires before != [] && before[|before| - 1].user != user && LedgerWithout(before, after, user, kept)
    ensures after != [] && kept != [] && after[|after| - 1] == before[|before| - 1]
    ensures LedgerWithout(before[..|before| - 1], after[..|after| - 1], user, kept[..|kept| - 1])
  {
    var n, m := |before| - 1, |kept| - 1;
    assert n in kept;
    var i :| 0 <= i < |kept| && kept[i] == n;
    TopIsLast(kept, i);
    forall k | 0 <= k < n && before[k].user != user ensures k in kept[..m] {
      var x :| 0 <= x < |kept| && kept[x] == k;
      assert kept[..m][x] == k;
    }
  }

  lemma DeletionAlike(db: Db, user: int, a: Outcome, b: Outcome)
    requires Deletes(db, user, a) && Deletes(db, user, b)
    ensures Alike(a, b)
  {
    hide LedgerWithout, HasOrders;
    if a.Done? && b.Done? {
      var x :| LedgerWithout(db.ledger, a.db.ledger, user, x);
      KeptIsUnique(db.ledger, a.db.ledger, user, x);
      var y :| LedgerWithout(db.ledger, b.db.ledger, user, y);
      KeptIsUnique(db.ledger, b.db.ledger, user, y);
      forall x: int ensures x in a.db.bundles.Keys <==> x in b.db.bundles.Keys {
        assert x in a.db.bundles <==> x in b.db.bundles;
      }
      SameMap(a.db.bundles, a.db.bundles, b.db.bundles);
    }
  }

  /** At most one count fits the ladder. */
  lemma BillAlike(db: Db, oid: int, now: Time, a: Outcome, b: Outcome)
    requires Bills(db, oid, now, a) && Bills(db, oid, now, b)
    ensures Alike(a, b)
  {
    hide NextAnniversary;
    if oid in db.orders && db.orders[oid].status == Active && db.orders[oid].user in db.users
       && db.orders[oid].card in db.cards {
      var o := db.orders[oid];
      if o.channels >= 0 && db.users[o.user].balance >= db.cards[o.card].mrc {
        var n, m := a.db.orders[oid].channels, b.db.orders[oid].channels;
        var fee := db.cards[o.card].channelFee;
        if n < m { MulMono(n - 1, m - 2, fee); }
        if m < n { MulMono(m - 1, n - 2, fee); }
        UsersAlike(db, a.db, b.db, o.user);
      }
      OrdersAlike(db, a.db, b.db, oid);
    }
  }

  /** An outcome that fits a step's description is the step's: the description leaves no row open. */
  lemma OnlyOutcome(db: Db, step: Step, r: Outcome)
    requires Fits(db, step, r)
    ensures Alike(r, Perform(db, step))
  {
    StepMeans(db, step);
    hide Perform, Alike;
    var p := Perform(db, step);
    if step.DoBill? {
      BillAlike(db, step.order, step.now, r, p);
    } else if step.DoDeleteUser? {
      DeletionAlike(db, step.user, r, p);
    } else {
      hide Fits;
      if step.DoBlock? || step.DoUnblock? || step.DoApprove? {
        SweepsAlike(db, step, r, p);
      } else if step.DoCancel? || step.DoSwap? || step.DoEdit? || step.DoPatch? {
        OneOrderAlike(db, step, r, p);
      } else if step.DoResellerTopUp? || step.DoAdminTopUp? || step.DoCallCharge? || step.DoCreateOrder?
                || step.DoAdminCreate? {
        MoneyAlike(db, step, r, p);
      } else {
        RowsAlike(db, step, r, p);
      }
    }
  }
}
