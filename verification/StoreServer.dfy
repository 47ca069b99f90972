/** The database handlers as they run: statement by statement inside a transaction, rolled back on failure. A
    handler without a transaction decides by the rows it reads and writes over the rows of a later moment;
    `between` is what other handlers do meanwhile. */
module StoreServer {
  import opened Basics
  import opened Calendar
  import opened Store
  import Billing
  import Transactions

  /** A failed transaction reports why and leaves the rows as they were; any other commits. */
  ghost predicate Committed(before: Db, expected: Outcome, failure: Option<string>, after: Db) {
    if expected.Done? then failure == None && after == expected.db
    else failure == Some(expected.why) && after == before
  }

  /** What the caller and the rows show of a handler's outcome. */
  ghost function Shown(failure: Option<string>, after: Db): Outcome {
    if failure == None then Done(after) else Failed(failure.value)
  }

  /** The order row, and its number assigned. */
  ghost function Inserted(db: Db, o: Order): Db
    requires o.did in db.dids
  {
    db.(orders := db.orders[db.nextId := o], nextId := db.nextId + 1,
        dids := db.dids[o.did := db.dids[o.did].(status := Assigned)])
  }

  lemma PlacedByParts(db: Db, o: Order, day: int, now: Time, channels: int)
    requires o.user in db.users && o.did in db.dids && o.card in db.cards
    requires o.anniversaryDay == DayOrToday(day, now) && o.nextBilling == NextAnniversary(now, o.anniversaryDay)
    requires o.preKind == None && o.preTarget == None && o.channels == if channels < 0 then 0 else channels
    ensures PlaceOrder(db, o.user, o.did, channels, o.route, day, o.bundle, o.card, o.status, now)
            == if o.status == Active && ActiveOn(db.orders, o.did, db.nextId) then Failed("orders_one_active_per_did")
               else
                 var nrc: int := db.cards[o.card].nrc;
                 Done(if nrc > 0 then Post(Inserted(db, o), o.user, -nrc, NrcEntry) else Inserted(db, o))
  {
    hide NextAnniversary, ActiveOn, Post, DayOrToday;
  }

  class Server {
    var users: map<int, User>
    var dids: map<int, Did>
    var orders: map<int, Order>
    var bundles: map<int, Bundle>
    var cards: map<int, RateCard>
    var ledger: seq<LedgerRow>
    var runs: seq<BillingRow>
    var history: seq<HistoryRow>
    var nextId: int

    constructor (priceList: map<int, RateCard>)
      ensures View() == Fresh(priceList)
    {
      users, dids, orders, bundles, cards := map[], map[], map[], map[], priceList;
      ledger, runs, history, nextId := [], [], [], 0;
    }

    function View(): Db
      reads this
    {
      Db(users, dids, orders, bundles, cards, ledger, runs, history, nextId)
    }

    /** What the other handlers do between two statements of a handler that has no transaction. */
    method Pause(between: seq<Step>)
      modifies this
      ensures View() == Exec(old(View()), between)
    {
      var t := Exec(View(), between);
      users, dids, orders, bundles, cards := t.users, t.dids, t.orders, t.bundles, t.cards;
      ledger, runs, history, nextId := t.ledger, t.runs, t.history, t.nextId;
    }

    // ---------- statements ----------

    method InsertLedger(user: int, delta: int, kind: LedgerKind, balanceAfter: int)
      modifies this`ledger
      ensures ledger == old(ledger) + [LedgerRow(user, delta, kind, balanceAfter)]
    {
      ledger := ledger + [LedgerRow(user, delta, kind, balanceAfter)];
    }

    method SetBalance(user: int, cents: int)
      requires user in users
      modifies this`users
      ensures users == old(users)[user := old(users)[user].(balance := cents)]
    {
      users := users[user := users[user].(balance := cents)];
    }

    /** UPDATE dids SET status; a number that is not there matches no row. */
    method SetDidStatus(did: int, status: DidStatus)
      modifies this`dids
      ensures View() == SetDid(old(View()), did, status)
    {
      if did in dids {
        dids := dids[did := dids[did].(status := status)];
      }
    }

    // ---------- money ----------

    method ResellerTopUpUser(reseller: int, user: int, cents: int) returns (failure: Option<string>)
      modifies this`users, this`ledger
      ensures Committed(old(View()), ResellerTopUp(old(View()), reseller, user, cents), failure, View())
      ensures Transactions.ResellerTopsUp(old(View()), reseller, user, cents, Shown(failure, View()))
    {
      Transactions.ResellerTopUpMeans(View(), reseller, user, cents);
      hide Transactions.ResellerTopsUp;
      if cents <= 0 { return Some("amount_cents must be > 0"); }
      if user !in users || users[user].reseller != Some(reseller) { return Some("user not found"); }
      SetBalance(user, users[user].balance + cents);
      InsertLedger(user, cents, TopUpEntry, users[user].balance);
      return None;
    }

    method AdminTopUpUser(user: int, cents: int) returns (failure: Option<string>)
      modifies this`users, this`ledger
      ensures Committed(old(View()), AdminTopUp(old(View()), user, cents), failure, View())
      ensures Transactions.AdminTopsUp(old(View()), user, cents, Shown(failure, View()))
    {
      Transactions.AdminTopUpMeans(View(), user, cents);
      hide Transactions.AdminTopsUp;
      if cents == 0 { return Some("amount > 0 required"); }
      if user !in users { return Some("no rows"); }
      SetBalance(user, users[user].balance + cents);
      InsertLedger(user, cents, TopUpEntry, users[user].balance);
      return None;
    }

    method ChargeCall(user: int, cents: int) returns (failure: Option<string>)
      modifies this`users, this`ledger
      ensures Committed(old(View()), CallCharge(old(View()), user, cents), failure, View())
      ensures Transactions.Charges(old(View()), user, cents, Shown(failure, View()))
    {
      Transactions.CallChargeMeans(View(), user, cents);
      hide Transactions.Charges;
      if cents <= 0 { return None; }
      if user !in users { return Some("no rows"); }
      SetBalance(user, users[user].balance - cents);
      InsertLedger(user, -cents, CallChargeEntry, users[user].balance);
      return None;
    }

    // ---------- orders ----------

    method AnniversaryFor(day: int, now: Time) returns (anniversary: int)
      ensures anniversary == DayOrToday(day, now)
    {
      anniversary := day;
      if day < 1 || day > 28 {
        anniversary := now.day;
        if anniversary > 28 { anniversary := 28; }
      }
    }

    /** INSERT the order, assign the number, charge the NRC against the balance read earlier. */
    method InsertOrder(user: int, did: int, channels: int, route: Route, day: int, bundle: Option<int>,
                       card: int, status: OrderStatus, now: Time) returns (failure: Option<string>)
      requires user in users && did in dids && card in cards
      modifies this`users, this`dids, this`orders, this`ledger, this`nextId
      ensures Committed(old(View()),
                        PlaceOrder(old(View()), user, did, channels, route, day, bundle, card, status, now),
                        failure, View())
    {
      hide NextAnniversary, ActiveOn, Post, PlaceOrder, Inserted;
      var channelCount := if channels < 0 then 0 else channels;
      var anniversary := AnniversaryFor(day, now);
      var bal := users[user].balance;
      var next := NextAnniversary(now, anniversary);
      var o := Order(user, did, status, channelCount, route, None, None, card, anniversary, next, bundle);
      PlacedByParts(View(), o, day, now, channels);
      if status == Active && ActiveOn(orders, did, nextId) { return Some("orders_one_active_per_did"); }
      InsertRow(o);
      ChargeNrc(user, bal, cards[card].nrc);
      return None;
    }

    method InsertRow(o: Order)
      requires o.did in dids
      modifies this`dids, this`orders, this`nextId
      ensures View() == Inserted(old(View()), o)
    {
      orders := orders[nextId := o];
      nextId := nextId + 1;
      SetDidStatus(o.did, Assigned);
    }

    method ChargeNrc(user: int, bal: int, nrc: int)
      requires user in users && users[user].balance == bal
      modifies this`users, this`ledger
      ensures View() == if nrc > 0 then Post(old(View()), user, -nrc, NrcEntry) else old(View())
    {
      if nrc > 0 {
        var newBal := bal - nrc;
        SetBalance(user, newBal);
        InsertLedger(user, -nrc, NrcEntry, newBal);
      }
    }

    method ResellerCreateOrder(reseller: int, user: int, did: int, channels: int, route: Route, day: int,
                               bundle: Option<int>, now: Time) returns (failure: Option<string>)
      modifies this`users, this`dids, this`orders, this`ledger, this`nextId
      ensures Committed(old(View()), CreateOrder(old(View()), reseller, user, did, channels, route, day, bundle, now),
                        failure, View())
      ensures Transactions.Creates(old(View()), reseller, user, did, channels, route, day, bundle, now,
                                   Shown(failure, View()))
    {
      Transactions.CreationMeans(View(), reseller, user, did, channels, route, day, bundle, now);
      hide Transactions.Creates;
      hide PlaceOrder;
      if route.kind == "" || route.target == "" { return Some("route_kind and route_target required"); }
      if user !in users { return Some("user not found"); }
      if users[user].reseller != Some(reseller) { return Some("user does not belong to your reseller"); }
      if did !in dids { return Some("did not found"); }
      if dids[did].status != Available { return Some("did not available"); }
      if dids[did].card.None? || dids[did].card.value !in cards { return Some("no active rate card"); }
      var card := dids[did].card.value;
      if users[user].balance < cards[card].nrc { return Some("insufficient balance"); }
      var startStatus := KycPending;
      if bundle.Some? {
        if bundle.value !in bundles || bundles[bundle.value].user != user { return Some("invalid kyc_bundle_id"); }
        if bundles[bundle.value].status == Approved { startStatus := Active; }
      }
      failure := InsertOrder(user, did, channels, route, day, bundle, card, startStatus, now);
    }

    method AdminCreate(user: int, did: int, channels: int, route: Route, day: int, bundle: Option<int>, now: Time)
      returns (failure: Option<string>)
      modifies this`users, this`dids, this`orders, this`ledger, this`nextId
      ensures Committed(old(View()), AdminCreateOrder(old(View()), user, did, channels, route, day, bundle, now),
                        failure, View())
      ensures Transactions.AdminCreates(old(View()), user, did, channels, route, day, bundle, now,
                                        Shown(failure, View()))
    {
      Transactions.AdminCreationMeans(View(), user, did, channels, route, day, bundle, now);
      hide Transactions.AdminCreates;
      hide PlaceOrder;
      if route.kind == "" || route.target == "" { return Some("user, did, route_kind and route_target are required"); }
      if did !in dids || dids[did].card.None? || dids[did].card.value !in cards { return Some("no active rate card"); }
      if user !in users { return Some("no such user"); }
      var card := dids[did].card.value;
      if users[user].balance < cards[card].nrc { return Some("insufficient balance"); }
      var startStatus := KycPending;
      if bundle.Some? {
        if bundle.value !in bundles || bundles[bundle.value].user != user { return Some("invalid KYC bundle"); }
        if bundles[bundle.value].status == Approved { startStatus := Active; }
      }
      failure := InsertOrder(user, did, channels, route, day, bundle, card, startStatus, now);
    }

    method Cancel(requester: Option<int>, oid: int) returns (failure: Option<string>)
      modifies this`dids, this`orders
      ensures Committed(old(View()), CancelOrder(old(View()), requester, oid), failure, View())
      ensures Transactions.Cancels(old(View()), requester, oid, Shown(failure, View()))
    {
      Transactions.CancelMeans(View(), requester, oid);
      hide Transactions.Cancels;
      if oid !in orders || orders[oid].status == Cancelled { return Some("order not found"); }
      var o := orders[oid];
      if requester.Some? && (o.user !in users
                             || users[o.user].reseller != requester) { return Some("order not found"); }
      orders := orders[oid := o.(status := Cancelled)];
      SetDidStatus(o.did, Available);
      return None;
    }

    /** Release the old number, repoint the order, assign the new number; the repointing is what the
        unique index can refuse. */
    method Swap(oid: int, did: int) returns (failure: Option<string>)
      modifies this`dids, this`orders
      ensures Committed(old(View()), SwapDid(old(View()), oid, did), failure, View())
      ensures Transactions.Swaps(old(View()), oid, did, Shown(failure, View()))
    {
      Transactions.SwapMeans(View(), oid, did);
      hide Transactions.Swaps;
      if oid !in orders { return Some("order not found"); }
      var o := orders[oid];
      if o.status != Active && o.status != KycPending && o.status != Quarantined { return Some("cannot swap DID"); }
      if o.did == did { return Some("already assigned to that DID"); }
      if did !in dids { return Some("target DID not found"); }
      if dids[did].status != Available { return Some("target DID is not available"); }
      var saved := dids;
      SetDidStatus(o.did, Available);
      if o.status == Active && ActiveOn(orders, did, oid) {
        dids := saved;
        return Some("orders_one_active_per_did");
      }
      orders := orders[oid := o.(did := did)];
      SetDidStatus(did, Assigned);
      return None;
    }

    /** The UPDATE of either edit. Attaching an approved bundle activates a pending order in the same statement. */
    method UpdateOrder(oid: int, route: Route, channels: int, day: int, bundle: Option<int>, backing: Option<int>)
      returns (failure: Option<string>)
      requires oid in orders
      modifies this`orders
      ensures Committed(old(View()), WriteOrder(old(View()), oid,
                          old(orders)[oid].(route := route, channels := channels, anniversaryDay := day,
                                            bundle := bundle), backing),
                        failure, View())
    {
      hide ActiveOn;
      if bundle.Some? && bundle.value !in bundles { return Some("orders_kyc_bundle_id_fkey"); }
      var o := orders[oid];
      var status := o.status;
      if status == KycPending && backing.Some? && backing.value in bundles
          && bundles[backing.value].status == Approved {
        status := Active;
        if ActiveOn(orders, o.did, oid) { return Some("orders_one_active_per_did"); }
      }
      orders := orders[oid := o.(route := route, channels := channels, anniversaryDay := day, bundle := bundle,
                                 status := status)];
      return None;
    }

    /** What the edit form refuses. */
    method CheckEdit(oid: int, route: Route, channels: int, day: int, bundle: Option<int>)
        returns (refusal: Option<string>)
      ensures refusal == EditRefusal(View(), oid, route, channels, day, bundle)
    {
      if oid !in orders { return Some("order not found"); }
      var o := orders[oid];
      if o.status != Active && o.status != KycPending && o.status != Quarantined { return Some("can't be edited"); }
      if route.kind !in {"sip_uri", "ip", "sip_account", "audio"} { return Some("route_kind"); }
      if route.target == "" { return Some("route_target is required"); }
      if channels != o.channels && (channels < 0 || channels > 8192) { return Some("channel_count"); }
      if day != o.anniversaryDay && (day < 1 || day > 28) { return Some("anniversary_day"); }
      if bundle.Some? && bundle != o.bundle && (bundle.value !in bundles || bundles[bundle.value].user != o.user) {
        return Some("kyc bundle");
      }
      return None;
    }

    /** The edit form, each field already defaulted to the value read. */
    method Edit(oid: int, route: Route, channels: int, day: int, bundle: Option<int>, between: seq<Step>)
      returns (failure: Option<string>)
      modifies this
      ensures var refusal := EditRefusal(old(View()), oid, route, channels, day, bundle);
        if refusal.Some? then failure == refusal && View() == old(View())
        else var s := Exec(old(View()), between); Committed(s, EditWrite(s, oid, route, channels, day, bundle),
                                                            failure, View())
    {
      hide Exec, WriteOrder, EditRefusal;
      failure := CheckEdit(oid, route, channels, day, bundle);
      if failure.Some? { return; }
      Pause(between);
      if oid !in orders { return None; }
      failure := UpdateOrder(oid, route, channels, day, bundle, bundle);
    }

    /** What the reseller's PATCH refuses. */
    method CheckPatch(reseller: int, oid: int, route: Route, channels: int, bundle: Option<int>)
        returns (refusal: Option<string>)
      ensures refusal == PatchRefusal(View(), reseller, oid, route, channels, bundle)
    {
      if !ResellersOrder(View(), reseller, oid) { return Some("order not found"); }
      var o := orders[oid];
      if o.status != Active && o.status != KycPending
          && o.status != Quarantined { return Some("order is not editable"); }
      if route.kind !in {"sip_uri", "ip", "sip_account"} { return Some("route_kind"); }
      if route.target == "" { return Some("route_target required"); }
      if channels != o.channels && channels < 0 { return Some("channel_count must be >= 0"); }
      if bundle.Some? && (bundle.value !in bundles || bundles[bundle.value].user != o.user) {
        return Some("invalid kyc_bundle_id for this user");
      }
      return None;
    }

    /** The reseller's PATCH. */
    method Patch(reseller: int, oid: int, route: Route, channels: int, bundle: Option<int>, between: seq<Step>)
      returns (failure: Option<string>)
      modifies this
      ensures var refusal := PatchRefusal(old(View()), reseller, oid, route, channels, bundle);
        if refusal.Some? then failure == refusal && View() == old(View())
        else var s := Exec(old(View()), between); Committed(s, PatchWrite(s, oid, route, channels, bundle), failure,
                                                            View())
    {
      hide Exec, WriteOrder, PatchRefusal;
      failure := CheckPatch(reseller, oid, route, channels, bundle);
      if failure.Some? { return; }
      Pause(between);
      if oid !in orders { return None; }
      var kept := if bundle.Some? then bundle else orders[oid].bundle;
      failure := UpdateOrder(oid, route, channels, orders[oid].anniversaryDay, kept, bundle);
    }

    // ---------- numbers ----------

    method Reserve(did: int, r: Reservation) returns (failure: Option<string>)
      modifies this`dids
      ensures Committed(old(View()), ReserveDid(old(View()), did, r), failure, View())
      ensures Transactions.Reserves(old(View()), did, r, Shown(failure, View()))
    {
      Transactions.ReservationMeans(View(), did, r);
      hide Transactions.Reserves;
      if r.kind == "" || (r.target == "" && r.kind != "audio_group") { return Some("route"); }
      if did !in dids || dids[did].status != Available { return Some("DID is not available"); }
      dids := dids[did := dids[did].(status := Reserved, reserved := Some(r))];
      return None;
    }

    method Release(did: int) returns (failure: Option<string>)
      modifies this`dids, this`history
      ensures Committed(old(View()), ReleaseDid(old(View()), did), failure, View())
      ensures Transactions.Releases(old(View()), did, Shown(failure, View()))
    {
      Transactions.ReleaseMeans(View(), did);
      hide Transactions.Releases;
      if did !in dids || dids[did].status != Reserved { return Some("DID is not reserved"); }
      history := history + [HistoryRow(did, dids[did].reserved)];
      dids := dids[did := dids[did].(status := Available, reserved := None)];
      return None;
    }

    /** The count, and some time after it the UPDATE. */
    method Retire(did: int, between: seq<Step>) returns (failure: Option<string>)
      modifies this
      ensures failure == RetireRefusal(old(View()), did)
      ensures View() == if failure.Some? then old(View()) else RetireWrite(Exec(old(View()), between), did)
    {
      hide Exec;
      if exists a :: a in orders && orders[a].did == did && Editable(orders[a].status) {
        return Some("DID has an order");
      }
      Pause(between);
      SetDidStatus(did, Retired);
      return None;
    }

    // ---------- users ----------

    method SetUser(user: int, status: string)
      modifies this`users
      ensures View() == SetUserStatus(old(View()), user, status)
    {
      if user in users {
        users := users[user := users[user].(status := status)];
      }
    }

    method UnblockUser(user: int) returns (failure: Option<string>)
      modifies this`users, this`orders
      ensures Committed(old(View()), Unblock(old(View()), user), failure, View())
      ensures Transactions.Unblocks(old(View()), user, Shown(failure, View()))
    {
      Transactions.UnblockMeans(View(), user);
      hide Transactions.Unblocks;
      if user !in users || users[user].status != "inactive" { return Some("user is not currently blocked"); }
      var saved := users;
      SetUser(user, "active");
      var restored := RestoreAll(orders, user);
      if !UniqueActive(restored) {
        users := saved;
        return Some("orders_one_active_per_did");
      }
      orders := restored;
      return None;
    }

    /** Number by number. */
    method ReturnNumbers(freed: set<int>)
      modifies this`dids
      ensures dids == ReturnAll(old(dids), freed)
    {
      var rest := freed;
      while rest != {}
        modifies this`dids
        invariant rest <= freed
        invariant dids == ReturnAll(old(dids), freed - rest)
        decreases rest
      {
        ghost var some := SomeMember(rest);
        var d :| d in rest;
        SetDidStatus(d, Available);
        rest := rest - {d};
      }
      assert freed - rest == freed;
    }

    /** Cancel the orders, return each number in turn, then DELETE, which the orders' foreign key
        refuses while any order row of the user is left. */
    method Delete(user: int) returns (failure: Option<string>)
      modifies this`users, this`dids, this`orders, this`bundles, this`ledger
      ensures Committed(old(View()), DeleteUser(old(View()), user), failure, View())
      ensures Transactions.Deletes(old(View()), user, Shown(failure, View()))
    {
      hide DeleteUser, Transactions.Deletes;
      Transactions.DeletionMeans(View(), user);
      failure := DeleteRows(user);
    }

    method DeleteRows(user: int) returns (failure: Option<string>)
      modifies this`users, this`dids, this`orders, this`bundles, this`ledger
      ensures Committed(old(View()), DeleteUser(old(View()), user), failure, View())
    {
      hide NumbersOf, CancelAllOf, ReturnAll, RowsWithout;
      var savedOrders, savedDids := orders, dids;
      var freed := NumbersOf(orders, user);
      orders := CancelAllOf(orders, user);
      ReturnNumbers(freed);
      if exists a :: a in orders && orders[a].user == user {
        orders, dids := savedOrders, savedDids;
        return Some("delete user: foreign key");
      }
      if user !in users {
        orders, dids := savedOrders, savedDids;
        return Some("user not found");
      }
      users := users - {user};
      bundles := map b | b in bundles && bundles[b].user != user :: bundles[b];
      ledger := RowsWithout(ledger, user);
      return None;
    }

    // ---------- KYC ----------

    method Approve(bundle: int) returns (failure: Option<string>)
      modifies this`bundles, this`orders
      ensures Committed(old(View()), ApproveBundle(old(View()), bundle), failure, View())
      ensures Transactions.Approves(old(View()), bundle, Shown(failure, View()))
    {
      Transactions.ApprovalMeans(View(), bundle);
      hide Transactions.Approves;
      if bundle !in bundles || (bundles[bundle].status != Pending
                                && bundles[bundle].status != Rejected) { return Some("no rows"); }
      var saved := bundles;
      bundles := bundles[bundle := bundles[bundle].(status := Approved)];
      var activated := ActivateFor(orders, bundle);
      if !UniqueActive(activated) {
        bundles := saved;
        return Some("orders_one_active_per_did");
      }
      orders := activated;
      return None;
    }

    // ---------- billing ----------

    /** Walk down from the order's channel count until the balance covers the fee. */
    method WalkLadder(card: RateCard, balance: int, channelCount: int) returns (target: int)
      ensures target == Ladder(card, balance, channelCount)
    {
      target := channelCount;
      while target >= 0
        invariant target >= -1 || target == channelCount
        invariant Ladder(card, balance, channelCount) == Ladder(card, balance, target)
        decreases target
      {
        var extra := target - 2;
        if extra < 0 { extra := 0; }
        if balance >= card.mrc + extra * card.channelFee { return; }
        target := target - 1;
      }
      target := -1;
    }

    /** The balance is written once; the two ledger rows carry the balances it would pass through. */
    method WriteCharge(oid: int, target: int, now: Time)
      requires Billing.Billable(View(), oid) && target >= 0
      modifies this`users, this`orders, this`ledger, this`runs
      ensures View() == ChargeOrder(old(View()), oid, target, now)
    {
      hide NextAnniversary;
      var o := orders[oid];
      var card := cards[o.card];
      Billing.FeeMonotone(card, target, target);
      hide Fee;
      var fee := Fee(card, target);
      var newBalance := users[o.user].balance - fee;
      var mrcPart: int, chanPart: int := card.mrc, fee - card.mrc;
      SetBalance(o.user, newBalance);
      if mrcPart > 0 { InsertLedger(o.user, -mrcPart, MrcEntry, newBalance + chanPart); }
      if chanPart > 0 { InsertLedger(o.user, -chanPart, ChannelFeeEntry, newBalance); }
      orders := orders[oid := o.(channels := target, nextBilling := NextAnniversary(now, o.anniversaryDay))];
      runs := runs + [BillingRow(oid, target, mrcPart, chanPart, if target < o.channels then Downgraded else Charged)];
    }

    method ProcessOne(oid: int, now: Time) returns (outcome: Option<BillOutcome>)
      modifies this`users, this`orders, this`ledger, this`runs
      ensures (View(), outcome) == BillOrder(old(View()), oid, now)
      ensures Transactions.Bills(old(View()), oid, now, Done(View()))
    {
      Transactions.BillMeans(View(), oid, now);
      hide ChargeOrder, Ladder, Transactions.Bills;
      if oid !in orders || orders[oid].status != Active || orders[oid].user !in users || orders[oid].card !in cards {
        return None;
      }
      var o := orders[oid];
      var target := WalkLadder(cards[o.card], users[o.user].balance, o.channels);
      if target >= 0 {
        WriteCharge(oid, target, now);
        return Some(if target < o.channels then Downgraded else Charged);
      }
      orders := orders[oid := o.(status := Suspended)];
      runs := runs + [BillingRow(oid, 0, 0, 0, CancelledOutcome)];
      return Some(CancelledOutcome);
    }

    method Run(ids: seq<int>, now: Time) returns (res: Billing.Result)
      modifies this`users, this`orders, this`ledger, this`runs
      ensures View() == BillAll(old(View()), ids, now)
      ensures res == Billing.Tally(old(View()), ids, now, Billing.Result(0, 0, 0, 0, 0))
    {
      hide BillOrder;
      res := Billing.Result(0, 0, 0, 0, 0);
      var i := 0;
      assert ids[0..] == ids;
      while i < |ids|
        invariant 0 <= i <= |ids|
        invariant BillAll(View(), ids[i..], now) == BillAll(old(View()), ids, now)
        invariant Billing.Tally(View(), ids[i..], now, res)
            == Billing.Tally(old(View()), ids, now, Billing.Result(0, 0, 0, 0, 0))
      {
        assert ids[i..][1..] == ids[i + 1..];
        res := res.(processed := res.processed + 1);
        var outcome := ProcessOne(ids[i], now);
        match outcome {
          case None =>
          case Some(Charged) => res := res.(charged := res.charged + 1);
          case Some(Downgraded) => res := res.(downgraded := res.downgraded + 1);
          case Some(CancelledOutcome) => res := res.(suspended := res.suspended + 1);
        }
        i := i + 1;
      }
    }
  }
}
