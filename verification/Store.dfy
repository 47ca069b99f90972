/** Numbers, orders, users, KYC bundles and money: each step is one database transaction, or one statement of a
    handler that has none. A step that fails rolls back, so it returns no new database. */
module Store {
  import opened Basics
  import opened Calendar

  // ---------- rows ----------

  datatype BundleStatus = Pending | Approved | Rejected

  datatype RateCard = RateCard(nrc: nat, mrc: nat, channelFee: nat)

  datatype User = User(status: string, balance: int, reseller: Option<int>)

  datatype Reservation = Reservation(kind: string, target: string)

  /** `card` is the active rate card for the number's supplier, country and type. */
  datatype Did = Did(status: DidStatus, card: Option<int>, reserved: Option<Reservation>)

  datatype Route = Route(kind: string, target: string)

  /** The saved route columns are NULL or not one by one, as in the table. */
  datatype Order = Order(user: int, did: int, status: OrderStatus, channels: int, route: Route,
                         preKind: Option<string>, preTarget: Option<string>,
                         card: int, anniversaryDay: int, nextBilling: Time, bundle: Option<int>)

  datatype Bundle = Bundle(user: int, status: BundleStatus)

  datatype LedgerKind = TopUpEntry | NrcEntry | MrcEntry | ChannelFeeEntry | CallChargeEntry

  datatype LedgerRow = LedgerRow(user: int, delta: int, kind: LedgerKind, balanceAfter: int)

  datatype BillOutcome = Charged | Downgraded | CancelledOutcome

  datatype BillingRow = BillingRow(order: int, channels: int, mrcCents: int, channelCents: int, outcome: BillOutcome)

  datatype HistoryRow = HistoryRow(did: int, was: Option<Reservation>)

  datatype Db = Db(users: map<int, User>, dids: map<int, Did>, orders: map<int, Order>, bundles: map<int, Bundle>,
                   cards: map<int, RateCard>, ledger: seq<LedgerRow>, runs: seq<BillingRow>, history: seq<HistoryRow>,
                   nextId: int)

  datatype Outcome = Done(db: Db) | Failed(why: string)

  // ---------- constraints of the schema ----------

  /** The partial unique index: at most one active order for a number. */
  predicate UniqueActive(orders: map<int, Order>) {
    forall a, b :: a in orders && b in orders && a != b && orders[a].status == Active && orders[b].status == Active
      ==> orders[a].did != orders[b].did
  }

  predicate ActiveOn(orders: map<int, Order>, did: int, except: int) {
    exists a :: a in orders && a != except && orders[a].status == Active && orders[a].did == did
  }

  // ---------- money ----------

  /** UPDATE the balance and append the matching ledger row. */
  function Post(db: Db, user: int, delta: int, kind: LedgerKind): Db
    requires user in db.users
  {
    var after := db.users[user].balance + delta;
    db.(users := db.users[user := db.users[user].(balance := after)],
        ledger := db.ledger + [LedgerRow(user, delta, kind, after)])
  }

  /** The reseller's top-up: positive amounts, own users only. */
  function ResellerTopUp(db: Db, reseller: int, user: int, cents: int): Outcome {
    if cents <= 0 then Failed("amount_cents must be > 0")
    else if user !in db.users || db.users[user].reseller != Some(reseller) then Failed("user not found")
    else Done(Post(db, user, cents, TopUpEntry))
  }

  /** The admin's top-up: any amount but zero, so also a correction downwards. */
  function AdminTopUp(db: Db, user: int, cents: int): Outcome {
    if cents == 0 then Failed("amount > 0 required")
    else if user !in db.users then Failed("no rows")
    else Done(Post(db, user, cents, TopUpEntry))
  }

  function CallCharge(db: Db, user: int, cents: int): Outcome {
    if cents <= 0 then Done(db)
    else if user !in db.users then Failed("no rows")
    else Done(Post(db, user, -cents, CallChargeEntry))
  }

  // ---------- creating orders ----------

  function DayOrToday(day: int, now: Time): int {
    if day < 1 || day > 28 then (if now.day > 28 then 28 else now.day) else day
  }

  /** `pending` unless an approved bundle of the same user backs the order; None for a bad bundle. */
  function StartStatus(db: Db, user: int, bundle: Option<int>): Option<OrderStatus> {
    if bundle.None? then Some(KycPending)
    else if bundle.value !in db.bundles || db.bundles[bundle.value].user != user then None
    else if db.bundles[bundle.value].status == Approved then Some(Active)
    else Some(KycPending)
  }

  /** The shared tail: insert the order, mark the number assigned, charge the NRC if there is one. */
  function PlaceOrder(db: Db, user: int, did: int, channels: int, route: Route, day: int, bundle: Option<int>,
                      card: int, status: OrderStatus, now: Time): Outcome
    requires user in db.users && did in db.dids && card in db.cards
  {
    if status == Active && ActiveOn(db.orders, did, db.nextId) then Failed("orders_one_active_per_did")
    else
      var d := DayOrToday(day, now);
      var o := Order(user, did, status, if channels < 0 then 0 else channels, route, None, None, card, d,
                     NextAnniversary(now, d), bundle);
      var db1 := db.(orders := db.orders[db.nextId := o], nextId := db.nextId + 1,
                     dids := db.dids[did := db.dids[did].(status := Assigned)]);
      var nrc: int := db.cards[card].nrc;
      Done(if nrc > 0 then Post(db1, user, -nrc, NrcEntry) else db1)
  }

  function CreateOrder(db: Db, reseller: int, user: int, did: int, channels: int, route: Route, day: int,
                       bundle: Option<int>, now: Time): Outcome {
    if route.kind == "" || route.target == "" then Failed("route_kind and route_target required")
    else if user !in db.users then Failed("user not found")
    else if db.users[user].reseller != Some(reseller) then Failed("user does not belong to your reseller")
    else if did !in db.dids then Failed("did not found")
    else if db.dids[did].status != Available then Failed("did not available")
    else if db.dids[did].card.None? || db.dids[did].card.value !in db.cards then Failed("no active rate card")
    else
      var card := db.dids[did].card.value;
      var status := StartStatus(db, user, bundle);
      if db.users[user].balance < db.cards[card].nrc then Failed("insufficient balance")
      else if status.None? then Failed("invalid kyc_bundle_id")
      else PlaceOrder(db, user, did, channels, route, day, bundle, card, status.value, now)
  }

  /** The admin form: no reseller check and, unlike the reseller path, no look at the number's status. */
  function AdminCreateOrder(db: Db, user: int, did: int, channels: int, route: Route, day: int, bundle: Option<int>,
                            now: Time): Outcome {
    if route.kind == "" || route.target == "" then Failed("user, did, route_kind and route_target are required")
    else if did !in db.dids || db.dids[did].card.None?
        || db.dids[did].card.value !in db.cards then Failed("no active rate card")
    else if user !in db.users then Failed("no such user")
    else
      var card := db.dids[did].card.value;
      var status := StartStatus(db, user, bundle);
      if db.users[user].balance < db.cards[card].nrc then Failed("insufficient balance")
      else if status.None? then Failed("invalid KYC bundle")
      else PlaceOrder(db, user, did, channels, route, day, bundle, card, status.value, now)
  }

  // ---------- ending, moving and editing orders ----------

  function SetDid(db: Db, did: int, status: DidStatus): Db {
    if did in db.dids then db.(dids := db.dids[did := db.dids[did].(status := status)]) else db
  }

  function SetOrder(db: Db, oid: int, o: Order): Db {
    db.(orders := db.orders[oid := o])
  }

  /** Reseller (`Some`) or admin (`None`) cancellation: from any live status, suspended included. */
  function CancelOrder(db: Db, reseller: Option<int>, oid: int): Outcome {
    if oid !in db.orders || db.orders[oid].status == Cancelled then Failed("order not found")
    else
      var o := db.orders[oid];
      if reseller.Some? && (o.user !in db.users || db.users[o.user].reseller != reseller) then Failed("order not found")
      else Done(SetDid(SetOrder(db, oid, o.(status := Cancelled)), o.did, Available))
  }

  predicate Editable(s: OrderStatus) {
    s == Active || s == KycPending || s == Quarantined
  }

  function SwapDid(db: Db, oid: int, did: int): Outcome {
    if oid !in db.orders then Failed("order not found")
    else
      var o := db.orders[oid];
      if !Editable(o.status) then Failed("cannot swap DID")
      else if o.did == did then Failed("already assigned to that DID")
      else if did !in db.dids then Failed("target DID not found")
      else if db.dids[did].status != Available then Failed("target DID is not available")
      else if o.status == Active && ActiveOn(db.orders, did, oid) then Failed("orders_one_active_per_did")
      else Done(SetDid(SetOrder(SetDid(db, o.did, Available), oid, o.(did := did)), did, Assigned))
  }

  predicate OwnBundle(db: Db, bundle: int, user: int) {
    bundle in db.bundles && db.bundles[bundle].user == user
  }

  /** What the edit form finds wrong with the rows it reads and with its own fields, each already defaulted to
      the value read. The route target column is NOT NULL, so the audio-group branch, which writes NULL, never
      gets past the write. */
  function EditRefusal(db: Db, oid: int, route: Route, channels: int, day: int, bundle: Option<int>): Option<string> {
    if oid !in db.orders then Some("order not found")
    else
      var o := db.orders[oid];
      if !Editable(o.status) then Some("can't be edited")
      else if route.kind !in {"sip_uri", "ip", "sip_account", "audio"} then Some("route_kind")
      else if route.target == "" then Some("route_target is required")
      else if channels != o.channels && (channels < 0 || channels > 8192) then Some("channel_count")
      else if day != o.anniversaryDay && (day < 1 || day > 28) then Some("anniversary_day")
      else if bundle.Some? && bundle != o.bundle && !OwnBundle(db, bundle.value, o.user) then Some("kyc bundle")
      else None
  }

  predicate ApprovedBundle(db: Db, bundle: Option<int>) {
    bundle.Some? && bundle.value in db.bundles && db.bundles[bundle.value].status == Approved
  }

  /** The UPDATE that a form ends with looks at no status but the one it may change: `backing` is the bundle that
      may activate a pending order. */
  function WriteOrder(db: Db, oid: int, o: Order, backing: Option<int>): Outcome
    requires oid in db.orders
  {
    var activates := db.orders[oid].status == KycPending && ApprovedBundle(db, backing);
    if o.bundle.Some? && o.bundle.value !in db.bundles then Failed("orders_kyc_bundle_id_fkey")
    else if activates && ActiveOn(db.orders, o.did, oid) then Failed("orders_one_active_per_did")
    else Done(SetOrder(db, oid, o.(status := if activates then Active else db.orders[oid].status)))
  }

  /** The write of the edit form, some time after its check. */
  function EditWrite(db: Db, oid: int, route: Route, channels: int, day: int, bundle: Option<int>): Outcome {
    if oid !in db.orders then Done(db)
    else WriteOrder(db, oid, db.orders[oid].(route := route, channels := channels, anniversaryDay := day,
                                             bundle := bundle), bundle)
  }

  predicate ResellersOrder(db: Db, reseller: int, oid: int) {
    oid in db.orders && db.orders[oid].user in db.users && db.users[db.orders[oid].user].reseller == Some(reseller)
  }

  /** The reseller's PATCH: fewer route kinds, no upper limit on channels, no day, and a bundle only to attach. */
  function PatchRefusal(db: Db, reseller: int, oid: int, route: Route, channels: int,
                        bundle: Option<int>): Option<string> {
    if !ResellersOrder(db, reseller, oid) then Some("order not found")
    else
      var o := db.orders[oid];
      if !Editable(o.status) then Some("order is not editable")
      else if route.kind !in {"sip_uri", "ip", "sip_account"} then Some("route_kind")
      else if route.target == "" then Some("route_target required")
      else if channels != o.channels && channels < 0 then Some("channel_count must be >= 0")
      else if bundle.Some? && !OwnBundle(db, bundle.value, o.user) then Some("invalid kyc_bundle_id for this user")
      else None
  }

  /** Its write: the old bundle stays unless the request names one, and only a named one activates. */
  function PatchWrite(db: Db, oid: int, route: Route, channels: int, bundle: Option<int>): Outcome {
    if oid !in db.orders then Done(db)
    else
      var o := db.orders[oid];
      WriteOrder(db, oid, o.(route := route, channels := channels, bundle := if bundle.Some? then bundle
                             else o.bundle), bundle)
  }

  // ---------- numbers ----------

  function ReserveDid(db: Db, did: int, r: Reservation): Outcome {
    if r.kind == "" || (r.target == "" && r.kind != "audio_group") then Failed("route")
    else if did !in db.dids || db.dids[did].status != Available then Failed("DID is not available")
    else Done(db.(dids := db.dids[did := db.dids[did].(status := Reserved, reserved := Some(r))]))
  }

  function ReleaseDid(db: Db, did: int): Outcome {
    if did !in db.dids || db.dids[did].status != Reserved then Failed("DID is not reserved")
    else Done(db.(history := db.history + [HistoryRow(did, db.dids[did].reserved)],
                  dids := db.dids[did := db.dids[did].(status := Available, reserved := None)]))
  }

  /** The count of the retire handler: suspended orders do not stop a number from being retired. */
  predicate InService(orders: map<int, Order>, did: int) {
    exists a :: a in orders && orders[a].did == did && Editable(orders[a].status)
  }

  function RetireRefusal(db: Db, did: int): Option<string> {
    if InService(db.orders, did) then Some("DID has an order") else None
  }

  /** Its UPDATE, some time after the count, looks at nothing. */
  function RetireWrite(db: Db, did: int): Db {
    SetDid(db, did, Retired)
  }

  // ---------- users ----------

  function Quarantine(o: Order): Order {
    o.(preKind := Some(o.route.kind), preTarget := Some(o.route.target), status := Quarantined)
  }

  function Or(saved: Option<string>, current: string): string {
    if saved.Some? then saved.value else current
  }

  function Restore(o: Order): Order {
    o.(route := Route(Or(o.preKind, o.route.kind), Or(o.preTarget, o.route.target)), preKind := None, preTarget := None,
       status := Active)
  }

  function SetUserStatus(db: Db, user: int, status: string): Db {
    if user in db.users then db.(users := db.users[user := db.users[user].(status := status)]) else db
  }

  function QuarantineAll(orders: map<int, Order>, user: int): map<int, Order> {
    map a | a in orders :: if orders[a].user == user
        && orders[a].status == Active then Quarantine(orders[a]) else orders[a]
  }

  function RestoreAll(orders: map<int, Order>, user: int): map<int, Order> {
    map a | a in orders :: if orders[a].user == user
        && orders[a].status == Quarantined then Restore(orders[a]) else orders[a]
  }

  function Block(db: Db, user: int, reason: string): Outcome {
    if reason == "" then Failed("block reason required")
    else if user !in db.users || db.users[user].status != "active" then Failed("user is not currently active")
    else Done(SetUserStatus(db, user, "inactive").(orders := QuarantineAll(db.orders, user)))
  }

  function Unblock(db: Db, user: int): Outcome {
    if user !in db.users || db.users[user].status != "inactive" then Failed("user is not currently blocked")
    else if !UniqueActive(RestoreAll(db.orders, user)) then Failed("orders_one_active_per_did")
    else Done(SetUserStatus(db, user, "active").(orders := RestoreAll(db.orders, user)))
  }

  /** The user form writes any status and does not cascade to orders. */
  function EditUser(db: Db, user: int, status: string): Outcome {
    Done(SetUserStatus(db, user, if status == "" then "active" else status))
  }

  function CancelAllOf(orders: map<int, Order>, user: int): map<int, Order> {
    map a | a in orders :: if orders[a].user == user then orders[a].(status := Cancelled) else orders[a]
  }

  /** The numbers of the user's live orders. */
  function NumbersOf(orders: map<int, Order>, user: int): set<int> {
    set a | a in orders && orders[a].user == user && orders[a].status != Cancelled :: orders[a].did
  }

  function ReturnAll(dids: map<int, Did>, freed: set<int>): map<int, Did> {
    map d | d in dids :: if d in freed then dids[d].(status := Available) else dids[d]
  }

  function RowsWithout(ledger: seq<LedgerRow>, user: int): seq<LedgerRow> {
    if ledger == [] then []
    else
      var n := |ledger| - 1;
      if ledger[n].user == user then RowsWithout(ledger[..n], user) else RowsWithout(ledger[..n], user) + [ledger[n]]
  }

  /** Cancel every live order and return its number, then delete the user row. Orders reference
      users with ON DELETE RESTRICT and cancelled orders stay, so any order row at all aborts it. */
  function DeleteUser(db: Db, user: int): Outcome {
    var orders := CancelAllOf(db.orders, user);
    var dids := ReturnAll(db.dids, NumbersOf(db.orders, user));
    if exists a :: a in orders && orders[a].user == user then Failed("delete user: foreign key")
    else if user !in db.users then Failed("user not found")
    else Done(db.(orders := orders, dids := dids, users := db.users - {user}, ledger := RowsWithout(db.ledger, user),
                  bundles := map b | b in db.bundles && db.bundles[b].user != user :: db.bundles[b]))
  }

  // ---------- KYC ----------

  function ActivateFor(orders: map<int, Order>, bundle: int): map<int, Order> {
    map a | a in orders :: if orders[a].bundle == Some(bundle) && orders[a].status == KycPending
                           then orders[a].(status := Active) else orders[a]
  }

  function ApproveBundle(db: Db, bundle: int): Outcome {
    if bundle !in db.bundles || db.bundles[bundle].status == Approved then Failed("no rows")
    else if !UniqueActive(ActivateFor(db.orders, bundle)) then Failed("orders_one_active_per_did")
    else Done(db.(bundles := db.bundles[bundle := db.bundles[bundle].(status := Approved)],
                  orders := ActivateFor(db.orders, bundle)))
  }

  function RejectBundle(db: Db, bundle: int): Outcome {
    if bundle in db.bundles && db.bundles[bundle].status != Rejected then
      Done(db.(bundles := db.bundles[bundle := db.bundles[bundle].(status := Rejected)]))
    else Done(db)
  }

  // ---------- the monthly bill of one order ----------

  function Fee(card: RateCard, channels: int): int {
    var extra := if channels - 2 < 0 then 0 else channels - 2;
    card.mrc + extra * card.channelFee
  }

  /** Walking down from `target`: the first count whose fee the balance covers, or -1. */
  function Ladder(card: RateCard, balance: int, target: int): int
    decreases target + 1
  {
    if target < 0 then -1
    else if balance >= Fee(card, target) then target
    else Ladder(card, balance, target - 1)
  }

  function SuspendOrder(db: Db, oid: int): Db
    requires oid in db.orders
  {
    SetOrder(db, oid, db.orders[oid].(status := Suspended)).(runs := db.runs
                                                             + [BillingRow(oid, 0, 0, 0, CancelledOutcome)])
  }

  /** The MRC and the channel fees are two ledger rows; a part of zero has no row. */
  function ChargeOrder(db: Db, oid: int, target: int, now: Time): Db
    requires oid in db.orders && db.orders[oid].user in db.users && db.orders[oid].card in db.cards
  {
    var o := db.orders[oid];
    var mrcPart: int := db.cards[o.card].mrc;
    var chanPart := Fee(db.cards[o.card], target) - mrcPart;
    var db1 := if mrcPart > 0 then Post(db, o.user, -mrcPart, MrcEntry) else db;
    var db2 := if chanPart > 0 then Post(db1, o.user, -chanPart, ChannelFeeEntry) else db1;
    SetOrder(db2, oid, o.(channels := target, nextBilling := NextAnniversary(now, o.anniversaryDay)))
      .(runs := db.runs + [BillingRow(oid, target, mrcPart, chanPart, if target < o.channels then Downgraded
                                      else Charged)])
  }

  /** One order's billing transaction; an order that is no longer active is left alone. */
  function BillOrder(db: Db, oid: int, now: Time): (Db, Option<BillOutcome>) {
    if oid !in db.orders || db.orders[oid].status != Active || db.orders[oid].user !in db.users
        || db.orders[oid].card !in db.cards
    then (db, None)
    else
      var o := db.orders[oid];
      var target := Ladder(db.cards[o.card], db.users[o.user].balance, o.channels);
      if target < 0 then (SuspendOrder(db, oid), Some(CancelledOutcome))
      else (ChargeOrder(db, oid, target, now), Some(if target < o.channels then Downgraded else Charged))
  }

  /** The billing run over the selected orders, in their order. */
  function BillAll(db: Db, ids: seq<int>, now: Time): Db
    decreases |ids|
  {
    if ids == [] then db else BillAll(BillOrder(db, ids[0], now).0, ids[1..], now)
  }

  // ---------- runs ----------

  /** `DoEdit`, `DoPatch` and `DoRetire` are the writes of handlers whose checks came earlier: any steps of
      others may lie between, so the write may come at any time. A billing run is a `DoBill` for each due order. */
  datatype Step =
    | AddUser(owner: Option<int>)
    | AddDid(card: Option<int>)
    | AddBundle(user: int)
    | DoCreateOrder(reseller: int, user: int, did: int, channels: int, route: Route, day: int, bundle: Option<int>,
                    now: Time)
    | DoAdminCreate(user: int, did: int, channels: int, route: Route, day: int, bundle: Option<int>, now: Time)
    | DoCancel(requester: Option<int>, order: int)
    | DoSwap(order: int, did: int)
    | DoEdit(order: int, route: Route, channels: int, day: int, bundle: Option<int>)
    | DoPatch(order: int, route: Route, channels: int, bundle: Option<int>)
    | DoReserve(did: int, reservation: Reservation)
    | DoRelease(did: int)
    | DoRetire(did: int)
    | DoBlock(user: int, reason: string)
    | DoUnblock(user: int)
    | DoEditUser(user: int, status: string)
    | DoDeleteUser(user: int)
    | DoApprove(kyc: int)
    | DoReject(kyc: int)
    | DoResellerTopUp(reseller: int, user: int, cents: int)
    | DoAdminTopUp(user: int, cents: int)
    | DoCallCharge(user: int, cents: int)
    | DoBill(order: int, now: Time)

  function Perform(db: Db, step: Step): Outcome {
    match step
    case AddUser(reseller) => Done(db.(users := db.users[db.nextId := User("active", 0, reseller)],
                                       nextId := db.nextId + 1))
    case AddDid(card) => Done(db.(dids := db.dids[db.nextId := Did(Available, card, None)], nextId := db.nextId + 1))
    case AddBundle(user) => Done(db.(bundles := db.bundles[db.nextId := Bundle(user, Pending)],
                                     nextId := db.nextId + 1))
    case DoCreateOrder(reseller, user, did, channels, route, day, bundle, now) =>
      CreateOrder(db, reseller, user, did, channels, route, day, bundle, now)
    case DoAdminCreate(user, did, channels, route, day, bundle, now) =>
      AdminCreateOrder(db, user, did, channels, route, day, bundle, now)
    case DoCancel(reseller, order) => CancelOrder(db, reseller, order)
    case DoSwap(order, did) => SwapDid(db, order, did)
    case DoEdit(order, route, channels, day, bundle) => EditWrite(db, order, route, channels, day, bundle)
    case DoPatch(order, route, channels, bundle) => PatchWrite(db, order, route, channels, bundle)
    case DoReserve(did, reservation) => ReserveDid(db, did, reservation)
    case DoRelease(did) => ReleaseDid(db, did)
    case DoRetire(did) => Done(RetireWrite(db, did))
    case DoBlock(user, reason) => Block(db, user, reason)
    case DoUnblock(user) => Unblock(db, user)
    case DoEditUser(user, status) => EditUser(db, user, status)
    case DoDeleteUser(user) => DeleteUser(db, user)
    case DoApprove(bundle) => ApproveBundle(db, bundle)
    case DoReject(bundle) => RejectBundle(db, bundle)
    case DoResellerTopUp(reseller, user, cents) => ResellerTopUp(db, reseller, user, cents)
    case DoAdminTopUp(user, cents) => AdminTopUp(db, user, cents)
    case DoCallCharge(user, cents) => CallCharge(db, user, cents)
    case DoBill(order, now) => Done(BillOrder(db, order, now).0)
  }

  function Next(db: Db, step: Step): Db {
    var r := Perform(db, step);
    if r.Done? then r.db else db
  }

  function Exec(db: Db, steps: seq<Step>): Db
    decreases |steps|
  {
    if steps == [] then db else Exec(Next(db, steps[0]), steps[1..])
  }

  /** The steps that move or end orders. */
  lemma OrderStepIs(db: Db, step: Step)
    ensures step.DoCancel? ==> Perform(db, step) == CancelOrder(db, step.requester, step.order)
    ensures step.DoSwap? ==> Perform(db, step) == SwapDid(db, step.order, step.did)
    ensures step.DoBlock? ==> Perform(db, step) == Block(db, step.user, step.reason)
    ensures step.DoUnblock? ==> Perform(db, step) == Unblock(db, step.user)
    ensures step.DoApprove? ==> Perform(db, step) == ApproveBundle(db, step.kyc)
  {
    hide CancelOrder, SwapDid, Block, Unblock, ApproveBundle;
  }

  /** A database that holds only its price list. */
  function Fresh(cards: map<int, RateCard>): Db {
    Db(map[], map[], map[], map[], cards, [], [], [], 0)
  }
}
