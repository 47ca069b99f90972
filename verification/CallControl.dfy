/** The call-admission protocol, one command at a time: the reservation sets, the live index and the
    pending admin actions in Redis, the balances in Postgres, and the handlers in flight between them.
    A step is one Lua script, one Redis command or pipeline, or one database transaction; between two
    steps of a handler any step of any other handler may come. */
module CallControl {
  import opened Basics
  import opened CallIds
  import Rating

  // ---------- the read-only rows ----------

  datatype OrderLine = OrderLine(id: int, user: int, channelCount: int, routeKind: string, routeTarget: string,
                                 status: OrderStatus, rate: real, billMin: int, billInc: int, audioGroup: Option<int>)

  datatype DidLine = DidLine(did: int, status: DidStatus, reservedKind: string, reservedTarget: string,
                             reservedGroup: Option<int>, order: Option<OrderLine>)

  /** `cap` is -1 for an uncapped user. */
  datatype Account = Account(active: bool, cap: int)

  datatype Config = Config(dids: map<string, DidLine>, users: map<int, Account>, minSeconds: int)

  // ---------- Redis and the balances ----------

  datatype SetKey = UserSet(user: int) | DidSet(did: int)

  type Sets = map<SetKey, set<string>>

  datatype LiveCall = LiveCall(callId: string, full: string, startedAt: int, user: int, orderId: int, did: int,
                               routeKind: string, routeTarget: string, reserved: bool, channel: string,
                               lastAction: string)

  datatype PendingAction = PendingAction(action: string, admin: int, reason: string)

  /** A call let in and not yet charged: one Call-ID on one number, with the balance behind its seconds. */
  datatype Ticket = Ticket(callId: string, e164: string)

  datatype Grant = Grant(user: int, maxSeconds: int, credit: int)

  // ---------- handlers in flight ----------

  /** `pick` is the clip the audio-group chooser returned, `aclOk` the supplier check's verdict. */
  datatype Request = Request(callId: string, e164: string, srcIpOk: bool, aclOk: bool, pick: Option<string>,
                             channel: string)

  datatype Response = Deny(reason: string) | Allow(maxSeconds: int, routeKind: string, routeTarget: string)

  /** Why the live calls are listed: for a page, for a reconciler tick with its channel snapshot and settle
      window, or for the force cleanup, which has no settle window. */
  datatype Purpose = Listing | Reconcile(chans: set<string>, settle: int) | Cleanup(chans: set<string>)

  /** Where a handler stands. The last components are history: what other handlers did to it since.
      `lost`: slots of the call that were released and not taken again;
      `back`: evicted keys registered again since they were deregistered;
      `again`: slots of the ids in hand that were taken after the release of their key;
      `replaced`: the entry behind the key is by now that of another call.
      `must` are the keys SCAN still owes: those present all along since it began. `own` is the index key
      a teardown will deregister; an eviction has deregistered its keys before it releases. */
  datatype Job =
    | Asking(req: Request, line: DidLine, order: OrderLine, cap: int, credit: int)
    | Entering(call: LiveCall, maxSeconds: int, lost: set<SetKey>)
    | Settling(raw: string, e164: string, found: Option<OrderLine>, billsec: int)
    | Clearing(ids: set<string>, own: Option<string>, todo: set<string>, back: set<string>)
    | Releasing(ids: set<string>, own: Option<string>, back: set<string>, must: set<SetKey>,
                again: set<(SetKey, string)>)
    | Ranged(reply: seq<string>, purpose: Purpose)
    | Sweeping(stale: set<string>, evicted: set<string>)
    | Rerouting(key: string, call: LiveCall, lost: set<SetKey>, replaced: bool)

  datatype State = State(sets: Sets, zset: map<string, int>, meta: map<string, LiveCall>,
                         pending: map<string, PendingAction>, balances: map<int, int>,
                         granted: map<Ticket, Grant>, jobs: map<int, Job>)

  const EMPTY: State := State(map[], map[], map[], map[], map[], map[], map[])

  // ---------- what one command tells the handlers in flight ----------

  datatype Event =
    | Taken(keys: set<SetKey>, id: string)
    | Freed(keys: set<SetKey>, ids: set<string>, left: set<SetKey>)
    | Entered(call: LiveCall)
    | Gone(ids: set<string>)
    | Rewritten(call: LiveCall)

  function SlotsOf(c: LiveCall): set<SetKey> {
    {UserSet(c.user), DidSet(c.did)}
  }

  /** The same call on the same user and number, whatever its route. */
  predicate SameCall(c: LiveCall, d: LiveCall) {
    c.full == d.full && c.user == d.user && c.did == d.did && c.reserved == d.reserved
  }

  function LostAfter(lost: set<SetKey>, c: LiveCall, e: Event): set<SetKey> {
    if e.Taken? && e.id == c.full then lost - e.keys
    else if e.Freed? && c.full in e.ids then lost + e.keys * SlotsOf(c)
    else lost
  }

  function BackAfter(back: set<string>, ids: set<string>, e: Event): set<string> {
    if e.Entered? && e.call.callId in ids then back + {e.call.callId}
    else if e.Gone? then back - e.ids
    else back
  }

  function AgainAfter(again: set<(SetKey, string)>, ids: set<string>, e: Event): set<(SetKey, string)> {
    if e.Taken? && e.id in ids then again + set k | k in e.keys :: (k, e.id)
    else if e.Freed? then set p | p in again && !(p.0 in e.keys && p.1 in e.ids)
    else again
  }

  function Note(job: Job, e: Event): Job {
    match job
    case Entering(c, maxSeconds, lost) => Entering(c, maxSeconds, LostAfter(lost, c, e))
    case Clearing(ids, own, todo, back) => Clearing(ids, own, todo, BackAfter(back, ids, e))
    case Releasing(ids, own, back, must, again) =>
      Releasing(ids, own, BackAfter(back, ids, e), if e.Freed? then must * e.left else must, AgainAfter(again, ids, e))
    case Rerouting(key, c, lost, replaced) =>
      Rerouting(key, c, LostAfter(lost, c, e),
                if (e.Entered? || e.Rewritten?) && e.call.callId == key then !SameCall(e.call, c) else replaced)
    case _ => job
  }

  function NoteAll(jobs: map<int, Job>, e: Event): map<int, Job> {
    map j | j in jobs :: Note(jobs[j], e)
  }

  lemma NotedKeys(jobs: map<int, Job>, e: Event)
    ensures NoteAll(jobs, e).Keys == jobs.Keys
  {
  }

  // ---------- reservation sets ----------

  function Members(sets: Sets, k: SetKey): set<string> {
    if k in sets then sets[k] else {}
  }

  function SAdd(sets: Sets, k: SetKey, id: string): Sets {
    sets[k := Members(sets, k) + {id}]
  }

  /** The reserve script: both caps are checked on set sizes before either set is touched. */
  function Reserve(sets: Sets, user: int, did: int, id: string, userCap: int, didCap: int): (Sets, int) {
    if userCap >= 0 && |Members(sets, UserSet(user))| >= userCap then (sets, -1)
    else if |Members(sets, DidSet(did))| >= didCap then (sets, -2)
    else (SAdd(SAdd(sets, UserSet(user), id), DidSet(did), id), 1)
  }

  lemma SAddMembers(sets: Sets, k: SetKey, id: string, j: SetKey)
    ensures Members(SAdd(sets, k, id), j) == if j == k then Members(sets, k) + {id} else Members(sets, j)
  {
  }

  lemma ReserveMembers(sets: Sets, user: int, did: int, id: string, userCap: int, didCap: int)
    ensures var (after, res) := Reserve(sets, user, did, id, userCap, didCap);
      && res in {1, -1, -2}
      && (res != 1 ==> after == sets)
      && (res == 1 ==>
            && (userCap >= 0 ==> |Members(sets, UserSet(user))| < userCap)
            && |Members(sets, DidSet(did))| < didCap
            && forall k :: Members(after, k) ==
                 if k in {UserSet(user), DidSet(did)} then Members(sets, k) + {id} else Members(sets, k))
  {
    hide SAdd, Members;
    var one := SAdd(sets, UserSet(user), id);
    forall k
      ensures Members(SAdd(one, DidSet(did), id), k) ==
                if k in {UserSet(user), DidSet(did)} then Members(sets, k) + {id} else Members(sets, k)
    {
      SAddMembers(sets, UserSet(user), id, k);
      SAddMembers(one, DidSet(did), id, k);
    }
  }

  /** SREM of every id from the given keys; a set that empties disappears. */
  function ReleaseFrom(sets: Sets, ids: set<string>, keys: set<SetKey>): Sets {
    map k | k in sets && (k in keys ==> sets[k] - ids != {}) :: if k in keys then sets[k] - ids else sets[k]
  }

  lemma ReleaseMembers(sets: Sets, ids: set<string>, keys: set<SetKey>, k: SetKey)
    ensures Members(ReleaseFrom(sets, ids, keys), k) == if k in keys then Members(sets, k) - ids else Members(sets, k)
  {
  }

  // ---------- live index ----------

  const SWEEP_WINDOW: int := 2 * 60 * 60

  function Register(s: State, c: LiveCall): State {
    if c.callId == "" then s
    else s.(meta := s.meta[c.callId := c], zset := s.zset[c.callId := c.startedAt], jobs := NoteAll(s.jobs, Entered(c)))
  }

  function Deregister(s: State, id: string): State {
    if id == "" then s
    else s.(zset := s.zset - {id}, meta := s.meta - {id}, jobs := NoteAll(s.jobs, Gone({id})))
  }

  predicate Listable(s: State, k: string, now: int) {
    k in s.meta && s.meta[k].startedAt >= now - SWEEP_WINDOW
  }

  /** Listing drops the listed entries that are older than two hours from the index only. */
  function SweptBy(s: State, reply: seq<string>, now: int): set<string> {
    set k | k in reply && !Listable(s, k, now)
  }

  /** What a listing's purpose evicts: settled entries without a channel, or with a dead one. */
  predicate Dead(c: LiveCall, purpose: Purpose, now: int) {
    match purpose
    case Listing => false
    case Reconcile(chans, settle) => c.startedAt <= now - settle && (c.channel == "" || c.channel !in chans)
    case Cleanup(chans) => c.channel == "" || c.channel !in chans
  }

  function Evicted(s: State, reply: seq<string>, purpose: Purpose, now: int): set<string> {
    set k | k in reply && Listable(s, k, now) && Dead(s.meta[k], purpose, now) :: s.meta[k].callId
  }

  // ---------- authorize ----------

  datatype Screened =
    | Refused(reason: string)
    | Unbilled(line: DidLine, target: string)
    | Billable(line: DidLine, order: OrderLine, cap: int, credit: int)

  /** The row the order lookup returns: only three statuses qualify, and the user must exist. */
  predicate HasOrder(cfg: Config, line: DidLine) {
    && line.order.Some?
    && line.order.value.status in {Active, Quarantined, KycPending}
    && line.order.value.user in cfg.users
  }

  function ScreenReserved(line: DidLine, req: Request): Screened {
    if line.reservedKind == "" then Refused("reservation_misconfigured")
    else if line.reservedKind == "audio_group" && (line.reservedGroup.None? || req.pick.None?) then
      Refused("reservation_misconfigured")
    else
      var target := if line.reservedKind == "audio_group" then "didstorage/" + req.pick.value else line.reservedTarget;
      if target == "" then Refused("reservation_misconfigured") else Unbilled(line, target)
  }

  function BalanceOf(balances: map<int, int>, user: int): int {
    if user in balances then balances[user] else 0
  }

  /** Everything authorize decides from the rows, before it touches Redis. The balance it reads now is
      the one its seconds will be based on. */
  function Screen(cfg: Config, req: Request, balances: map<int, int>): Screened {
    if req.e164 == "" then Refused("bad_to_uri")
    else if !req.srcIpOk then Refused("bad_src_ip")
    else if req.e164 !in cfg.dids then Refused("unknown_did")
    else if !req.aclOk then Refused("src_ip_not_authorized")
    else
      var line := cfg.dids[req.e164];
      if line.status == Reserved then ScreenReserved(line, req)
      else if line.status != Assigned || !HasOrder(cfg, line) then Refused("did_not_assigned")
      else
        var o := line.order.value;
        var u := cfg.users[o.user];
        var credit := BalanceOf(balances, o.user);
        if o.status == KycPending then Refused("kyc_pending")
        else if o.status == Quarantined then Refused("quarantined")
        else if !u.active then Refused("user_blocked")
        else if Rating.MaxSecondsForBalance(credit, o.rate) < cfg.minSeconds then Refused("insufficient_balance")
        else Billable(line, o, u.cap, credit)
  }

  function DialKind(kind: string): string {
    if kind == "audio_group" then "audio" else kind
  }

  /** A retransmitted authorize for the same call leaves Asterisk with the larger of its grants. */
  function AddGrant(granted: map<Ticket, Grant>, t: Ticket, g: Grant): map<Ticket, Grant> {
    if t in granted && granted[t].credit > g.credit then granted else granted[t := g]
  }

  function FreeEntry(req: Request, line: DidLine, target: string): LiveCall {
    LiveCall(SanitizeCallID(req.callId), req.callId, 0, 0, 0, line.did, line.reservedKind, target, true, req.channel,
             "")
  }

  function PaidEntry(req: Request, line: DidLine, o: OrderLine): LiveCall
    requires Resolves(o, req)
  {
    var target := if o.routeKind == "audio_group" then "didstorage/" + req.pick.value else o.routeTarget;
    LiveCall(SanitizeCallID(req.callId), req.callId, 0, o.user, o.id, line.did, o.routeKind, target, false,
             req.channel, "")
  }

  /** An audio group needs its id and a clip from the chooser. */
  predicate Resolves(o: OrderLine, req: Request) {
    o.routeKind == "audio_group" ==> o.audioGroup.Some? && req.pick.Some?
  }

  /** Read the rows and the balance; refuse, or go on to the reservation or straight to the index. */
  function DoLook(s: State, j: int, cfg: Config, req: Request): State {
    match Screen(cfg, req, s.balances)
    case Refused(_) => s
    case Unbilled(line, target) => s.(jobs := s.jobs[j := Entering(FreeEntry(req, line, target),
                                                                   Rating.FREE_CALL_SECONDS, {})])
    case Billable(line, o, cap, credit) => s.(jobs := s.jobs[j := Asking(req, line, o, cap, credit)])
  }

  /** Run the reserve script; then an unresolved audio group ends the handler with its slots kept. */
  function DoTake(s: State, j: int, req: Request, line: DidLine, o: OrderLine, cap: int, credit: int): State {
    var (sets, res) := Reserve(s.sets, o.user, line.did, req.callId, cap, o.channelCount);
    var rest := s.(jobs := s.jobs - {j});
    if res != 1 then rest
    else
      var noted := rest.(sets := sets,
                         jobs := NoteAll(rest.jobs, Taken({UserSet(o.user), DidSet(line.did)}, req.callId)));
      if !Resolves(o, req) then noted
      else
        var maxSeconds := Rating.MaxSecondsForBalance(credit, o.rate);
        noted.(jobs := noted.jobs[j := Entering(PaidEntry(req, line, o), maxSeconds, {})],
               granted := AddGrant(s.granted, Ticket(req.callId, req.e164), Grant(o.user, maxSeconds, credit)))
  }

  // ---------- teardown ----------

  function RecordPending(s: State, key: string, p: PendingAction): State {
    if key == "" || p.action == "" then s else s.(pending := s.pending[key := p])
  }

  function PopPending(s: State, key: string): (State, Option<PendingAction>) {
    if key != "" && key in s.pending then (s.(pending := s.pending - {key}), Some(s.pending[key])) else (s, None)
  }

  function ChargeOf(found: Option<OrderLine>, billsec: int): int {
    if found.None? then 0 else Rating.Cents(billsec, found.value.billMin, found.value.billInc, found.value.rate)
  }

  function DebitFrom(balances: map<int, int>, found: Option<OrderLine>, cents: int): map<int, int> {
    if found.Some? && cents > 0 && found.value.user in balances
    then balances[found.value.user := balances[found.value.user] - cents] else balances
  }

  /** `/cdr` stamps the pending mark on the row of a call that has an order, or any timing at all. */
  predicate Claims(found: Option<OrderLine>, billsec: int, timed: bool) {
    found.Some? || billsec > 0 || timed
  }

  /** `found` is the order row the lookup returned. */
  function DoClaim(s: State, j: int, raw: string, e164: string, found: Option<OrderLine>, billsec: int,
                   timed: bool): State {
    var s1 := if Claims(found, billsec, timed) then PopPending(s, SanitizeCallID(raw)).0 else s;
    s1.(jobs := s1.jobs[j := Settling(raw, e164, found, billsec)])
  }

  function DoDebit(s: State, j: int, raw: string, e164: string, found: Option<OrderLine>, billsec: int): State {
    s.(balances := DebitFrom(s.balances, found, ChargeOf(found, billsec)), granted := s.granted - {Ticket(raw, e164)},
       jobs := s.jobs[j := Clearing({raw}, Some(SanitizeCallID(raw)), {}, {})])
  }

  /** One page of the release loop: a pipeline of SREMs. */
  function DoPage(s: State, j: int, keys: set<SetKey>): State
    requires j in s.jobs && s.jobs[j].Releasing?
  {
    var job := s.jobs[j];
    var sets := ReleaseFrom(s.sets, job.ids, keys);
    s.(sets := sets, jobs := NoteAll(s.jobs[j := job.(must := job.must - keys)], Freed(keys, job.ids, sets.Keys)))
  }

  /** The end of a release loop: every key that was there all along has been shown. */
  function DoLeave(s: State, j: int): State
    requires j in s.jobs && s.jobs[j].Releasing?
  {
    var rest := s.(jobs := s.jobs - {j});
    if s.jobs[j].own.Some? then Deregister(rest, s.jobs[j].own.value) else rest
  }

  // ---------- listing and eviction ----------

  function DoDrop(s: State, j: int, stale: set<string>, evicted: set<string>): State {
    s.(zset := s.zset - stale,
       jobs := if evicted == {} then s.jobs - {j} else s.jobs[j := Clearing(evicted, None, evicted, {})])
  }

  function DoUnlist(s: State, j: int, id: string): State
    requires j in s.jobs && s.jobs[j].Clearing?
  {
    Deregister(s.(jobs := s.jobs[j := s.jobs[j].(todo := s.jobs[j].todo - {id})]), id)
  }

  // ---------- redirect ----------

  function Missing(sets: Sets, c: LiveCall): set<SetKey> {
    set k | k in SlotsOf(c) && c.full !in Members(sets, k)
  }

  /** The re-read half of a route update. */
  function DoReread(s: State, j: int, key: string, kind: string, target: string, act: string): State {
    if key == "" || key !in s.meta then s
    else
      var c := s.meta[key].(routeKind := kind, routeTarget := target, lastAction := act);
      s.(jobs := s.jobs[j := Rerouting(key, c, Missing(s.sets, c), false)])
  }

  function DoRewrite(s: State, j: int, key: string, c: LiveCall): State {
    s.(meta := s.meta[key := c], jobs := NoteAll(s.jobs - {j}, Rewritten(c)))
  }

  /** Money that is not a call's: a top-up, a monthly bill, a setup fee, a correction. */
  function DoBook(s: State, user: int, cents: int): State {
    if user in s.balances then s.(balances := s.balances[user := s.balances[user] + cents]) else s
  }

  // ---------- runs ----------

  /** One command of the handler `j`. Authorize is Look, Take, Enter; `/cdr` is Claim, Debit, Scan, any
      number of Page, Leave; a listing is Range, Fetch, Drop, which a tick or cleanup follows up with an
      Unlist for each evicted key, Scan, Page and Leave; an admin action is a Mark, then Remove, or Reread
      and Rewrite. A step whose handler is not at that point does nothing. */
  datatype Step =
    | Look(j: int, cfg: Config, req: Request)
    | Take(j: int)
    | Enter(j: int, now: int)
    | Claim(j: int, raw: string, e164: string, found: Option<OrderLine>, billsec: int, timed: bool)
    | Debit(j: int)
    | Scan(j: int)
    | Page(j: int, keys: set<SetKey>)
    | Leave(j: int)
    | Range(j: int, reply: seq<string>, purpose: Purpose)
    | Fetch(j: int, now: int)
    | Drop(j: int)
    | Unlist(j: int, id: string)
    | Mark(j: int, key: string, mark: PendingAction)
    | Remove(j: int, key: string)
    | Reread(j: int, key: string, kind: string, target: string, act: string)
    | Rewrite(j: int)
    | Book(j: int, user: int, cents: int)

  /** The handler is at the point where this step comes next. */
  predicate Enabled(s: State, step: Step) {
    var j := step.j;
    match step
    case Look(_, _, _) => j !in s.jobs
    case Take(_) => j in s.jobs && s.jobs[j].Asking?
    case Enter(_, _) => j in s.jobs && s.jobs[j].Entering?
    case Claim(_, _, _, _, _, _) => j !in s.jobs
    case Debit(_) => j in s.jobs && s.jobs[j].Settling?
    case Scan(_) => j in s.jobs && s.jobs[j].Clearing? && s.jobs[j].todo == {}
    case Page(_, _) => j in s.jobs && s.jobs[j].Releasing?
    case Leave(_) => j in s.jobs && s.jobs[j].Releasing? && s.jobs[j].must == {}
    case Range(_, _, _) => j !in s.jobs
    case Fetch(_, _) => j in s.jobs && s.jobs[j].Ranged?
    case Drop(_) => j in s.jobs && s.jobs[j].Sweeping?
    case Unlist(_, id) => j in s.jobs && s.jobs[j].Clearing? && id in s.jobs[j].todo
    case Reread(_, _, _, _, _) => j !in s.jobs
    case Rewrite(_) => j in s.jobs && s.jobs[j].Rerouting?
    case _ => true
  }

  function Next(s: State, step: Step): State {
    if !Enabled(s, step) then s
    else
      var j := step.j;
      match step
      case Look(_, cfg, req) => DoLook(s, j, cfg, req)
      case Take(_) => var a := s.jobs[j]; DoTake(s, j, a.req, a.line, a.order, a.cap, a.credit)
      case Enter(_, now) => Register(s.(jobs := s.jobs - {j}), s.jobs[j].call.(startedAt := now))
      case Claim(_, raw, e164, found, billsec, timed) => DoClaim(s, j, raw, e164, found, billsec, timed)
      case Debit(_) => var a := s.jobs[j]; DoDebit(s, j, a.raw, a.e164, a.found, a.billsec)
      case Scan(_) => var a := s.jobs[j]; s.(jobs := s.jobs[j := Releasing(a.ids, a.own, a.back, s.sets.Keys, {})])
      case Page(_, keys) => DoPage(s, j, keys)
      case Leave(_) => DoLeave(s, j)
      case Range(_, reply, purpose) => s.(jobs := s.jobs[j := Ranged(reply, purpose)])
      case Fetch(_, now) =>
        var a := s.jobs[j];
        s.(jobs := s.jobs[j := Sweeping(SweptBy(s, a.reply, now), Evicted(s, a.reply, a.purpose, now))])
      case Drop(_) => DoDrop(s, j, s.jobs[j].stale, s.jobs[j].evicted)
      case Unlist(_, id) => DoUnlist(s, j, id)
      case Mark(_, key, mark) => RecordPending(s, key, mark)
      case Remove(_, key) => Deregister(s, key)
      case Reread(_, key, kind, target, act) => DoReread(s, j, key, kind, target, act)
      case Rewrite(_) => DoRewrite(s, j, s.jobs[j].key, s.jobs[j].call)
      case Book(_, user, cents) => DoBook(s, user, cents)
  }

  // ---------- one step at a time ----------

  lemma LookIs(s: State, j: int, cfg: Config, req: Request)
    requires j !in s.jobs
    ensures Next(s, Look(j, cfg, req)) == DoLook(s, j, cfg, req)
  {
    hide DoLook;
  }

  lemma TakeIs(s: State, j: int)
    requires j in s.jobs && s.jobs[j].Asking?
    ensures var a := s.jobs[j]; Next(s, Take(j)) == DoTake(s, j, a.req, a.line, a.order, a.cap, a.credit)
  {
    hide DoTake;
  }

  lemma EnterIs(s: State, j: int, now: int)
    requires j in s.jobs && s.jobs[j].Entering?
    ensures Next(s, Enter(j, now)) == Register(s.(jobs := s.jobs - {j}), s.jobs[j].call.(startedAt := now))
  {
    hide Register;
  }

  lemma ClaimIs(s: State, j: int, raw: string, e164: string, found: Option<OrderLine>, billsec: int, timed: bool)
    requires j !in s.jobs
    ensures Next(s, Claim(j, raw, e164, found, billsec, timed)) == DoClaim(s, j, raw, e164, found, billsec, timed)
  {
    hide DoClaim;
  }

  lemma DebitIs(s: State, j: int)
    requires j in s.jobs && s.jobs[j].Settling?
    ensures var a := s.jobs[j]; Next(s, Debit(j)) == DoDebit(s, j, a.raw, a.e164, a.found, a.billsec)
  {
    hide DoDebit;
  }

  lemma ScanIs(s: State, j: int)
    requires j in s.jobs && s.jobs[j].Clearing? && s.jobs[j].todo == {}
    ensures var a := s.jobs[j];
      Next(s, Scan(j)) == s.(jobs := s.jobs[j := Releasing(a.ids, a.own, a.back, s.sets.Keys, {})])
  {
  }

  lemma PageIs(s: State, j: int, keys: set<SetKey>)
    requires j in s.jobs && s.jobs[j].Releasing?
    ensures Next(s, Page(j, keys)) == DoPage(s, j, keys)
  {
    hide DoPage;
  }

  lemma LeaveIs(s: State, j: int)
    requires j in s.jobs && s.jobs[j].Releasing? && s.jobs[j].must == {}
    ensures Next(s, Leave(j)) == DoLeave(s, j)
  {
    hide DoLeave;
  }

  lemma RangeIs(s: State, j: int, reply: seq<string>, purpose: Purpose)
    requires j !in s.jobs
    ensures Next(s, Range(j, reply, purpose)) == s.(jobs := s.jobs[j := Ranged(reply, purpose)])
  {
  }

  lemma FetchIs(s: State, j: int, now: int)
    requires j in s.jobs && s.jobs[j].Ranged?
    ensures var a := s.jobs[j];
      Next(s, Fetch(j, now)) == s.(jobs := s.jobs[j := Sweeping(SweptBy(s, a.reply, now),
                                                                Evicted(s, a.reply, a.purpose, now))])
  {
    hide SweptBy, Evicted;
  }

  lemma DropIs(s: State, j: int)
    requires j in s.jobs && s.jobs[j].Sweeping?
    ensures Next(s, Drop(j)) == DoDrop(s, j, s.jobs[j].stale, s.jobs[j].evicted)
  {
    hide DoDrop;
  }

  lemma UnlistIs(s: State, j: int, id: string)
    requires j in s.jobs && s.jobs[j].Clearing? && id in s.jobs[j].todo
    ensures Next(s, Unlist(j, id)) == DoUnlist(s, j, id)
  {
    hide DoUnlist;
  }

  lemma RereadIs(s: State, j: int, key: string, kind: string, target: string, act: string)
    requires j !in s.jobs
    ensures Next(s, Reread(j, key, kind, target, act)) == DoReread(s, j, key, kind, target, act)
  {
    hide DoReread;
  }

  lemma RewriteIs(s: State, j: int)
    requires j in s.jobs && s.jobs[j].Rerouting?
    ensures Next(s, Rewrite(j)) == DoRewrite(s, j, s.jobs[j].key, s.jobs[j].call)
  {
    hide DoRewrite;
  }

  /** The steps that carry no handler. */
  lemma LooseIs(s: State, step: Step)
    requires step.Mark? || step.Remove? || step.Book?
    ensures step.Mark? ==> Next(s, step) == RecordPending(s, step.key, step.mark)
    ensures step.Remove? ==> Next(s, step) == Deregister(s, step.key)
    ensures step.Book? ==> Next(s, step) == DoBook(s, step.user, step.cents)
  {
    hide RecordPending, Deregister, DoBook;
  }

  /** The answer a step gives to Asterisk, if it ends an authorize. */
  function Reply(s: State, step: Step): Option<Response> {
    if !Enabled(s, step) then None
    else
      var j := step.j;
      match step
      case Look(_, cfg, req) =>
        (match Screen(cfg, req, s.balances) case Refused(reason) => Some(Deny(reason)) case _ => None)
      case Take(_) =>
        var a := s.jobs[j];
        var res := Reserve(s.sets, a.order.user, a.line.did, a.req.callId, a.cap, a.order.channelCount).1;
        if res == -1 then Some(Deny("user_channel_cap_hit"))
        else if res == -2 then Some(Deny("did_channel_cap_hit"))
        else if !Resolves(a.order, a.req) then Some(Deny("reservation_misconfigured"))
        else None
      case Enter(_, _) =>
        var a := s.jobs[j];
        Some(Allow(a.maxSeconds, DialKind(a.call.routeKind), a.call.routeTarget))
      case _ => None
  }

  function Exec(s: State, steps: seq<Step>): State
    decreases |steps|
  {
    if steps == [] then s else Exec(Next(s, steps[0]), steps[1..])
  }

  lemma {:induction false} ExecAppend(s: State, a: seq<Step>, b: seq<Step>)
    ensures Exec(s, a + b) == Exec(Exec(s, a), b)
    decreases |a|
  {
    hide Next;
    if a == [] {
      assert a + b == b;
    } else {
      assert (a + b)[0] == a[0] && (a + b)[1..] == a[1..] + b;
      ExecAppend(Next(s, a[0]), a[1..], b);
    }
  }
}
