/** What each command leaves in Redis, in the balances and in its handler's hands, key by key. */
module Commands {
  import opened Basics
  import opened CallIds
  import opened CallControl
  import opened LiveIndex
  import opened Answers

  /** The entry under `k` is as it was. */
  ghost predicate SameEntry(s: State, t: State, k: string) {
    && (k in t.zset <==> k in s.zset) && (k in s.zset ==> t.zset[k] == s.zset[k])
    && (k in t.meta <==> k in s.meta) && (k in s.meta ==> t.meta[k] == s.meta[k])
  }

  ghost predicate OnlyEntry(s: State, t: State, k: string) {
    t == s.(zset := t.zset, meta := t.meta, jobs := t.jobs) && forall x :: x != k ==> SameEntry(s, t, x)
  }

  /** The entry under `k` is gone from the index and from the metadata; nothing has a blank key. */
  ghost predicate Unlisted(s: State, t: State, k: string) {
    && OnlyEntry(s, t, k)
    && if k == "" then SameEntry(s, t, k) else k !in t.zset && k !in t.meta
  }

  ghost predicate Listed(s: State, t: State, c: LiveCall) {
    && OnlyEntry(s, t, c.callId)
    && if c.callId == "" then SameEntry(s, t, c.callId)
       else c.callId in t.zset && t.zset[c.callId] == c.startedAt && c.callId in t.meta && t.meta[c.callId] == c
  }

  /** `gone` leaves the sets among `keys`. */
  ghost predicate Freed(s: State, t: State, keys: set<SetKey>, gone: set<string>) {
    && t == s.(sets := t.sets, jobs := t.jobs)
    && forall k, id :: id in Members(t.sets, k) <==> (id in Members(s.sets, k) && !(k in keys && id in gone))
  }

  ghost predicate Room(s: State, o: OrderLine, did: int, cap: int) {
    (cap < 0 || |Members(s.sets, UserSet(o.user))| < cap) && |Members(s.sets, DidSet(did))| < o.channelCount
  }

  /** With room in both sets the id joins both; otherwise no set changes. */
  ghost predicate Takes(s: State, t: State, did: int, o: OrderLine, cap: int, id: string) {
    && t == s.(sets := t.sets, granted := t.granted, jobs := t.jobs)
    && forall k :: Members(t.sets, k) ==
         if Room(s, o, did, cap) && (k == UserSet(o.user) || k == DidSet(did)) then Members(s.sets, k) + {id}
         else Members(s.sets, k)
  }

  ghost predicate Noted(s: State, t: State, key: string, mark: PendingAction) {
    && t == s.(pending := t.pending)
    && if key == "" || mark.action == "" then t == s
       else key in t.pending && t.pending[key] == mark && t.pending - {key} == s.pending - {key}
  }

  ghost predicate Booked(s: State, t: State, user: int, cents: int) {
    && t == s.(balances := t.balances) && t.balances.Keys == s.balances.Keys
    && forall u :: u in s.balances ==> t.balances[u] == if u == user then s.balances[u] + cents else s.balances[u]
  }

  ghost predicate Claimed(s: State, t: State, k: string, looks: bool) {
    && t == s.(pending := t.pending, jobs := t.jobs)
    && t.pending == if k != "" && looks then s.pending - {k} else s.pending
  }

  ghost predicate Charged(s: State, t: State, found: Option<OrderLine>, billsec: int) {
    && t == s.(balances := t.balances, granted := t.granted, jobs := t.jobs) && t.balances.Keys == s.balances.Keys
    && forall u :: u in s.balances ==>
         var taken := s.balances[u] - t.balances[u];
         if found.Some? && found.value.user == u
         then exists cents :: Costs(found.value, billsec, cents) && taken == if cents > 0 then cents else 0
         else taken == 0
  }

  /** The stored data after a step whose handler is at the point for it. */
  ghost predicate Leaves(s: State, step: Step, t: State)
    requires Enabled(s, step)
  {
    match step
    case Take(j) => var a := s.jobs[j]; Takes(s, t, a.line.did, a.order, a.cap, a.req.callId)
    case Enter(j, now) => Listed(s, t, s.jobs[j].call.(startedAt := now))
    case Claim(_, raw, _, found, billsec, timed) =>
      Claimed(s, t, SanitizeCallID(raw), found.Some? || billsec > 0 || timed)
    case Debit(j) => Charged(s, t, s.jobs[j].found, s.jobs[j].billsec)
    case Page(j, keys) => Freed(s, t, keys, s.jobs[j].ids)
    case Leave(j) =>
      if s.jobs[j].own.Some? then Unlisted(s, t, s.jobs[j].own.value) else t == s.(jobs := t.jobs)
    case Drop(j) => t == s.(zset := s.zset - s.jobs[j].stale, jobs := t.jobs)
    case Unlist(_, id) => Unlisted(s, t, id)
    case Mark(_, key, mark) => Noted(s, t, key, mark)
    case Remove(_, key) => Unlisted(s, t, key)
    case Rewrite(j) => t == s.(meta := s.meta[s.jobs[j].key := s.jobs[j].call], jobs := t.jobs)
    case Book(_, user, cents) => Booked(s, t, user, cents)
    case _ => t == s.(jobs := t.jobs)
  }

  lemma UnlistedMeans(s: State, jobs: map<int, Job>, k: string)
    ensures Unlisted(s, Deregister(s.(jobs := jobs), k), k)
  {
    hide NoteAll;
  }

  lemma ListedMeans(s: State, j: int, now: int)
    requires Enabled(s, Enter(j, now))
    ensures Listed(s, Next(s, Enter(j, now)), s.jobs[j].call.(startedAt := now))
  {
    hide Next, NoteAll;
    EnterIs(s, j, now);
  }

  lemma TakesMeans(s: State, j: int)
    requires Enabled(s, Take(j))
    ensures var a := s.jobs[j]; Takes(s, Next(s, Take(j)), a.line.did, a.order, a.cap, a.req.callId)
  {
    hide Next, DoTake, Reserve, Members;
    var a := s.jobs[j];
    TakeIs(s, j);
    TakeTouches(s, j, a.req, a.line, a.order, a.cap, a.credit);
    TakeSets(s, j, a.req, a.line, a.order, a.cap, a.credit);
    ReserveMembers(s.sets, a.order.user, a.line.did, a.req.callId, a.cap, a.order.channelCount);
    GrantedIff(s.sets, a.order, a.line.did, a.req.callId, a.cap);
  }

  lemma TakeTouches(s: State, j: int, req: Request, line: DidLine, o: OrderLine, cap: int, credit: int)
    ensures var t := DoTake(s, j, req, line, o, cap, credit);
      t == s.(sets := t.sets, granted := t.granted, jobs := t.jobs)
  {
    hide SanitizeCallID, Reserve, AddGrant, Rating.MaxSecondsForBalance, PaidEntry, NoteAll, Resolves;
  }

  lemma GrantedIff(sets: Sets, o: OrderLine, did: int, id: string, cap: int)
    ensures Reserve(sets, o.user, did, id, cap, o.channelCount).1 == 1 <==>
              (cap < 0 || |Members(sets, UserSet(o.user))| < cap) && |Members(sets, DidSet(did))| < o.channelCount
  {
    hide SAdd, Members;
  }

  lemma FreedMeans(s: State, j: int, keys: set<SetKey>)
    requires Enabled(s, Page(j, keys))
    ensures Freed(s, Next(s, Page(j, keys)), keys, s.jobs[j].ids)
  {
    hide Next, NoteAll, ReleaseFrom, Members;
    PageIs(s, j, keys);
    var ids := s.jobs[j].ids;
    forall k ensures Members(ReleaseFrom(s.sets, ids, keys), k) ==
                     if k in keys then Members(s.sets, k) - ids else Members(s.sets, k) {
      ReleaseMembers(s.sets, ids, keys, k);
    }
  }

  lemma ClaimedMeans(s: State, step: Step)
    requires step.Claim? && Enabled(s, step)
    ensures Claimed(s, Next(s, step), SanitizeCallID(step.raw), step.found.Some? || step.billsec > 0 || step.timed)
  {
    hide Next, SanitizeCallID;
    ClaimIs(s, step.j, step.raw, step.e164, step.found, step.billsec, step.timed);
    PoppedIs(s, SanitizeCallID(step.raw));
    hide PopPending;
  }

  lemma PoppedIs(s: State, k: string)
    ensures PopPending(s, k).0 == s.(pending := if k != "" then s.pending - {k} else s.pending)
  {
    if k !in s.pending {
      assert s.pending - {k} == s.pending;
    }
  }

  lemma ChargedMeans(s: State, j: int)
    requires Enabled(s, Debit(j))
    ensures Charged(s, Next(s, Debit(j)), s.jobs[j].found, s.jobs[j].billsec)
  {
    hide Next, ChargeOf, Costs, SanitizeCallID;
    var a := s.jobs[j];
    DebitIs(s, j);
    if a.found.Some? {
      CostsIt(a.found.value, a.billsec);
    }
    ChargeFits(s, j, if a.found.Some? then ChargeOf(a.found, a.billsec) else 0);
  }

  /** Every command does what its description says, and a command out of place does nothing. */
  lemma CommandMeans(s: State, step: Step)
    ensures if Enabled(s, step) then Leaves(s, step, Next(s, step)) else Next(s, step) == s
  {
    hide Next, Takes, Listed, Claimed, Charged, Freed, Unlisted, DoLook, NoteAll, SanitizeCallID, Deregister;
    var j := step.j;
    if !Enabled(s, step) {
      Idle(s, step);
    } else {
      match step
      case Look(_, cfg, req) =>
        LookIs(s, j, cfg, req);
        LookShape(s, j, cfg, req);
      case Take(_) => TakesMeans(s, j);
      case Enter(_, now) => ListedMeans(s, j, now);
      case Claim(_, _, _, _, _, _) => ClaimedMeans(s, step);
      case Debit(_) => ChargedMeans(s, j);
      case Page(_, keys) => FreedMeans(s, j, keys);
      case Leave(_) =>
        LeaveIs(s, j);
        if s.jobs[j].own.Some? { UnlistedMeans(s, s.jobs - {j}, s.jobs[j].own.value); }
      case Unlist(_, id) =>
        UnlistIs(s, j, id);
        UnlistedMeans(s, s.jobs[j := s.jobs[j].(todo := s.jobs[j].todo - {id})], id);
      case Remove(_, key) =>
        LooseIs(s, step);
        UnlistedMeans(s, s.jobs, key);
      case Mark(_, _, _) => LooseIs(s, step);
      case Book(_, _, _) => LooseIs(s, step);
      case Rewrite(_) => RewriteIs(s, j);
      case Drop(_) => DropIs(s, j);
      case _ => QuietMeans(s, step);
    }
  }

  lemma QuietMeans(s: State, step: Step)
    requires Enabled(s, step) && (step.Scan? || step.Range? || step.Fetch? || step.Reread?)
    ensures Next(s, step) == s.(jobs := Next(s, step).jobs)
  {
    hide Next;
    match step
    case Scan(j) => ScanIs(s, j);
    case Range(j, reply, purpose) => RangeIs(s, j, reply, purpose);
    case Fetch(j, now) => FetchIs(s, j, now);
    case Reread(j, key, kind, target, act) => RereadIs(s, j, key, kind, target, act);
  }

  // ---------- what the handler goes on with ----------

  /** `at` is the handler after the step, if it is not at its end. */
  ghost predicate GoesOn(s: State, step: Step, at: Option<Job>)
    requires Enabled(s, step)
  {
    match step
    case Claim(_, raw, e164, found, billsec, _) => at == Some(Settling(raw, e164, found, billsec))
    case Debit(j) => at == Some(Clearing({s.jobs[j].raw}, Some(SanitizeCallID(s.jobs[j].raw)), {}, {}))
    case Scan(j) =>
      at.Some? && at.value.Releasing? && at.value.ids == s.jobs[j].ids && at.value.own == s.jobs[j].own
    case Page(j, keys) =>
      && at.Some? && at.value.Releasing? && at.value.ids == s.jobs[j].ids && at.value.own == s.jobs[j].own
      && at.value.must <= s.jobs[j].must - keys
    case Leave(_) => at == None
    case Enter(_, _) => at == None
    case Range(_, reply, purpose) => at == Some(Ranged(reply, purpose))
    case Drop(j) =>
      var evicted := s.jobs[j].evicted;
      at == if evicted == {} then None else Some(Clearing(evicted, None, evicted, {}))
    case Unlist(j, id) =>
      && at.Some? && at.value.Clearing? && at.value.ids == s.jobs[j].ids && at.value.own == s.jobs[j].own
      && at.value.todo == s.jobs[j].todo - {id}
    case Reread(_, key, kind, target, act) =>
      if key == "" || key !in s.meta then at == None
      else
        && at.Some? && at.value.Rerouting? && at.value.key == key
        && at.value.call == s.meta[key].(routeKind := kind, routeTarget := target, lastAction := act)
    case Rewrite(_) => at == None
    case _ => true
  }

  function Standing(jobs: map<int, Job>, j: int): Option<Job> {
    if j in jobs then Some(jobs[j]) else None
  }

  /** What Look, Take and Fetch hand on is in `Answers` and `TickRuns`; the steps without a handler hand on nothing. */
  lemma HandlerGoesOn(s: State, step: Step)
    requires Enabled(s, step)
    ensures GoesOn(s, step, Standing(Next(s, step).jobs, step.j))
  {
    hide Next, Enabled;
    if step.Claim? || step.Debit? {
      CdrGoesOn(s, step);
    } else if step.Page? || step.Unlist? {
      ReleaseGoesOn(s, step);
    } else if step.Enter? || step.Leave? || step.Rewrite? {
      HandlerEnds(s, step);
    } else if step.Scan? || step.Range? || step.Drop? || step.Reread? {
      ListGoesOn(s, step);
    }
  }

  lemma CdrGoesOn(s: State, step: Step)
    requires Enabled(s, step) && (step.Claim? || step.Debit?)
    ensures GoesOn(s, step, Standing(Next(s, step).jobs, step.j))
  {
    hide Next, SanitizeCallID, PopPending, ChargeOf, DebitFrom;
    if step.Claim? {
      ClaimIs(s, step.j, step.raw, step.e164, step.found, step.billsec, step.timed);
    } else {
      DebitIs(s, step.j);
    }
  }

  lemma ReleaseGoesOn(s: State, step: Step)
    requires Enabled(s, step) && (step.Page? || step.Unlist?)
    ensures GoesOn(s, step, Standing(Next(s, step).jobs, step.j))
  {
    hide Next, ReleaseFrom, BackAfter, AgainAfter, LostAfter;
    match step
    case Page(j, keys) => PageIs(s, j, keys);
    case Unlist(j, id) => UnlistIs(s, j, id);
  }

  lemma HandlerEnds(s: State, step: Step)
    requires Enabled(s, step) && (step.Enter? || step.Leave? || step.Rewrite?)
    ensures step.j !in Next(s, step).jobs
  {
    hide Next, Note;
    match step
    case Leave(j) => LeaveIs(s, j);
    case Enter(j, now) => EnterIs(s, j, now);
    case Rewrite(j) => RewriteIs(s, j);
  }

  lemma ListGoesOn(s: State, step: Step)
    requires Enabled(s, step) && (step.Scan? || step.Range? || step.Drop? || step.Reread?)
    ensures GoesOn(s, step, Standing(Next(s, step).jobs, step.j))
  {
    hide Next, Missing;
    match step
    case Scan(j) => ScanIs(s, j);
    case Range(j, reply, purpose) => RangeIs(s, j, reply, purpose);
    case Drop(j) => DropIs(s, j);
    case Reread(j, key, kind, target, act) => RereadIs(s, j, key, kind, target, act);
  }
}
