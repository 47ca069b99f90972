/** Agreement between the live index and the reservation sets, over every interleaving of the handlers'
    commands: exactly which steps break it, and that none does while no two handlers have the same
    Call-ID in hand, one to release it and one to use it. */
module LiveIndex {
  import opened Basics
  import opened CallIds
  import opened CallControl

  // ---------- what always holds ----------

  /** `k` is the index key of some presented Call-ID. */
  ghost predicate Keyed(ids: iset<string>, k: string) {
    exists x :: x in ids && k == SanitizeCallID(x)
  }

  /** The call's id was presented, and its key is the sanitised form of it. */
  ghost predicate Presented(c: LiveCall, ids: iset<string>) {
    c.full in ids && c.callId == SanitizeCallID(c.full)
  }

  ghost predicate Indexed(s: State, ids: iset<string>) {
    && s.zset.Keys <= s.meta.Keys
    && (forall k :: k in s.meta ==> k != "" && s.meta[k].callId == k && Presented(s.meta[k], ids))
  }

  /** `lost` is what the call's slots lack. */
  ghost predicate Tracks(sets: Sets, c: LiveCall, lost: set<SetKey>) {
    lost <= SlotsOf(c) && forall k :: k in SlotsOf(c) ==> (c.full in Members(sets, k) <==> k !in lost)
  }

  /** An eviction has only index keys in hand, and those it has deregistered are live again only if they
      came back; a teardown has one Call-ID in hand and will deregister its key. */
  ghost predicate HandFits(s: State, hand: set<string>, own: Option<string>, todo: set<string>, back: set<string>,
                           ids: iset<string>) {
    if own.Some? then forall x :: x in hand ==> own.value == SanitizeCallID(x)
    else
      && (forall k :: k in hand ==> k != "" && Keyed(ids, k))
      && (forall k :: k in hand && k !in todo && k in s.zset ==> k in back)
  }

  ghost predicate JobFits(s: State, job: Job, ids: iset<string>) {
    match job
    case Asking(req, _, _, _, _) => req.callId in ids
    case Entering(c, _, lost) => Presented(c, ids) && (!c.reserved ==> Tracks(s.sets, c, lost))
    case Clearing(hand, own, todo, back) => HandFits(s, hand, own, todo, back, ids)
    case Releasing(hand, own, back, _, _) => HandFits(s, hand, own, {}, back, ids)
    case Sweeping(_, evicted) => forall k :: k in evicted ==> k != "" && Keyed(ids, k)
    case Rerouting(key, c, lost, replaced) =>
      && key != "" && c.callId == key && Presented(c, ids) && Tracks(s.sets, c, lost)
      && (key in s.meta ==> (SameCall(s.meta[key], c) <==> !replaced))
    case _ => true
  }

  ghost predicate JobsFit(s: State, ids: iset<string>) {
    forall j :: j in s.jobs ==> JobFits(s, s.jobs[j], ids)
  }

  ghost predicate Inv(s: State, ids: iset<string>) {
    Indexed(s, ids) && JobsFit(s, ids)
  }

  /** What a command did to Redis, as the handlers in flight are told. */
  ghost predicate Follows(s: State, t: State, e: Event) {
    match e
    case Taken(keys, id) =>
      && t.zset == s.zset && t.meta == s.meta
      && forall k :: Members(t.sets, k) == if k in keys then Members(s.sets, k) + {id} else Members(s.sets, k)
    case Freed(keys, hand, _) =>
      && t.zset == s.zset && t.meta == s.meta
      && forall k :: Members(t.sets, k) == if k in keys then Members(s.sets, k) - hand else Members(s.sets, k)
    case Entered(c) =>
      && t.sets == s.sets && t.zset == s.zset[c.callId := c.startedAt] && t.meta == s.meta[c.callId := c]
    case Gone(gone) =>
      && t.sets == s.sets && t.zset == s.zset - gone && t.meta == s.meta - gone
    case Rewritten(c) =>
      && t.sets == s.sets && t.zset == s.zset && t.meta == s.meta[c.callId := c]
  }

  lemma NoteKeepsFit(s: State, t: State, job: Job, e: Event, ids: iset<string>)
    requires JobFits(s, job, ids) && Follows(s, t, e)
    ensures JobFits(t, Note(job, e), ids)
  {
    hide SanitizeCallID, Members, Keyed;
    match job
    case Entering(c, _, lost) => if !c.reserved { TracksOn(s, t, c, lost, e); }
    case Rerouting(_, c, lost, _) => TracksOn(s, t, c, lost, e);
    case _ =>
  }

  lemma TracksOn(s: State, t: State, c: LiveCall, lost: set<SetKey>, e: Event)
    requires Tracks(s.sets, c, lost) && Follows(s, t, e)
    ensures Tracks(t.sets, c, LostAfter(lost, c, e))
  {
    hide Members;
  }

  /** Jobs that were told of the event, among which `j` may have been dropped. */
  lemma NotedFit(s: State, t: State, jobs: map<int, Job>, e: Event, ids: iset<string>)
    requires forall j :: j in jobs ==> JobFits(s, jobs[j], ids)
    requires Follows(s, t, e)
    requires t.jobs == NoteAll(jobs, e)
    ensures JobsFit(t, ids)
  {
    hide JobFits, Follows, Note;
    forall j | j in t.jobs ensures JobFits(t, t.jobs[j], ids) {
      NoteKeepsFit(s, t, jobs[j], e, ids);
    }
  }

  /** A job depends on nothing but the sets, the index and the metadata. */
  lemma SameFit(s: State, t: State, job: Job, ids: iset<string>)
    requires JobFits(s, job, ids) && t.sets == s.sets && t.meta == s.meta && t.zset.Keys <= s.zset.Keys
    ensures JobFits(t, job, ids)
  {
    hide SanitizeCallID, Members, Keyed;
  }

  lemma SameFits(s: State, t: State, ids: iset<string>)
    requires Inv(s, ids) && t.sets == s.sets && t.meta == s.meta && t.zset.Keys <= s.zset.Keys
    requires forall j :: j in t.jobs ==> (j in s.jobs && t.jobs[j] == s.jobs[j]) || JobFits(t, t.jobs[j], ids)
    ensures Inv(t, ids)
  {
    hide SanitizeCallID, JobFits;
    forall j | j in t.jobs ensures JobFits(t, t.jobs[j], ids) {
      if j in s.jobs && t.jobs[j] == s.jobs[j] {
        SameFit(s, t, s.jobs[j], ids);
      }
    }
  }

  // ---------- and is kept by every step ----------

  lemma LookKeeps(s: State, j: int, cfg: Config, req: Request, ids: iset<string>)
    requires Inv(s, ids) && req.callId in ids
    ensures Inv(DoLook(s, j, cfg, req), ids)
  {
    hide Screen, SanitizeCallID, JobFits, Inv;
    var t := DoLook(s, j, cfg, req);
    match Screen(cfg, req, s.balances)
    case Refused(_) =>
    case Unbilled(line, target) =>
      var job := Entering(FreeEntry(req, line, target), Rating.FREE_CALL_SECONDS, {});
      FreeFits(t, req, line, target, ids);
      OneMoreFits(s, t, j, job, ids);
    case Billable(line, o, cap, credit) =>
      var job := Asking(req, line, o, cap, credit);
      AskingFits(t, job, ids);
      OneMoreFits(s, t, j, job, ids);
  }

  lemma OneMoreFits(s: State, t: State, j: int, job: Job, ids: iset<string>)
    requires Inv(s, ids) && t == s.(jobs := s.jobs[j := job]) && JobFits(t, job, ids)
    ensures Inv(t, ids)
  {
    hide JobFits, Indexed;
    assert Indexed(s, ids) ==> Indexed(t, ids) by { SameIndex(s, t, ids); }
    forall i | i in t.jobs ensures JobFits(t, t.jobs[i], ids) {
      if i != j {
        assert JobFits(s, s.jobs[i], ids);
        SameFit(s, t, s.jobs[i], ids);
      }
    }
  }

  lemma SameIndex(s: State, t: State, ids: iset<string>)
    requires t.meta == s.meta && t.zset.Keys <= s.zset.Keys
    ensures Indexed(s, ids) ==> Indexed(t, ids)
  {
    hide SanitizeCallID;
  }

  lemma FreeFits(s: State, req: Request, line: DidLine, target: string, ids: iset<string>)
    requires req.callId in ids
    ensures JobFits(s, Entering(FreeEntry(req, line, target), Rating.FREE_CALL_SECONDS, {}), ids)
  {
    hide SanitizeCallID;
  }

  lemma AskingFits(s: State, job: Job, ids: iset<string>)
    requires job.Asking?
    ensures JobFits(s, job, ids) <==> job.req.callId in ids
  {
  }

  lemma TakeKeeps(s: State, j: int, req: Request, line: DidLine, o: OrderLine, cap: int, credit: int, ids: iset<string>)
    requires Inv(s, ids) && req.callId in ids
    ensures Inv(DoTake(s, j, req, line, o, cap, credit), ids)
  {
    hide SanitizeCallID, Reserve, Members, Note, AddGrant, JobFits, Rating.MaxSecondsForBalance;
    var t := DoTake(s, j, req, line, o, cap, credit);
    var (sets, res) := Reserve(s.sets, o.user, line.did, req.callId, cap, o.channelCount);
    ReserveMembers(s.sets, o.user, line.did, req.callId, cap, o.channelCount);
    if res != 1 {
      SameFits(s, t, ids);
    } else {
      var e := Taken({UserSet(o.user), DidSet(line.did)}, req.callId);
      var noted := s.(sets := sets, jobs := NoteAll(s.jobs - {j}, e));
      NotedFit(s, noted, s.jobs - {j}, e, ids);
      if Resolves(o, req) {
        var u := t.(granted := noted.granted);
        EnteringFits(u, req, line, o, credit, ids);
        OneMoreFits(noted, u, j, t.jobs[j], ids);
        SameFits(u, t, ids);
      }
    }
  }

  /** The handlers after the reserve script: without the one that asked, told or not, or with it on to the index. */
  lemma TakeShape(s: State, j: int, req: Request, line: DidLine, o: OrderLine, cap: int, credit: int)
    ensures var t := DoTake(s, j, req, line, o, cap, credit);
      var noted := NoteAll(s.jobs - {j}, Taken({UserSet(o.user), DidSet(line.did)}, req.callId));
      || t.jobs == s.jobs - {j}
      || t.jobs == noted
      || (j in t.jobs && t.jobs[j].Entering? && t.jobs[j].lost == {} && t.jobs == noted[j := t.jobs[j]])
  {
    hide SanitizeCallID, Reserve, AddGrant, Rating.MaxSecondsForBalance, PaidEntry, Resolves, NoteAll;
    var res := Reserve(s.sets, o.user, line.did, req.callId, cap, o.channelCount).1;
    if res == 1 && Resolves(o, req) {
      var noted := NoteAll(s.jobs - {j}, Taken({UserSet(o.user), DidSet(line.did)}, req.callId));
      var job := Entering(PaidEntry(req, line, o), Rating.MaxSecondsForBalance(credit, o.rate), {});
      assert DoTake(s, j, req, line, o, cap, credit).jobs == noted[j := job];
    }
  }

  /** After the rows are read: nothing, or the handler on its way. */
  lemma LookShape(s: State, j: int, cfg: Config, req: Request)
    ensures var t := DoLook(s, j, cfg, req);
      t == s || (j in t.jobs && t == s.(jobs := s.jobs[j := t.jobs[j]])
                 && (t.jobs[j].Asking? || (t.jobs[j].Entering? && t.jobs[j].lost == {})))
  {
    hide Screen, FreeEntry, SanitizeCallID;
    match Screen(cfg, req, s.balances)
    case Refused(_) =>
    case Unbilled(line, target) =>
      assert DoLook(s, j, cfg, req).jobs[j] == Entering(FreeEntry(req, line, target), Rating.FREE_CALL_SECONDS, {});
    case Billable(line, o, cap, credit) =>
      assert DoLook(s, j, cfg, req).jobs[j] == Asking(req, line, o, cap, credit);
  }

  // ---------- which steps touch the sets ----------

  lemma TakeSets(s: State, j: int, req: Request, line: DidLine, o: OrderLine, cap: int, credit: int)
    ensures DoTake(s, j, req, line, o, cap, credit).sets
        == Reserve(s.sets, o.user, line.did, req.callId, cap, o.channelCount).0
  {
    hide SanitizeCallID, Reserve, AddGrant, Rating.MaxSecondsForBalance, PaidEntry, NoteAll, Resolves;
    var (sets, res) := Reserve(s.sets, o.user, line.did, req.callId, cap, o.channelCount);
    var t := DoTake(s, j, req, line, o, cap, credit);
    if res != 1 {
      RefusalKeepsSets(s.sets, o.user, line.did, req.callId, cap, o.channelCount);
      assert t == s.(jobs := s.jobs - {j});
    } else if !Resolves(o, req) {
      assert t.sets == sets;
    } else {
      assert t.sets == sets;
    }
  }

  lemma RefusalKeepsSets(sets: Sets, user: int, did: int, id: string, userCap: int, didCap: int)
    ensures var (after, res) := Reserve(sets, user, did, id, userCap, didCap); res != 1 ==> after == sets
  {
  }

  /** Only the reserve script and the pages of a release do. */
  lemma OthersKeepSets(s: State, step: Step)
    requires !(Enabled(s, step) && (step.Take? || step.Page?))
    ensures Next(s, step).sets == s.sets
  {
    if !Enabled(s, step) {
      Idle(s, step);
    } else if step.Look? || step.Claim? || step.Debit? || step.Enter? {
      CallKeepsSets(s, step);
    } else if step.Leave? || step.Unlist? || step.Remove? {
      GoneKeepsSets(s, step);
    } else {
      QuietFrame(s, step);
    }
  }

  lemma Idle(s: State, step: Step)
    requires !Enabled(s, step)
    ensures Next(s, step) == s
  {
  }

  lemma CallKeepsSets(s: State, step: Step)
    requires Enabled(s, step) && (step.Look? || step.Claim? || step.Debit? || step.Enter?)
    ensures Next(s, step).sets == s.sets
  {
    hide Next, SanitizeCallID, NoteAll, DoLook, PopPending, ChargeOf, DebitFrom;
    match step
    case Look(j, cfg, req) =>
      LookIs(s, j, cfg, req);
      LookShape(s, j, cfg, req);
    case Claim(j, raw, e164, found, billsec, timed) =>
      ClaimIs(s, j, raw, e164, found, billsec, timed);
      PopKeepsRest(s, SanitizeCallID(raw));
    case Debit(j) => DebitIs(s, j);
    case Enter(j, now) => EnterIs(s, j, now);
  }

  lemma GoneKeepsSets(s: State, step: Step)
    requires Enabled(s, step) && (step.Leave? || step.Unlist? || step.Remove?)
    ensures Next(s, step).sets == s.sets
  {
    hide Next, NoteAll;
    match step
    case Leave(j) => LeaveIs(s, j);
    case Unlist(j, id) => UnlistIs(s, j, id);
    case Remove(_, _) => LooseIs(s, step);
  }

  /** Steps that touch neither slots nor calls and tell nobody: one handler moves on. */
  lemma QuietFrame(s: State, step: Step)
    requires Enabled(s, step)
    requires step.Scan? || step.Range? || step.Fetch? || step.Drop? || step.Mark? || step.Reread? || step.Rewrite?
        || step.Book?
    ensures var t := Next(s, step);
      && t.sets == s.sets && t.granted == s.granted && t.zset.Keys <= s.zset.Keys
      && (!step.Drop? ==> t.zset == s.zset) && (!step.Mark? ==> t.pending == s.pending)
      && (!step.Book? ==> t.balances == s.balances)
      && (!step.Rewrite? ==> t.meta == s.meta)
      && (!step.Rewrite? ==> forall i :: i != step.j ==>
          (i in t.jobs <==> i in s.jobs) && (i in t.jobs ==> t.jobs[i] == s.jobs[i]))
  {
    hide Next;
    if step.Scan? || step.Range? || step.Fetch? || step.Drop? {
      ListFrame(s, step);
    } else {
      AdminFrame(s, step);
    }
  }

  lemma ListFrame(s: State, step: Step)
    requires Enabled(s, step) && (step.Scan? || step.Range? || step.Fetch? || step.Drop?)
    ensures var t := Next(s, step);
      && t == s.(zset := t.zset, jobs := t.jobs) && t.zset.Keys <= s.zset.Keys && (!step.Drop? ==> t.zset == s.zset)
      && forall i :: i != step.j ==> (i in t.jobs <==> i in s.jobs) && (i in t.jobs ==> t.jobs[i] == s.jobs[i])
  {
    hide Next, SweptBy, Evicted;
    match step
    case Scan(j) => ScanIs(s, j);
    case Range(j, reply, purpose) => RangeIs(s, j, reply, purpose);
    case Fetch(j, _) => FetchIs(s, j, step.now);
    case Drop(j) => DropIs(s, j);
  }

  lemma AdminFrame(s: State, step: Step)
    requires Enabled(s, step) && (step.Mark? || step.Reread? || step.Rewrite? || step.Book?)
    ensures var t := Next(s, step);
      && t == s.(pending := t.pending, balances := t.balances, meta := t.meta, jobs := t.jobs)
      && (!step.Mark? ==> t.pending == s.pending) && (!step.Book? ==> t.balances == s.balances)
      && (!step.Rewrite? ==> t.meta == s.meta)
      && (!step.Rewrite? ==> forall i :: i != step.j ==>
          (i in t.jobs <==> i in s.jobs) && (i in t.jobs ==> t.jobs[i] == s.jobs[i]))
  {
    hide Next;
    if step.Reread? {
      RereadFrame(s, step);
    } else if step.Rewrite? {
      hide NoteAll;
      RewriteIs(s, step.j);
    } else {
      hide RecordPending, DoBook;
      LooseIs(s, step);
      LooseFrame(s, step);
    }
  }

  lemma RereadFrame(s: State, step: Step)
    requires Enabled(s, step) && step.Reread?
    ensures var t := Next(s, step);
      && t == s.(jobs := t.jobs)
      && forall i :: i != step.j ==> (i in t.jobs <==> i in s.jobs) && (i in t.jobs ==> t.jobs[i] == s.jobs[i])
  {
    hide Next, Missing;
    RereadIs(s, step.j, step.key, step.kind, step.target, step.act);
  }

  lemma LooseFrame(s: State, step: Step)
    requires step.Mark? || step.Book?
    ensures step.Mark? ==> var t := RecordPending(s, step.key, step.mark); t == s.(pending := t.pending)
    ensures step.Book? ==> var t := DoBook(s, step.user, step.cents); t == s.(balances := t.balances)
  {
  }

  /** And how it moves on. */
  lemma QuietJob(s: State, step: Step)
    requires Enabled(s, step)
    requires step.Scan? || step.Range? || step.Fetch? || step.Drop? || step.Mark? || step.Reread? || step.Book?
    ensures var t := Next(s, step);
      var j := step.j;
      && (step.Mark? || step.Book? ==> t.jobs == s.jobs)
      && (step.Scan? ==>
            j in t.jobs && t.jobs[j] == Releasing(s.jobs[j].ids, s.jobs[j].own, s.jobs[j].back, s.sets.Keys, {}))
      && (step.Range? ==> j in t.jobs && t.jobs[j] == Ranged(step.reply, step.purpose))
      && (step.Fetch? ==> j in t.jobs && t.jobs[j].Sweeping?)
      && (step.Drop? ==> var e := s.jobs[j].evicted;
            if e == {} then j !in t.jobs else j in t.jobs && t.jobs[j] == Clearing(e, None, e, {}))
      && (step.Reread? ==>
            if step.key == "" || step.key !in s.meta then t == s else j in t.jobs && t.jobs[j].Rerouting?)
  {
    hide Next, SweptBy, Evicted, Missing;
    match step
    case Scan(j) => ScanIs(s, j);
    case Range(j, reply, purpose) => RangeIs(s, j, reply, purpose);
    case Fetch(j, now) => FetchIs(s, j, now);
    case Drop(j) => DropIs(s, j);
    case Reread(j, key, kind, target, act) => RereadIs(s, j, key, kind, target, act);
    case _ => LooseIs(s, step);
  }

  lemma PopKeepsRest(s: State, key: string)
    ensures PopPending(s, key).0 == s.(pending := PopPending(s, key).0.pending)
  {
  }

  // ---------- what other handlers leave alone ----------

  /** A handler's own data, without the history others write into it. */
  function Plain(job: Job): Job {
    match job
    case Entering(c, maxSeconds, _) => Entering(c, maxSeconds, {})
    case Clearing(ids, own, todo, _) => Clearing(ids, own, todo, {})
    case Releasing(ids, own, _, _, _) => Releasing(ids, own, {}, {}, {})
    case Rerouting(key, c, _, _) => Rerouting(key, c, {}, false)
    case _ => job
  }

  ghost predicate Untouched(before: map<int, Job>, after: map<int, Job>, j: int) {
    (j in before <==> j in after) && (j in before ==> Plain(after[j]) == Plain(before[j]))
  }

  lemma NotedUntouched(jobs: map<int, Job>, e: Event, j: int)
    ensures Untouched(jobs, NoteAll(jobs, e), j)
  {
    hide LostAfter, BackAfter, AgainAfter;
  }

  lemma ToldLeaveHandler(s: State, step: Step, j: int)
    requires step.j != j && Enabled(s, step)
    requires step.Enter? || step.Page? || step.Leave? || step.Unlist? || step.Remove? || step.Rewrite?
    ensures Untouched(s.jobs, Next(s, step).jobs, j)
  {
    hide Next, SanitizeCallID, NoteAll, ReleaseFrom, Plain;
    var i := step.j;
    match step
    case Enter(_, now) =>
      EnterIs(s, i, now);
      NotedUntouched(s.jobs - {i}, Entered(s.jobs[i].call.(startedAt := now)), j);
    case Page(_, keys) =>
      PageIs(s, i, keys);
      var a := s.jobs[i];
      NotedUntouched(s.jobs[i := a.(must := a.must - keys)], Freed(keys, a.ids, ReleaseFrom(s.sets, a.ids, keys).Keys),
                     j);
    case Leave(_) =>
      LeaveIs(s, i);
      if s.jobs[i].own.Some? { NotedUntouched(s.jobs - {i}, Gone({s.jobs[i].own.value}), j); }
    case Unlist(_, id) =>
      UnlistIs(s, i, id);
      NotedUntouched(s.jobs[i := s.jobs[i].(todo := s.jobs[i].todo - {id})], Gone({id}), j);
    case Remove(_, key) =>
      LooseIs(s, step);
      NotedUntouched(s.jobs, Gone({key}), j);
    case Rewrite(_) =>
      RewriteIs(s, i);
      NotedUntouched(s.jobs - {i}, Rewritten(s.jobs[i].call), j);
  }

  lemma OtherLeavesHandler(s: State, step: Step, j: int)
    requires step.j != j
    ensures Untouched(s.jobs, Next(s, step).jobs, j)
  {
    hide Next, Plain, DoTake, DoLook, NoteAll, PopPending, SanitizeCallID, ChargeOf, DebitFrom;
    var i := step.j;
    if !Enabled(s, step) {
      Idle(s, step);
    } else if step.Take? {
      var a := s.jobs[i];
      TakeIs(s, i);
      TakeShape(s, i, a.req, a.line, a.order, a.cap, a.credit);
      NotedUntouched(s.jobs - {i}, Taken({UserSet(a.order.user), DidSet(a.line.did)}, a.req.callId), j);
    } else if step.Look? {
      LookIs(s, i, step.cfg, step.req);
      LookShape(s, i, step.cfg, step.req);
    } else if step.Enter? || step.Page? || step.Leave? || step.Unlist? || step.Remove? || step.Rewrite? {
      ToldLeaveHandler(s, step, j);
    } else if step.Claim? {
      ClaimIs(s, i, step.raw, step.e164, step.found, step.billsec, step.timed);
      PopKeepsRest(s, SanitizeCallID(step.raw));
    } else if step.Debit? {
      DebitIs(s, i);
    } else {
      QuietFrame(s, step);
    }
  }

  /** Other handlers leave a handler where it stands. */
  lemma {:induction false} OthersLeaveHandler(s: State, steps: seq<Step>, j: int)
    requires forall i :: 0 <= i < |steps| ==> steps[i].j != j
    ensures Untouched(s.jobs, Exec(s, steps).jobs, j)
    decreases |steps|
  {
    hide Next;
    if steps != [] {
      OtherLeavesHandler(s, steps[0], j);
      OthersLeaveHandler(Next(s, steps[0]), steps[1..], j);
    }
  }

  lemma EnteringFits(s: State, req: Request, line: DidLine, o: OrderLine, credit: int, ids: iset<string>)
    requires req.callId in ids && Resolves(o, req)
    requires req.callId in Members(s.sets, UserSet(o.user)) && req.callId in Members(s.sets, DidSet(line.did))
    ensures JobFits(s, Entering(PaidEntry(req, line, o), Rating.MaxSecondsForBalance(credit, o.rate), {}), ids)
  {
    hide SanitizeCallID, Members, Rating.MaxSecondsForBalance;
  }

  lemma RegisterKeeps(s: State, c: LiveCall, ids: iset<string>)
    requires Inv(s, ids) && Presented(c, ids)
    ensures Inv(Register(s, c), ids)
  {
    hide SanitizeCallID, JobFits, Note;
    if c.callId != "" {
      NotedFit(s, Register(s, c), s.jobs, Entered(c), ids);
    }
  }

  lemma DeregisterKeeps(s: State, id: string, ids: iset<string>)
    requires Inv(s, ids)
    ensures Inv(Deregister(s, id), ids)
  {
    hide SanitizeCallID, JobFits, Note;
    if id != "" {
      NotedFit(s, Deregister(s, id), s.jobs, Gone({id}), ids);
    }
  }

  lemma EnterKeeps(s: State, j: int, now: int, ids: iset<string>)
    requires Inv(s, ids) && Enabled(s, Enter(j, now))
    ensures Inv(Next(s, Enter(j, now)), ids)
  {
    hide Register, SanitizeCallID;
    assert JobFits(s, s.jobs[j], ids);
    var t := s.(jobs := s.jobs - {j});
    SameFits(s, t, ids);
    RegisterKeeps(t, s.jobs[j].call.(startedAt := now), ids);
  }

  lemma DebitKeeps(s: State, j: int, raw: string, e164: string, found: Option<OrderLine>, billsec: int,
                   ids: iset<string>)
    requires Inv(s, ids)
    ensures Inv(DoDebit(s, j, raw, e164, found, billsec), ids)
  {
    hide SanitizeCallID, ChargeOf, DebitFrom;
    SameFits(s, DoDebit(s, j, raw, e164, found, billsec), ids);
  }

  lemma ClaimKeeps(s: State, j: int, raw: string, e164: string, found: Option<OrderLine>, billsec: int, timed: bool,
                   ids: iset<string>)
    requires Inv(s, ids)
    ensures Inv(DoClaim(s, j, raw, e164, found, billsec, timed), ids)
  {
    hide SanitizeCallID;
    SameFits(s, DoClaim(s, j, raw, e164, found, billsec, timed), ids);
  }

  lemma ScanKeeps(s: State, j: int, ids: iset<string>)
    requires Inv(s, ids) && Enabled(s, Scan(j))
    ensures Inv(Next(s, Scan(j)), ids)
  {
    hide SanitizeCallID;
    assert JobFits(s, s.jobs[j], ids);
    SameFits(s, Next(s, Scan(j)), ids);
  }

  lemma PageKeeps(s: State, j: int, keys: set<SetKey>, ids: iset<string>)
    requires Inv(s, ids) && Enabled(s, Page(j, keys))
    ensures Inv(DoPage(s, j, keys), ids)
  {
    hide SanitizeCallID, JobFits, Note, ReleaseFrom, Members;
    var job := s.jobs[j];
    var jobs := s.jobs[j := job.(must := job.must - keys)];
    var t := DoPage(s, j, keys);
    MustIsIrrelevant(s, job, job.must - keys, ids);
    forall k ensures Members(t.sets, k) == if k in keys then Members(s.sets, k) - job.ids else Members(s.sets, k) {
      ReleaseMembers(s.sets, job.ids, keys, k);
    }
    NotedFit(s, t, jobs, Freed(keys, job.ids, t.sets.Keys), ids);
  }

  lemma MustIsIrrelevant(s: State, job: Job, must: set<SetKey>, ids: iset<string>)
    requires job.Releasing? && JobFits(s, job, ids)
    ensures JobFits(s, job.(must := must), ids)
  {
  }

  lemma LeaveKeeps(s: State, j: int, ids: iset<string>)
    requires Inv(s, ids) && Enabled(s, Leave(j))
    ensures Inv(DoLeave(s, j), ids)
  {
    hide SanitizeCallID, Deregister;
    SameFits(s, s.(jobs := s.jobs - {j}), ids);
    if s.jobs[j].own.Some? {
      DeregisterKeeps(s.(jobs := s.jobs - {j}), s.jobs[j].own.value, ids);
    }
  }

  lemma FetchKeeps(s: State, j: int, now: int, ids: iset<string>)
    requires Inv(s, ids) && Enabled(s, Fetch(j, now))
    ensures Inv(Next(s, Fetch(j, now)), ids)
  {
    hide SanitizeCallID, Dead;
    var a := s.jobs[j];
    forall k | k in Evicted(s, a.reply, a.purpose, now) ensures k != "" && Keyed(ids, k) {
    }
    SameFits(s, Next(s, Fetch(j, now)), ids);
  }

  lemma DropKeeps(s: State, j: int, ids: iset<string>)
    requires Inv(s, ids) && Enabled(s, Drop(j))
    ensures Inv(Next(s, Drop(j)), ids)
  {
    hide SanitizeCallID;
    assert JobFits(s, s.jobs[j], ids);
    SameFits(s, Next(s, Drop(j)), ids);
  }

  lemma UnlistKeeps(s: State, j: int, id: string, ids: iset<string>)
    requires Inv(s, ids) && Enabled(s, Unlist(j, id))
    ensures Inv(Next(s, Unlist(j, id)), ids)
  {
    hide SanitizeCallID, Keyed, Presented;
    assert JobFits(s, s.jobs[j], ids);
    var t := Next(s, Unlist(j, id));
    if id == "" {
      assert JobFits(t, t.jobs[j], ids);
      SameFits(s, t, ids);
    } else {
      UnlistNotes(s, j, id, ids);
    }
  }

  lemma UnlistNotes(s: State, j: int, id: string, ids: iset<string>)
    requires Inv(s, ids) && Enabled(s, Unlist(j, id)) && id != ""
    ensures Inv(Next(s, Unlist(j, id)), ids)
  {
    hide SanitizeCallID, Keyed, Presented;
    var t := Next(s, Unlist(j, id));
    forall i | i in t.jobs ensures JobFits(t, t.jobs[i], ids) {
      assert JobFits(s, s.jobs[i], ids);
      if i != j {
        NoteKeepsFit(s, t, s.jobs[i], Gone({id}), ids);
      }
    }
  }

  lemma RereadKeeps(s: State, step: Step, ids: iset<string>)
    requires Inv(s, ids) && step.Reread? && Enabled(s, step)
    ensures Inv(Next(s, step), ids)
  {
    hide SanitizeCallID, Next;
    RereadIs(s, step.j, step.key, step.kind, step.target, step.act);
    if step.key != "" && step.key in s.meta {
      RereadFits(s, step.key, step.kind, step.target, step.act, ids);
    }
    hide JobFits, Missing;
    SameFits(s, Next(s, step), ids);
  }

  lemma RereadFits(s: State, key: string, kind: string, target: string, act: string, ids: iset<string>)
    requires Inv(s, ids) && key in s.meta
    ensures var c := s.meta[key].(routeKind := kind, routeTarget := target, lastAction := act);
      JobFits(s, Rerouting(key, c, Missing(s.sets, c), false), ids)
  {
    hide SanitizeCallID;
  }

  lemma RewriteKeeps(s: State, j: int, ids: iset<string>)
    requires Inv(s, ids) && Enabled(s, Rewrite(j))
    ensures Inv(Next(s, Rewrite(j)), ids)
  {
    hide SanitizeCallID, Note, Tracks;
    var t := Next(s, Rewrite(j));
    assert JobFits(s, s.jobs[j], ids);
    hide JobFits;
    NotedFit(s, t, s.jobs - {j}, Rewritten(s.jobs[j].call), ids);
  }

  /** The Call-IDs a run presents for storing: only authorize reads one. */
  ghost predicate Presents(step: Step, ids: iset<string>) {
    step.Look? ==> step.req.callId in ids
  }

  lemma StepKeepsInv(s: State, step: Step, ids: iset<string>)
    requires Inv(s, ids) && Presents(step, ids)
    ensures Inv(Next(s, step), ids)
  {
    hide Inv, DoLook, DoTake, DoClaim, DoDebit, DoPage, DoLeave, DoDrop, DoUnlist, DoReread, DoRewrite, Register,
        Deregister, Evicted, SweptBy;
    if Enabled(s, step) {
      match step
      case Look(j, cfg, req) => LookKeeps(s, j, cfg, req, ids);
      case Take(j) =>
        AskerPresented(s, j, ids);
        TakeKeeps(s, j, s.jobs[j].req, s.jobs[j].line, s.jobs[j].order, s.jobs[j].cap, s.jobs[j].credit, ids);
      case Enter(j, now) => EnterKeeps(s, j, now, ids);
      case Claim(j, raw, e164, found, billsec, timed) => ClaimKeeps(s, j, raw, e164, found, billsec, timed, ids);
      case Debit(j) => DebitKeeps(s, j, s.jobs[j].raw, s.jobs[j].e164, s.jobs[j].found, s.jobs[j].billsec, ids);
      case Scan(j) => ScanKeeps(s, j, ids);
      case Page(j, keys) => PageKeeps(s, j, keys, ids);
      case Leave(j) => LeaveKeeps(s, j, ids);
      case Range(j, _, _) => RestKeeps(s, step, ids);
      case Fetch(j, now) => FetchKeeps(s, j, now, ids);
      case Drop(j) => DropKeeps(s, j, ids);
      case Unlist(j, id) => UnlistKeeps(s, j, id, ids);
      case Mark(_, _, _) => RestKeeps(s, step, ids);
      case Remove(_, key) => DeregisterKeeps(s, key, ids);
      case Reread(_, _, _, _, _) => RereadKeeps(s, step, ids);
      case Rewrite(j) => RewriteKeeps(s, j, ids);
      case Book(_, _, _) => RestKeeps(s, step, ids);
    }
  }

  lemma AskerPresented(s: State, j: int, ids: iset<string>)
    requires Inv(s, ids) && j in s.jobs && s.jobs[j].Asking?
    ensures s.jobs[j].req.callId in ids
  {
    assert JobFits(s, s.jobs[j], ids);
  }

  lemma RestKeeps(s: State, step: Step, ids: iset<string>)
    requires Inv(s, ids) && (step.Range? || step.Mark? || step.Book?)
    ensures Inv(Next(s, step), ids)
  {
    hide SanitizeCallID, Next, JobFits;
    if Enabled(s, step) {
      QuietFrame(s, step);
      QuietJob(s, step);
      if step.Range? {
        RangedFits(Next(s, step), step.reply, step.purpose, ids);
      }
      SameFits(s, Next(s, step), ids);
    } else {
      Idle(s, step);
    }
  }

  lemma RangedFits(s: State, reply: seq<string>, purpose: Purpose, ids: iset<string>)
    ensures JobFits(s, Ranged(reply, purpose), ids)
  {
  }
}
