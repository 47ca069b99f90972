/** Live implies reserved, over every interleaving: exactly which commands break it, and runs in which
    none can. */
module Agreement {
  import opened Basics
  import opened CallIds
  import opened CallControl
  import opened LiveIndex

  ghost predicate HoldsSlots(sets: Sets, c: LiveCall) {
    forall k :: k in SlotsOf(c) ==> c.full in Members(sets, k)
  }

  /** A teardown of this Call-ID that has not deregistered it yet. */
  predicate Tears(job: Job, full: string) {
    (job.Clearing? || job.Releasing?) && job.own.Some? && full in job.ids
  }

  ghost predicate TornDown(jobs: map<int, Job>, full: string) {
    exists j :: j in jobs && Tears(jobs[j], full)
  }

  ghost predicate Agrees(s: State, c: LiveCall) {
    c.reserved || HoldsSlots(s.sets, c) || TornDown(s.jobs, c.full)
  }

  /** Every live entry, other than a call to a reserved number, holds both its slots, unless its own
      teardown is between releasing them and deregistering it. */
  ghost predicate LiveAgrees(s: State) {
    forall k :: k in s.zset && k in s.meta ==> Agrees(s, s.meta[k])
  }

  /** The plain form, for states without a teardown under way. */
  ghost predicate LiveReserved(s: State) {
    forall k :: k in s.zset && k in s.meta ==> s.meta[k].reserved || HoldsSlots(s.sets, s.meta[k])
  }

  lemma QuietAgreement(s: State)
    requires forall j, full :: j in s.jobs ==> !Tears(s.jobs[j], full)
    ensures LiveAgrees(s) <==> LiveReserved(s)
  {
    if LiveAgrees(s) {
      forall k | k in s.zset && k in s.meta ensures s.meta[k].reserved || HoldsSlots(s.sets, s.meta[k]) {
        assert Agrees(s, s.meta[k]);
      }
    }
  }

  // ---------- the steps that break it ----------

  /** An authorize enters the index after another handler released the slots it took; a page of an eviction
      releases the slots of a call that came back after the eviction deregistered its key; a route update
      writes back the entry of a call whose slots are gone over that of another call. */
  ghost predicate Breaks(s: State, step: Step) {
    Enabled(s, step) &&
    match step
    case Enter(j, _) =>
      var a := s.jobs[j];
      a.call.callId != "" && !a.call.reserved && a.lost != {} && !TornDown(s.jobs, a.call.full)
    case Page(j, keys) =>
      var a := s.jobs[j];
      a.own.None? && exists k :: k in a.back && TakesSlots(s, k, a.ids, keys)
    case Rewrite(j) =>
      var a := s.jobs[j];
      a.replaced && a.key in s.zset && !a.call.reserved && a.lost != {} && !TornDown(s.jobs, a.call.full)
    case _ => false
  }

  /** The live billed call behind `k` would lose a slot to this page, not being torn down itself. */
  ghost predicate TakesSlots(s: State, k: string, hand: set<string>, keys: set<SetKey>) {
    && k in s.zset && k in s.meta && !s.meta[k].reserved && s.meta[k].full in hand
    && keys * SlotsOf(s.meta[k]) != {} && !TornDown(s.jobs, s.meta[k].full)
  }

  /** No presented Call-ID is the index key of another. */
  ghost predicate SafeIds(ids: iset<string>) {
    forall x, y :: x in ids && y in ids && y == SanitizeCallID(x) ==> SanitizeCallID(y) == y
  }

  lemma {:induction false} StillTorn(before: map<int, Job>, after: map<int, Job>, full: string)
    requires forall j :: j in before && Tears(before[j], full) ==> j in after && Tears(after[j], full)
    ensures TornDown(before, full) ==> TornDown(after, full)
  {
  }

  lemma NoteTears(jobs: map<int, Job>, e: Event, full: string)
    ensures TornDown(NoteAll(jobs, e), full) <==> TornDown(jobs, full)
  {
    hide LostAfter, BackAfter, AgainAfter;
    forall j | j in jobs ensures Tears(NoteAll(jobs, e)[j], full) <==> Tears(jobs[j], full) {
    }
    StillTorn(jobs, NoteAll(jobs, e), full);
    StillTorn(NoteAll(jobs, e), jobs, full);
  }

  /** Slots only added, entries only dropped, and no teardown of a live call over: agreement stays. */
  lemma MonotoneKeeps(s: State, t: State)
    requires LiveAgrees(s)
    requires forall k :: k in t.zset && k in t.meta ==> k in s.zset && k in s.meta && t.meta[k] == s.meta[k]
    requires forall key :: Members(s.sets, key) <= Members(t.sets, key)
    requires forall k :: k in t.zset && k in t.meta && TornDown(s.jobs, t.meta[k].full) ==>
        TornDown(t.jobs, t.meta[k].full)
    ensures LiveAgrees(t)
  {
    hide Members, TornDown;
    forall k | k in t.zset && k in t.meta ensures Agrees(t, t.meta[k]) {
      assert Agrees(s, s.meta[k]);
    }
  }

  lemma TakeKeepsAgreement(s: State, j: int, req: Request, line: DidLine, o: OrderLine, cap: int, credit: int)
    requires LiveAgrees(s) && j in s.jobs && s.jobs[j].Asking?
    ensures LiveAgrees(DoTake(s, j, req, line, o, cap, credit))
  {
    hide SanitizeCallID, Reserve, Members, Note, AddGrant, Rating.MaxSecondsForBalance, NoteAll;
    var t := DoTake(s, j, req, line, o, cap, credit);
    var e := Taken({UserSet(o.user), DidSet(line.did)}, req.callId);
    ReserveMembers(s.sets, o.user, line.did, req.callId, cap, o.channelCount);
    forall full ensures TornDown(s.jobs, full) ==> TornDown(t.jobs, full) {
      TakeTears(s, j, req, line, o, cap, credit, full);
    }
    MonotoneKeeps(s, t);
  }

  lemma TakeTears(s: State, j: int, req: Request, line: DidLine, o: OrderLine, cap: int, credit: int, full: string)
    requires j in s.jobs && s.jobs[j].Asking?
    ensures TornDown(s.jobs, full) ==> TornDown(DoTake(s, j, req, line, o, cap, credit).jobs, full)
  {
    hide SanitizeCallID, Reserve, AddGrant, Rating.MaxSecondsForBalance, NoteAll, PaidEntry, Resolves;
    var e := Taken({UserSet(o.user), DidSet(line.did)}, req.callId);
    StillTorn(s.jobs, s.jobs - {j}, full);
    NoteTears(s.jobs - {j}, e, full);
    NotedKeys(s.jobs - {j}, e);
    var t := DoTake(s, j, req, line, o, cap, credit);
    TakeShape(s, j, req, line, o, cap, credit);
    hide DoTake;
    if t.jobs != s.jobs - {j} && t.jobs != NoteAll(s.jobs - {j}, e) {
      OneMoreTears(NoteAll(s.jobs - {j}, e), j, t.jobs[j], full);
    }
  }

  lemma OneMoreTears(jobs: map<int, Job>, j: int, job: Job, full: string)
    requires j !in jobs
    ensures TornDown(jobs, full) ==> TornDown(jobs[j := job], full)
  {
    StillTorn(jobs, jobs[j := job], full);
  }

  lemma DeregisterKeepsAgreement(s: State, t: State, id: string)
    requires LiveAgrees(s) && t == Deregister(s, id)
    ensures LiveAgrees(t)
  {
    hide Note, Members, TornDown;
    if id != "" {
      forall full ensures TornDown(s.jobs, full) ==> TornDown(t.jobs, full) {
        NoteTears(s.jobs, Gone({id}), full);
      }
      MonotoneKeeps(s, t);
    }
  }

  lemma LeaveKeepsAgreement(s: State, j: int, ids: iset<string>)
    requires Inv(s, ids) && LiveAgrees(s) && Enabled(s, Leave(j))
    ensures LiveAgrees(DoLeave(s, j))
  {
    hide Note, Members, SanitizeCallID, Keyed;
    var a := s.jobs[j];
    var rest := s.(jobs := s.jobs - {j});
    var t := DoLeave(s, j);
    assert JobFits(s, a, ids);
    forall k | k in t.zset && k in t.meta && TornDown(s.jobs, t.meta[k].full) ensures TornDown(t.jobs, t.meta[k].full) {
      var full := t.meta[k].full;
      assert Presented(s.meta[k], ids);
      assert !Tears(a, full);
      StillTorn(s.jobs, rest.jobs, full);
      if a.own.Some? {
        NoteTears(rest.jobs, Gone({a.own.value}), full);
      }
    }
    MonotoneKeeps(s, t);
  }

  lemma UnlistKeepsAgreement(s: State, j: int, id: string)
    requires LiveAgrees(s) && Enabled(s, Unlist(j, id))
    ensures LiveAgrees(DoUnlist(s, j, id))
  {
    hide Deregister, Members;
    var t := s.(jobs := s.jobs[j := s.jobs[j].(todo := s.jobs[j].todo - {id})]);
    forall full ensures TornDown(s.jobs, full) ==> TornDown(t.jobs, full) {
      StillTorn(s.jobs, t.jobs, full);
    }
    MonotoneKeeps(s, t);
    DeregisterKeepsAgreement(t, DoUnlist(s, j, id), id);
  }

  predicate HasHand(job: Job) {
    job.Clearing? || job.Releasing?
  }

  /** The hand a teardown or eviction has stays in it. */
  predicate KeepsHand(s: State, t: State, j: int) {
    j in s.jobs && HasHand(s.jobs[j]) ==>
      j in t.jobs && HasHand(t.jobs[j]) && t.jobs[j].ids == s.jobs[j].ids && t.jobs[j].own == s.jobs[j].own
  }

  /** Steps of one handler that touch neither slots nor entries, and end no teardown. */
  lemma JobOnlyKeeps(s: State, t: State, j: int)
    requires LiveAgrees(s) && t.sets == s.sets && t.zset.Keys <= s.zset.Keys && t.meta == s.meta
    requires forall i :: i in s.jobs && i != j ==> i in t.jobs && t.jobs[i] == s.jobs[i]
    requires KeepsHand(s, t, j)
    ensures LiveAgrees(t)
  {
    forall full ensures TornDown(s.jobs, full) ==> TornDown(t.jobs, full) {
      StillTorn(s.jobs, t.jobs, full);
    }
    MonotoneKeeps(s, t);
  }

  // ---------- the three that may ----------

  lemma OnlyEntryMatters(s: State, t: State, k: string)
    requires LiveAgrees(s)
    requires forall i :: i in t.zset && i in t.meta && i != k ==> i in s.zset && i in s.meta && t.meta[i] == s.meta[i]
    requires t.sets == s.sets
    requires forall full :: TornDown(t.jobs, full) <==> TornDown(s.jobs, full)
    requires k in t.zset && k in t.meta
    ensures LiveAgrees(t) <==> Agrees(s, t.meta[k])
  {
    hide Members, TornDown;
    forall i | i in t.zset && i in t.meta && i != k ensures Agrees(t, t.meta[i]) {
      assert Agrees(s, s.meta[i]);
    }
    assert Agrees(t, t.meta[k]) <==> Agrees(s, t.meta[k]);
  }

  lemma LostIsMissing(s: State, c: LiveCall, lost: set<SetKey>)
    requires Tracks(s.sets, c, lost)
    ensures HoldsSlots(s.sets, c) <==> lost == {}
  {
    hide Members;
    if lost != {} {
      var k :| k in lost;
      assert k in SlotsOf(c);
    }
  }

  lemma {:induction false} WithoutTears(jobs: map<int, Job>, j: int, full: string)
    requires j in jobs && !Tears(jobs[j], full)
    ensures TornDown(jobs - {j}, full) <==> TornDown(jobs, full)
  {
    StillTorn(jobs, jobs - {j}, full);
    StillTorn(jobs - {j}, jobs, full);
  }

  lemma EnterKeepsIff(s: State, j: int, now: int, ids: iset<string>)
    requires Inv(s, ids) && LiveAgrees(s) && Enabled(s, Enter(j, now))
    ensures LiveAgrees(Next(s, Enter(j, now))) <==> !Breaks(s, Enter(j, now))
  {
    hide Members, SanitizeCallID, Note, TornDown, LiveAgrees, Agrees;
    var c := s.jobs[j].call.(startedAt := now);
    var t := Next(s, Enter(j, now));
    assert JobFits(s, s.jobs[j], ids);
    forall full ensures TornDown(t.jobs, full) <==> TornDown(s.jobs, full) {
      WithoutTears(s.jobs, j, full);
      NoteTears(s.jobs - {j}, Entered(c), full);
    }
    if c.callId == "" {
      JobOnlyKeeps(s, t, j);
    } else {
      OnlyEntryMatters(s, t, c.callId);
      AgreesAtAnyTime(s, s.jobs[j].call, now);
      if !c.reserved {
        LostIsMissing(s, s.jobs[j].call, s.jobs[j].lost);
      }
      AgreesMeans(s, s.jobs[j].call);
    }
  }

  lemma AgreesAtAnyTime(s: State, c: LiveCall, now: int)
    ensures Agrees(s, c.(startedAt := now)) <==> Agrees(s, c)
  {
    assert SlotsOf(c.(startedAt := now)) == SlotsOf(c);
  }

  lemma AgreesMeans(s: State, c: LiveCall)
    ensures Agrees(s, c) <==> (c.reserved || HoldsSlots(s.sets, c) || TornDown(s.jobs, c.full))
  {
  }

  lemma SameCallAgrees(s: State, c: LiveCall, d: LiveCall)
    requires SameCall(c, d)
    ensures Agrees(s, c) <==> Agrees(s, d)
  {
    assert SlotsOf(c) == SlotsOf(d);
  }

  lemma RewriteKeepsIff(s: State, j: int, ids: iset<string>)
    requires Inv(s, ids) && LiveAgrees(s) && Enabled(s, Rewrite(j))
    ensures LiveAgrees(Next(s, Rewrite(j))) <==> !Breaks(s, Rewrite(j))
  {
    hide Members, SanitizeCallID, Note, TornDown, Agrees;
    var a := s.jobs[j];
    var t := Next(s, Rewrite(j));
    assert JobFits(s, a, ids);
    forall full ensures TornDown(t.jobs, full) <==> TornDown(s.jobs, full) {
      WithoutTears(s.jobs, j, full);
      NoteTears(s.jobs - {j}, Rewritten(a.call), full);
    }
    LostIsMissing(s, a.call, a.lost);
    AgreesMeans(s, a.call);
    if a.key in s.zset {
      OnlyEntryMatters(s, t, a.key);
      if !a.replaced {
        SameCallAgrees(s, a.call, s.meta[a.key]);
      }
    } else {
      MonotoneKeeps(s, t);
    }
  }

  lemma PageKeepsIff(s: State, j: int, keys: set<SetKey>, ids: iset<string>)
    requires Inv(s, ids) && SafeIds(ids) && LiveAgrees(s) && Enabled(s, Page(j, keys))
    ensures LiveAgrees(Next(s, Page(j, keys))) <==> !Breaks(s, Page(j, keys))
  {
    hide Members, Note, TornDown, Agrees, SanitizeCallID, ReleaseFrom;
    var a := s.jobs[j];
    var t := Next(s, Page(j, keys));
    forall full ensures TornDown(t.jobs, full) <==> TornDown(s.jobs, full) {
      PageTears(s, j, keys, full);
    }
    forall k | k in s.zset && k in s.meta
      ensures Agrees(t, s.meta[k]) <==> !(TakesSlots(s, k, a.ids, keys) && a.own.None?)
      ensures TakesSlots(s, k, a.ids, keys) && a.own.None? ==> k in a.back
    {
      PageOnOne(s, j, keys, k, t);
      if TakesSlots(s, k, a.ids, keys) && a.own.None? {
        EvictedCameBack(s, j, k, ids);
      }
    }
  }

  lemma PageTears(s: State, j: int, keys: set<SetKey>, full: string)
    requires Enabled(s, Page(j, keys))
    ensures TornDown(Next(s, Page(j, keys)).jobs, full) <==> TornDown(s.jobs, full)
  {
    hide ReleaseFrom, NoteAll;
    var a := s.jobs[j];
    var jobs := s.jobs[j := a.(must := a.must - keys)];
    StillTorn(s.jobs, jobs, full);
    StillTorn(jobs, s.jobs, full);
    NoteTears(jobs, Freed(keys, a.ids, ReleaseFrom(s.sets, a.ids, keys).Keys), full);
  }

  /** A live entry in the hand of an eviction that releases: it was registered again. */
  lemma EvictedCameBack(s: State, j: int, k: string, ids: iset<string>)
    requires Inv(s, ids) && SafeIds(ids) && j in s.jobs && s.jobs[j].Releasing? && s.jobs[j].own.None?
    requires k in s.zset && k in s.meta && s.meta[k].full in s.jobs[j].ids
    ensures k in s.jobs[j].back
  {
    assert JobFits(s, s.jobs[j], ids);
    var full := s.meta[k].full;
    assert Presented(s.meta[k], ids);
    assert Keyed(ids, full);
    var x :| x in ids && full == SanitizeCallID(x);
    assert SanitizeCallID(full) == full;
  }

  lemma PageOnOne(s: State, j: int, keys: set<SetKey>, k: string, t: State)
    requires LiveAgrees(s) && Enabled(s, Page(j, keys)) && k in s.zset && k in s.meta
    requires t == Next(s, Page(j, keys))
    requires TornDown(t.jobs, s.meta[k].full) <==> TornDown(s.jobs, s.meta[k].full)
    ensures Agrees(t, s.meta[k]) <==> !(TakesSlots(s, k, s.jobs[j].ids, keys) && s.jobs[j].own.None?)
  {
    hide ReleaseFrom, Members, NoteAll, Tears;
    var a := s.jobs[j];
    var c := s.meta[k];
    assert Agrees(s, c);
    forall key ensures Members(t.sets, key) == if key in keys then Members(s.sets, key) - a.ids
        else Members(s.sets, key) {
      ReleaseMembers(s.sets, a.ids, keys, key);
    }
    if c.full in a.ids && a.own.Some? {
      OwnTears(s.jobs, j, c.full);
    }
    FreedSlots(s.sets, t.sets, c, a.ids, keys);
  }

  lemma FreedSlots(before: Sets, after: Sets, c: LiveCall, ids: set<string>, keys: set<SetKey>)
    requires forall key ::
               Members(after, key) == if key in keys then Members(before, key) - ids else Members(before, key)
    ensures HoldsSlots(after, c) <==> HoldsSlots(before, c) && !(c.full in ids && keys * SlotsOf(c) != {})
  {
    hide Members, SlotsOf;
    if c.full in ids && keys * SlotsOf(c) != {} {
      var key :| key in keys * SlotsOf(c);
      assert key in SlotsOf(c) && c.full !in Members(after, key);
    } else {
      forall key | key in SlotsOf(c) ensures c.full in Members(after, key) <==> c.full in Members(before, key) {
        assert key in keys ==> key in keys * SlotsOf(c);
      }
    }
  }

  lemma OwnTears(jobs: map<int, Job>, j: int, full: string)
    requires j in jobs && jobs[j].Releasing? && jobs[j].own.Some? && full in jobs[j].ids
    ensures TornDown(jobs, full)
  {
    assert Tears(jobs[j], full);
  }

  // ---------- every step, every run ----------

  lemma StepKeepsAgreementIff(s: State, step: Step, ids: iset<string>)
    requires Inv(s, ids) && SafeIds(ids) && LiveAgrees(s)
    ensures LiveAgrees(Next(s, step)) <==> !Breaks(s, step)
  {
    hide Inv, SafeIds, LiveAgrees, DoLook, DoTake, DoClaim, DoDebit, DoLeave, DoUnlist, DoDrop, DoReread, Register,
        Deregister,
         DoPage, DoRewrite, SweptBy, Evicted, TornDown, TakesSlots;
    if Enabled(s, step) {
      match step
      case Take(j) => TakeKeepsAgreement(s, j, s.jobs[j].req, s.jobs[j].line, s.jobs[j].order, s.jobs[j].cap,
                                         s.jobs[j].credit);
      case Enter(j, now) => EnterKeepsIff(s, j, now, ids);
      case Page(j, keys) => PageKeepsIff(s, j, keys, ids);
      case Leave(j) => LeaveKeepsAgreement(s, j, ids);
      case Unlist(j, id) => UnlistKeepsAgreement(s, j, id);
      case Remove(_, key) => DeregisterKeepsAgreement(s, Next(s, step), key);
      case Rewrite(j) => RewriteKeepsIff(s, j, ids);
      case _ => OthersKeepAgreement(s, step);
    }
  }

  /** The other steps move one handler on, and change neither slots nor metadata. */
  ghost predicate MovesOne(s: State, t: State, j: int) {
    && t.sets == s.sets && t.zset.Keys <= s.zset.Keys && t.meta == s.meta
    && (forall i :: i in s.jobs && i != j ==> i in t.jobs && t.jobs[i] == s.jobs[i])
    && KeepsHand(s, t, j)
  }

  lemma LookMoves(s: State, j: int, cfg: Config, req: Request)
    requires j !in s.jobs
    ensures MovesOne(s, DoLook(s, j, cfg, req), j)
  {
    hide DoLook;
    LookShape(s, j, cfg, req);
  }

  lemma CdrMoves(s: State, j: int, raw: string, e164: string, found: Option<OrderLine>, billsec: int, timed: bool)
    ensures j !in s.jobs ==> MovesOne(s, DoClaim(s, j, raw, e164, found, billsec, timed), j)
    ensures j in s.jobs && s.jobs[j].Settling? ==> MovesOne(s, DoDebit(s, j, raw, e164, found, billsec), j)
  {
    hide ChargeOf, DebitFrom, SanitizeCallID;
  }

  lemma ListMoves(s: State, step: Step)
    requires Enabled(s, step) && (step.Scan? || step.Range? || step.Fetch? || step.Drop?)
    ensures MovesOne(s, Next(s, step), step.j)
  {
    hide Next;
    QuietFrame(s, step);
    QuietJob(s, step);
  }

  lemma AdminMoves(s: State, step: Step)
    requires Enabled(s, step) && (step.Mark? || step.Reread? || step.Book?)
    ensures MovesOne(s, Next(s, step), step.j)
  {
    hide Next;
    QuietFrame(s, step);
    QuietJob(s, step);
  }

  lemma OthersKeepAgreement(s: State, step: Step)
    requires LiveAgrees(s) && Enabled(s, step)
    requires step.Look? || step.Claim? || step.Debit? || step.Scan? || step.Range? || step.Fetch? || step.Drop?
          || step.Mark? || step.Reread? || step.Book?
    ensures LiveAgrees(Next(s, step))
  {
    hide LiveAgrees, DoLook, DoClaim, DoDebit, DoDrop, DoReread, SweptBy, Evicted;
    match step {
      case Look(j, cfg, req) => LookMoves(s, j, cfg, req);
      case Claim(j, raw, e164, found, billsec, timed) => CdrMoves(s, j, raw, e164, found, billsec, timed);
      case Debit(j) => CdrMoves(s, j, s.jobs[j].raw, s.jobs[j].e164, s.jobs[j].found, s.jobs[j].billsec, false);
      case Scan(_) => ListMoves(s, step);
      case Range(_, _, _) => ListMoves(s, step);
      case Fetch(_, _) => ListMoves(s, step);
      case Drop(_) => ListMoves(s, step);
      case _ => AdminMoves(s, step);
    }
    JobOnlyKeeps(s, Next(s, step), step.j);
  }

  ghost predicate AgreesThroughout(s: State, steps: seq<Step>)
    decreases |steps|
  {
    LiveAgrees(s) && (steps != [] ==> AgreesThroughout(Next(s, steps[0]), steps[1..]))
  }

  ghost predicate Breakless(s: State, steps: seq<Step>)
    decreases |steps|
  {
    steps != [] ==> !Breaks(s, steps[0]) && Breakless(Next(s, steps[0]), steps[1..])
  }

  ghost predicate PresentsOnly(steps: seq<Step>, ids: iset<string>) {
    forall i :: 0 <= i < |steps| ==> Presents(steps[i], ids)
  }

  /** Over every interleaving: live calls hold their slots in every state of a run exactly when no step of
      it enters a call whose slots another handler released meanwhile, releases the slots of a call that
      came back during the eviction, or writes back a call that lost its slots over another one. */
  lemma {:induction false} AgreementIff(s: State, steps: seq<Step>, ids: iset<string>)
    requires Inv(s, ids) && SafeIds(ids) && PresentsOnly(steps, ids) && LiveAgrees(s)
    ensures AgreesThroughout(s, steps) <==> Breakless(s, steps)
    decreases |steps|
  {
    hide Inv, SafeIds, LiveAgrees, Breaks, Next;
    if steps != [] {
      StepKeepsAgreementIff(s, steps[0], ids);
      if !Breaks(s, steps[0]) {
        StepKeepsInv(s, steps[0], ids);
        AgreementIff(Next(s, steps[0]), steps[1..], ids);
      }
    }
  }
}
