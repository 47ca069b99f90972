/** Concurrency caps over every interleaving, and when a call is let in. */
module Caps {
  import opened Basics
  import opened CallControl
  import opened LiveIndex
  import CallIds
  import Rating

  /** The schema's guarantees: number ids are unique and channel counts are not negative. */
  ghost predicate ValidConfig(cfg: Config) {
    && (forall e, f :: e in cfg.dids && f in cfg.dids && cfg.dids[e].did == cfg.dids[f].did ==> e == f)
    && (forall e :: e in cfg.dids && HasOrder(cfg, cfg.dids[e]) ==> cfg.dids[e].order.value.channelCount >= 0)
  }

  ghost predicate CapsHold(cfg: Config, sets: Sets) {
    && (forall u :: u in cfg.users && cfg.users[u].cap >= 0 ==> |Members(sets, UserSet(u))| <= cfg.users[u].cap)
    && (forall e :: e in cfg.dids && HasOrder(cfg, cfg.dids[e]) ==>
          |Members(sets, DidSet(cfg.dids[e].did))| <= cfg.dids[e].order.value.channelCount)
  }

  /** A handler about to ask for slots asks under the caps of the rows it read. */
  ghost predicate AsksFor(cfg: Config, job: Job) {
    job.Asking? ==>
      && job.req.e164 in cfg.dids && job.line == cfg.dids[job.req.e164] && HasOrder(cfg, job.line)
      && job.order == job.line.order.value && job.cap == cfg.users[job.order.user].cap
  }

  ghost predicate AllAskFor(cfg: Config, jobs: map<int, Job>) {
    forall j :: j in jobs ==> AsksFor(cfg, jobs[j])
  }

  /** The rows do not change during the run. */
  ghost predicate FixedRows(step: Step, cfg: Config) {
    step.Look? ==> step.cfg == cfg
  }

  ghost predicate Shrinks(before: Sets, after: Sets) {
    forall k :: Members(after, k) <= Members(before, k)
  }

  lemma ShrinkingKeepsCaps(cfg: Config, before: Sets, after: Sets)
    requires CapsHold(cfg, before) && Shrinks(before, after)
    ensures CapsHold(cfg, after)
  {
    forall k ensures |Members(after, k)| <= |Members(before, k)| {
      SubsetSize(Members(after, k), Members(before, k));
    }
  }

  lemma ReserveKeepsCaps(cfg: Config, sets: Sets, e164: string, id: string)
    requires ValidConfig(cfg) && CapsHold(cfg, sets)
    requires e164 in cfg.dids && HasOrder(cfg, cfg.dids[e164])
    ensures var o := cfg.dids[e164].order.value;
      CapsHold(cfg, Reserve(sets, o.user, cfg.dids[e164].did, id, cfg.users[o.user].cap, o.channelCount).0)
  {
    hide Reserve, Members;
    var o := cfg.dids[e164].order.value;
    var did := cfg.dids[e164].did;
    var cap := cfg.users[o.user].cap;
    ReserveMembers(sets, o.user, did, id, cap, o.channelCount);
    var after := Reserve(sets, o.user, did, id, cap, o.channelCount).0;
    forall k ensures |Members(after, k)| <= |Members(sets, k)| || k == UserSet(o.user) || k == DidSet(did) {
    }
    forall k: SetKey ensures |Members(sets, k) + {id}| <= |Members(sets, k)| + 1 {
    }
  }

  lemma BillableIsTheLine(cfg: Config, req: Request, balances: map<int, int>)
    requires Screen(cfg, req, balances).Billable?
    ensures var v := Screen(cfg, req, balances);
      && req.e164 in cfg.dids && v.line == cfg.dids[req.e164] && HasOrder(cfg, v.line)
      && v.order == v.line.order.value && v.cap == cfg.users[v.order.user].cap
      && v.credit == BalanceOf(balances, v.order.user)
  {
    hide Rating.MaxSecondsForBalance, BalanceOf;
  }

  lemma NotedAsks(cfg: Config, jobs: map<int, Job>, e: Event)
    requires AllAskFor(cfg, jobs)
    ensures AllAskFor(cfg, NoteAll(jobs, e))
  {
    hide LostAfter, BackAfter, AgainAfter;
    forall j | j in jobs ensures AsksFor(cfg, NoteAll(jobs, e)[j]) {
      assert AsksFor(cfg, jobs[j]);
    }
  }

  lemma LookAsks(cfg: Config, s: State, j: int, req: Request)
    requires AllAskFor(cfg, s.jobs)
    ensures AllAskFor(cfg, DoLook(s, j, cfg, req).jobs)
  {
    hide Screen, FreeEntry, BalanceOf, HasOrder;
    match Screen(cfg, req, s.balances)
    case Billable(line, o, cap, credit) =>
      BillableIsTheLine(cfg, req, s.balances);
      assert AsksFor(cfg, Asking(req, line, o, cap, credit));
    case _ =>
  }

  lemma TakeAsks(cfg: Config, s: State, j: int)
    requires AllAskFor(cfg, s.jobs) && Enabled(s, Take(j))
    ensures AllAskFor(cfg, Next(s, Take(j)).jobs)
  {
    hide DoTake, NoteAll, HasOrder;
    var a := s.jobs[j];
    TakeShape(s, j, a.req, a.line, a.order, a.cap, a.credit);
    NotedAsks(cfg, s.jobs - {j}, Taken({UserSet(a.order.user), DidSet(a.line.did)}, a.req.callId));
  }

  lemma ToldAsks(cfg: Config, s: State, step: Step)
    requires AllAskFor(cfg, s.jobs) && Enabled(s, step)
    requires step.Enter? || step.Page? || step.Leave? || step.Unlist? || step.Remove? || step.Rewrite?
    ensures AllAskFor(cfg, Next(s, step).jobs)
  {
    hide CallIds.SanitizeCallID, NoteAll, ReleaseFrom, HasOrder;
    var j := step.j;
    match step
    case Enter(_, now) => NotedAsks(cfg, s.jobs - {j}, Entered(s.jobs[j].call.(startedAt := now)));
    case Page(_, keys) =>
      var a := s.jobs[j];
      NotedAsks(cfg, s.jobs[j := a.(must := a.must - keys)], Freed(keys, a.ids, ReleaseFrom(s.sets, a.ids, keys).Keys));
    case Leave(_) => if s.jobs[j].own.Some? { NotedAsks(cfg, s.jobs - {j}, Gone({s.jobs[j].own.value})); }
    case Unlist(_, id) => NotedAsks(cfg, s.jobs[j := s.jobs[j].(todo := s.jobs[j].todo - {id})], Gone({id}));
    case Remove(_, key) => NotedAsks(cfg, s.jobs, Gone({key}));
    case Rewrite(_) => NotedAsks(cfg, s.jobs - {j}, Rewritten(s.jobs[j].call));
  }

  lemma StepKeepsAsks(cfg: Config, s: State, step: Step)
    requires AllAskFor(cfg, s.jobs) && FixedRows(step, cfg)
    ensures AllAskFor(cfg, Next(s, step).jobs)
  {
    if Enabled(s, step) {
      if step.Take? {
        TakeAsks(cfg, s, step.j);
      } else if step.Look? {
        LookAsks(cfg, s, step.j, step.req);
      } else if step.Enter? || step.Page? || step.Leave? || step.Unlist? || step.Remove? || step.Rewrite? {
        ToldAsks(cfg, s, step);
      } else if step.Claim? {
        hide PopPending, CallIds.SanitizeCallID, HasOrder;
        PopKeepsRest(s, CallIds.SanitizeCallID(step.raw));
      } else {
        hide CallIds.SanitizeCallID, ChargeOf, DebitFrom, SweptBy, Evicted, Missing, HasOrder;
      }
    }
  }

  lemma StepKeepsCaps(cfg: Config, s: State, step: Step)
    requires ValidConfig(cfg) && CapsHold(cfg, s.sets) && AllAskFor(cfg, s.jobs) && FixedRows(step, cfg)
    ensures CapsHold(cfg, Next(s, step).sets)
  {
    hide CapsHold, Reserve, DoTake, ReleaseFrom, Members;
    if Enabled(s, step) && step.Take? {
      var a := s.jobs[step.j];
      assert AsksFor(cfg, a);
      TakeSets(s, step.j, a.req, a.line, a.order, a.cap, a.credit);
      ReserveKeepsCaps(cfg, s.sets, a.req.e164, a.req.callId);
    } else if Enabled(s, step) && step.Page? {
      var ids := s.jobs[step.j].ids;
      forall k ensures Members(Next(s, step).sets, k) <= Members(s.sets, k) {
        ReleaseMembers(s.sets, ids, step.keys, k);
      }
      ShrinkingKeepsCaps(cfg, s.sets, Next(s, step).sets);
    } else {
      OthersKeepSets(s, step);
    }
  }

  /** Over every interleaving, overlapping handlers of the same Call-ID included, no user's and no number's set
      outgrows its cap. */
  lemma {:induction false} CapsHoldInEveryRun(cfg: Config, s: State, steps: seq<Step>)
    requires ValidConfig(cfg) && CapsHold(cfg, s.sets) && AllAskFor(cfg, s.jobs)
    requires forall i :: 0 <= i < |steps| ==> FixedRows(steps[i], cfg)
    ensures CapsHold(cfg, Exec(s, steps).sets)
    decreases |steps|
  {
    hide CapsHold, AllAskFor, Next;
    if steps != [] {
      StepKeepsCaps(cfg, s, steps[0]);
      StepKeepsAsks(cfg, s, steps[0]);
      CapsHoldInEveryRun(cfg, Next(s, steps[0]), steps[1..]);
    }
  }

  // ---------- one script ----------

  /** Releasing any member of a full number set lets the next reservation past the number's check; it then
      succeeds unless the user's own cap is exhausted. */
  lemma ReleaseReopens(sets: Sets, keys: set<SetKey>, did: int, didCap: int, gone: string, user: int, userCap: int,
                       id: string)
    requires |Members(sets, DidSet(did))| == didCap && gone in Members(sets, DidSet(did)) && DidSet(did) in keys
    ensures var after := ReleaseFrom(sets, {gone}, keys);
      && Reserve(sets, user, did, id, userCap, didCap).1 != 1
      && Reserve(after, user, did, id, userCap, didCap).1 != -2
      && (Reserve(after, user, did, id, userCap, didCap).1 == 1
          <==> userCap < 0 || |Members(after, UserSet(user))| < userCap)
  {
    ReleaseMembers(sets, {gone}, keys, DidSet(did));
  }

  /** The script looks at sizes, not membership: presenting an id again succeeds exactly while both sets still
      have room, so a retry at a cap is refused although the slot is already held. */
  lemma RetryNeedsRoom(sets: Sets, user: int, did: int, id: string, userCap: int, didCap: int)
    requires id in Members(sets, UserSet(user)) && id in Members(sets, DidSet(did))
    ensures var (after, res) := Reserve(sets, user, did, id, userCap, didCap);
      && (forall k :: Members(after, k) == Members(sets, k))
      && (res == 1 <==>
            (userCap < 0 || |Members(sets, UserSet(user))| < userCap) && |Members(sets, DidSet(did))| < didCap)
  {
    assert Members(sets, UserSet(user)) + {id} == Members(sets, UserSet(user));
    assert Members(sets, DidSet(did)) + {id} == Members(sets, DidSet(did));
  }

  // ---------- denials ----------

  /** A denial changes nothing but ends its handler, except the audio-group denials that come after the
      reservation: those keep both slots without a live entry. */
  lemma DenialsAndSlots(s: State, step: Step)
    requires Reply(s, step).Some? && Reply(s, step).value.Deny?
    ensures var t := Next(s, step);
      var reserved := step.Take? &&
        var a := s.jobs[step.j];
        Reserve(s.sets, a.order.user, a.line.did, a.req.callId, a.cap, a.order.channelCount).1 == 1;
      && (!reserved ==> t == s.(jobs := t.jobs) && t.jobs == s.jobs - {step.j})
      && (reserved ==>
            var a := s.jobs[step.j];
            a.order.routeKind == "audio_group" && t == s.(sets := t.sets, jobs := t.jobs) && step.j !in t.jobs &&
            a.req.callId in Members(t.sets, UserSet(a.order.user))
                && a.req.callId in Members(t.sets, DidSet(a.line.did)))
  {
    hide Screen, Reserve, Members, NoteAll, AddGrant, Rating.MaxSecondsForBalance, PaidEntry;
    if step.Take? {
      var a := s.jobs[step.j];
      ReserveMembers(s.sets, a.order.user, a.line.did, a.req.callId, a.cap, a.order.channelCount);
      NotedKeys(s.jobs - {step.j}, Taken({UserSet(a.order.user), DidSet(a.line.did)}, a.req.callId));
    } else {
      assert s.jobs - {step.j} == s.jobs;
    }
  }

  // ---------- when a call is let in ----------

  predicate ReservationResolves(line: DidLine, pick: Option<string>) {
    && line.reservedKind != ""
    && (if line.reservedKind == "audio_group" then line.reservedGroup.Some?
        && pick.Some? else line.reservedTarget != "")
  }

  /** The order may take the call: it and its user are active and the balance covers the minimum. */
  predicate InGoodStanding(cfg: Config, o: OrderLine, balances: map<int, int>) {
    && o.status == Active && o.user in cfg.users && cfg.users[o.user].active
    && Rating.MaxSecondsForBalance(BalanceOf(balances, o.user), o.rate) >= cfg.minSeconds
  }

  predicate HasRoom(sets: Sets, user: int, did: int, userCap: int, didCap: int) {
    (userCap < 0 || |Members(sets, UserSet(user))| < userCap) && |Members(sets, DidSet(did))| < didCap
  }

  /** What the rows say, at the time they are read. */
  predicate Welcome(cfg: Config, req: Request, balances: map<int, int>) {
    && req.e164 != "" && req.srcIpOk && req.aclOk && req.e164 in cfg.dids
    && var line := cfg.dids[req.e164];
       if line.status == Reserved then ReservationResolves(line, req.pick)
       else line.status == Assigned && line.order.Some? && InGoodStanding(cfg, line.order.value, balances)
  }

  /** What the sets say, at the time of the script. */
  predicate Fits(cfg: Config, req: Request, sets: Sets) {
    && req.e164 in cfg.dids
    && var line := cfg.dids[req.e164];
       line.status == Reserved ||
       (line.order.Some? && line.order.value.user in cfg.users
        && HasRoom(sets, line.order.value.user, line.did, cfg.users[line.order.value.user].cap,
                   line.order.value.channelCount)
        && Resolves(line.order.value, req))
  }

  lemma ScreenAllows(cfg: Config, req: Request, balances: map<int, int>)
    ensures !Screen(cfg, req, balances).Refused? <==> Welcome(cfg, req, balances)
    ensures Screen(cfg, req, balances).Unbilled? ==> cfg.dids[req.e164].status == Reserved
    ensures Screen(cfg, req, balances).Billable? ==>
              var v := Screen(cfg, req, balances);
              && v.line == cfg.dids[req.e164] && v.line.status == Assigned && Some(v.order) == v.line.order
              && v.order.user in cfg.users && v.cap == cfg.users[v.order.user].cap
              && v.credit == BalanceOf(balances, v.order.user)
  {
    hide Rating.MaxSecondsForBalance, BalanceOf;
  }

  /** The script grants, and the handler goes on to the index with the seconds its balance covered. */
  lemma TakeAllows(s: State, j: int)
    requires Enabled(s, Take(j))
    ensures var a := s.jobs[j];
      var t := Next(s, Take(j));
      && (j in t.jobs <==>
            HasRoom(s.sets, a.order.user, a.line.did, a.cap, a.order.channelCount) && Resolves(a.order, a.req))
      && (j in t.jobs ==>
            && t.jobs[j].Entering? && t.jobs[j].maxSeconds == Rating.MaxSecondsForBalance(a.credit, a.order.rate)
            && t.jobs[j].call == PaidEntry(a.req, a.line, a.order)
            && a.req.callId in Members(t.sets, UserSet(a.order.user))
            && a.req.callId in Members(t.sets, DidSet(a.line.did)))
  {
    hide CallIds.SanitizeCallID, SAdd, Members, NoteAll, AddGrant, Rating.MaxSecondsForBalance, PaidEntry;
    var a := s.jobs[j];
    ReserveMembers(s.sets, a.order.user, a.line.did, a.req.callId, a.cap, a.order.channelCount);
    NotedKeys(s.jobs - {j}, Taken({UserSet(a.order.user), DidSet(a.line.did)}, a.req.callId));
  }

  /** The authorize has read its rows at `s`, and `t` is a later state: it will answer with an allow. */
  predicate WillEnter(t: State, j: int) {
    j in t.jobs && (t.jobs[j].Entering? || (t.jobs[j].Asking? && j in Next(t, Take(j)).jobs))
  }

  /** The handler goes to the index with the seconds that the given balances cover, holding both its slots. */
  predicate EntersWith(t: State, j: int, id: string, line: DidLine, balances: map<int, int>) {
    && line.order.Some? && j in t.jobs && t.jobs[j].Entering?
    && var o := line.order.value;
       && t.jobs[j].maxSeconds == Rating.MaxSecondsForBalance(BalanceOf(balances, o.user), o.rate)
       && id in Members(t.sets, UserSet(o.user)) && id in Members(t.sets, DidSet(line.did))
  }

  /** Whatever other handlers do between its commands, a call is let in exactly when it comes from the supplier
      of a number that was reserved with a target, or assigned to an order in good standing, when its rows were
      read, and, for a billed call, both sets had room when the script ran. It gets the seconds of the balance
      read in the first moment, and holds both slots from the second one on. */
  lemma AllowedIff(cfg: Config, s: State, j: int, req: Request, others: seq<Step>)
    requires j !in s.jobs && forall i :: 0 <= i < |others| ==> others[i].j != j
    ensures var t := Exec(Next(s, Look(j, cfg, req)), others);
      && (WillEnter(t, j) <==> Welcome(cfg, req, s.balances) && Fits(cfg, req, t.sets))
      && (WillEnter(t, j) && cfg.dids[req.e164].status != Reserved ==>
            EntersWith(Next(t, Take(j)), j, req.callId, cfg.dids[req.e164], s.balances))
  {
    hide Screen, Rating.MaxSecondsForBalance, CallIds.SanitizeCallID, Exec, Members, DoTake, FreeEntry, HasRoom,
        Resolves,
         ReservationResolves, BalanceOf;
    ScreenAllows(cfg, req, s.balances);
    var s1 := Next(s, Look(j, cfg, req));
    OthersLeaveHandler(s1, others, j);
    var t := Exec(s1, others);
    match Screen(cfg, req, s.balances)
    case Refused(_) =>
      assert s1 == s;
    case Unbilled(line, target) =>
      assert s1.jobs[j].Entering?;
      assert t.jobs[j].Entering?;
    case Billable(line, o, cap, credit) =>
      assert s1.jobs[j] == Asking(req, line, o, cap, credit);
      assert t.jobs[j] == s1.jobs[j];
      TakeAllows(t, j);
  }
}
