/** What a listing, reconciler tick or force cleanup evicts over every interleaving: from the moment it has fetched the
    metadata, whatever other handlers do between its commands. */
module TickRuns {
  import opened Basics
  import opened CallControl
  import opened LiveIndex
  import opened Ticks
  import opened Interleaving
  import CallIds

  // ---------- what it is to evict ----------

  /** By the metadata it is about to fetch: listed, younger than two hours, settled where there is a settle window, and
      without a channel that is up. */
  predicate Condemned(s: State, job: Job, k: string, now: int)
    requires job.Ranged?
  {
    && k in job.reply && k in s.meta && s.meta[k].startedAt >= now - 7200
    && match job.purpose
       case Listing => false
       case Reconcile(chans, settle) => s.meta[k].startedAt <= now - settle && !IsUp(s.meta[k], chans)
       case Cleanup(chans) => !IsUp(s.meta[k], chans)
  }

  predicate Outdated(s: State, job: Job, k: string, now: int)
    requires job.Ranged?
  {
    k in job.reply && (k in s.meta ==> s.meta[k].startedAt < now - 7200)
  }

  lemma FetchMeans(s: State, job: Job, k: string, now: int)
    requires OwnKeys(s) && job.Ranged?
    ensures k in Evicted(s, job.reply, job.purpose, now) <==> Condemned(s, job, k, now)
    ensures k in SweptBy(s, job.reply, now) <==> Outdated(s, job, k, now)
  {
    if Condemned(s, job, k, now) {
      assert Listable(s, k, now) && Dead(s.meta[k], job.purpose, now) && s.meta[k].callId == k;
    }
  }

  // ---------- one tick, from its fetch to the end of its release loop ----------

  /** The handler is somewhere between its fetch and its end, with `stale` to drop and `evicted` to evict. */
  ghost predicate Ticking(jobs: map<int, Job>, j: int, stale: set<string>, evicted: set<string>) {
    j in jobs &&
    match jobs[j]
    case Sweeping(x, y) => x == stale && y == evicted
    case Clearing(ids, own, todo, _) => ids == evicted && own == None && todo <= evicted
    case Releasing(ids, own, _, _, _) => ids == evicted && own == None
    case _ => false
  }

  /** What it has yet to deregister. */
  function Remaining(job: Job): set<string> {
    match job
    case Sweeping(_, evicted) => evicted
    case Clearing(_, _, todo, _) => todo
    case _ => {}
  }

  /** The handler's own steps stop short of its end. */
  predicate OnTheWay(step: Step, j: int) {
    step.j == j ==> step.Drop? || step.Unlist? || step.Scan? || step.Page?
  }

  lemma FetchBegins(s: State, j: int, now: int)
    requires Enabled(s, Fetch(j, now))
    ensures var a := s.jobs[j];
      var t := Next(s, Fetch(j, now));
      && Ticking(t.jobs, j, SweptBy(s, a.reply, now), Evicted(s, a.reply, a.purpose, now))
      && Remaining(t.jobs[j]) == Evicted(s, a.reply, a.purpose, now)
      && t.zset == s.zset && t.meta == s.meta
  {
    hide Next, SweptBy, Evicted;
    FetchIs(s, j, now);
  }

  lemma PlainTicks(a: Job, b: Job)
    requires Plain(a) == Plain(b)
    ensures a.Sweeping? ==> a == b
    ensures a.Clearing? ==> b.Clearing? && a.ids == b.ids && a.own == b.own && a.todo == b.todo
    ensures a.Releasing? ==> b.Releasing? && a.ids == b.ids && a.own == b.own
  {
  }

  /** Another handler's step leaves the tick where it is. */
  lemma OthersKeepTicking(s: State, step: Step, j: int, stale: set<string>, evicted: set<string>)
    requires Ticking(s.jobs, j, stale, evicted) && step.j != j
    ensures Ticking(Next(s, step).jobs, j, stale, evicted)
    ensures Remaining(Next(s, step).jobs[j]) == Remaining(s.jobs[j])
    ensures s.jobs[j].Releasing? <==> Next(s, step).jobs[j].Releasing?
  {
    hide Next, Plain;
    OtherLeavesHandler(s, step, j);
    PlainTicks(s.jobs[j], Next(s, step).jobs[j]);
  }

  /** Its own steps: the ZREM of the stale entries, a deregistration, the start of the release loop, a page. */
  lemma DropTicks(s: State, j: int, stale: set<string>, evicted: set<string>)
    requires Ticking(s.jobs, j, stale, evicted) && Enabled(s, Drop(j))
    ensures var t := Next(s, Drop(j));
      && t == s.(zset := s.zset - stale, jobs := t.jobs)
      && (evicted != {} ==>
            Ticking(t.jobs, j, stale, evicted) && Remaining(t.jobs[j]) == evicted && t.jobs[j].Clearing?)
      && (evicted == {} ==> j !in t.jobs)
  {
    hide Next;
    DropIs(s, j);
  }

  lemma UnlistTicks(s: State, j: int, id: string, stale: set<string>, evicted: set<string>)
    requires Ticking(s.jobs, j, stale, evicted) && Enabled(s, Unlist(j, id))
    ensures var t := Next(s, Unlist(j, id));
      && t == s.(zset := t.zset, meta := t.meta, jobs := t.jobs) && Ticking(t.jobs, j, stale, evicted)
      && Remaining(t.jobs[j]) == Remaining(s.jobs[j]) - {id} && t.jobs[j].Clearing?
      && (id == "" ==> t.zset == s.zset && t.meta == s.meta)
      && (id != "" ==> t.zset == s.zset - {id} && t.meta == s.meta - {id})
  {
    hide Next, NoteAll;
    UnlistIs(s, j, id);
    var mid := s.jobs[j := s.jobs[j].(todo := s.jobs[j].todo - {id})];
    NotedUntouched(mid, Gone({id}), j);
    PlainTicks(mid[j], Next(s, Unlist(j, id)).jobs[j]);
  }

  lemma ReleaseTicks(s: State, step: Step, stale: set<string>, evicted: set<string>)
    requires Ticking(s.jobs, step.j, stale, evicted) && Enabled(s, step) && (step.Scan? || step.Page?)
    ensures var t := Next(s, step);
      && t == s.(sets := t.sets, jobs := t.jobs) && Ticking(t.jobs, step.j, stale, evicted) && t.jobs[step.j].Releasing?
      && Remaining(s.jobs[step.j]) == {}
      && (forall key :: Members(s.sets, key) - evicted <= Members(t.sets, key) <= Members(s.sets, key))
  {
    hide Next, NoteAll, ReleaseFrom, Members, Plain;
    var j := step.j;
    if step.Scan? {
      ScanIs(s, j);
    } else {
      PageIs(s, j, step.keys);
      var a := s.jobs[j];
      var mid := s.jobs[j := a.(must := a.must - step.keys)];
      NotedUntouched(mid, Freed(step.keys, a.ids, Next(s, step).sets.Keys), j);
      PlainTicks(mid[j], Next(s, step).jobs[j]);
      forall key ensures Members(s.sets, key) - evicted <= Members(Next(s, step).sets, key) <= Members(s.sets, key) {
        ReleaseMembers(s.sets, a.ids, step.keys, key);
      }
    }
  }

  // ---------- what it leaves alone ----------

  /** No step of the tick touches an entry that was neither stale nor dead at the fetch, nor a slot of an id that was
      not dead. */
  lemma OwnStepsSpareOthers(s: State, step: Step, stale: set<string>, evicted: set<string>, k: string)
    requires Ticking(s.jobs, step.j, stale, evicted) && OnTheWay(step, step.j)
    ensures var t := Next(s, step);
      && (k !in stale + evicted ==> (k in t.zset <==> k in s.zset) && (k in s.zset ==> t.zset[k] == s.zset[k]))
      && (k !in evicted ==> (k in t.meta <==> k in s.meta) && (k in s.meta ==> t.meta[k] == s.meta[k]))
      && (k !in evicted ==> forall key :: k in Members(t.sets, key) <==> k in Members(s.sets, key))
  {
    hide Next, Members, Ticking, Enabled;
    if !Enabled(s, step) {
      Idle(s, step);
    } else if step.Drop? {
      DropTicks(s, step.j, stale, evicted);
    } else if step.Unlist? {
      UnlistTicks(s, step.j, step.id, stale, evicted);
      OnlyEvicted(s, step, stale, evicted);
    } else {
      ReleaseTicks(s, step, stale, evicted);
    }
  }

  lemma OnlyEvicted(s: State, step: Step, stale: set<string>, evicted: set<string>)
    requires Ticking(s.jobs, step.j, stale, evicted) && Enabled(s, step) && step.Unlist?
    ensures step.id in evicted
  {
  }

  // ---------- what it evicts ----------

  predicate Enters(s: State, step: Step, k: string) {
    step.Enter? && Enabled(s, step) && s.jobs[step.j].call.callId == k
  }

  ghost predicate NeverEntered(s: State, steps: seq<Step>, k: string)
    decreases |steps|
  {
    steps != [] ==> !Enters(s, steps[0], k) && NeverEntered(Next(s, steps[0]), steps[1..], k)
  }

  /** Only a registration puts a key into the index. */
  lemma StepKeepsGone(s: State, step: Step, k: string)
    requires k !in s.zset && !Enters(s, step, k)
    ensures k !in Next(s, step).zset
  {
    hide Next, DoLook, DoTake, NoteAll;
    var j := step.j;
    if !Enabled(s, step) {
      Idle(s, step);
    } else if step.Enter? {
      EnterIs(s, j, step.now);
    } else if step.Look? {
      LookIs(s, j, step.cfg, step.req);
      LookShape(s, j, step.cfg, step.req);
    } else if step.Take? {
      var a := s.jobs[j];
      TakeIs(s, j);
      TakeKeepsIndex(s, j, a.req, a.line, a.order, a.cap, a.credit);
    } else if step.Claim? || step.Debit? {
      CdrKeepsIndex(s, step);
    } else if step.Page? {
      hide ReleaseFrom;
      PageIs(s, j, step.keys);
    } else if step.Leave? || step.Unlist? || step.Remove? {
      GoneKeepsGone(s, step, k);
    } else {
      QuietFrame(s, step);
    }
  }

  lemma TakeKeepsIndex(s: State, j: int, req: Request, line: DidLine, o: OrderLine, cap: int, credit: int)
    ensures DoTake(s, j, req, line, o, cap, credit).zset == s.zset
  {
    hide CallIds.SanitizeCallID, Reserve, AddGrant, PaidEntry, NoteAll, Resolves;
  }

  lemma CdrKeepsIndex(s: State, step: Step)
    requires Enabled(s, step) && (step.Claim? || step.Debit?)
    ensures Next(s, step).zset == s.zset
  {
    hide Next, CallIds.SanitizeCallID, PopPending, ChargeOf, DebitFrom;
    if step.Claim? {
      ClaimIs(s, step.j, step.raw, step.e164, step.found, step.billsec, step.timed);
      PopKeepsRest(s, CallIds.SanitizeCallID(step.raw));
    } else {
      DebitIs(s, step.j);
    }
  }

  lemma GoneKeepsGone(s: State, step: Step, k: string)
    requires k !in s.zset && Enabled(s, step) && (step.Leave? || step.Unlist? || step.Remove?)
    ensures k !in Next(s, step).zset
  {
    hide Next, NoteAll;
    match step
    case Leave(j) => LeaveIs(s, j);
    case Unlist(j, id) => UnlistIs(s, j, id);
    case Remove(_, _) => LooseIs(s, step);
  }

  lemma {:induction false} GoneUnlessEntered(s: State, steps: seq<Step>, k: string)
    requires k !in s.zset && NeverEntered(s, steps, k)
    ensures k !in Exec(s, steps).zset
    decreases |steps|
  {
    hide Next, Enters;
    if steps != [] {
      StepKeepsGone(s, steps[0], k);
      GoneUnlessEntered(Next(s, steps[0]), steps[1..], k);
    }
  }

  /** Step `i` of the run deregisters `k`, and unless `k` is entered after it, `k` is not in the index at the end. */
  ghost predicate UnlistedAt(s: State, steps: seq<Step>, j: int, k: string, i: int) {
    && 0 <= i < |steps| && steps[i] == Unlist(j, k)
    && var u := Exec(s, steps[..i]);
       && Enabled(u, Unlist(j, k))
       && (NeverEntered(Next(u, Unlist(j, k)), steps[i + 1..], k) ==> k !in Exec(s, steps).zset)
  }

  lemma UnlistedFirst(s: State, steps: seq<Step>, j: int, k: string, stale: set<string>, evicted: set<string>)
    requires steps != [] && steps[0] == Unlist(j, k) && Enabled(s, steps[0]) && k != ""
    requires Ticking(s.jobs, j, stale, evicted)
    ensures UnlistedAt(s, steps, j, k, 0)
  {
    hide Next;
    assert steps[..0] == [] && steps[0 + 1..] == steps[1..];
    UnlistTicks(s, j, k, stale, evicted);
    if NeverEntered(Next(s, steps[0]), steps[1..], k) {
      GoneUnlessEntered(Next(s, steps[0]), steps[1..], k);
    }
  }

  lemma UnlistedLater(s: State, steps: seq<Step>, j: int, k: string, i: int)
    requires steps != [] && UnlistedAt(Next(s, steps[0]), steps[1..], j, k, i)
    ensures UnlistedAt(s, steps, j, k, i + 1)
  {
    hide Next, Enabled, NeverEntered;
    assert steps[i + 1] == steps[1..][i];
    assert steps[..i + 1][0] == steps[0] && steps[..i + 1][1..] == steps[1..][..i];
    assert steps[i + 1 + 1..] == steps[1..][i + 1..];
  }

  /** A step that is not the deregistration of `k` leaves `k` to be deregistered. */
  lemma StillRemaining(s: State, step: Step, j: int, k: string, stale: set<string>, evicted: set<string>)
    requires Ticking(s.jobs, j, stale, evicted) && k in Remaining(s.jobs[j]) && OnTheWay(step, j)
    requires !(step == Unlist(j, k) && Enabled(s, step))
    ensures Ticking(Next(s, step).jobs, j, stale, evicted) && k in Remaining(Next(s, step).jobs[j])
  {
    hide Next, Enabled;
    if step.j != j {
      OthersKeepTicking(s, step, j, stale, evicted);
    } else if !Enabled(s, step) {
      Idle(s, step);
    } else if step.Drop? {
      DropTicks(s, j, stale, evicted);
    } else if step.Unlist? {
      UnlistTicks(s, j, step.id, stale, evicted);
    } else {
      ReleaseTicks(s, step, stale, evicted);
    }
  }

  lemma {:induction false} EachIsUnlisted(s: State, steps: seq<Step>, j: int, k: string, stale: set<string>,
                                          evicted: set<string>)
    returns (i: int)
    requires Ticking(s.jobs, j, stale, evicted) && k in Remaining(s.jobs[j]) && k != ""
    requires forall m :: 0 <= m < |steps| ==> OnTheWay(steps[m], j)
    requires j in Exec(s, steps).jobs && Exec(s, steps).jobs[j].Releasing?
    ensures UnlistedAt(s, steps, j, k, i)
    decreases |steps|
  {
    hide Next, UnlistedAt, Enabled;
    if steps == [] {
      assert false;
    } else if steps[0] == Unlist(j, k) && Enabled(s, steps[0]) {
      UnlistedFirst(s, steps, j, k, stale, evicted);
      i := 0;
    } else {
      StillRemaining(s, steps[0], j, k, stale, evicted);
      var m := EachIsUnlisted(Next(s, steps[0]), steps[1..], j, k, stale, evicted);
      UnlistedLater(s, steps, j, k, m);
      i := m + 1;
    }
  }

  /** Over every interleaving, by the time a tick has come to release slots, it has deregistered every entry that was
      dead when it fetched the metadata, and such an entry is in the index again only if a handler has entered it
      after that. */
  lemma DeadAreEvicted(s: State, j: int, now: int, steps: seq<Step>, k: string)
    requires OwnKeys(s) && Enabled(s, Fetch(j, now)) && Condemned(s, s.jobs[j], k, now) && k != ""
    requires forall m :: 0 <= m < |steps| ==> OnTheWay(steps[m], j)
    requires var t := Exec(Next(s, Fetch(j, now)), steps); j in t.jobs && t.jobs[j].Releasing?
    ensures exists i :: UnlistedAt(Next(s, Fetch(j, now)), steps, j, k, i)
  {
    hide Next, Exec, UnlistedAt, SweptBy, Evicted, Condemned;
    var a := s.jobs[j];
    FetchMeans(s, a, k, now);
    FetchBegins(s, j, now);
    var i := EachIsUnlisted(Next(s, Fetch(j, now)), steps, j, k, SweptBy(s, a.reply, now),
                            Evicted(s, a.reply, a.purpose, now));
  }

  /** Step `i` takes `k` out of the index. */
  ghost predicate TakenOutAt(s: State, steps: seq<Step>, k: string, i: int) {
    && 0 <= i < |steps| && k in Exec(s, steps[..i]).zset && k !in Next(Exec(s, steps[..i]), steps[i]).zset
  }

  lemma TakenOutLater(s: State, steps: seq<Step>, k: string, i: int)
    requires steps != [] && TakenOutAt(Next(s, steps[0]), steps[1..], k, i)
    ensures TakenOutAt(s, steps, k, i + 1)
  {
    hide Next;
    assert steps[i + 1] == steps[1..][i];
    assert steps[..i + 1][0] == steps[0] && steps[..i + 1][1..] == steps[1..][..i];
  }

  /** On its way or, with nothing to evict, at its end. */
  ghost predicate TicksOrGone(jobs: map<int, Job>, j: int, stale: set<string>, evicted: set<string>) {
    j in jobs ==> Ticking(jobs, j, stale, evicted)
  }

  lemma TicksOn(s: State, step: Step, j: int, stale: set<string>, evicted: set<string>)
    requires TicksOrGone(s.jobs, j, stale, evicted) && OnTheWay(step, j)
    ensures TicksOrGone(Next(s, step).jobs, j, stale, evicted)
  {
    hide Next, Ticking;
    if step.j != j {
      OtherLeavesHandler(s, step, j);
      if j in s.jobs {
        OthersKeepTicking(s, step, j, stale, evicted);
      }
    } else if !Enabled(s, step) {
      Idle(s, step);
    } else if step.Drop? {
      DropTicks(s, j, stale, evicted);
    } else if step.Unlist? {
      UnlistTicks(s, j, step.id, stale, evicted);
    } else {
      ReleaseTicks(s, step, stale, evicted);
    }
  }

  lemma NotItsOwn(s: State, step: Step, j: int, stale: set<string>, evicted: set<string>, k: string)
    requires TicksOrGone(s.jobs, j, stale, evicted) && OnTheWay(step, j) && k !in stale + evicted
    requires k in s.zset && k !in Next(s, step).zset
    ensures step.j != j
  {
    hide Next, Ticking;
    if step.j == j {
      if j in s.jobs {
        OwnStepsSpareOthers(s, step, stale, evicted, k);
      } else {
        Idle(s, step);
      }
    }
  }

  lemma {:induction false} TakenOutByAnother(s: State, steps: seq<Step>, j: int, k: string, stale: set<string>,
                                             evicted: set<string>)
    returns (i: int)
    requires TicksOrGone(s.jobs, j, stale, evicted) && k !in stale + evicted && k in s.zset && k !in Exec(s, steps).zset
    requires forall m :: 0 <= m < |steps| ==> OnTheWay(steps[m], j)
    ensures TakenOutAt(s, steps, k, i) && steps[i].j != j
    decreases |steps|
  {
    hide Next, TicksOrGone, OnTheWay;
    var t := Next(s, steps[0]);
    if k !in t.zset {
      assert steps[..0] == [];
      NotItsOwn(s, steps[0], j, stale, evicted, k);
      i := 0;
    } else {
      TicksOn(s, steps[0], j, stale, evicted);
      i := TakenOutByAnother(t, steps[1..], j, k, stale, evicted);
      TakenOutLater(s, steps, k, i);
      i := i + 1;
    }
  }

  /** Over every interleaving, a tick takes no other entry out of the index: one that was neither stale nor dead when
      it fetched the metadata, and is gone later, was taken out by another handler. */
  lemma OthersAreSpared(s: State, j: int, now: int, steps: seq<Step>, k: string)
    requires OwnKeys(s) && Enabled(s, Fetch(j, now))
    requires !Outdated(s, s.jobs[j], k, now) && !Condemned(s, s.jobs[j], k, now)
    requires forall m :: 0 <= m < |steps| ==> OnTheWay(steps[m], j)
    requires var s1 := Next(s, Fetch(j, now)); k in s1.zset && k !in Exec(s1, steps).zset
    ensures exists i :: TakenOutAt(Next(s, Fetch(j, now)), steps, k, i) && steps[i].j != j
  {
    hide Next, Exec, TakenOutAt, SweptBy, Evicted, Ticking, Condemned, Outdated;
    var a := s.jobs[j];
    FetchMeans(s, a, k, now);
    FetchBegins(s, j, now);
    var i := TakenOutByAnother(Next(s, Fetch(j, now)), steps, j, k, SweptBy(s, a.reply, now),
                               Evicted(s, a.reply, a.purpose, now));
  }

  /** From any state: a listing found a key stale; a call registers under it before the listing drops its stale keys.
      The call is up and no longer listed. */
  lemma NewEntryDropped(s: State, j: int, i: int, now: int)
    requires Enabled(s, Drop(j)) && Enabled(s, Enter(i, now))
    requires s.jobs[i].call.callId in s.jobs[j].stale && s.jobs[i].call.callId != ""
    ensures var k := s.jobs[i].call.callId;
      var t := Next(s, Enter(i, now));
      var u := Next(t, Drop(j));
      k in t.zset && k !in u.zset && k in u.meta && u.meta[k] == s.jobs[i].call.(startedAt := now)
  {
    hide Next, NoteAll, Plain;
    var t := Next(s, Enter(i, now));
    EnterIs(s, i, now);
    OtherLeavesHandler(s, Enter(i, now), j);
    PlainTicks(s.jobs[j], t.jobs[j]);
    DropIs(t, j);
  }
}
