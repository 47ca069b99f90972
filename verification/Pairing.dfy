/** The user sets and the number sets hold the same Call-IDs, over every interleaving: exactly which steps
    break it. And what a finished release loop has freed. */
module Pairing {
  import opened Basics
  import opened CallControl
  import opened LiveIndex
  import opened Windows
  import CallIds

  ghost predicate InUserSet(sets: Sets, id: string) {
    exists u :: id in Members(sets, UserSet(u))
  }

  ghost predicate InDidSet(sets: Sets, id: string) {
    exists d :: id in Members(sets, DidSet(d))
  }

  ghost predicate UnderRelease(jobs: map<int, Job>, id: string) {
    exists j :: j in jobs && jobs[j].Releasing? && id in jobs[j].ids
  }

  /** An id no release loop is working on is in some user's set exactly when it is in some number's. */
  ghost predicate Paired(s: State) {
    forall id :: UnderRelease(s.jobs, id) || (InUserSet(s.sets, id) <==> InDidSet(s.sets, id))
  }

  // ---------- what a release loop knows ----------

  ghost predicate LoopKnows(sets: Sets, job: Job) {
    job.Releasing? ==>
      && (forall p :: p in job.again ==> p.1 in job.ids && p.1 in Members(sets, p.0))
      && (forall k, id :: id in job.ids && id in Members(sets, k) ==> k in job.must || (k, id) in job.again)
  }

  ghost predicate LoopsKnow(s: State) {
    forall j :: j in s.jobs ==> LoopKnows(s.sets, s.jobs[j])
  }

  ghost predicate SetsFollow(before: Sets, after: Sets, e: Event) {
    match e
    case Taken(keys, id) =>
      forall k :: Members(after, k) == if k in keys then Members(before, k) + {id} else Members(before, k)
    case Freed(keys, hand, left) =>
      left == after.Keys && forall k :: Members(after, k) == if k in keys then Members(before, k) - hand
          else Members(before, k)
    case _ => after == before
  }

  lemma NoteKnows(before: Sets, after: Sets, job: Job, e: Event)
    requires LoopKnows(before, job) && SetsFollow(before, after, e)
    ensures LoopKnows(after, Note(job, e))
  {
    hide LostAfter, BackAfter;
    if job.Releasing? && e.Freed? {
      forall k, id | id in job.ids && id in Members(after, k)
        ensures k in job.must * e.left || (k, id) in AgainAfter(job.again, job.ids, e)
      {
        assert k in after;
      }
    }
  }

  lemma NotedKnow(s: State, t: State, jobs: map<int, Job>, e: Event)
    requires forall j :: j in jobs ==> LoopKnows(s.sets, jobs[j])
    requires SetsFollow(s.sets, t.sets, e) && t.jobs == NoteAll(jobs, e)
    ensures LoopsKnow(t)
  {
    hide LoopKnows, SetsFollow, Note;
    forall j | j in t.jobs ensures LoopKnows(t.sets, t.jobs[j]) {
      NoteKnows(s.sets, t.sets, jobs[j], e);
    }
  }

  lemma TakeKnows(s: State, j: int)
    requires LoopsKnow(s) && Enabled(s, Take(j))
    ensures LoopsKnow(Next(s, Take(j)))
  {
    hide DoTake, NoteAll, Reserve, Members, LoopKnows;
    var a := s.jobs[j];
    var e := Taken({UserSet(a.order.user), DidSet(a.line.did)}, a.req.callId);
    var t := Next(s, Take(j));
    TakeShape(s, j, a.req, a.line, a.order, a.cap, a.credit);
    TakeSets(s, j, a.req, a.line, a.order, a.cap, a.credit);
    ReserveMembers(s.sets, a.order.user, a.line.did, a.req.callId, a.cap, a.order.channelCount);
    TakeTells(s, j);
    NotedAre(s.jobs - {j}, e);
    if t.jobs != s.jobs - {j} || t.sets != s.sets {
      NotedKnow(s, t.(jobs := NoteAll(s.jobs - {j}, e)), s.jobs - {j}, e);
      assert t.jobs != s.jobs - {j} ==> forall i :: i in t.jobs && i != j ==> t.jobs[i] == NoteAll(s.jobs - {j}, e)[i];
      if j in t.jobs { OnlyLoops(t, j); }
    }
  }

  /** If the sets changed, the handlers were told. */
  lemma TakeTells(s: State, j: int)
    requires Enabled(s, Take(j))
    ensures var a := s.jobs[j];
      var t := Next(s, Take(j));
      var noted := NoteAll(s.jobs - {j}, Taken({UserSet(a.order.user), DidSet(a.line.did)}, a.req.callId));
      if Reserve(s.sets, a.order.user, a.line.did, a.req.callId, a.cap, a.order.channelCount).1 == 1
      then t.jobs == noted || (j in t.jobs && t.jobs[j].Entering? && t.jobs == noted[j := t.jobs[j]])
      else t.jobs == s.jobs - {j} && t.sets == s.sets
  {
    hide CallIds.SanitizeCallID, Reserve, AddGrant, Rating.MaxSecondsForBalance, PaidEntry, NoteAll, Resolves;
    var a := s.jobs[j];
    var noted := NoteAll(s.jobs - {j}, Taken({UserSet(a.order.user), DidSet(a.line.did)}, a.req.callId));
    var (sets, res) := Reserve(s.sets, a.order.user, a.line.did, a.req.callId, a.cap, a.order.channelCount);
    if res == 1 && Resolves(a.order, a.req) {
      var job := Entering(PaidEntry(a.req, a.line, a.order), Rating.MaxSecondsForBalance(a.credit, a.order.rate), {});
      assert Next(s, Take(j)).jobs == noted[j := job];
    }
  }

  lemma OnlyLoops(s: State, j: int)
    requires j in s.jobs && !s.jobs[j].Releasing?
    ensures LoopKnows(s.sets, s.jobs[j])
  {
  }

  lemma PageKnows(s: State, j: int, keys: set<SetKey>)
    requires LoopsKnow(s) && Enabled(s, Page(j, keys))
    ensures LoopsKnow(Next(s, Page(j, keys)))
  {
    hide ReleaseFrom, Members, NoteAll;
    var a := s.jobs[j];
    var t := Next(s, Page(j, keys));
    var e := Freed(keys, a.ids, t.sets.Keys);
    var told := s.jobs[j := a.(must := a.must - keys)];
    PageFollows(s.sets, a.ids, keys);
    forall i | i in told ensures LoopKnows(t.sets, Note(told[i], e)) {
      if i != j {
        NoteKnows(s.sets, t.sets, s.jobs[i], e);
      } else {
        OwnPageKnows(s.sets, a, keys);
      }
    }
    NotedAre(told, e);
    hide LoopKnows, Note;
  }

  lemma NotedAre(jobs: map<int, Job>, e: Event)
    ensures NoteAll(jobs, e).Keys == jobs.Keys && forall j :: j in jobs ==> NoteAll(jobs, e)[j] == Note(jobs[j], e)
  {
    hide Note;
  }

  lemma PageFollows(sets: Sets, ids: set<string>, keys: set<SetKey>)
    ensures SetsFollow(sets, ReleaseFrom(sets, ids, keys), Freed(keys, ids, ReleaseFrom(sets, ids, keys).Keys))
  {
    hide ReleaseFrom, Members;
    forall k ensures Members(ReleaseFrom(sets, ids, keys), k) == if k in keys then Members(sets, k) - ids
        else Members(sets, k) {
      ReleaseMembers(sets, ids, keys, k);
    }
  }

  lemma OwnPageKnows(sets: Sets, job: Job, keys: set<SetKey>)
    requires job.Releasing? && LoopKnows(sets, job)
    ensures var after := ReleaseFrom(sets, job.ids, keys);
      LoopKnows(after, Note(job.(must := job.must - keys), Freed(keys, job.ids, after.Keys)))
  {
    hide ReleaseFrom, BackAfter;
    var after := ReleaseFrom(sets, job.ids, keys);
    forall k ensures Members(after, k) == if k in keys then Members(sets, k) - job.ids else Members(sets, k) {
      ReleaseMembers(sets, job.ids, keys, k);
    }
    forall k, id | id in job.ids && id in Members(after, k)
      ensures k in (job.must - keys) * after.Keys
          || (k, id) in AgainAfter(job.again, job.ids, Freed(keys, job.ids, after.Keys))
    {
      assert k in after && k !in keys && id in Members(sets, k);
    }
  }

  /** Handlers that are told of something that leaves the sets alone. */
  lemma ToldKnow(s: State, step: Step)
    requires LoopsKnow(s) && Enabled(s, step)
    requires step.Enter? || step.Leave? || step.Unlist? || step.Remove? || step.Rewrite?
    ensures LoopsKnow(Next(s, step))
  {
    hide Next, NoteAll, LoopKnows;
    var j := step.j;
    var t := Next(s, step);
    match step
    case Enter(_, now) =>
      EnterIs(s, j, now);
      if s.jobs[j].call.callId != "" { NotedKnow(s, t, s.jobs - {j}, Entered(s.jobs[j].call.(startedAt := now))); }
    case Leave(_) =>
      LeaveIs(s, j);
      if s.jobs[j].own.Some? && s.jobs[j].own.value != "" { NotedKnow(s, t, s.jobs - {j},
                                                                      Gone({s.jobs[j].own.value})); }
    case Unlist(_, id) =>
      UnlistIs(s, j, id);
      var mid := s.jobs[j := s.jobs[j].(todo := s.jobs[j].todo - {id})];
      assert LoopKnows(s.sets, mid[j]) by { OnlyLoops(s.(jobs := mid), j); }
      if id != "" { NotedKnow(s, t, mid, Gone({id})); }
    case Remove(_, key) =>
      LooseIs(s, step);
      if key != "" { NotedKnow(s, t, s.jobs, Gone({key})); }
    case Rewrite(_) =>
      RewriteIs(s, j);
      NotedKnow(s, t, s.jobs - {j}, Rewritten(s.jobs[j].call));
  }

  lemma MovedKnow(s: State, t: State, j: int)
    requires LoopsKnow(s) && t.sets == s.sets
    requires forall i :: i in t.jobs && i != j ==> i in s.jobs && t.jobs[i] == s.jobs[i]
    requires j in t.jobs ==> LoopKnows(t.sets, t.jobs[j])
    ensures LoopsKnow(t)
  {
    hide LoopKnows;
  }

  lemma QuietKnow(s: State, step: Step)
    requires LoopsKnow(s) && Enabled(s, step)
    requires step.Look? || step.Claim? || step.Debit? || step.Scan? || step.Range? || step.Fetch? || step.Drop?
          || step.Mark? || step.Reread? || step.Book?
    ensures LoopsKnow(Next(s, step))
  {
    hide Next, DoLook, PopPending, CallIds.SanitizeCallID, ChargeOf, DebitFrom;
    var t := Next(s, step);
    var j := step.j;
    if step.Look? {
      LookIs(s, j, step.cfg, step.req);
      LookShape(s, j, step.cfg, step.req);
    } else if step.Claim? {
      ClaimIs(s, j, step.raw, step.e164, step.found, step.billsec, step.timed);
      PopKeepsRest(s, CallIds.SanitizeCallID(step.raw));
    } else if step.Debit? {
      DebitIs(s, j);
    } else {
      QuietFrame(s, step);
      QuietJob(s, step);
    }
    MovedKnow(s, t, j);
  }

  lemma StepKeepsLoops(s: State, step: Step)
    requires LoopsKnow(s)
    ensures LoopsKnow(Next(s, step))
  {
    hide LoopsKnow, LoopKnows;
    if Enabled(s, step) {
      if step.Take? {
        TakeKnows(s, step.j);
      } else if step.Page? {
        PageKnows(s, step.j, step.keys);
      } else if step.Enter? || step.Leave? || step.Unlist? || step.Remove? || step.Rewrite? {
        ToldKnow(s, step);
      } else {
        QuietKnow(s, step);
      }
    }
  }

  lemma {:induction false} LoopsKnowInEveryRun(s: State, steps: seq<Step>)
    requires LoopsKnow(s)
    ensures LoopsKnow(Exec(s, steps))
    decreases |steps|
  {
    hide Next, LoopsKnow;
    if steps != [] {
      StepKeepsLoops(s, steps[0]);
      LoopsKnowInEveryRun(Next(s, steps[0]), steps[1..]);
    }
  }

  /** SCAN's pages come while sets are made and dropped, and show for sure only what was there all along. Still,
      over every interleaving, when a release loop ends, the ids it released are in exactly those sets they were
      put into again since. */
  lemma ReleasedUnlessTakenAgain(s: State, steps: seq<Step>, j: int)
    requires LoopsKnow(s) && Enabled(Exec(s, steps), Leave(j))
    ensures var t := Exec(s, steps);
      forall key, id :: id in t.jobs[j].ids ==>
          (id in Members(Next(t, Leave(j)).sets, key) <==> (key, id) in t.jobs[j].again)
  {
    hide Next, Exec, Members;
    LoopsKnowInEveryRun(s, steps);
    var t := Exec(s, steps);
    OthersKeepSets(t, Leave(j));
    assert LoopKnows(t.sets, t.jobs[j]);
  }

  // ---------- the steps that break the pairing ----------

  ghost predicate AgainUser(job: Job, id: string)
    requires job.Releasing?
  {
    exists u :: (UserSet(u), id) in job.again
  }

  ghost predicate AgainDid(job: Job, id: string)
    requires job.Releasing?
  {
    exists d :: (DidSet(d), id) in job.again
  }

  /** The last release loop of an id ends, and of the slots a script took for that id meanwhile a page has freed
      the user's and not the number's, or the other way round. */
  ghost predicate Unpairs(s: State, step: Step) {
    step.Leave? && Enabled(s, step) &&
    var job := s.jobs[step.j];
    exists id :: id in job.ids && !UnderRelease(s.jobs - {step.j}, id) && AgainUser(job, id) != AgainDid(job, id)
  }

  lemma {:induction false} StillReleased(before: map<int, Job>, after: map<int, Job>, id: string)
    requires forall j :: j in before && before[j].Releasing? && id in before[j].ids ==>
               j in after && after[j].Releasing? && id in after[j].ids
    ensures UnderRelease(before, id) ==> UnderRelease(after, id)
  {
  }

  lemma NoteReleased(jobs: map<int, Job>, e: Event, id: string)
    ensures UnderRelease(NoteAll(jobs, e), id) <==> UnderRelease(jobs, id)
  {
    hide LostAfter, BackAfter, AgainAfter;
    StillReleased(jobs, NoteAll(jobs, e), id);
    StillReleased(NoteAll(jobs, e), jobs, id);
  }

  lemma TakeKeepsPaired(s: State, j: int)
    requires Paired(s) && Enabled(s, Take(j))
    ensures Paired(Next(s, Take(j)))
  {
    hide DoTake, Reserve, Members, NoteAll;
    var a := s.jobs[j];
    var keys := {UserSet(a.order.user), DidSet(a.line.did)};
    var t := Next(s, Take(j));
    TakeTells(s, j);
    TakeSets(s, j, a.req, a.line, a.order, a.cap, a.credit);
    ReserveMembers(s.sets, a.order.user, a.line.did, a.req.callId, a.cap, a.order.channelCount);
    var granted := Reserve(s.sets, a.order.user, a.line.did, a.req.callId, a.cap, a.order.channelCount).1 == 1;
    forall id ensures UnderRelease(s.jobs, id) ==> UnderRelease(t.jobs, id) {
      StillReleased(s.jobs, s.jobs - {j}, id);
      if granted {
        NoteReleased(s.jobs - {j}, Taken(keys, a.req.callId), id);
        NotedAre(s.jobs - {j}, Taken(keys, a.req.callId));
        StillReleased(NoteAll(s.jobs - {j}, Taken(keys, a.req.callId)), t.jobs, id);
      }
    }
    forall id | !UnderRelease(t.jobs, id) ensures InUserSet(t.sets, id) <==> InDidSet(t.sets, id) {
      if granted && id == a.req.callId {
        assert id in Members(t.sets, UserSet(a.order.user)) && id in Members(t.sets, DidSet(a.line.did));
      } else {
        SameMembers(s.sets, t.sets, id);
      }
    }
  }

  lemma SameMembers(before: Sets, after: Sets, id: string)
    requires forall k :: id in Members(after, k) <==> id in Members(before, k)
    ensures InUserSet(after, id) <==> InUserSet(before, id)
    ensures InDidSet(after, id) <==> InDidSet(before, id)
  {
    hide Members;
    if InUserSet(before, id) {
      var u :| id in Members(before, UserSet(u));
      assert id in Members(after, UserSet(u));
    }
    if InDidSet(before, id) {
      var d :| id in Members(before, DidSet(d));
      assert id in Members(after, DidSet(d));
    }
  }

  lemma PageKeepsPaired(s: State, j: int, keys: set<SetKey>)
    requires Paired(s) && Enabled(s, Page(j, keys))
    ensures Paired(Next(s, Page(j, keys)))
  {
    hide ReleaseFrom, Members, NoteAll;
    var a := s.jobs[j];
    var t := Next(s, Page(j, keys));
    var mid := s.jobs[j := a.(must := a.must - keys)];
    forall id ensures UnderRelease(t.jobs, id) <==> UnderRelease(s.jobs, id) {
      StillReleased(s.jobs, mid, id);
      StillReleased(mid, s.jobs, id);
      NoteReleased(mid, Freed(keys, a.ids, t.sets.Keys), id);
    }
    forall id | !UnderRelease(t.jobs, id) ensures InUserSet(t.sets, id) <==> InDidSet(t.sets, id) {
      assert id !in a.ids;
      forall k ensures id in Members(t.sets, k) <==> id in Members(s.sets, k) {
        ReleaseMembers(s.sets, a.ids, keys, k);
      }
      SameMembers(s.sets, t.sets, id);
    }
  }

  lemma LeaveKeepsPairedIff(s: State, j: int)
    requires Paired(s) && LoopsKnow(s) && Enabled(s, Leave(j))
    ensures Paired(Next(s, Leave(j))) <==> !Unpairs(s, Leave(j))
  {
    hide Members, NoteAll, CallIds.SanitizeCallID;
    var job := s.jobs[j];
    var t := Next(s, Leave(j));
    OthersKeepSets(s, Leave(j));
    assert LoopKnows(s.sets, job);
    forall id ensures UnderRelease(t.jobs, id) <==> UnderRelease(s.jobs - {j}, id) {
      if job.own.Some? {
        NoteReleased(s.jobs - {j}, Gone({job.own.value}), id);
      }
    }
    forall id ensures id in job.ids ==>
        (InUserSet(t.sets, id) <==> AgainUser(job, id)) && (InDidSet(t.sets, id) <==> AgainDid(job, id)) {
      if id in job.ids {
        AgainIsWhereItIs(t.sets, job, id);
      }
    }
    forall id | id !in job.ids ensures UnderRelease(s.jobs - {j}, id) <==> UnderRelease(s.jobs, id) {
      StillReleased(s.jobs, s.jobs - {j}, id);
      StillReleased(s.jobs - {j}, s.jobs, id);
    }
  }

  lemma AgainIsWhereItIs(sets: Sets, job: Job, id: string)
    requires job.Releasing? && LoopKnows(sets, job) && job.must == {} && id in job.ids
    ensures InUserSet(sets, id) <==> AgainUser(job, id)
    ensures InDidSet(sets, id) <==> AgainDid(job, id)
  {
    hide Members;
    if InUserSet(sets, id) {
      var u :| id in Members(sets, UserSet(u));
      assert (UserSet(u), id) in job.again;
    }
    if InDidSet(sets, id) {
      var d :| id in Members(sets, DidSet(d));
      assert (DidSet(d), id) in job.again;
    }
    if AgainUser(job, id) {
      var u :| (UserSet(u), id) in job.again;
      assert id in Members(sets, (UserSet(u), id).0);
    }
    if AgainDid(job, id) {
      var d :| (DidSet(d), id) in job.again;
      assert id in Members(sets, (DidSet(d), id).0);
    }
  }

  /** Steps that leave the sets and the release loops alone, or begin one. */
  lemma OthersKeepPaired(s: State, step: Step)
    requires Paired(s) && Enabled(s, step) && !step.Take? && !step.Page? && !step.Leave?
    ensures Paired(Next(s, step))
  {
    hide Members;
    var t := Next(s, step);
    OthersKeepSets(s, step);
    forall id ensures UnderRelease(s.jobs, id) ==> UnderRelease(t.jobs, id) {
      OthersKeepReleases(s, step, id);
    }
  }

  lemma OthersKeepReleases(s: State, step: Step, id: string)
    requires Enabled(s, step) && !step.Take? && !step.Page? && !step.Leave?
    ensures UnderRelease(s.jobs, id) ==> UnderRelease(Next(s, step).jobs, id)
  {
    var t := Next(s, step);
    if UnderRelease(s.jobs, id) {
      var i :| i in s.jobs && s.jobs[i].Releasing? && id in s.jobs[i].ids;
      if i != step.j {
        OtherLeavesHandler(s, step, i);
        SamePlain(s.jobs[i], t.jobs[i]);
      } else {
        LoopMovesOn(s, step);
      }
    }
  }

  lemma SamePlain(a: Job, b: Job)
    requires a.Releasing? && Plain(a) == Plain(b)
    ensures b.Releasing? && b.ids == a.ids
  {
  }

  /** A handler in its release loop has no other step that is its own but pages and the end; admin marks,
      removals and top-ups carry no handler. */
  lemma LoopMovesOn(s: State, step: Step)
    requires Enabled(s, step) && !step.Take? && !step.Page? && !step.Leave?
    requires step.j in s.jobs && s.jobs[step.j].Releasing?
    ensures var t := Next(s, step);
      step.j in t.jobs && t.jobs[step.j].Releasing? && t.jobs[step.j].ids == s.jobs[step.j].ids
  {
    hide LostAfter, BackAfter, AgainAfter;
    assert step.Mark? || step.Remove? || step.Book?;
  }

  lemma StepKeepsPairedIff(s: State, step: Step)
    requires Paired(s) && LoopsKnow(s)
    ensures Paired(Next(s, step)) <==> !Unpairs(s, step)
  {
    hide Paired, LoopsKnow, UnderRelease, AgainUser, AgainDid;
    if Enabled(s, step) {
      if step.Take? {
        TakeKeepsPaired(s, step.j);
      } else if step.Page? {
        PageKeepsPaired(s, step.j, step.keys);
      } else if step.Leave? {
        LeaveKeepsPairedIff(s, step.j);
      } else {
        OthersKeepPaired(s, step);
      }
    }
  }

  ghost predicate PairedThroughout(s: State, steps: seq<Step>)
    decreases |steps|
  {
    Paired(s) && (steps != [] ==> PairedThroughout(Next(s, steps[0]), steps[1..]))
  }

  ghost predicate NeverUnpairs(s: State, steps: seq<Step>)
    decreases |steps|
  {
    steps != [] ==> !Unpairs(s, steps[0]) && NeverUnpairs(Next(s, steps[0]), steps[1..])
  }

  /** Over every interleaving the two families of sets hold the same ids in every state of a run, release loops
      under way aside, exactly when no release loop ends on an id whose slots were taken during the loop and
      then freed by a page on one side only. */
  lemma {:induction false} PairingIff(s: State, steps: seq<Step>)
    requires Paired(s) && LoopsKnow(s)
    ensures PairedThroughout(s, steps) <==> NeverUnpairs(s, steps)
    decreases |steps|
  {
    hide Paired, LoopsKnow, Unpairs, Next;
    if steps != [] {
      StepKeepsPairedIff(s, steps[0]);
      if !Unpairs(s, steps[0]) {
        StepKeepsLoops(s, steps[0]);
        PairingIff(Next(s, steps[0]), steps[1..]);
      }
    }
  }

  // ---------- runs of handlers that stay apart ----------

  ghost predicate NothingTakenAgain(jobs: map<int, Job>) {
    forall j :: j in jobs && jobs[j].Releasing? ==> jobs[j].again == {}
  }

  lemma NotedTakenAgain(jobs: map<int, Job>, e: Event)
    requires NothingTakenAgain(jobs)
    requires e.Taken? ==> forall j :: j in jobs && jobs[j].Releasing? ==> e.id !in jobs[j].ids
    ensures NothingTakenAgain(NoteAll(jobs, e))
  {
    hide LostAfter, BackAfter;
  }

  lemma TakeKeepsNothingTaken(s: State, j: int)
    requires NothingTakenAgain(s.jobs) && Apart(s) && Enabled(s, Take(j))
    ensures NothingTakenAgain(Next(s, Take(j)).jobs)
  {
    hide DoTake, NoteAll, CallIds.SanitizeCallID;
    var a := s.jobs[j];
    TakeShape(s, j, a.req, a.line, a.order, a.cap, a.credit);
    forall i | i in s.jobs && i != j && s.jobs[i].Releasing? ensures a.req.callId !in s.jobs[i].ids {
      NotShared(a, s.jobs[i], a.req.callId);
    }
    NotedTakenAgain(s.jobs - {j}, Taken({UserSet(a.order.user), DidSet(a.line.did)}, a.req.callId));
  }

  lemma ToldNothingTaken(s: State, step: Step)
    requires NothingTakenAgain(s.jobs) && Enabled(s, step)
    requires step.Enter? || step.Page? || step.Leave? || step.Unlist? || step.Remove? || step.Rewrite?
    ensures NothingTakenAgain(Next(s, step).jobs)
  {
    hide CallIds.SanitizeCallID, NoteAll, ReleaseFrom;
    var j := step.j;
    match step
    case Enter(_, now) => NotedTakenAgain(s.jobs - {j}, Entered(s.jobs[j].call.(startedAt := now)));
    case Page(_, keys) =>
      var a := s.jobs[j];
      NotedTakenAgain(s.jobs[j := a.(must := a.must - keys)],
                      Freed(keys, a.ids, ReleaseFrom(s.sets, a.ids, keys).Keys));
    case Leave(_) => if s.jobs[j].own.Some? { NotedTakenAgain(s.jobs - {j}, Gone({s.jobs[j].own.value})); }
    case Unlist(_, id) => NotedTakenAgain(s.jobs[j := s.jobs[j].(todo := s.jobs[j].todo - {id})], Gone({id}));
    case Remove(_, key) => NotedTakenAgain(s.jobs, Gone({key}));
    case Rewrite(_) => NotedTakenAgain(s.jobs - {j}, Rewritten(s.jobs[j].call));
  }

  lemma StepKeepsNothingTaken(s: State, step: Step)
    requires NothingTakenAgain(s.jobs) && Apart(s)
    ensures NothingTakenAgain(Next(s, step).jobs)
  {
    if Enabled(s, step) {
      if step.Take? {
        TakeKeepsNothingTaken(s, step.j);
      } else if step.Look? {
        hide DoLook;
        LookShape(s, step.j, step.cfg, step.req);
      } else if step.Enter? || step.Page? || step.Leave? || step.Unlist? || step.Remove? || step.Rewrite? {
        ToldNothingTaken(s, step);
      } else if step.Claim? {
        hide PopPending, CallIds.SanitizeCallID;
        PopKeepsRest(s, CallIds.SanitizeCallID(step.raw));
      } else {
        hide CallIds.SanitizeCallID, ChargeOf, DebitFrom, SweptBy, Evicted, Missing;
      }
    }
  }

  /** Handlers that stay apart keep the sets paired. */
  lemma {:induction false} ApartRunsArePaired(s: State, steps: seq<Step>)
    requires Paired(s) && LoopsKnow(s) && NothingTakenAgain(s.jobs) && ApartThroughout(s, steps)
    ensures PairedThroughout(s, steps)
    decreases |steps|
  {
    hide Paired, LoopsKnow, NothingTakenAgain, Next, Apart;
    if steps != [] {
      assert !Unpairs(s, steps[0]) by { NothingToUnpair(s, steps[0]); }
      StepKeepsPairedIff(s, steps[0]);
      StepKeepsLoops(s, steps[0]);
      StepKeepsNothingTaken(s, steps[0]);
      ApartRunsArePaired(Next(s, steps[0]), steps[1..]);
    }
  }

  lemma NothingToUnpair(s: State, step: Step)
    requires NothingTakenAgain(s.jobs)
    ensures !Unpairs(s, step)
  {
  }

  // ---------- a retransmission inside a release ----------

  /** Whatever the state: a teardown has released a Call-ID everywhere but not ended, the id is granted its slots
      again, and a late page shows the number sets once more. The id stays in its user's set and in no number's. */
  lemma RetryInsideRelease(s: State, i: int, j: int, keys: set<SetKey>)
    requires Paired(s) && LoopsKnow(s) && Enabled(s, Take(j)) && i in s.jobs && s.jobs[i].Releasing?
    requires s.jobs[i].must == {} && s.jobs[i].again == {} && s.jobs[j].req.callId in s.jobs[i].ids
    requires var a := s.jobs[j];
      Reserve(s.sets, a.order.user, a.line.did, a.req.callId, a.cap, a.order.channelCount).1 == 1
    requires !UnderRelease(s.jobs - {i}, s.jobs[j].req.callId)
    requires DidSet(s.jobs[j].line.did) in keys && UserSet(s.jobs[j].order.user) !in keys
    ensures !Paired(Next(Next(Next(s, Take(j)), Page(i, keys)), Leave(i)))
  {
    hide Next, Paired, LoopsKnow, UnderRelease, Reserve;
    var a := s.jobs[j];
    var s1 := Next(s, Take(j));
    TakeKeepsPaired(s, j);
    StepKeepsLoops(s, Take(j));
    RetryIsNoted(s, i, j);
    AloneAfterTake(s, i, j);
    var s2 := Next(s1, Page(i, keys));
    PageKeepsPaired(s1, i, keys);
    StepKeepsLoops(s1, Page(i, keys));
    LatePage(s1, i, keys, UserSet(a.order.user), DidSet(a.line.did), a.req.callId);
    LeaveKeepsPairedIff(s2, i);
  }

  lemma RetryIsNoted(s: State, i: int, j: int)
    requires Enabled(s, Take(j)) && i in s.jobs && s.jobs[i].Releasing?
    requires s.jobs[i].must == {} && s.jobs[i].again == {} && s.jobs[j].req.callId in s.jobs[i].ids
    requires var a := s.jobs[j];
      Reserve(s.sets, a.order.user, a.line.did, a.req.callId, a.cap, a.order.channelCount).1 == 1
    ensures var t := Next(s, Take(j)).jobs;
      && i in t && t[i].Releasing? && t[i].ids == s.jobs[i].ids && t[i].must == {}
      && t[i].again == {(UserSet(s.jobs[j].order.user), s.jobs[j].req.callId),
                        (DidSet(s.jobs[j].line.did), s.jobs[j].req.callId)}
  {
    hide Next, Note, NoteAll, Reserve;
    var a := s.jobs[j];
    var e := Taken({UserSet(a.order.user), DidSet(a.line.did)}, a.req.callId);
    TakeTells(s, j);
    NotedAre(s.jobs - {j}, e);
    TakenAgain(s.jobs[i], e, {(UserSet(a.order.user), a.req.callId), (DidSet(a.line.did), a.req.callId)});
  }

  lemma LatePage(s: State, i: int, keys: set<SetKey>, userKey: SetKey, didKey: SetKey, id: string)
    requires i in s.jobs && s.jobs[i].Releasing? && s.jobs[i].must == {} && id in s.jobs[i].ids
    requires s.jobs[i].again == {(userKey, id), (didKey, id)} && userKey.UserSet? && didKey.DidSet?
    requires userKey !in keys && didKey in keys && !UnderRelease(s.jobs - {i}, id)
    ensures var t := Next(s, Page(i, keys));
      Enabled(t, Leave(i)) && Unpairs(t, Leave(i))
  {
    hide ReleaseFrom, NoteAll, Note;
    var a := s.jobs[i].(must := s.jobs[i].must - keys);
    var t := Next(s, Page(i, keys));
    var f := Freed(keys, a.ids, t.sets.Keys);
    NotedAre(s.jobs[i := a], f);
    assert t.jobs == NoteAll(s.jobs[i := a], f);
    PageTakesOneSide(a, f, userKey, didKey, id, a.again);
    forall k | k in t.jobs - {i} ensures Note(s.jobs[k], f) == t.jobs[k]
        && (t.jobs[k].Releasing? ==> id !in t.jobs[k].ids) {
      NoteKeepsIds(s.jobs[k], f);
      if s.jobs[k].Releasing? { NotUnder(s.jobs - {i}, k, id); }
    }
  }

  lemma TakenAgain(job: Job, e: Event, again: set<(SetKey, string)>)
    requires job.Releasing? && job.must == {} && job.again == {} && e.Taken? && e.id in job.ids
    requires again == set k | k in e.keys :: (k, e.id)
    ensures Note(job, e).Releasing? && Note(job, e).ids == job.ids && Note(job, e).must == {}
        && Note(job, e).again == again
  {
  }

  lemma PageTakesOneSide(job: Job, f: Event, userKey: SetKey, didKey: SetKey, id: string, again: set<(SetKey, string)>)
    requires job.Releasing? && job.must == {} && job.again == again && f.Freed? && f.ids == job.ids && id in job.ids
    requires again == {(userKey, id), (didKey, id)} && userKey.UserSet? && didKey.DidSet?
    requires userKey !in f.keys && didKey in f.keys
    ensures var after := Note(job, f);
      after.Releasing? && after.ids == job.ids && after.must == {} && AgainUser(after, id) && !AgainDid(after, id)
  {
    var after := Note(job, f);
    assert (userKey, id) in after.again;
    assert (UserSet(userKey.user), id) in after.again;
  }

  lemma AloneAfterTake(s: State, i: int, j: int)
    requires Enabled(s, Take(j)) && i in s.jobs && s.jobs[i].Releasing?
    requires var a := s.jobs[j];
      Reserve(s.sets, a.order.user, a.line.did, a.req.callId, a.cap, a.order.channelCount).1 == 1
    requires !UnderRelease(s.jobs - {i}, s.jobs[j].req.callId)
    ensures !UnderRelease(Next(s, Take(j)).jobs - {i}, s.jobs[j].req.callId)
  {
    hide DoTake, Note, NoteAll, CallIds.SanitizeCallID, Reserve;
    var a := s.jobs[j];
    var e := Taken({UserSet(a.order.user), DidSet(a.line.did)}, a.req.callId);
    TakeTells(s, j);
    NotedAre(s.jobs - {j}, e);
    var t := Next(s, Take(j)).jobs - {i};
    forall k | k in t && t[k].Releasing? ensures a.req.callId !in t[k].ids {
      assert k != j && t[k] == Note(s.jobs[k], e);
      NoteKeepsIds(s.jobs[k], e);
      NotUnder(s.jobs - {i}, k, a.req.callId);
    }
  }

  lemma NoteKeepsIds(job: Job, e: Event)
    ensures Note(job, e).Releasing? <==> job.Releasing?
    ensures job.Releasing? ==> Note(job, e).ids == job.ids
  {
    hide LostAfter, BackAfter, AgainAfter;
  }

  lemma NotUnder(jobs: map<int, Job>, k: int, id: string)
    requires !UnderRelease(jobs, id) && k in jobs && jobs[k].Releasing?
    ensures id !in jobs[k].ids
  {
  }
}
