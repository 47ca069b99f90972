/** Runs in which no two handlers have the same Call-ID in hand, one to use it and one to release it: the
    live index and the reservation sets agree in all of them. And what happens in the others. */
module Windows {
  import opened Basics
  import opened CallIds
  import opened CallControl
  import opened LiveIndex
  import opened Agreement

  // ---------- handlers that stay apart ----------

  /** An authorize from its reading of the rows to its index entry, a route update from its re-read to its write. */
  predicate Uses(job: Job) {
    job.Asking? || job.Entering? || job.Rerouting?
  }

  /** The raw Call-ID and the index key a handler works on. */
  function InHand(job: Job): set<string> {
    match job
    case Asking(req, _, _, _, _) => {req.callId, SanitizeCallID(req.callId)}
    case Entering(c, _, _) => {c.full, c.callId}
    case Rerouting(key, c, _, _) => {c.full, key}
    case Clearing(ids, _, _, _) => ids
    case Releasing(ids, _, _, _, _) => ids
    case _ => {}
  }

  predicate Clash(a: Job, b: Job) {
    || (Uses(a) && HasHand(b) && InHand(a) * InHand(b) != {})
    || (a.Rerouting? && b.Entering? && b.call.callId == a.key)
  }

  ghost predicate Apart(s: State) {
    forall i, j :: i in s.jobs && j in s.jobs && i != j ==> !Clash(s.jobs[i], s.jobs[j])
  }

  ghost predicate ApartThroughout(s: State, steps: seq<Step>)
    decreases |steps|
  {
    Apart(s) && (steps != [] ==> ApartThroughout(Next(s, steps[0]), steps[1..]))
  }

  predicate Unharmed(job: Job) {
    match job
    case Entering(c, _, lost) => c.reserved || lost == {}
    case Clearing(_, own, _, back) => own.None? ==> back == {}
    case Releasing(_, own, back, _, _) => own.None? ==> back == {}
    case Rerouting(_, _, _, replaced) => !replaced
    case _ => true
  }

  ghost predicate OneCallAKey(jobs: map<int, Job>) {
    forall i, j :: i in jobs && j in jobs && jobs[i].Rerouting? && jobs[j].Rerouting? && jobs[i].key == jobs[j].key
      ==> SameCall(jobs[i].call, jobs[j].call)
  }

  ghost predicate AllUnharmed(s: State) {
    (forall j :: j in s.jobs ==> Unharmed(s.jobs[j])) && OneCallAKey(s.jobs)
  }

  /** The event does not concern the handler. */
  predicate Spares(job: Job, e: Event) {
    match e
    case Freed(_, ids, _) => job.Entering? ==> job.call.full !in ids
    case Entered(c) =>
      (HasHand(job) ==> c.callId !in job.ids) && (job.Rerouting? ==> c.callId != job.key)
    case Rewritten(c) => job.Rerouting? && c.callId == job.key ==> SameCall(c, job.call)
    case _ => true
  }

  lemma SparedStaysUnharmed(job: Job, e: Event)
    requires Unharmed(job) && Spares(job, e)
    ensures Unharmed(Note(job, e))
  {
  }

  lemma NotedUnharmed(jobs: map<int, Job>, e: Event)
    requires forall j :: j in jobs ==> Unharmed(jobs[j]) && Spares(jobs[j], e)
    requires OneCallAKey(jobs)
    ensures forall j :: j in jobs ==> Unharmed(NoteAll(jobs, e)[j])
    ensures OneCallAKey(NoteAll(jobs, e))
  {
    hide Unharmed, Spares, LostAfter, BackAfter, AgainAfter;
    forall j | j in jobs ensures Unharmed(NoteAll(jobs, e)[j]) {
      SparedStaysUnharmed(jobs[j], e);
    }
    var after := NoteAll(jobs, e);
    forall i, j | i in after && j in after && after[i].Rerouting? && after[j].Rerouting? && after[i].key == after[j].key
      ensures SameCall(after[i].call, after[j].call)
    {
      assert jobs[i].Rerouting? && jobs[j].Rerouting? && jobs[i].key == jobs[j].key;
      assert after[i].call == jobs[i].call && after[j].call == jobs[j].call;
    }
  }

  /** A handler that moves on without harm, the others as they were. */
  lemma MovedUnharmed(s: State, t: State, j: int)
    requires AllUnharmed(s)
    requires forall i :: i in t.jobs && i != j ==> i in s.jobs && t.jobs[i] == s.jobs[i]
    requires j in t.jobs ==> Unharmed(t.jobs[j])
    requires j in t.jobs && t.jobs[j].Rerouting? ==>
               forall i :: i in s.jobs && s.jobs[i].Rerouting? && s.jobs[i].key == t.jobs[j].key ==>
                 SameCall(s.jobs[i].call, t.jobs[j].call)
    ensures AllUnharmed(t)
  {
    hide Unharmed;
  }

  lemma TakeUnharmed(s: State, j: int, req: Request, line: DidLine, o: OrderLine, cap: int, credit: int)
    requires AllUnharmed(s)
    ensures AllUnharmed(DoTake(s, j, req, line, o, cap, credit))
  {
    hide SanitizeCallID, Reserve, AddGrant, Rating.MaxSecondsForBalance, PaidEntry, Note;
    var e := Taken({UserSet(o.user), DidSet(line.did)}, req.callId);
    var rest := s.(jobs := s.jobs - {j});
    MovedUnharmed(s, rest, j);
    NotedUnharmed(rest.jobs, e);
    var noted := rest.(jobs := NoteAll(rest.jobs, e));
    var t := DoTake(s, j, req, line, o, cap, credit);
    TakeShape(s, j, req, line, o, cap, credit);
    hide DoTake, Unharmed;
    if t.jobs != rest.jobs && t.jobs != noted.jobs {
      assert Unharmed(t.jobs[j]) by { FreshIsUnharmed(t.jobs[j]); }
      MovedUnharmed(noted, t, j);
    }
  }

  lemma FreshIsUnharmed(job: Job)
    requires job.Entering? && job.lost == {}
    ensures Unharmed(job)
  {
  }

  lemma NotShared(a: Job, b: Job, x: string)
    requires Uses(a) && HasHand(b) && !Clash(a, b) && x in InHand(a)
    ensures x !in b.ids
  {
    var both := InHand(a) * InHand(b);
    assert both == {};
    assert x in InHand(b) <==> x in both;
  }

  lemma EnterUnharmed(s: State, j: int, now: int)
    requires AllUnharmed(s) && Apart(s) && Enabled(s, Enter(j, now))
    ensures AllUnharmed(Next(s, Enter(j, now)))
  {
    hide SanitizeCallID, Note, Unharmed;
    var c := s.jobs[j].call.(startedAt := now);
    var rest := s.(jobs := s.jobs - {j});
    MovedUnharmed(s, rest, j);
    forall i | i in rest.jobs ensures Spares(rest.jobs[i], Entered(c)) {
      assert !Clash(s.jobs[i], s.jobs[j]) && !Clash(s.jobs[j], s.jobs[i]);
      if HasHand(s.jobs[i]) {
        NotShared(s.jobs[j], s.jobs[i], c.callId);
      }
    }
    NotedUnharmed(rest.jobs, Entered(c));
  }

  lemma PageUnharmed(s: State, j: int, keys: set<SetKey>)
    requires AllUnharmed(s) && Apart(s) && Enabled(s, Page(j, keys))
    ensures AllUnharmed(Next(s, Page(j, keys)))
  {
    hide SanitizeCallID, Note, ReleaseFrom;
    var a := s.jobs[j];
    var mid := s.(jobs := s.jobs[j := a.(must := a.must - keys)]);
    MovedUnharmed(s, mid, j);
    var e := Freed(keys, a.ids, ReleaseFrom(s.sets, a.ids, keys).Keys);
    forall i | i in mid.jobs ensures Spares(mid.jobs[i], e) {
      if i != j && s.jobs[i].Entering? {
        NotShared(s.jobs[i], a, s.jobs[i].call.full);
      }
    }
    NotedUnharmed(mid.jobs, e);
  }

  lemma DeregisterUnharmed(s: State, id: string)
    requires AllUnharmed(s)
    ensures AllUnharmed(Deregister(s, id))
  {
    hide Note, Unharmed;
    if id != "" {
      forall i | i in s.jobs ensures Spares(s.jobs[i], Gone({id})) {
      }
      NotedUnharmed(s.jobs, Gone({id}));
    }
  }

  lemma RewriteUnharmed(s: State, j: int, ids: iset<string>)
    requires AllUnharmed(s) && Inv(s, ids) && Enabled(s, Rewrite(j))
    ensures AllUnharmed(Next(s, Rewrite(j)))
  {
    hide SanitizeCallID, Note, Unharmed, Tracks;
    var a := s.jobs[j];
    assert JobFits(s, a, ids);
    var rest := s.(jobs := s.jobs - {j});
    MovedUnharmed(s, rest, j);
    NotedUnharmed(rest.jobs, Rewritten(a.call));
  }

  lemma RereadUnharmed(s: State, step: Step, ids: iset<string>)
    requires AllUnharmed(s) && Inv(s, ids) && step.Reread? && Enabled(s, step)
    ensures AllUnharmed(Next(s, step))
  {
    hide SanitizeCallID, Missing, Tracks;
    var t := Next(s, step);
    if step.key in s.meta {
      forall i | i in s.jobs && s.jobs[i].Rerouting? && s.jobs[i].key == step.key
        ensures SameCall(s.jobs[i].call, s.meta[step.key])
      {
        assert JobFits(s, s.jobs[i], ids) && Unharmed(s.jobs[i]);
      }
    }
    MovedUnharmed(s, t, step.j);
  }

  lemma ListUnharmed(s: State, step: Step)
    requires AllUnharmed(s) && Enabled(s, step)
    requires step.Scan? || step.Range? || step.Fetch? || step.Drop? || step.Mark? || step.Book?
    ensures AllUnharmed(Next(s, step))
  {
    hide Next;
    QuietFrame(s, step);
    QuietJob(s, step);
    assert step.Scan? ==> Unharmed(s.jobs[step.j]);
    MovedUnharmed(s, Next(s, step), step.j);
  }

  lemma LookUnharmed(s: State, j: int, cfg: Config, req: Request)
    requires AllUnharmed(s) && j !in s.jobs
    ensures AllUnharmed(DoLook(s, j, cfg, req))
  {
    hide DoLook;
    LookShape(s, j, cfg, req);
    MovedUnharmed(s, DoLook(s, j, cfg, req), j);
  }

  lemma CdrUnharmed(s: State, step: Step)
    requires AllUnharmed(s) && Enabled(s, step) && (step.Claim? || step.Debit?)
    ensures AllUnharmed(Next(s, step))
  {
    hide SanitizeCallID, PopPending, ChargeOf, DebitFrom;
    if step.Claim? {
      PopKeepsJobs(s, SanitizeCallID(step.raw));
    }
    MovedUnharmed(s, Next(s, step), step.j);
  }

  lemma PopKeepsJobs(s: State, key: string)
    ensures PopPending(s, key).0.jobs == s.jobs
  {
  }

  lemma EndUnharmed(s: State, step: Step)
    requires AllUnharmed(s) && Enabled(s, step) && (step.Leave? || step.Unlist?)
    ensures AllUnharmed(Next(s, step))
  {
    hide SanitizeCallID, Deregister;
    var j := step.j;
    if step.Leave? {
      var rest := s.(jobs := s.jobs - {j});
      MovedUnharmed(s, rest, j);
      if s.jobs[j].own.Some? {
        DeregisterUnharmed(rest, s.jobs[j].own.value);
      }
    } else {
      var mid := s.(jobs := s.jobs[j := s.jobs[j].(todo := s.jobs[j].todo - {step.id})]);
      assert Unharmed(s.jobs[j]);
      MovedUnharmed(s, mid, j);
      DeregisterUnharmed(mid, step.id);
    }
  }

  lemma StepKeepsUnharmed(s: State, step: Step, ids: iset<string>)
    requires Inv(s, ids) && AllUnharmed(s) && Apart(s)
    ensures AllUnharmed(Next(s, step))
  {
    hide Inv, AllUnharmed, Apart, DoLook, DoTake, DoClaim, DoDebit, DoLeave, DoUnlist, DoDrop, DoReread, Register,
        Deregister,
         DoPage, DoRewrite, SweptBy, Evicted;
    if Enabled(s, step) {
      match step
      case Look(j, cfg, req) => LookUnharmed(s, j, cfg, req);
      case Claim(_, _, _, _, _, _) => CdrUnharmed(s, step);
      case Debit(_) => CdrUnharmed(s, step);
      case Take(j) => TakeUnharmed(s, j, s.jobs[j].req, s.jobs[j].line, s.jobs[j].order, s.jobs[j].cap,
                                   s.jobs[j].credit);
      case Enter(j, now) => EnterUnharmed(s, j, now);
      case Page(j, keys) => PageUnharmed(s, j, keys);
      case Leave(_) => EndUnharmed(s, step);
      case Unlist(_, _) => EndUnharmed(s, step);
      case Remove(_, key) => DeregisterUnharmed(s, key);
      case Reread(_, _, _, _, _) => RereadUnharmed(s, step, ids);
      case Rewrite(j) => RewriteUnharmed(s, j, ids);
      case _ => ListUnharmed(s, step);
    }
  }

  lemma UnharmedNeverBreaks(s: State, step: Step)
    requires AllUnharmed(s)
    ensures !Breaks(s, step)
  {
    hide TornDown, TakesSlots;
    if Enabled(s, step) && (step.Enter? || step.Page? || step.Rewrite?) {
      assert Unharmed(s.jobs[step.j]);
    }
  }

  lemma {:induction false} ApartRunsAgree(s: State, steps: seq<Step>, ids: iset<string>)
    requires Inv(s, ids) && SafeIds(ids) && PresentsOnly(steps, ids) && LiveAgrees(s)
    requires AllUnharmed(s) && ApartThroughout(s, steps)
    ensures Breakless(s, steps) && AgreesThroughout(s, steps)
    ensures Inv(Exec(s, steps), ids) && LiveAgrees(Exec(s, steps))
    decreases |steps|
  {
    hide Inv, SafeIds, LiveAgrees, Breaks, Next, AllUnharmed, Apart;
    if steps != [] {
      UnharmedNeverBreaks(s, steps[0]);
      StepKeepsAgreementIff(s, steps[0], ids);
      StepKeepsInv(s, steps[0], ids);
      StepKeepsUnharmed(s, steps[0], ids);
      ApartRunsAgree(Next(s, steps[0]), steps[1..], ids);
    }
  }

  /** From a quiet state, over every interleaving in which no handler releases, deregisters or evicts a
      Call-ID or key another one is using: in the end, and whenever no teardown is under way, every live
      billed call is in its user's and its number's set. */
  lemma LiveImpliesReserved(s: State, steps: seq<Step>, ids: iset<string>)
    requires s.jobs == map[] && Indexed(s, ids) && LiveReserved(s)
    requires SafeIds(ids) && PresentsOnly(steps, ids) && ApartThroughout(s, steps)
    ensures AgreesThroughout(s, steps)
    ensures var t := Exec(s, steps);
      (forall j, full :: j in t.jobs ==> !Tears(t.jobs[j], full)) ==> LiveReserved(t)
  {
    hide Indexed, SafeIds, LiveReserved, LiveAgrees, AgreesThroughout, Exec;
    QuietAgreement(s);
    ApartRunsAgree(s, steps, ids);
    var t := Exec(s, steps);
    if forall j, full :: j in t.jobs ==> !Tears(t.jobs[j], full) {
      QuietAgreement(t);
    }
  }
}
