/** What a user's running calls, and the authorizes that have read the balance, can still cost: how far below zero
    that can drive the balance over every interleaving, given how many calls are ever up at once. */
module AtStake {
  import opened Basics
  import opened CallControl
  import opened LiveIndex
  import Caps
  import CallIds
  import Rating

  // ---------- what is still at stake ----------

  function OpenOf(granted: map<Ticket, Grant>, user: int): set<Ticket> {
    set t | t in granted && granted[t].user == user
  }

  function Credits(granted: map<Ticket, Grant>): map<Ticket, int> {
    map t | t in granted :: Rating.Positive(granted[t].credit)
  }

  /** The most the user's running calls can still cost. */
  ghost function Exposure(granted: map<Ticket, Grant>, user: int): int {
    Sum(Credits(granted), OpenOf(granted, user))
  }

  function CreditFor(granted: map<Ticket, Grant>, t: Ticket, user: int): int {
    if t in granted && granted[t].user == user then Rating.Positive(granted[t].credit) else 0
  }

  lemma ExposureWithout(granted: map<Ticket, Grant>, t: Ticket, user: int)
    ensures Exposure(granted, user) == Exposure(granted - {t}, user) + CreditFor(granted, t, user)
  {
    var open := OpenOf(granted, user);
    assert OpenOf(granted - {t}, user) == open - {t};
    SumAgrees(Credits(granted), Credits(granted - {t}), open - {t});
    if t in open {
      SumRemove(Credits(granted), open, t);
    } else {
      assert open - {t} == open;
    }
  }

  lemma ExposureReplaced(granted: map<Ticket, Grant>, t: Ticket, g: Grant, user: int)
    ensures Exposure(granted[t := g], user) == Exposure(granted - {t}, user) + CreditFor(granted[t := g], t, user)
  {
    assert granted[t := g] - {t} == granted - {t};
    ExposureWithout(granted[t := g], t, user);
  }

  lemma ExposureBounds(granted: map<Ticket, Grant>, user: int, peak: int)
    requires forall t :: t in OpenOf(granted, user) ==> granted[t].credit <= peak
    requires 0 <= peak
    ensures 0 <= Exposure(granted, user) <= |OpenOf(granted, user)| * peak
  {
    SumBounds(Credits(granted), OpenOf(granted, user), peak);
  }

  // ---------- authorizes that have read a balance ----------

  /** The authorizes between their reading of the rows and their reservation. */
  function Askers(jobs: map<int, Job>): map<int, Job> {
    map j | j in jobs && jobs[j].Asking? :: jobs[j]
  }

  function Readers(jobs: map<int, Job>, user: int): set<int> {
    set j | j in jobs && jobs[j].Asking? && jobs[j].order.user == user
  }

  function Promises(jobs: map<int, Job>): map<int, int> {
    map j | j in jobs && jobs[j].Asking? :: Rating.Positive(jobs[j].credit)
  }

  ghost function Promised(jobs: map<int, Job>, user: int): int {
    Sum(Promises(jobs), Readers(jobs, user))
  }

  function PromiseFor(jobs: map<int, Job>, j: int, user: int): int {
    if j in Readers(jobs, user) then Rating.Positive(jobs[j].credit) else 0
  }

  lemma PromisedWithout(jobs: map<int, Job>, j: int, user: int)
    ensures Readers(jobs - {j}, user) == Readers(jobs, user) - {j}
    ensures Promised(jobs, user) == Promised(jobs - {j}, user) + PromiseFor(jobs, j, user)
  {
    var readers := Readers(jobs, user);
    SumAgrees(Promises(jobs), Promises(jobs - {j}), readers - {j});
    if j in readers {
      SumRemove(Promises(jobs), readers, j);
    } else {
      assert readers - {j} == readers;
    }
  }

  lemma PromisedBounds(jobs: map<int, Job>, user: int, peak: int)
    requires forall j :: j in Readers(jobs, user) ==> jobs[j].credit <= peak
    requires 0 <= peak
    ensures 0 <= Promised(jobs, user) <= |Readers(jobs, user)| * peak
  {
    forall j | j in Readers(jobs, user) ensures 0 <= Promises(jobs)[j] <= peak {
      assert jobs[j].credit <= peak;
    }
    SumBounds(Promises(jobs), Readers(jobs, user), peak);
  }

  lemma SameAskers(a: map<int, Job>, b: map<int, Job>, user: int)
    requires Askers(a) == Askers(b)
    ensures Readers(a, user) == Readers(b, user) && Promised(a, user) == Promised(b, user)
    ensures forall j :: j in Readers(a, user) ==> a[j] == b[j]
  {
    forall j ensures j in a && a[j].Asking? <==> j in b && b[j].Asking? {
      assert j in Askers(a) <==> j in Askers(b);
    }
    forall j | j in a && a[j].Asking? ensures a[j] == b[j] {
      assert Askers(a)[j] == Askers(b)[j];
    }
    SumAgrees(Promises(a), Promises(b), Readers(a, user));
  }

  // ---------- what the callers and the operators do ----------

  ghost predicate ValidBilling(cfg: Config) {
    forall e :: e in cfg.dids && HasOrder(cfg, cfg.dids[e]) ==>
      var o := cfg.dids[e].order.value; o.rate >= 0.0 && Rating.SafeCycle(o.billMin, o.billInc)
  }

  /** A teardown is for a call that was let in, bills its own order, lasts no longer than granted and
      comes once; no release overtakes it; the rows are fixed. */
  ghost predicate Lawful(cfg: Config, s: State, step: Step) {
    match step
    case Look(_, own, _) => own == cfg
    case Debit(j) => Enabled(s, step) ==> LawfulBill(cfg, s.granted, s.jobs[j])
    case Page(j, _) => Enabled(s, step) ==> forall t :: t in s.granted ==> t.callId !in s.jobs[j].ids
    case _ => true
  }

  ghost predicate LawfulBill(cfg: Config, granted: map<Ticket, Grant>, job: Job)
    requires job.Settling?
  {
    var t := Ticket(job.raw, job.e164);
    if t in granted then
      job.e164 in cfg.dids && job.found == cfg.dids[job.e164].order && job.billsec <= granted[t].maxSeconds
    else job.found.None? || job.billsec <= 0
  }

  /** A Call-ID that is let in is not up on another number. */
  ghost predicate OneNumber(s: State, step: Step) {
    step.Take? && Enabled(s, step) ==>
      forall t :: t in s.granted && t.callId == s.jobs[step.j].req.callId ==> t.e164 == s.jobs[step.j].req.e164
  }

  /** At most `k` authorizes of the user, the one now reserving aside, stand between balance and reservation.
      With `k == 0` balance gate and reservation are one step. */
  ghost predicate Windowed(s: State, step: Step, user: int, k: nat) {
    |Readers(s.jobs, user) - (if step.Take? then {step.j} else {})| <= k
  }

  ghost predicate LawfulRun(cfg: Config, s: State, steps: seq<Step>, user: int, k: nat)
    decreases |steps|
  {
    steps != [] ==>
      && Lawful(cfg, s, steps[0]) && Windowed(s, steps[0], user, k)
      && LawfulRun(cfg, Next(s, steps[0]), steps[1..], user, k)
  }

  ghost predicate OneNumberRun(s: State, steps: seq<Step>)
    decreases |steps|
  {
    steps != [] ==> OneNumber(s, steps[0]) && OneNumberRun(Next(s, steps[0]), steps[1..])
  }

  // ---------- money that is not a call's ----------

  function TopUpOf(step: Step, user: int): int {
    if step.Book? && step.user == user && step.cents > 0 then step.cents else 0
  }

  /** A monthly bill or a setup fee: taken only from a balance that covers it. */
  predicate IsFee(s: State, step: Step, user: int) {
    step.Book? && step.user == user && user in s.balances && step.cents < 0 <= s.balances[user] + step.cents
  }

  /** A correction that nothing covers. */
  function UncoveredOf(s: State, step: Step, user: int): int {
    if step.Book? && step.user == user && user in s.balances && step.cents < 0 && s.balances[user] + step.cents < 0
    then -step.cents else 0
  }

  function TopUps(steps: seq<Step>, user: int): int
    decreases |steps|
  {
    if steps == [] then 0 else TopUpOf(steps[0], user) + TopUps(steps[1..], user)
  }

  function Uncovered(s: State, steps: seq<Step>, user: int): int
    decreases |steps|
  {
    if steps == [] then 0 else UncoveredOf(s, steps[0], user) + Uncovered(Next(s, steps[0]), steps[1..], user)
  }

  predicate HasFees(s: State, steps: seq<Step>, user: int)
    decreases |steps|
  {
    steps != [] && (IsFee(s, steps[0], user) || HasFees(Next(s, steps[0]), steps[1..], user))
  }

  // ---------- the invariant ----------

  /** Every open grant carries the bound of its own order at its own credit. */
  ghost predicate GrantsOk(cfg: Config, granted: map<Ticket, Grant>) {
    forall t :: t in granted ==>
      var g := granted[t];
      && t.e164 in cfg.dids && HasOrder(cfg, cfg.dids[t.e164])
      && cfg.dids[t.e164].order.value.user == g.user
      && g.maxSeconds == Rating.MaxSecondsForBalance(g.credit, cfg.dids[t.e164].order.value.rate)
  }

  /** The lowest balance that `calls` calls and `k` stale balances alone can leave. */
  function Bound(calls: nat, k: nat, peak: int): int {
    -(calls + k - 1) * peak
  }

  ghost predicate CreditsUpTo(granted: map<Ticket, Grant>, jobs: map<int, Job>, user: int, peak: int) {
    && 0 <= peak
    && (forall t :: t in OpenOf(granted, user) ==> granted[t].credit <= peak)
    && (forall j :: j in Readers(jobs, user) ==> jobs[j].credit <= peak)
  }

  /** `peak` is the starting balance plus every top-up so far. */
  ghost predicate Sound(cfg: Config, s: State, user: int, peak: int) {
    && user in s.balances && s.balances[user] <= peak
    && GrantsOk(cfg, s.granted) && Caps.AllAskFor(cfg, s.jobs)
    && CreditsUpTo(s.granted, s.jobs, user, peak)
  }

  /** What is left if every running call and every reader costs its credit. */
  ghost function Left(balance: int, granted: map<Ticket, Grant>, jobs: map<int, Job>, user: int): int {
    balance - Exposure(granted, user) - Promised(jobs, user)
  }

  /** A reader whose credit is the current balance. */
  predicate Fresh(balance: int, jobs: map<int, Job>, user: int, f: int) {
    f in Readers(jobs, user) && jobs[f].credit == balance
  }

  /** Everything still at stake is covered down to the bound, perhaps but for one fresh reader. */
  ghost predicate Covered(balance: int, granted: map<Ticket, Grant>, jobs: map<int, Job>, user: int, bound: int) {
    || Left(balance, granted, jobs, user) >= bound
    || exists f :: Fresh(balance, jobs, user, f) && Left(balance, granted, jobs - {f}, user) >= bound
  }

  // ---------- counting ----------

  /** So many calls and so many readers cost at most that much. */
  lemma AllTogether(granted: map<Ticket, Grant>, jobs: map<int, Job>, user: int, n: int, peak: int)
    requires CreditsUpTo(granted, jobs, user, peak)
    requires |OpenOf(granted, user)| + |Readers(jobs, user)| <= n
    ensures 0 <= Exposure(granted, user) + Promised(jobs, user) <= n * peak
  {
    hide Exposure, Promised;
    ExposureBounds(granted, user, peak);
    PromisedBounds(jobs, user, peak);
    MulMono(|OpenOf(granted, user)| + |Readers(jobs, user)|, n, peak);
    Distribute(|OpenOf(granted, user)|, |Readers(jobs, user)|, peak);
  }

  lemma Distribute(a: int, b: int, c: int)
    ensures (a + b) * c == a * c + b * c
  {
  }

  lemma NegTimes(a: int, b: int)
    ensures -a * b == -(a * b)
  {
  }

  lemma FewerUpTo(granted: map<Ticket, Grant>, jobs: map<int, Job>, t: Ticket, j: int, user: int, peak: int)
    requires CreditsUpTo(granted, jobs, user, peak)
    ensures CreditsUpTo(granted - {t}, jobs, user, peak) && CreditsUpTo(granted, jobs - {j}, user, peak)
  {
  }

  /** With few enough readers the fresh one is covered as well. */
  lemma FewReadersAreCovered(balance: int, granted: map<Ticket, Grant>, jobs: map<int, Job>, user: int, calls: nat,
                             k: nat,
                             peak: int, low: nat)
    requires CreditsUpTo(granted, jobs, user, peak) && |OpenOf(granted, user)| <= calls && |Readers(jobs, user)| <= k
    requires Covered(balance, granted, jobs, user, Bound(calls, k, peak) - low)
    ensures Left(balance, granted, jobs, user) >= Bound(calls, k, peak) - low
  {
    hide Exposure, Promised, CreditsUpTo;
    var bound := Bound(calls, k, peak) - low;
    if Left(balance, granted, jobs, user) < bound {
      var f :| Fresh(balance, jobs, user, f) && Left(balance, granted, jobs - {f}, user) >= bound;
      PromisedWithout(jobs, f, user);
      if balance >= 0 {
        FewerUpTo(granted, jobs, Ticket("", ""), f, user, peak);
        AllTogether(granted, jobs - {f}, user, calls + k - 1, peak);
        NegTimes(calls + k - 1, peak);
      }
    }
  }

  /** The fresh reader itself is granted: of the calls now up, at most the others weigh in. */
  lemma FreshGrantIsCovered(balance: int, granted: map<Ticket, Grant>, jobs: map<int, Job>, t: Ticket, g: Grant, f: int,
                            user: int, calls: nat, k: nat, peak: int, low: nat)
    requires CreditsUpTo(granted, jobs, user, peak) && |OpenOf(granted[t := g], user)| <= calls
    requires Fresh(balance, jobs, user, f) && |Readers(jobs, user) - {f}| <= k
    requires Left(balance, granted, jobs - {f}, user) >= Bound(calls, k, peak) - low
    requires g.user == user && g.credit == balance
    ensures Left(balance, granted[t := g], jobs - {f}, user) >= Bound(calls, k, peak) - low
  {
    hide Exposure, Promised, CreditsUpTo;
    PromisedWithout(jobs, f, user);
    ExposureWithout(granted, t, user);
    ExposureReplaced(granted, t, g, user);
    if balance >= 0 {
      var rest := granted - {t};
      assert OpenOf(rest, user) == OpenOf(granted[t := g], user) - {t};
      assert t in OpenOf(granted[t := g], user);
      FewerUpTo(granted, jobs, t, f, user, peak);
      FewerUpTo(rest, jobs, t, f, user, peak);
      AllTogether(rest, jobs - {f}, user, calls + k - 1, peak);
      NegTimes(calls + k - 1, peak);
    }
  }

  /** What a fee leaves is not negative: the calls and readers cost the rest. */
  lemma FeeIsCovered(balance: int, granted: map<Ticket, Grant>, jobs: map<int, Job>, user: int, calls: nat, k: nat,
                     peak: int)
    requires CreditsUpTo(granted, jobs, user, peak) && |OpenOf(granted, user)| <= calls && |Readers(jobs, user)| <= k
    requires balance >= 0
    ensures Left(balance, granted, jobs, user) >= Bound(calls, k + 1, peak)
  {
    hide Exposure, Promised, CreditsUpTo;
    AllTogether(granted, jobs, user, calls + k, peak);
    NegTimes(calls + k, peak);
  }

  /** A grant is worth at most what its reader was. */
  lemma GrantCosts(granted: map<Ticket, Grant>, t: Ticket, g: Grant, user: int)
    ensures Exposure(AddGrant(granted, t, g), user)
         <= Exposure(granted, user) + (if g.user == user then Rating.Positive(g.credit) else 0)
  {
    hide Exposure;
    if AddGrant(granted, t, g) != granted {
      ExposureWithout(granted, t, user);
      ExposureReplaced(granted, t, g, user);
    }
  }

  // ---------- admission ----------

  /** A reader leaves without a grant. */
  lemma RefusalKeepsCovered(balance: int, granted: map<Ticket, Grant>, jobs: map<int, Job>, j: int, user: int,
                            bound: int)
    requires Covered(balance, granted, jobs, user, bound)
    ensures Covered(balance, granted, jobs - {j}, user, bound)
  {
    hide Exposure, Promised;
    PromisedWithout(jobs, j, user);
    if Left(balance, granted, jobs, user) < bound {
      var f :| Fresh(balance, jobs, user, f) && Left(balance, granted, jobs - {f}, user) >= bound;
      if f != j {
        PromisedWithout(jobs - {f}, j, user);
        assert jobs - {f} - {j} == jobs - {j} - {f};
        assert Fresh(balance, jobs - {j}, user, f);
      }
    }
  }

  /** A reader is granted. */
  lemma GrantKeepsCovered(balance: int, granted: map<Ticket, Grant>, jobs: map<int, Job>, t: Ticket, g: Grant, j: int,
                          user: int, calls: nat, k: nat, peak: int, low: nat)
    requires CreditsUpTo(granted, jobs, user, peak) && |OpenOf(AddGrant(granted, t, g), user)| <= calls
    requires j in jobs && jobs[j].Asking? && jobs[j].order.user == g.user && jobs[j].credit == g.credit
    requires |Readers(jobs, user) - {j}| <= k
    requires Covered(balance, granted, jobs, user, Bound(calls, k, peak) - low)
    ensures Covered(balance, AddGrant(granted, t, g), jobs - {j}, user, Bound(calls, k, peak) - low)
  {
    hide Exposure, Promised, CreditsUpTo, AddGrant;
    var bound := Bound(calls, k, peak) - low;
    var after := AddGrant(granted, t, g);
    GrantCosts(granted, t, g, user);
    PromisedWithout(jobs, j, user);
    if Left(balance, granted, jobs, user) < bound {
      var f :| Fresh(balance, jobs, user, f) && Left(balance, granted, jobs - {f}, user) >= bound;
      if f == j {
        GrantsOneOrTheOther(granted, t, g);
        if after != granted {
          FreshGrantIsCovered(balance, granted, jobs, t, g, f, user, calls, k, peak, low);
        }
      } else {
        PromisedWithout(jobs - {f}, j, user);
        assert jobs - {f} - {j} == jobs - {j} - {f};
        assert Fresh(balance, jobs - {j}, user, f);
      }
    }
  }

  lemma GrantsOneOrTheOther(granted: map<Ticket, Grant>, t: Ticket, g: Grant)
    ensures AddGrant(granted, t, g) == granted || AddGrant(granted, t, g) == granted[t := g]
  {
  }

  lemma GrantsExtend(cfg: Config, granted: map<Ticket, Grant>, t: Ticket, g: Grant)
    requires GrantsOk(cfg, granted) && GrantsOk(cfg, map[t := g])
    ensures GrantsOk(cfg, AddGrant(granted, t, g))
  {
    var one := map[t := g];
    assert t in one && one[t] == g;
  }

  lemma GrantUpTo(granted: map<Ticket, Grant>, jobs: map<int, Job>, t: Ticket, g: Grant, j: int, user: int, peak: int)
    requires CreditsUpTo(granted, jobs, user, peak)
    requires j in jobs && jobs[j].Asking? && jobs[j].order.user == g.user && jobs[j].credit == g.credit
    ensures CreditsUpTo(AddGrant(granted, t, g), jobs - {j}, user, peak) && CreditsUpTo(granted, jobs - {j}, user, peak)
  {
    assert g.user == user ==> j in Readers(jobs, user);
  }

  /** What the reserve step leaves of the books. */
  lemma TakeBooks(s: State, j: int)
    requires Enabled(s, Take(j))
    ensures var a := s.jobs[j];
      var t := Next(s, Take(j));
      var ticket := Ticket(a.req.callId, a.req.e164);
      var g := Grant(a.order.user, Rating.MaxSecondsForBalance(a.credit, a.order.rate), a.credit);
      && t.balances == s.balances && Askers(t.jobs) == Askers(s.jobs - {j})
      && (t.granted == s.granted || (t.granted == AddGrant(s.granted, ticket, g)
           && Reserve(s.sets, a.order.user, a.line.did, a.req.callId, a.cap, a.order.channelCount).1 == 1))
  {
    hide Next, CallIds.SanitizeCallID, Reserve, AddGrant, Rating.MaxSecondsForBalance, PaidEntry, NoteAll, Askers;
    TakeIs(s, j);
    var a := s.jobs[j];
    NoteLeavesAskers(s.jobs - {j}, Taken({UserSet(a.order.user), DidSet(a.line.did)}, a.req.callId));
    var noted := NoteAll(s.jobs - {j}, Taken({UserSet(a.order.user), DidSet(a.line.did)}, a.req.callId));
    var job := if Resolves(a.order, a.req)
               then Entering(PaidEntry(a.req, a.line, a.order), Rating.MaxSecondsForBalance(a.credit, a.order.rate), {})
               else Ranged([], Listing);
    NoAskerAdded(noted, j, job);
  }

  lemma NoteLeavesAskers(jobs: map<int, Job>, e: Event)
    ensures Askers(NoteAll(jobs, e)) == Askers(jobs) && NoteAll(jobs, e).Keys == jobs.Keys
  {
    hide Note;
    forall j | j in jobs ensures Note(jobs[j], e).Asking? <==> jobs[j].Asking?
                      ensures jobs[j].Asking? ==> Note(jobs[j], e) == jobs[j] {
      NoteSparesAsker(jobs[j], e);
    }
    assert Askers(NoteAll(jobs, e)).Keys == Askers(jobs).Keys;
  }

  lemma NoteSparesAsker(job: Job, e: Event)
    ensures Note(job, e).Asking? <==> job.Asking?
    ensures job.Asking? ==> Note(job, e) == job
  {
    hide LostAfter, BackAfter, AgainAfter;
  }

  lemma NoAskerAdded(jobs: map<int, Job>, j: int, job: Job)
    requires j !in jobs && !job.Asking?
    ensures Askers(jobs[j := job]) == Askers(jobs)
  {
  }

  /** `k` counts the stale balances the bound allows for, `low` the corrections so far. */
  ghost predicate Inv(cfg: Config, s: State, user: int, calls: nat, k: nat, peak: int, low: nat) {
    && Sound(cfg, s, user, peak) && |OpenOf(s.granted, user)| <= calls
    && Covered(s.balances[user], s.granted, s.jobs, user, Bound(calls, k, peak) - low)
  }

  /** Only the balance, the grants and the readers matter. */
  lemma InvCongruent(cfg: Config, s: State, t: State, user: int, calls: nat, k: nat, peak: int, low: nat)
    requires Inv(cfg, s, user, calls, k, peak, low)
    requires t.balances == s.balances && t.granted == s.granted && Askers(t.jobs) == Askers(s.jobs)
    requires Caps.AllAskFor(cfg, t.jobs)
    ensures Inv(cfg, t, user, calls, k, peak, low)
  {
    hide GrantsOk, Caps.AllAskFor;
    SameAskers(s.jobs, t.jobs, user);
    CoveredCongruent(s.balances[user], s.granted, s.jobs, t.jobs, user, Bound(calls, k, peak) - low);
  }

  lemma CoveredCongruent(balance: int, granted: map<Ticket, Grant>, a: map<int, Job>, b: map<int, Job>, user: int,
                         bound: int)
    requires Askers(a) == Askers(b) && Covered(balance, granted, a, user, bound)
    ensures Covered(balance, granted, b, user, bound)
  {
    hide Exposure, Promised;
    SameAskers(a, b, user);
    if f :| Fresh(balance, a, user, f) && Left(balance, granted, a - {f}, user) >= bound {
      FewerAskers(a, b, f);
      SameAskers(a - {f}, b - {f}, user);
      assert Fresh(balance, b, user, f);
    }
  }

  lemma FewerAskers(a: map<int, Job>, b: map<int, Job>, f: int)
    requires Askers(a) == Askers(b)
    ensures Askers(a - {f}) == Askers(b - {f})
  {
    assert Askers(a - {f}) == Askers(a) - {f};
    assert Askers(b - {f}) == Askers(b) - {f};
  }

  /** The books after the script, before the other handlers hear of it. */
  lemma TakeKeepsBooks(cfg: Config, s: State, j: int, user: int, calls: nat, k: nat, peak: int, low: nat)
    requires Inv(cfg, s, user, calls, k, peak, low) && Enabled(s, Take(j)) && Windowed(s, Take(j), user, k)
    requires |OpenOf(Next(s, Take(j)).granted, user)| <= calls
    ensures Inv(cfg, s.(granted := Next(s, Take(j)).granted, jobs := s.jobs - {j}), user, calls, k, peak, low)
  {
    hide Next, Covered, Askers, AddGrant, GrantsOk, CreditsUpTo, Caps.AllAskFor, Rating.MaxSecondsForBalance, Readers,
        OpenOf;
    var a := s.jobs[j];
    var t := Next(s, Take(j));
    var ticket := Ticket(a.req.callId, a.req.e164);
    var g := Grant(a.order.user, Rating.MaxSecondsForBalance(a.credit, a.order.rate), a.credit);
    TakeBooks(s, j);
    GrantUpTo(s.granted, s.jobs, ticket, g, j, user, peak);
    FewerAsk(cfg, s.jobs, j);
    if t.granted == s.granted {
      RefusalKeepsCovered(s.balances[user], s.granted, s.jobs, j, user, Bound(calls, k, peak) - low);
    } else {
      TicketOk(cfg, s.jobs, j);
      GrantsExtend(cfg, s.granted, ticket, g);
      GrantKeepsCovered(s.balances[user], s.granted, s.jobs, ticket, g, j, user, calls, k, peak, low);
    }
  }

  lemma FewerAsk(cfg: Config, jobs: map<int, Job>, j: int)
    requires Caps.AllAskFor(cfg, jobs)
    ensures Caps.AllAskFor(cfg, jobs - {j})
  {
    hide HasOrder;
  }

  lemma TicketOk(cfg: Config, jobs: map<int, Job>, j: int)
    requires Caps.AllAskFor(cfg, jobs) && j in jobs && jobs[j].Asking?
    ensures var a := jobs[j];
      GrantsOk(cfg, map[Ticket(a.req.callId, a.req.e164) :=
        Grant(a.order.user, Rating.MaxSecondsForBalance(a.credit, a.order.rate), a.credit)])
  {
    hide HasOrder, Rating.MaxSecondsForBalance;
    assert Caps.AsksFor(cfg, jobs[j]);
  }

  lemma TakeKeepsInv(cfg: Config, s: State, j: int, user: int, calls: nat, k: nat, peak: int, low: nat)
    requires Inv(cfg, s, user, calls, k, peak, low) && Enabled(s, Take(j)) && Windowed(s, Take(j), user, k)
    requires |OpenOf(Next(s, Take(j)).granted, user)| <= calls
    ensures Inv(cfg, Next(s, Take(j)), user, calls, k, peak, low)
  {
    hide Next, Inv, Askers, Caps.AllAskFor, AddGrant, OpenOf, Readers;
    var t := Next(s, Take(j));
    TakeKeepsBooks(cfg, s, j, user, calls, k, peak, low);
    TakeBooks(s, j);
    InvHasUser(cfg, s, user, calls, k, peak, low);
    Caps.TakeAsks(cfg, s, j);
    InvCongruent(cfg, s.(granted := t.granted, jobs := s.jobs - {j}), t, user, calls, k, peak, low);
  }

  lemma InvHasUser(cfg: Config, s: State, user: int, calls: nat, k: nat, peak: int, low: nat)
    requires Inv(cfg, s, user, calls, k, peak, low)
    ensures user in s.balances && Caps.AllAskFor(cfg, s.jobs) && GrantsOk(cfg, s.granted)
  {
    hide Caps.AllAskFor, GrantsOk;
  }

  // ---------- reading the balance ----------

  /** A new reader is covered, or it is the fresh one. */
  lemma ReaderKeepsCovered(balance: int, granted: map<Ticket, Grant>, jobs: map<int, Job>, j: int, job: Job, user: int,
                           bound: int)
    requires j !in jobs && job.Asking? && (job.order.user == user ==> job.credit == balance)
    requires Left(balance, granted, jobs, user) >= bound
    ensures Covered(balance, granted, jobs[j := job], user, bound)
  {
    hide Exposure, Promised;
    assert jobs[j := job] - {j} == jobs;
    PromisedWithout(jobs[j := job], j, user);
    if job.order.user == user {
      assert Fresh(balance, jobs[j := job], user, j);
    }
  }

  lemma ReadersUpTo(granted: map<Ticket, Grant>, jobs: map<int, Job>, j: int, job: Job, user: int, peak: int)
    requires CreditsUpTo(granted, jobs, user, peak) && job.Asking? && (job.order.user == user ==> job.credit <= peak)
    ensures CreditsUpTo(granted, jobs[j := job], user, peak)
  {
    forall i ensures i in Readers(jobs[j := job], user) && i != j ==> i in Readers(jobs, user) {
    }
  }

  lemma LookKeepsInv(cfg: Config, s: State, j: int, req: Request, user: int, calls: nat, k: nat, peak: int, low: nat)
    requires Inv(cfg, s, user, calls, k, peak, low) && j !in s.jobs && Windowed(s, Look(j, cfg, req), user, k)
    ensures Inv(cfg, Next(s, Look(j, cfg, req)), user, calls, k, peak, low)
  {
    hide Next, Screen, FreeEntry, Inv, Askers, Caps.AllAskFor, Readers;
    InvHasUser(cfg, s, user, calls, k, peak, low);
    var t := Next(s, Look(j, cfg, req));
    LookIs(s, j, cfg, req);
    Caps.LookAsks(cfg, s, j, req);
    match Screen(cfg, req, s.balances)
    case Refused(_) =>
    case Unbilled(line, target) =>
      NoAskerAdded(s.jobs, j, Entering(FreeEntry(req, line, target), Rating.FREE_CALL_SECONDS, {}));
      InvCongruent(cfg, s, t, user, calls, k, peak, low);
    case Billable(line, o, cap, credit) =>
      Caps.BillableIsTheLine(cfg, req, s.balances);
      ReaderKeepsInv(cfg, s, j, Asking(req, line, o, cap, credit), user, calls, k, peak, low);
  }

  lemma ReaderKeepsInv(cfg: Config, s: State, j: int, job: Job, user: int, calls: nat, k: nat, peak: int, low: nat)
    requires Inv(cfg, s, user, calls, k, peak, low) && j !in s.jobs && |Readers(s.jobs, user)| <= k && job.Asking?
    requires job.order.user == user ==> job.credit == s.balances[user]
    requires Caps.AllAskFor(cfg, s.jobs[j := job])
    ensures Inv(cfg, s.(jobs := s.jobs[j := job]), user, calls, k, peak, low)
  {
    hide Covered, GrantsOk, CreditsUpTo, Caps.AllAskFor, Readers, Left, OpenOf;
    FewReadersAreCovered(s.balances[user], s.granted, s.jobs, user, calls, k, peak, low);
    ReaderKeepsCovered(s.balances[user], s.granted, s.jobs, j, job, user, Bound(calls, k, peak) - low);
    ReadersUpTo(s.granted, s.jobs, j, job, user, peak);
  }

  // ---------- teardown ----------

  /** A lawful teardown costs its own user no more than the grant's credit, and nobody else anything. */
  lemma LawfulCharge(cfg: Config, s: State, j: int, user: int)
    requires ValidBilling(cfg) && GrantsOk(cfg, s.granted) && user in s.balances
    requires Enabled(s, Debit(j)) && Lawful(cfg, s, Debit(j))
    ensures var t := Next(s, Debit(j));
      var ticket := Ticket(s.jobs[j].raw, s.jobs[j].e164);
      && t.granted == s.granted - {ticket} && t.balances.Keys == s.balances.Keys
      && 0 <= s.balances[user] - t.balances[user] <= CreditFor(s.granted, ticket, user)
  {
    hide Next, Rating.Cents, Rating.SafeCycle, Rating.MaxSecondsForBalance, HasOrder, CallIds.SanitizeCallID;
    DebitIs(s, j);
    var a := s.jobs[j];
    var ticket := Ticket(a.raw, a.e164);
    if ticket in s.granted {
      var g := s.granted[ticket];
      GrantHasOrder(cfg, s.granted, ticket);
      var o := cfg.dids[a.e164].order.value;
      Rating.NoOverdraft(g.credit, o.rate, o.billMin, o.billInc, a.billsec);
    } else if a.found.Some? {
      UnansweredIsFree(a.billsec, a.found.value.billMin, a.found.value.billInc, a.found.value.rate);
    }
  }

  lemma GrantHasOrder(cfg: Config, granted: map<Ticket, Grant>, t: Ticket)
    requires ValidBilling(cfg) && GrantsOk(cfg, granted) && t in granted
    ensures t.e164 in cfg.dids && HasOrder(cfg, cfg.dids[t.e164]) && cfg.dids[t.e164].order.Some?
    ensures var o := cfg.dids[t.e164].order.value;
      && o.rate >= 0.0 && Rating.SafeCycle(o.billMin, o.billInc) && o.user == granted[t].user
      && granted[t].maxSeconds == Rating.MaxSecondsForBalance(granted[t].credit, o.rate)
  {
    hide Rating.SafeCycle, Rating.MaxSecondsForBalance;
  }

  lemma UnansweredIsFree(billsec: int, billMin: int, billInc: int, rate: real)
    requires billsec <= 0
    ensures Rating.Cents(billsec, billMin, billInc, rate) == 0
  {
  }

  lemma FewerGrants(cfg: Config, granted: map<Ticket, Grant>, jobs: map<int, Job>, t: Ticket, user: int, peak: int)
    requires GrantsOk(cfg, granted) && CreditsUpTo(granted, jobs, user, peak)
    ensures GrantsOk(cfg, granted - {t}) && CreditsUpTo(granted - {t}, jobs, user, peak)
    ensures |OpenOf(granted - {t}, user)| <= |OpenOf(granted, user)|
  {
    hide HasOrder;
    assert OpenOf(granted - {t}, user) == OpenOf(granted, user) - {t};
    SubsetSize(OpenOf(granted, user) - {t}, OpenOf(granted, user));
  }

  lemma DebitKeepsInv(cfg: Config, s: State, j: int, user: int, calls: nat, k: nat, peak: int, low: nat)
    requires ValidBilling(cfg) && Inv(cfg, s, user, calls, k, peak, low) && Enabled(s, Debit(j))
    requires Lawful(cfg, s, Debit(j)) && |Readers(s.jobs, user)| <= k
    ensures Inv(cfg, Next(s, Debit(j)), user, calls, k, peak, low)
  {
    hide Next, ValidBilling, Lawful, Covered, Askers, GrantsOk, CreditsUpTo, Caps.AllAskFor, Exposure, Promised,
        OpenOf, Readers;
    var a := s.jobs[j];
    var t := Next(s, Debit(j));
    var ticket := Ticket(a.raw, a.e164);
    LawfulCharge(cfg, s, j, user);
    FewReadersAreCovered(s.balances[user], s.granted, s.jobs, user, calls, k, peak, low);
    ExposureWithout(s.granted, ticket, user);
    FewerGrants(cfg, s.granted, s.jobs, ticket, user, peak);
    var mid := s.(balances := t.balances, granted := t.granted);
    LeftIsCovered(mid.balances[user], mid.granted, s.jobs, user, Bound(calls, k, peak) - low);
    DebitAskers(s, j);
    Caps.StepKeepsAsks(cfg, s, Debit(j));
    InvCongruent(cfg, mid, t, user, calls, k, peak, low);
  }

  lemma DebitAskers(s: State, j: int)
    requires Enabled(s, Debit(j))
    ensures Askers(Next(s, Debit(j)).jobs) == Askers(s.jobs)
  {
    hide Next, CallIds.SanitizeCallID, ChargeOf, DebitFrom, Askers;
    DebitIs(s, j);
    SettledAskers(s.jobs, j, Next(s, Debit(j)).jobs[j]);
  }

  lemma LeftIsCovered(balance: int, granted: map<Ticket, Grant>, jobs: map<int, Job>, user: int, bound: int)
    requires Left(balance, granted, jobs, user) >= bound
    ensures Covered(balance, granted, jobs, user, bound)
  {
  }

  lemma SettledAskers(jobs: map<int, Job>, j: int, job: Job)
    requires j in jobs && !jobs[j].Asking? && !job.Asking?
    ensures Askers(jobs[j := job]) == Askers(jobs)
  {
  }

  // ---------- top-ups, fees and corrections ----------

  lemma BookKeepsInv(cfg: Config, s: State, step: Step, user: int, calls: nat, k: nat, extra: nat, peak: int, low: nat)
    requires Inv(cfg, s, user, calls, k + extra, peak, low) && step.Book? && |Readers(s.jobs, user)| <= k
    requires IsFee(s, step, user) ==> extra == 1
    ensures Inv(cfg, Next(s, step), user, calls, k + extra, peak + TopUpOf(step, user),
                low + UncoveredOf(s, step, user))
  {
    hide Next, Bound, Exposure, Promised, GrantsOk, Caps.AllAskFor, Readers, OpenOf, CreditsUpTo;
    LooseIs(s, step);
    var more := TopUpOf(step, user);
    FewReadersAreCovered(s.balances[user], s.granted, s.jobs, user, calls, k + extra, peak, low);
    PeakGrows(calls, k + extra, peak, more);
    HigherPeak(s.granted, s.jobs, user, peak, more);
    if IsFee(s, step, user) {
      FeeIsCovered(s.balances[user] + step.cents, s.granted, s.jobs, user, calls, k, peak);
    }
  }

  lemma HigherPeak(granted: map<Ticket, Grant>, jobs: map<int, Job>, user: int, peak: int, more: nat)
    requires CreditsUpTo(granted, jobs, user, peak)
    ensures CreditsUpTo(granted, jobs, user, peak + more)
  {
  }

  lemma PeakGrows(calls: nat, k: nat, peak: int, more: int)
    requires more >= 0
    ensures Bound(calls, k, peak + more) <= Bound(calls, k, peak) + more
  {
    assert -(calls + k - 1) * (peak + more) == -(calls + k - 1) * peak - (calls + k - 1) * more;
    MulMono(-1, calls + k - 1, more);
  }

  // ---------- every other step ----------

  /** Steps the other handlers are told of. */
  lemma ToldAskers(s: State, step: Step)
    requires Enabled(s, step)
    requires step.Enter? || step.Leave? || step.Unlist? || step.Remove? || step.Rewrite? || step.Page?
    ensures Askers(Next(s, step).jobs) == Askers(s.jobs)
  {
    hide Next, NoteAll, Askers, ReleaseFrom;
    var j := step.j;
    match step
    case Enter(_, now) =>
      EnterIs(s, j, now);
      LeaverAskers(s.jobs, j);
      NoteLeavesAskers(s.jobs - {j}, Entered(s.jobs[j].call.(startedAt := now)));
    case Leave(_) =>
      LeaveIs(s, j);
      LeaverAskers(s.jobs, j);
      if s.jobs[j].own.Some? { NoteLeavesAskers(s.jobs - {j}, Gone({s.jobs[j].own.value})); }
    case Unlist(_, id) =>
      UnlistIs(s, j, id);
      var mid := s.jobs[j].(todo := s.jobs[j].todo - {id});
      SettledAskers(s.jobs, j, mid);
      NoteLeavesAskers(s.jobs[j := mid], Gone({id}));
    case Remove(_, key) =>
      LooseIs(s, step);
      NoteLeavesAskers(s.jobs, Gone({key}));
    case Rewrite(_) =>
      RewriteIs(s, j);
      LeaverAskers(s.jobs, j);
      NoteLeavesAskers(s.jobs - {j}, Rewritten(s.jobs[j].call));
    case Page(_, keys) =>
      PageIs(s, j, keys);
      var mid := s.jobs[j].(must := s.jobs[j].must - keys);
      SettledAskers(s.jobs, j, mid);
      NoteLeavesAskers(s.jobs[j := mid], Freed(keys, mid.ids, Next(s, step).sets.Keys));
  }

  /** Steps that begin a handler or move it on. */
  lemma QuietAskers(s: State, step: Step)
    requires Enabled(s, step)
    requires step.Scan? || step.Range? || step.Fetch? || step.Drop? || step.Mark? || step.Reread?
    ensures Askers(Next(s, step).jobs) == Askers(s.jobs)
  {
    hide Next;
    QuietFrame(s, step);
    QuietJob(s, step);
    if !step.Mark? {
      MovedAskers(s.jobs, Next(s, step).jobs, step.j);
    }
  }

  lemma MovedAskers(before: map<int, Job>, after: map<int, Job>, j: int)
    requires forall i :: i != j ==> (i in after <==> i in before) && (i in after ==> after[i] == before[i])
    requires (j in before ==> !before[j].Asking?) && (j in after ==> !after[j].Asking?)
    ensures Askers(after) == Askers(before)
  {
    forall i | i in after && after[i].Asking? ensures i in before && before[i] == after[i] {
      assert i != j;
    }
    forall i | i in before && before[i].Asking? ensures i in after && after[i] == before[i] {
      assert i != j;
    }
  }

  lemma ClaimBooks(s: State, step: Step)
    requires Enabled(s, step) && step.Claim?
    ensures var t := Next(s, step);
      t.balances == s.balances && t.granted == s.granted && Askers(t.jobs) == Askers(s.jobs)
  {
    hide Next, CallIds.SanitizeCallID, Askers, PopPending;
    ClaimIs(s, step.j, step.raw, step.e164, step.found, step.billsec, step.timed);
    PopKeepsRest(s, CallIds.SanitizeCallID(step.raw));
    NoAskerAdded(s.jobs, step.j, Next(s, step).jobs[step.j]);
  }

  lemma ToldBooks(s: State, step: Step)
    requires Enabled(s, step)
    requires step.Enter? || step.Leave? || step.Unlist? || step.Remove? || step.Rewrite? || step.Page?
    ensures Next(s, step).balances == s.balances && Next(s, step).granted == s.granted
  {
    hide Next, NoteAll, ReleaseFrom;
    var j := step.j;
    match step
    case Enter(_, now) => EnterIs(s, j, now);
    case Leave(_) => LeaveIs(s, j);
    case Unlist(_, id) => UnlistIs(s, j, id);
    case Remove(_, _) => LooseIs(s, step);
    case Rewrite(_) => RewriteIs(s, j);
    case Page(_, keys) => PageIs(s, j, keys);
  }

  lemma LeaverAskers(jobs: map<int, Job>, j: int)
    requires j in jobs && !jobs[j].Asking?
    ensures Askers(jobs - {j}) == Askers(jobs)
  {
  }

  lemma RestKeepsInv(cfg: Config, s: State, step: Step, user: int, calls: nat, k: nat, peak: int, low: nat)
    requires Inv(cfg, s, user, calls, k, peak, low) && Enabled(s, step)
    requires !step.Look? && !step.Take? && !step.Debit? && !step.Book?
    ensures Inv(cfg, Next(s, step), user, calls, k, peak, low)
  {
    hide Next, Askers, Inv, Caps.AllAskFor;
    if step.Claim? {
      ClaimBooks(s, step);
    } else if step.Enter? || step.Leave? || step.Unlist? || step.Remove? || step.Rewrite? || step.Page? {
      ToldAskers(s, step);
      ToldBooks(s, step);
    } else {
      QuietFrame(s, step);
      QuietAskers(s, step);
    }
    InvHasUser(cfg, s, user, calls, k, peak, low);
    Caps.StepKeepsAsks(cfg, s, step);
    InvCongruent(cfg, s, Next(s, step), user, calls, k, peak, low);
  }

  /** `extra` is 1 if fees may be taken, else 0. */
  lemma StepKeepsInv(cfg: Config, s: State, step: Step, user: int, calls: nat, k: nat, extra: nat, peak: int, low: nat)
    requires ValidBilling(cfg) && Inv(cfg, s, user, calls, k + extra, peak, low)
    requires Lawful(cfg, s, step) && Windowed(s, step, user, k) && (IsFee(s, step, user) ==> extra == 1)
    requires |OpenOf(Next(s, step).granted, user)| <= calls
    ensures Inv(cfg, Next(s, step), user, calls, k + extra, peak + TopUpOf(step, user),
                low + UncoveredOf(s, step, user))
  {
    hide Inv, Next, ValidBilling, IsFee, OpenOf;
    WindowsGrow(s, step, user, k, k + extra);
    if step.Book? {
      BookKeepsInv(cfg, s, step, user, calls, k, extra, peak, low);
    } else if !Enabled(s, step) {
      Idle(s, step);
    } else if step.Look? {
      LookKeepsInv(cfg, s, step.j, step.req, user, calls, k + extra, peak, low);
    } else if step.Take? {
      TakeKeepsInv(cfg, s, step.j, user, calls, k + extra, peak, low);
    } else if step.Debit? {
      DebitKeepsInv(cfg, s, step.j, user, calls, k + extra, peak, low);
    } else {
      RestKeepsInv(cfg, s, step, user, calls, k + extra, peak, low);
    }
  }

  lemma WindowsGrow(s: State, step: Step, user: int, k: nat, l: nat)
    requires Windowed(s, step, user, k) && k <= l
    ensures Windowed(s, step, user, l)
    ensures !step.Take? ==> |Readers(s.jobs, user)| <= k
  {
    hide Readers;
    assert Readers(s.jobs, user) - {} == Readers(s.jobs, user);
  }

  // ---------- the theorem ----------

  ghost predicate AtMostUp(s: State, steps: seq<Step>, user: int, calls: nat)
    decreases |steps|
  {
    |OpenOf(s.granted, user)| <= calls && (steps != [] ==> AtMostUp(Next(s, steps[0]), steps[1..], user, calls))
  }

  lemma UpAtOnce(s: State, steps: seq<Step>, user: int, calls: nat)
    requires AtMostUp(s, steps, user, calls)
    ensures |OpenOf(s.granted, user)| <= calls
  {
    hide OpenOf, Next;
  }

  lemma {:induction false} RunKeepsInv(cfg: Config, s: State, steps: seq<Step>, user: int, calls: nat, k: nat,
                                       extra: nat, peak: int,
                                       low: nat)
    requires ValidBilling(cfg) && Inv(cfg, s, user, calls, k + extra, peak, low)
    requires LawfulRun(cfg, s, steps, user, k) && AtMostUp(s, steps, user, calls)
        && (HasFees(s, steps, user) ==> extra == 1)
    ensures Uncovered(s, steps, user) >= 0
    ensures Inv(cfg, Exec(s, steps), user, calls, k + extra, peak + TopUps(steps, user),
                low + Uncovered(s, steps, user))
    decreases |steps|
  {
    hide Inv, Next, ValidBilling, Lawful, Windowed, TopUpOf, IsFee, OpenOf;
    if steps != [] {
      UpAtOnce(Next(s, steps[0]), steps[1..], user, calls);
      StepKeepsInv(cfg, s, steps[0], user, calls, k, extra, peak, low);
      RunKeepsInv(cfg, Next(s, steps[0]), steps[1..], user, calls, k, extra, peak + TopUpOf(steps[0], user),
                  low + UncoveredOf(s, steps[0], user));
    }
  }

  lemma InvBounds(cfg: Config, s: State, user: int, calls: nat, k: nat, peak: int, low: nat)
    requires Inv(cfg, s, user, calls, k, peak, low)
    ensures user in s.balances && s.balances[user] >= Bound(calls, k, peak) - low
  {
    hide GrantsOk, Caps.AllAskFor, Exposure, Promised, Bound;
    ExposureBounds(s.granted, user, peak);
    PromisedBounds(s.jobs, user, peak);
    if f :| Fresh(s.balances[user], s.jobs, user, f)
            && Left(s.balances[user], s.granted, s.jobs - {f}, user) >= Bound(calls, k, peak) - low {
      PromisedWithout(s.jobs, f, user);
      PromisedBounds(s.jobs - {f}, user, peak);
    }
  }

  /** No call of the user is up and none of its authorizes under way. */
  ghost predicate Quiet(cfg: Config, s: State, user: int) {
    && s.granted == map[] && Readers(s.jobs, user) == {} && Caps.AllAskFor(cfg, s.jobs)
    && user in s.balances && s.balances[user] >= 0
  }

  lemma StartsCovered(cfg: Config, s: State, user: int, calls: nat, k: nat)
    requires Quiet(cfg, s, user)
    ensures Inv(cfg, s, user, calls, k, s.balances[user], 0)
  {
    hide Caps.AllAskFor;
    var b := s.balances[user];
    assert OpenOf(s.granted, user) == {};
    assert Exposure(s.granted, user) == 0;
    assert Promised(s.jobs, user) == 0;
    MulMono(-(calls + k - 1), 1, b);
  }

  /** The lowest balance a run can leave: by `calls` calls and `k` stale balances on `peak` cents, by fees taken while
      calls are up, and by corrections of `low` cents. */
  function Floor(calls: nat, k: nat, fees: bool, peak: int, low: int): int {
    -(calls + k - (if fees then 0 else 1)) * peak - low
  }

  /** Over every interleaving that starts from a balance B with no call up: a user of whom at most `calls` calls are up
      at any time, and at most k other authorizes between balance and reservation, never falls below
      -(calls + k - 1) * (B + top-ups) less the uncovered corrections; with fees taken from the same balance, never
      below -(calls + k) * (B + top-ups) less these corrections. */
  lemma BoundedByCallsUp(cfg: Config, s: State, steps: seq<Step>, user: int, calls: nat, k: nat)
    requires ValidBilling(cfg) && Quiet(cfg, s, user)
    requires LawfulRun(cfg, s, steps, user, k) && AtMostUp(s, steps, user, calls)
    ensures var t := Exec(s, steps);
      && user in t.balances
      && t.balances[user] >= Floor(calls, k, HasFees(s, steps, user), s.balances[user] + TopUps(steps, user),
                                   Uncovered(s, steps, user))
  {
    hide Inv, LawfulRun, AtMostUp, HasFees, Exec, ValidBilling, Caps.AllAskFor, Readers;
    var extra := if HasFees(s, steps, user) then 1 else 0;
    StartsCovered(cfg, s, user, calls, k + extra);
    RunKeepsInv(cfg, s, steps, user, calls, k, extra, s.balances[user], 0);
    InvBounds(cfg, Exec(s, steps), user, calls, k + extra, s.balances[user] + TopUps(steps, user),
              Uncovered(s, steps, user));
  }
}
