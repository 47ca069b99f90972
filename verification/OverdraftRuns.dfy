/** Two families of runs of one user at B cents a minute and 60/60 billing: one attains the overdraft bounds for every
    number of channels, of stale balances and of uncovered cents, with fees and without; the other breaks the bound of
    the user's cap with one Call-ID on several numbers. */
module OverdraftRuns {
  import opened Basics
  import opened CallControl
  import opened AtStake
  import opened Overdraft
  import Caps
  import CallIds
  import LiveIndex
  import Rating

  /** `cap` channels on every number, and for the user, too, if capped; a balance of `b` cents and a rate of `b` cents a
      minute; whether a fee may be taken. */
  datatype World = World(cap: nat, b: int, capped: bool, fees: bool)

  function UserCap(w: World): int {
    if w.capped then w.cap else -1
  }

  function Id(i: nat): string {
    seq(i + 1, _ => 'a')
  }

  lemma IdsDiffer(i: nat, j: nat)
    ensures Id(i) == Id(j) <==> i == j
  {
    assert |Id(i)| == i + 1 && |Id(j)| == j + 1;
  }

  function Line(w: World, i: nat): OrderLine {
    OrderLine(i, 1, w.cap, "ip", "192.0.2.1", Active, w.b as real, 60, 60, None)
  }

  function NumberLine(w: World, i: nat): DidLine {
    DidLine(i, Assigned, "", "", None, Some(Line(w, i)))
  }

  /** One user with `n` numbers. */
  function OneUser(w: World, n: nat): Config {
    Config(map e | e in Span(0, n) :: NumberLine(w, (|e| - 1) as nat), map[1 := Account(true, UserCap(w))], 6)
  }

  function Start(b: int): State {
    EMPTY.(balances := map[1 := b])
  }

  function Span(lo: nat, hi: nat): (r: set<string>)
    ensures forall id :: id in r ==> |id| >= 1
  {
    set i | lo <= i < hi :: Id(i)
  }

  lemma SpanGrows(lo: nat, hi: nat)
    requires lo <= hi
    ensures Span(lo, hi + 1) == Span(lo, hi) + {Id(hi)} && Id(hi) !in Span(lo, hi)
  {
    hide Id;
    forall i: nat ensures Id(i) == Id(hi) <==> i == hi {
      IdsDiffer(i, hi);
    }
  }

  lemma {:induction false} SpanSize(lo: nat, hi: nat)
    requires lo <= hi
    ensures |Span(lo, hi)| == hi - lo && Id(hi) !in Span(lo, hi)
    ensures Span(lo, hi + 1) == Span(lo, hi) + {Id(hi)} && Span(lo, hi + 1) - {Id(hi)} == Span(lo, hi)
    decreases hi
  {
    hide Id, Span;
    SpanGrows(lo, hi);
    if lo < hi {
      SpanSize(lo, hi - 1);
    } else {
      assert Span(lo, hi) == {} by { NoSpan(lo); }
    }
  }

  lemma NoSpan(lo: nat)
    ensures Span(lo, lo) == {}
  {
  }

  lemma SpanDown(lo: nat, hi: nat)
    requires 0 < lo <= hi
    ensures Span(lo - 1, hi) == Span(lo, hi) + {Id(lo - 1)} && Id(lo - 1) !in Span(lo, hi)
  {
    hide Id;
    forall i: nat ensures Id(i) == Id(lo - 1) <==> i == lo - 1 {
      IdsDiffer(i, lo - 1);
    }
  }

  lemma NumberAt(w: World, n: nat, i: nat)
    requires i < n
    ensures Id(i) in OneUser(w, n).dids && OneUser(w, n).dids[Id(i)] == NumberLine(w, i)
  {
    assert |Id(i)| == i + 1;
  }

  lemma MinuteCosts(b: int)
    requires b >= 1
    ensures Rating.MaxSecondsForBalance(b, b as real) == 60
    ensures Rating.Cents(60, 60, 60, b as real) == b
  {
    assert b as real / b as real == 1.0;
    Rating.WholeMinutes(1, b as real);
  }

  lemma OneUserIsValid(w: World, n: nat)
    requires w.b >= 1
    ensures ValidBilling(OneUser(w, n))
  {
  }

  // ---------- one call in, one call out ----------

  function Req(id: string, i: nat): Request {
    Request(id, Id(i), true, true, None, "")
  }

  function Reader(w: World, id: string, i: nat): Job {
    Asking(Req(id, i), NumberLine(w, i), Line(w, i), UserCap(w), w.b)
  }

  lemma LookIn(w: World, n: nat, s: State, j: int, id: string, i: nat)
    requires w.b >= 1 && i < n && j !in s.jobs && s.balances == map[1 := w.b]
    ensures var step := Look(j, OneUser(w, n), Req(id, i));
      Next(s, step) == s.(jobs := s.jobs[j := Reader(w, id, i)])
  {
    hide Next, Rating.MaxSecondsForBalance, Id, OneUser;
    LookIs(s, j, OneUser(w, n), Req(id, i));
    NumberAt(w, n, i);
    MinuteCosts(w.b);
    UserAt(w, n);
    assert Id(i) != "" by { IdsAreLong(i); }
  }

  lemma IdsAreLong(i: nat)
    ensures |Id(i)| == i + 1
  {
  }

  lemma UserAt(w: World, n: nat)
    ensures var cfg := OneUser(w, n); cfg.users == map[1 := Account(true, UserCap(w))] && cfg.minSeconds == 6
  {
  }

  ghost predicate AllAsk(jobs: map<int, Job>) {
    forall j :: j in jobs ==> jobs[j].Asking?
  }

  lemma AskersAreDeaf(jobs: map<int, Job>, e: Event)
    requires AllAsk(jobs)
    ensures NoteAll(jobs, e) == jobs
  {
    hide Note;
    forall j | j in jobs ensures Note(jobs[j], e) == jobs[j] {
      NoteSparesAsker(jobs[j], e);
    }
  }

  function After(w: World, id: string, i: nat): LiveCall {
    PaidEntry(Req(id, i), NumberLine(w, i), Line(w, i))
  }

  lemma TakeIn(w: World, s: State, j: int, id: string, i: nat)
    requires w.b >= 1 && j in s.jobs && s.jobs[j] == Reader(w, id, i) && AllAsk(s.jobs)
    requires (w.capped ==> |Members(s.sets, UserSet(1))| < w.cap) && |Members(s.sets, DidSet(i))| < w.cap
    requires Ticket(id, Id(i)) !in s.granted
    ensures var t := Next(s, Take(j));
      && t.balances == s.balances && t.granted == s.granted[Ticket(id, Id(i)) := Grant(1, 60, w.b)]
      && t.jobs == s.jobs[j := Entering(After(w, id, i), 60, {})]
      && t.sets.Keys == s.sets.Keys + {UserSet(1), DidSet(i)}
      && forall k :: Members(t.sets, k) == if k in {UserSet(1), DidSet(i)} then Members(s.sets, k) + {id}
          else Members(s.sets, k)
  {
    hide Next, Id, Members, SAdd, PaidEntry, NoteAll, Rating.MaxSecondsForBalance;
    TakeIs(s, j);
    MinuteCosts(w.b);
    ReserveMembers(s.sets, 1, i, id, UserCap(w), w.cap);
    ReserveKeys(s.sets, 1, i, id, UserCap(w), w.cap);
    AskersAreDeaf(s.jobs - {j}, Taken({UserSet(1), DidSet(i)}, id));
    assert (s.jobs - {j})[j := Entering(After(w, id, i), 60, {})] == s.jobs[j := Entering(After(w, id, i), 60, {})];
  }

  lemma ReserveKeys(sets: Sets, user: int, did: int, id: string, userCap: int, didCap: int)
    requires Reserve(sets, user, did, id, userCap, didCap).1 == 1
    ensures Reserve(sets, user, did, id, userCap, didCap).0.Keys == sets.Keys + {UserSet(user), DidSet(did)}
  {
  }

  lemma EnterIn(s: State, j: int, c: LiveCall, before: map<int, Job>)
    requires j in s.jobs && s.jobs == before[j := Entering(c, 60, {})] && AllAsk(before - {j})
    ensures var t := Next(s, Enter(j, 0));
      t.balances == s.balances && t.granted == s.granted && t.sets == s.sets && t.jobs == before - {j}
  {
    hide Next, NoteAll;
    EnterIs(s, j, 0);
    assert s.jobs - {j} == before - {j};
    AskersAreDeaf(before - {j}, Entered(c.(startedAt := 0)));
  }

  function Hangs(w: World, j: int, id: string, i: nat): Step {
    Claim(j, id, Id(i), Some(Line(w, i)), 60, true)
  }

  /** A one-minute call is charged. */
  lemma ChargeIn(w: World, n: nat, s: State, j: int, id: string, i: nat)
    requires w.b >= 1 && i < n && j !in s.jobs && 1 in s.balances
    requires Ticket(id, Id(i)) in s.granted && s.granted[Ticket(id, Id(i))] == Grant(1, 60, w.b)
    ensures var t := Next(s, Hangs(w, j, id, i));
      && t.sets == s.sets && t.granted == s.granted && t.balances == s.balances
      && t.jobs == s.jobs[j := Settling(id, Id(i), Some(Line(w, i)), 60)]
      && Lawful(OneUser(w, n), t, Debit(j))
      && var u := Next(t, Debit(j));
         && u.sets == s.sets && u.granted == s.granted - {Ticket(id, Id(i))}
         && u.balances == s.balances[1 := s.balances[1] - w.b]
         && u.jobs == s.jobs[j := Clearing({id}, Some(CallIds.SanitizeCallID(id)), {}, {})]
  {
    hide Next, Id, CallIds.SanitizeCallID, PopPending, Rating.Cents, OneUser;
    NumberAt(w, n, i);
    MinuteCosts(w.b);
    ClaimIs(s, j, id, Id(i), Some(Line(w, i)), 60, true);
    DebitIs(Next(s, Hangs(w, j, id, i)), j);
    LiveIndex.PopKeepsRest(s, CallIds.SanitizeCallID(id));
  }

  function Hand(id: string, must: set<SetKey>): Job {
    Releasing({id}, Some(CallIds.SanitizeCallID(id)), {}, must, {})
  }

  /** Its handler frees the slots. */
  lemma ScanIn(s: State, j: int, id: string, before: map<int, Job>)
    requires s.jobs == before[j := Clearing({id}, Some(CallIds.SanitizeCallID(id)), {}, {})]
    ensures Next(s, Scan(j)) == s.(jobs := before[j := Hand(id, s.sets.Keys)])
  {
    hide Next, CallIds.SanitizeCallID;
    ScanIs(s, j);
    assert Next(s, Scan(j)).jobs == before[j := Hand(id, s.sets.Keys)];
  }

  lemma PageIn(s: State, j: int, id: string, before: map<int, Job>, keys: set<SetKey>)
    requires AllAsk(before) && s.sets.Keys <= keys && s.jobs == before[j := Hand(id, s.sets.Keys)]
    ensures Next(s, Page(j, keys)) == s.(sets := ReleaseFrom(s.sets, {id}, keys), jobs := before[j := Hand(id, {})])
  {
    hide Next, CallIds.SanitizeCallID, NoteAll, ReleaseFrom;
    PageIs(s, j, keys);
    var told := Hand(id, s.sets.Keys - keys);
    assert s.jobs[j := told] == before[j := told];
    OneHears(before, j, told, Freed(keys, {id}, ReleaseFrom(s.sets, {id}, keys).Keys));
  }

  lemma LeaveIn(s: State, j: int, id: string, before: map<int, Job>)
    requires j !in before && AllAsk(before) && s.jobs == before[j := Hand(id, {})]
    ensures var t := Next(s, Leave(j));
      t.granted == s.granted && t.balances == s.balances && t.sets == s.sets && t.jobs == before
  {
    hide Next, CallIds.SanitizeCallID, NoteAll;
    LeaveIs(s, j);
    assert s.jobs - {j} == before;
    AskersAreDeaf(before, Gone({CallIds.SanitizeCallID(id)}));
  }

  lemma OneHears(before: map<int, Job>, j: int, job: Job, e: Event)
    requires AllAsk(before) && job.Releasing? && job.must == {} && job.again == {} && job.back == {} && e.Freed?
    ensures NoteAll(before[j := job], e) == before[j := job]
  {
    var jobs := before[j := job];
    hide LostAfter;
    forall i | i in jobs ensures Note(jobs[i], e) == jobs[i] {
    }
  }

  // ---------- runs, one step after another ----------

  ghost predicate Good(cfg: Config, s: State, step: Step, k: nat, one: bool, fees: bool) {
    Lawful(cfg, s, step) && Windowed(s, step, 1, k) && (one ==> OneNumber(s, step))
    && TopUpOf(step, 1) == 0 && UncoveredOf(s, step, 1) == 0 && (IsFee(s, step, 1) ==> fees)
  }

  ghost predicate GoodRun(cfg: Config, s: State, steps: seq<Step>, k: nat, one: bool, fees: bool)
    decreases |steps|
  {
    steps != [] ==> Good(cfg, s, steps[0], k, one, fees) && GoodRun(cfg, Next(s, steps[0]), steps[1..], k, one, fees)
  }

  lemma {:induction false} GoodThen(cfg: Config, s: State, a: seq<Step>, step: Step, k: nat, one: bool, fees: bool)
    requires GoodRun(cfg, s, a, k, one, fees) && Good(cfg, Exec(s, a), step, k, one, fees)
    ensures GoodRun(cfg, s, a + [step], k, one, fees) && Exec(s, a + [step]) == Next(Exec(s, a), step)
    decreases |a|
  {
    hide Next, Good;
    if a == [] {
      assert (a + [step])[1..] == [];
    } else {
      assert (a + [step])[0] == a[0] && (a + [step])[1..] == a[1..] + [step];
      GoodThen(cfg, Next(s, a[0]), a[1..], step, k, one, fees);
    }
  }

  lemma {:induction false} GoodIsLawful(cfg: Config, s: State, steps: seq<Step>, k: nat, one: bool, fees: bool)
    requires GoodRun(cfg, s, steps, k, one, fees)
    ensures LawfulRun(cfg, s, steps, 1, k) && (one ==> OneNumberRun(s, steps))
    ensures TopUps(steps, 1) == 0 && Uncovered(s, steps, 1) == 0 && (HasFees(s, steps, 1) ==> fees)
    decreases |steps|
  {
    hide Next, Lawful, Windowed, OneNumber, IsFee;
    if steps != [] {
      GoodIsLawful(cfg, Next(s, steps[0]), steps[1..], k, one, fees);
    }
  }

  // ---------- the bound is attained ----------

  /** The first `r` authorizes have read the balance and wait. */
  function Waiting(w: World, r: nat): map<int, Job> {
    map j: int | 0 <= j < r :: Reader(w, Id(j), 0)
  }

  function Up(lo: nat, hi: nat, b: int): map<Ticket, Grant> {
    map id | id in Span(lo, hi) :: Ticket(id, Id(0)) := Grant(1, 60, b)
  }

  const SLOTS: set<SetKey> := {UserSet(1), DidSet(0)}

  /** `r` authorizes wait on the starting balance; the calls from the r-th up to the hi-th are up. */
  ghost predicate Holding(w: World, s: State, r: nat, hi: nat, balance: int) {
    && s.balances == map[1 := balance] && s.jobs == Waiting(w, r) && s.granted == Up(r, hi, w.b)
    && Members(s.sets, UserSet(1)) == Span(r, hi) && Members(s.sets, DidSet(0)) == Span(r, hi) && s.sets.Keys <= SLOTS
  }

  ghost predicate Reached(w: World, k: nat, steps: seq<Step>, r: nat, hi: nat, balance: int) {
    && GoodRun(OneUser(w, 1), Start(w.b), steps, k, true, w.fees)
    && Holding(w, Exec(Start(w.b), steps), r, hi, balance)
  }

  lemma {:induction false} WaitingReaders(w: World, r: nat)
    ensures |Readers(Waiting(w, r), 1)| == r && AllAsk(Waiting(w, r))
  {
    hide Id, Waiting;
    if r > 0 {
      WaitingReaders(w, r - 1);
      WaitingGrows(w, r - 1);
      var rest := Waiting(w, r - 1);
      OneMoreReader(rest, r - 1, Reader(w, Id(r - 1), 0));
      assert r - 1 in Readers(Waiting(w, r), 1);
      assert Readers(Waiting(w, r), 1) == Readers(rest, 1) + {r - 1};
    } else {
      NoneWait(w);
    }
  }

  lemma NoneWait(w: World)
    ensures Waiting(w, 0) == map[] && Readers(map[], 1) == {}
  {
    hide Id;
  }

  lemma WaitingGrows(w: World, r: nat)
    ensures Waiting(w, r + 1) == Waiting(w, r)[r := Reader(w, Id(r), 0)]
    ensures Waiting(w, r + 1) - {r} == Waiting(w, r)
    ensures forall j: int :: j < 0 || j >= r ==> j !in Waiting(w, r)
  {
    hide Id;
  }

  lemma UpGrows(lo: nat, hi: nat, b: int)
    requires lo <= hi
    ensures Up(lo, hi + 1, b) == Up(lo, hi, b)[Ticket(Id(hi), Id(0)) := Grant(1, 60, b)]
    ensures Up(lo, hi + 1, b) - {Ticket(Id(hi), Id(0))} == Up(lo, hi, b)
    ensures Ticket(Id(hi), Id(0)) !in Up(lo, hi, b)
  {
    hide Id, Span;
    SpanSize(lo, hi);
  }

  lemma UpDown(lo: nat, hi: nat, b: int)
    requires 0 < lo <= hi
    ensures Up(lo - 1, hi, b) == Up(lo, hi, b)[Ticket(Id(lo - 1), Id(0)) := Grant(1, 60, b)]
    ensures Ticket(Id(lo - 1), Id(0)) !in Up(lo, hi, b)
  {
    hide Id, Span;
    SpanDown(lo, hi);
  }

  lemma WaitOneMore(w: World, k: nat, before: seq<Step>, r: nat) returns (steps: seq<Step>)
    requires w.b >= 1 && r < k && Reached(w, k, before, r, r, w.b)
    ensures Reached(w, k, steps, r + 1, r + 1, w.b)
  {
    hide Next, Id, OneUser, Members, Start, Reader;
    var step := Look(r, OneUser(w, 1), Req(Id(r), 0));
    var s := Exec(Start(w.b), before);
    WaitingReaders(w, r);
    WaitingGrows(w, r);
    LookIn(w, 1, s, r, Id(r), 0);
    GoodThen(OneUser(w, 1), Start(w.b), before, step, k, true, w.fees);
    steps := before + [step];
    assert Span(r, r) == {} && Span(r + 1, r + 1) == {};
    assert Up(r, r, w.b) == Up(r + 1, r + 1, w.b);
  }

  lemma OneMoreReader(jobs: map<int, Job>, j: int, job: Job)
    requires j !in jobs
    ensures Readers(jobs[j := job], 1) - {j} == Readers(jobs, 1) && jobs[j := job] - {j} == jobs
    ensures !job.Asking? ==> Readers(jobs[j := job], 1) == Readers(jobs, 1)
    ensures AllAsk(jobs) && job.Asking? ==> AllAsk(jobs[j := job])
  {
  }

  lemma PlainIsGood(cfg: Config, s: State, step: Step, k: nat, one: bool, fees: bool)
    requires step.Look? ==> step.cfg == cfg
    requires step.Look? || step.Enter? || step.Claim? || step.Scan? || step.Leave?
    requires |Readers(s.jobs, 1)| <= k
    ensures Good(cfg, s, step, k, one, fees)
  {
    assert Readers(s.jobs, 1) - {} == Readers(s.jobs, 1);
  }

  ghost predicate AllOn(granted: map<Ticket, Grant>, e164: string) {
    forall t :: t in granted ==> t.e164 == e164
  }

  lemma TakeIsGood(cfg: Config, s: State, j: int, job: Job, e164: string, k: nat, one: bool, fees: bool)
    requires j in s.jobs && s.jobs[j] == job && job.Asking? && job.req.e164 == e164 && |Readers(s.jobs, 1) - {j}| <= k
    requires one ==> AllOn(s.granted, e164)
    ensures Good(cfg, s, Take(j), k, one, fees)
  {
    hide Readers;
  }

  /** A waiting authorize is let in. */
  lemma AdmittedState(w: World, s: State, j: int, id: string, i: nat, rest: map<int, Job>)
    requires w.b >= 1 && j !in rest && s.jobs == rest[j := Reader(w, id, i)] && AllAsk(rest)
    requires (w.capped ==> |Members(s.sets, UserSet(1))| < w.cap) && |Members(s.sets, DidSet(i))| < w.cap
    requires Ticket(id, Id(i)) !in s.granted
    ensures var t := Next(s, Take(j));
      var u := Next(t, Enter(j, 0));
      && t.jobs == rest[j := Entering(After(w, id, i), 60, {})]
      && u.balances == s.balances && u.granted == s.granted[Ticket(id, Id(i)) := Grant(1, 60, w.b)] && u.jobs == rest
      && u.sets.Keys == s.sets.Keys + {UserSet(1), DidSet(i)}
      && forall key :: Members(u.sets, key) ==
                         if key in {UserSet(1), DidSet(i)} then Members(s.sets, key) + {id} else Members(s.sets, key)
  {
    hide Next, Id, Members, After, Readers;
    OneMoreReader(rest, j, Reader(w, id, i));
    TakeIn(w, s, j, id, i);
    var t := Next(s, Take(j));
    EnterIn(t, j, After(w, id, i), s.jobs);
    assert t.jobs == rest[j := Entering(After(w, id, i), 60, {})];
  }

  lemma Admitted(w: World, n: nat, k: nat, one: bool, fees: bool, s: State, j: int, id: string, i: nat, rest: map<int,
                 Job>)
    requires w.b >= 1 && j !in rest && s.jobs == rest[j := Reader(w, id, i)] && AllAsk(rest) && |Readers(rest, 1)| <= k
    requires (w.capped ==> |Members(s.sets, UserSet(1))| < w.cap) && |Members(s.sets, DidSet(i))| < w.cap
    requires Ticket(id, Id(i)) !in s.granted && (one ==> AllOn(s.granted, Id(i)))
    ensures var t := Next(s, Take(j));
      Good(OneUser(w, n), s, Take(j), k, one, fees) && Good(OneUser(w, n), t, Enter(j, 0), k, one, fees)
      && var u := Next(t, Enter(j, 0));
      && u.balances == s.balances && u.granted == s.granted[Ticket(id, Id(i)) := Grant(1, 60, w.b)] && u.jobs == rest
      && u.sets.Keys == s.sets.Keys + {UserSet(1), DidSet(i)}
      && forall key :: Members(u.sets, key) ==
                         if key in {UserSet(1), DidSet(i)} then Members(s.sets, key) + {id} else Members(s.sets, key)
  {
    hide Next, Id, Members, OneUser, After, Good, AllOn, Readers, AllAsk;
    AdmittedState(w, s, j, id, i, rest);
    OneMoreReader(rest, j, Reader(w, id, i));
    OneMoreReader(rest, j, Entering(After(w, id, i), 60, {}));
    TakeIsGood(OneUser(w, n), s, j, Reader(w, id, i), Id(i), k, one, fees);
    PlainIsGood(OneUser(w, n), Next(s, Take(j)), Enter(j, 0), k, one, fees);
  }

  /** Three good steps on top of a good run. */
  lemma GoodThenThree(cfg: Config, s: State, a: seq<Step>, x: Step, y: Step, z: Step, k: nat, one: bool, fees: bool)
    requires GoodRun(cfg, s, a, k, one, fees)
    requires var t := Exec(s, a);
      Good(cfg, t, x, k, one, fees) && Good(cfg, Next(t, x), y, k, one, fees)
          && Good(cfg, Next(Next(t, x), y), z, k, one, fees)
    ensures GoodRun(cfg, s, a + [x] + [y] + [z], k, one, fees)
    ensures Exec(s, a + [x] + [y] + [z]) == Next(Next(Next(Exec(s, a), x), y), z)
  {
    hide Next, Good, GoodRun, Exec;
    GoodThen(cfg, s, a, x, k, one, fees);
    GoodThen(cfg, s, a + [x], y, k, one, fees);
    GoodThen(cfg, s, a + [x] + [y], z, k, one, fees);
  }

  lemma GoodThenTwo(cfg: Config, s: State, a: seq<Step>, x: Step, y: Step, k: nat, one: bool, fees: bool)
    requires GoodRun(cfg, s, a, k, one, fees) && Good(cfg, Exec(s, a), x, k, one, fees)
        && Good(cfg, Next(Exec(s, a), x), y, k, one, fees)
    ensures GoodRun(cfg, s, a + [x] + [y], k, one, fees) && Exec(s, a + [x] + [y]) == Next(Next(Exec(s, a), x), y)
  {
    hide Next, Good, GoodRun, Exec;
    GoodThen(cfg, s, a, x, k, one, fees);
    GoodThen(cfg, s, a + [x], y, k, one, fees);
  }

  lemma UpIsOnOne(lo: nat, hi: nat, b: int)
    ensures AllOn(Up(lo, hi, b), Id(0)) && forall t :: t in Up(lo, hi, b) ==> t.callId in Span(lo, hi)
  {
    hide Id, Span;
  }

  lemma CallOneMore(w: World, k: nat, before: seq<Step>, r: nat, hi: nat) returns (steps: seq<Step>)
    requires w.b >= 1 && r <= k && r <= hi < r + w.cap && Reached(w, k, before, r, hi, w.b)
    ensures Reached(w, k, steps, r, hi + 1, w.b)
  {
    hide Next, Id, OneUser, Members, Start, Reader, Span, Up, Waiting, Good, GoodRun, Exec;
    var cfg := OneUser(w, 1);
    var x, y, z := Look(hi, cfg, Req(Id(hi), 0)), Take(hi), Enter(hi, 0);
    var s := Exec(Start(w.b), before);
    WaitingReaders(w, r);
    WaitingGrows(w, r);
    SpanSize(r, hi);
    UpGrows(r, hi, w.b);
    UpIsOnOne(r, hi, w.b);
    LookIn(w, 1, s, hi, Id(hi), 0);
    PlainIsGood(cfg, s, x, k, true, w.fees);
    Admitted(w, 1, k, true, w.fees, Next(s, x), hi, Id(hi), 0, Waiting(w, r));
    GoodThenThree(cfg, Start(w.b), before, x, y, z, k, true, w.fees);
    steps := before + [x] + [y] + [z];
  }

  /** The last authorize that waits is let in, whatever has become of the balance. */
  lemma AdmitLast(w: World, k: nat, before: seq<Step>, r: nat, hi: nat, balance: int) returns (steps: seq<Step>)
    requires w.b >= 1 && 0 < r <= k && r <= hi < r + w.cap && Reached(w, k, before, r, hi, balance)
    ensures Reached(w, k, steps, r - 1, hi, balance)
  {
    hide Next, Id, OneUser, Members, Start, Reader, Span, Up, Waiting, Good, GoodRun, Exec;
    var cfg := OneUser(w, 1);
    var y, z := Take(r - 1), Enter(r - 1, 0);
    var s := Exec(Start(w.b), before);
    WaitingReaders(w, r - 1);
    WaitingGrows(w, r - 1);
    SpanSize(r, hi);
    SpanDown(r, hi);
    UpDown(r, hi, w.b);
    UpIsOnOne(r, hi, w.b);
    Admitted(w, 1, k, true, w.fees, s, r - 1, Id(r - 1), 0, Waiting(w, r - 1));
    GoodThenTwo(cfg, Start(w.b), before, y, z, k, true, w.fees);
    steps := before + [y] + [z];
  }

  /** A call ends and is charged; its handler still holds the slots. */
  lemma Charged(w: World, n: nat, k: nat, one: bool, fees: bool, s: State, j: int, id: string, i: nat, rest: map<int,
                Job>)
    requires w.b >= 1 && i < n && j !in rest && s.jobs == rest && |Readers(rest, 1)| <= k && 1 in s.balances
    requires Ticket(id, Id(i)) in s.granted && s.granted[Ticket(id, Id(i))] == Grant(1, 60, w.b)
    ensures var x := Hangs(w, j, id, i);
      var t := Next(s, x);
      Good(OneUser(w, n), s, x, k, one, fees) && Good(OneUser(w, n), t, Debit(j), k, one, fees)
      && var u := Next(t, Debit(j));
      && u.sets == s.sets && u.granted == s.granted - {Ticket(id, Id(i))}
      && u.balances == s.balances[1 := s.balances[1] - w.b]
      && u.jobs == rest[j := Clearing({id}, Some(CallIds.SanitizeCallID(id)), {}, {})]
  {
    hide Next, Id, OneUser, CallIds.SanitizeCallID, Lawful;
    var x := Hangs(w, j, id, i);
    var t := Next(s, x);
    ChargeIn(w, n, s, j, id, i);
    PlainIsGood(OneUser(w, n), s, x, k, one, fees);
    OneMoreReader(rest, j, Settling(id, Id(i), Some(Line(w, i)), 60));
    assert Readers(t.jobs, 1) - {} == Readers(t.jobs, 1);
  }

  /** The handler gives them back. */
  lemma GivenBack(cfg: Config, k: nat, fees: bool, s: State, j: int, id: string, rest: map<int, Job>)
    requires j !in rest && AllAsk(rest) && |Readers(rest, 1)| <= k && s.sets.Keys <= SLOTS
    requires s.jobs == rest[j := Clearing({id}, Some(CallIds.SanitizeCallID(id)), {}, {})]
    requires forall t :: t in s.granted ==> t.callId != id
    ensures var t := Next(s, Scan(j));
      var u := Next(t, Page(j, SLOTS));
      Good(cfg, s, Scan(j), k, true, fees) && Good(cfg, t, Page(j, SLOTS), k, true, fees)
          && Good(cfg, u, Leave(j), k, true, fees)
      && var v := Next(u, Leave(j));
      && v.granted == s.granted && v.balances == s.balances && v.jobs == rest && v.sets.Keys <= SLOTS
      && forall key :: key in SLOTS ==> Members(v.sets, key) == Members(s.sets, key) - {id}
  {
    hide Next, Enabled, CallIds.SanitizeCallID, Members, ReleaseFrom, Good, Readers;
    var t := Next(s, Scan(j));
    ScanIn(s, j, id, rest);
    PageIn(t, j, id, rest, SLOTS);
    var u := Next(t, Page(j, SLOTS));
    LeaveIn(u, j, id, rest);
    OneMoreReader(rest, j, s.jobs[j]);
    OneMoreReader(rest, j, t.jobs[j]);
    OneMoreReader(rest, j, u.jobs[j]);
    PlainIsGood(cfg, s, Scan(j), k, true, fees);
    PageIsGood(cfg, t, j, id, k, fees);
    PlainIsGood(cfg, u, Leave(j), k, true, fees);
    ReleaseMembers(s.sets, {id}, SLOTS, UserSet(1));
    ReleaseMembers(s.sets, {id}, SLOTS, DidSet(0));
    KeysShrink(s.sets, {id}, SLOTS);
  }

  lemma PageIsGood(cfg: Config, s: State, j: int, id: string, k: nat, fees: bool)
    requires j in s.jobs && s.jobs[j] == Hand(id, s.sets.Keys) && |Readers(s.jobs, 1)| <= k
    requires forall t :: t in s.granted ==> t.callId != id
    ensures Good(cfg, s, Page(j, SLOTS), k, true, fees)
  {
    hide CallIds.SanitizeCallID;
    assert Readers(s.jobs, 1) - {} == Readers(s.jobs, 1);
  }

  lemma KeysShrink(sets: Sets, ids: set<string>, keys: set<SetKey>)
    ensures ReleaseFrom(sets, ids, keys).Keys <= sets.Keys
  {
  }

  /** A call has been charged and its handler is about to release. */
  ghost predicate Releasable(w: World, k: nat, steps: seq<Step>, r: nat, hi: nat, balance: int, id: string) {
    && GoodRun(OneUser(w, 1), Start(w.b), steps, k, true, w.fees)
    && var s := Exec(Start(w.b), steps);
       && s.balances == map[1 := balance] && s.granted == Up(r, hi, w.b) && s.sets.Keys <= SLOTS
       && s.jobs == Waiting(w, r)[-1 := Clearing({id}, Some(CallIds.SanitizeCallID(id)), {}, {})]
       && Members(s.sets, UserSet(1)) == Span(r, hi) + {id} && Members(s.sets, DidSet(0)) == Span(r, hi) + {id}
  }

  lemma ChargeLast(w: World, k: nat, before: seq<Step>, r: nat, hi: nat, balance: int) returns (steps: seq<Step>)
    requires w.b >= 1 && r <= k && r < hi && Reached(w, k, before, r, hi, balance)
    ensures Releasable(w, k, steps, r, hi - 1, balance - w.b, Id(hi - 1))
  {
    hide Next, Id, OneUser, Members, Start, Reader, Span, Up, Waiting, Good, GoodRun, Exec, CallIds.SanitizeCallID,
        Hangs, AllAsk;
    var cfg := OneUser(w, 1);
    var s := Exec(Start(w.b), before);
    WaitingReaders(w, r);
    WaitingGrows(w, r);
    SpanSize(r, hi - 1);
    UpGrows(r, hi - 1, w.b);
    var x := Hangs(w, -1, Id(hi - 1), 0);
    Charged(w, 1, k, true, w.fees, s, -1, Id(hi - 1), 0, Waiting(w, r));
    GoodThenTwo(cfg, Start(w.b), before, x, Debit(-1), k, true, w.fees);
    steps := before + [x] + [Debit(-1)];
  }

  lemma ReleaseLast(w: World, k: nat, before: seq<Step>, r: nat, hi: nat, balance: int) returns (steps: seq<Step>)
    requires r <= k && r <= hi && Releasable(w, k, before, r, hi, balance, Id(hi))
    ensures Reached(w, k, steps, r, hi, balance)
  {
    hide Next, Id, OneUser, Members, Start, Reader, Span, Up, Waiting, Good, GoodRun, Exec, CallIds.SanitizeCallID;
    var cfg := OneUser(w, 1);
    var s := Exec(Start(w.b), before);
    WaitingReaders(w, r);
    WaitingGrows(w, r);
    SpanSize(r, hi);
    UpIsOnOne(r, hi, w.b);
    GivenBack(cfg, k, w.fees, s, -1, Id(hi), Waiting(w, r));
    GoodThenThree(cfg, Start(w.b), before, Scan(-1), Page(-1, SLOTS), Leave(-1), k, true, w.fees);
    steps := before + [Scan(-1)] + [Page(-1, SLOTS)] + [Leave(-1)];
  }

  lemma EndLast(w: World, k: nat, before: seq<Step>, r: nat, hi: nat, balance: int) returns (steps: seq<Step>)
    requires w.b >= 1 && r <= k && r < hi && Reached(w, k, before, r, hi, balance)
    ensures Reached(w, k, steps, r, hi - 1, balance - w.b)
  {
    hide Reached, Releasable;
    var charged := ChargeLast(w, k, before, r, hi, balance);
    steps := ReleaseLast(w, k, charged, r, hi - 1, balance - w.b);
  }

  lemma NobodyWaits(w: World, k: nat)
    ensures Reached(w, k, [], 0, 0, w.b)
  {
    hide OneUser, Good, Next;
    assert Span(0, 0) == {};
    assert Up(0, 0, w.b) == map[];
    assert Waiting(w, 0) == map[];
  }

  lemma {:induction false} AllWait(w: World, k: nat, r: nat) returns (steps: seq<Step>)
    requires w.b >= 1 && r <= k
    ensures Reached(w, k, steps, r, r, w.b)
  {
    hide Reached;
    if r == 0 {
      steps := [];
      NobodyWaits(w, k);
    } else {
      var before := AllWait(w, k, r - 1);
      steps := WaitOneMore(w, k, before, r - 1);
    }
  }

  lemma {:induction false} FillUp(w: World, k: nat, n: nat) returns (steps: seq<Step>)
    requires w.b >= 1 && n <= w.cap
    ensures Reached(w, k, steps, k, k + n, w.b)
  {
    hide Reached;
    if n == 0 {
      steps := AllWait(w, k, k);
    } else {
      var before := FillUp(w, k, n - 1);
      steps := CallOneMore(w, k, before, k, k + n - 1);
    }
  }

  /** While the calls are up, a fee takes all of the balance. */
  lemma FeeTaken(w: World, k: nat, before: seq<Step>, r: nat, hi: nat) returns (steps: seq<Step>)
    requires w.b >= 1 && w.fees && r <= k && Reached(w, k, before, r, hi, w.b)
    ensures Reached(w, k, steps, r, hi, 0)
  {
    hide Next, Id, OneUser, Members, Start, Reader, Span, Up, Waiting, GoodRun, Exec, Readers;
    var fee := Book(-1, 1, -w.b);
    var s := Exec(Start(w.b), before);
    WaitingReaders(w, r);
    LooseIs(s, fee);
    assert Readers(s.jobs, 1) - {} == Readers(s.jobs, 1);
    GoodThen(OneUser(w, 1), Start(w.b), before, fee, k, true, w.fees);
    steps := before + [fee];
  }

  /** What is left when the calls begin to end. */
  function AfterFee(w: World): int {
    if w.fees then 0 else w.b
  }

  /** A call ends, and an authorize with the old balance takes its slot, over and over. */
  lemma {:induction false} Replaced(w: World, k: nat, r: nat) returns (steps: seq<Step>)
    requires w.b >= 1 && w.cap >= 1 && r <= k
    ensures Reached(w, k, steps, r, r + w.cap, AfterFee(w) - (k - r) * w.b)
    decreases k - r
  {
    hide Reached;
    if r == k {
      steps := FillUp(w, k, w.cap);
      if w.fees {
        steps := FeeTaken(w, k, steps, k, k + w.cap);
      }
    } else {
      var before := Replaced(w, k, r + 1);
      var ended := EndLast(w, k, before, r + 1, r + 1 + w.cap, AfterFee(w) - (k - r - 1) * w.b);
      assert AfterFee(w) - (k - r - 1) * w.b - w.b == AfterFee(w) - (k - r) * w.b;
      steps := AdmitLast(w, k, ended, r + 1, r + w.cap, AfterFee(w) - (k - r) * w.b);
    }
  }

  lemma {:induction false} Drained(w: World, k: nat, left: nat) returns (steps: seq<Step>)
    requires w.b >= 1 && w.cap >= 1 && left <= w.cap
    ensures Reached(w, k, steps, 0, left, AfterFee(w) - (k + w.cap - left) * w.b)
    decreases w.cap - left
  {
    hide Reached;
    if left == w.cap {
      steps := Replaced(w, k, 0);
    } else {
      var before := Drained(w, k, left + 1);
      steps := EndLast(w, k, before, 0, left + 1, AfterFee(w) - (k + w.cap - left - 1) * w.b);
      assert AfterFee(w) - (k + w.cap - left - 1) * w.b - w.b == AfterFee(w) - (k + w.cap - left) * w.b;
    }
  }

  // ---------- what the bound is of this user ----------

  lemma OneNumberOnly(w: World)
    ensures Caps.ValidConfig(OneUser(w, 1)) && Caps.CapsHold(OneUser(w, 1), Start(w.b).sets)
    ensures Channels(OneUser(w, 1), 1) == w.cap
  {
    var cfg := OneUser(w, 1);
    hide Id, OneUser;
    NumberAt(w, 1, 0);
    OnlyNumber(w);
    assert NumbersOf(cfg, 1) == {Id(0)};
    SumRemove(ChannelCounts(cfg), {Id(0)}, Id(0));
    assert {Id(0)} - {Id(0)} == {};
  }

  lemma OnlyNumber(w: World)
    ensures OneUser(w, 1).dids.Keys == {Id(0)} && OneUser(w, 1).users == map[1 := Account(true, UserCap(w))]
  {
    SpanGrows(0, 0);
    NoSpan(0);
    hide Id, Span;
  }

  lemma StartIsQuiet(w: World)
    requires w.b >= 0
    ensures Quiet(OneUser(w, 1), Start(w.b), 1)
  {
    hide OneUser;
    assert Readers(map[], 1) == {};
  }

  lemma TimesStrict(a: int, b: int)
    requires b >= 1
    ensures -a * b < -(a - 1) * b
  {
    assert -(a - 1) * b == -a * b + b;
  }

  /** Some run ends on the bound without corrections. */
  lemma DrainedOnTheFloor(w: World, k: nat) returns (steps: seq<Step>)
    requires w.b >= 1 && w.cap >= 1
    ensures LawfulRun(OneUser(w, 1), Start(w.b), steps, 1, k) && OneNumberRun(Start(w.b), steps)
        && TopUps(steps, 1) == 0
    ensures HasFees(Start(w.b), steps, 1) == w.fees && Uncovered(Start(w.b), steps, 1) == 0
    ensures var t := Exec(Start(w.b), steps);
      t.balances == map[1 := Floor(w.cap, k, w.fees, w.b, 0)] && |Readers(t.jobs, 1)| <= k
  {
    hide Exec, LawfulRun, OneNumberRun, GoodRun, OneUser, Start, ValidBilling, HasFees, Channels, Caps.ValidConfig,
        Caps.CapsHold,
         Quiet, Waiting, Readers, Up, Span, Members;
    steps := Drained(w, k, 0);
    WaitingReaders(w, 0);
    GoodIsLawful(OneUser(w, 1), Start(w.b), steps, k, true, w.fees);
    TimesStrict(w.cap + k, w.b);
    assert w.b - (k + w.cap) * w.b == -(w.cap + k - 1) * w.b;
    assert -(k + w.cap) * w.b == -(w.cap + k) * w.b;
    if w.fees && !HasFees(Start(w.b), steps, 1) {
      OneUserIsValid(w, 1);
      OneNumberOnly(w);
      StartIsQuiet(w);
      StartBalance(w.b);
      BoundedOverdraft(OneUser(w, 1), Start(w.b), steps, 1, k);
    }
  }

  lemma StartBalance(b: int)
    ensures Start(b).balances == map[1 := b]
  {
  }

  /** One more step of a lawful run. */
  lemma {:induction false} LawfulThen(cfg: Config, s: State, a: seq<Step>, x: Step, k: nat)
    requires LawfulRun(cfg, s, a, 1, k) && OneNumberRun(s, a)
    requires Lawful(cfg, Exec(s, a), x) && Windowed(Exec(s, a), x, 1, k) && OneNumber(Exec(s, a), x)
    ensures LawfulRun(cfg, s, a + [x], 1, k) && OneNumberRun(s, a + [x]) && Exec(s, a + [x]) == Next(Exec(s, a), x)
    ensures TopUps(a + [x], 1) == TopUps(a, 1) + TopUpOf(x, 1)
    ensures Uncovered(s, a + [x], 1) == Uncovered(s, a, 1) + UncoveredOf(Exec(s, a), x, 1)
    ensures HasFees(s, a + [x], 1) <==> HasFees(s, a, 1) || IsFee(Exec(s, a), x, 1)
    decreases |a|
  {
    hide Next, Lawful, Windowed, OneNumber, IsFee, TopUpOf, UncoveredOf;
    if a == [] {
      assert (a + [x])[0] == x && (a + [x])[1..] == [];
    } else {
      assert (a + [x])[0] == a[0] && (a + [x])[1..] == a[1..] + [x];
      LawfulThen(cfg, Next(s, a[0]), a[1..], x, k);
    }
  }

  /** And with a correction at its end, below it by as much. */
  lemma CorrectedBelowTheFloor(w: World, k: nat, low: nat) returns (steps: seq<Step>)
    requires w.b >= 1 && w.cap >= 1
    ensures LawfulRun(OneUser(w, 1), Start(w.b), steps, 1, k) && OneNumberRun(Start(w.b), steps)
        && TopUps(steps, 1) == 0
    ensures HasFees(Start(w.b), steps, 1) == w.fees && Uncovered(Start(w.b), steps, 1) == low
    ensures Exec(Start(w.b), steps).balances == map[1 := Floor(w.cap, k, w.fees, w.b, low)]
  {
    hide Exec, LawfulRun, OneNumberRun, OneUser, Start, HasFees, Uncovered, TopUps, Readers, Next;
    steps := DrainedOnTheFloor(w, k);
    var s := Exec(Start(w.b), steps);
    if low > 0 {
      var cents: int := 0 - low;
      var x := Book(-1, 1, cents);
      assert Readers(s.jobs, 1) - {} == Readers(s.jobs, 1);
      NotAboveZero(w, k);
      hide Floor;
      LooseIs(s, x);
      LawfulThen(OneUser(w, 1), Start(w.b), steps, x, k);
      steps := steps + [x];
    }
  }

  lemma NotAboveZero(w: World, k: nat)
    requires w.b >= 1 && w.cap >= 1
    ensures Floor(w.cap, k, w.fees, w.b, 0) <= 0
    ensures forall low: int :: Floor(w.cap, k, w.fees, w.b, low) == Floor(w.cap, k, w.fees, w.b, 0) - low
  {
    MulMono(0, w.cap + k - 1, w.b);
    MulMono(0, w.cap + k, w.b);
    NegTimes(w.cap + k - 1, w.b);
    NegTimes(w.cap + k, w.b);
  }

  /** For every number of channels, capped or not, every number of stale balances, every positive balance, with fees
      and without, and for every amount of corrections, some lawful run under a valid configuration, with no top-up
      and every Call-ID on one number, ends exactly on the bound. */
  lemma BoundIsAttained(w: World, k: nat, low: nat)
    requires w.b >= 1 && w.cap >= 1
    ensures ValidBilling(OneUser(w, 1)) && Caps.ValidConfig(OneUser(w, 1)) && Quiet(OneUser(w, 1), Start(w.b), 1)
    ensures Channels(OneUser(w, 1), 1) == w.cap && OneUser(w, 1).users[1].cap == UserCap(w)
    ensures exists steps ::
      && LawfulRun(OneUser(w, 1), Start(w.b), steps, 1, k) && OneNumberRun(Start(w.b), steps) && TopUps(steps, 1) == 0
      && HasFees(Start(w.b), steps, 1) == w.fees && Uncovered(Start(w.b), steps, 1) == low
      && Exec(Start(w.b), steps).balances == map[1 := Floor(w.cap, k, w.fees, w.b, low)]
  {
    UserAt(w, 1);
    hide Exec, LawfulRun, OneNumberRun, OneUser, Start, ValidBilling, HasFees, Uncovered, TopUps, Channels,
        Caps.ValidConfig,
         Caps.CapsHold, Quiet, Floor;
    OneUserIsValid(w, 1);
    OneNumberOnly(w);
    StartIsQuiet(w);
    var steps := CorrectedBelowTheFloor(w, k, low);
    assert LawfulRun(OneUser(w, 1), Start(w.b), steps, 1, k);
  }

  // ---------- one Call-ID on several numbers ----------

  /** One Call-ID is up on the first `m` numbers, but for the `d` calls already charged. */
  function Spread(d: nat, m: nat, b: int): map<Ticket, Grant> {
    map e | e in Span(d, m) :: Ticket(Id(0), e) := Grant(1, 60, b)
  }

  lemma SpreadGrows(d: nat, m: nat, b: int)
    requires d <= m
    ensures Spread(d, m + 1, b) == Spread(d, m, b)[Ticket(Id(0), Id(m)) := Grant(1, 60, b)]
    ensures Ticket(Id(0), Id(m)) !in Spread(d, m, b)
  {
    hide Id, Span;
    SpanSize(d, m);
  }

  lemma SpreadShrinks(d: nat, m: nat, b: int)
    requires d < m
    ensures Ticket(Id(0), Id(d)) in Spread(d, m, b) && Spread(d, m, b)[Ticket(Id(0), Id(d))] == Grant(1, 60, b)
    ensures Spread(d, m, b) - {Ticket(Id(0), Id(d))} == Spread(d + 1, m, b)
  {
    hide Id, Span;
    SpanDown(d + 1, m);
  }

  /** Nobody but the user's one Call-ID holds a slot. */
  ghost predicate Spreading(b: int, s: State, m: nat) {
    && s.balances == map[1 := b] && s.jobs == map[] && s.granted == Spread(0, m, b)
    && Members(s.sets, UserSet(1)) <= {Id(0)} && forall i: int :: i >= m ==> Members(s.sets, DidSet(i)) == {}
  }

  lemma SpreadOneMore(w: World, n: nat, before: seq<Step>, m: nat) returns (steps: seq<Step>)
    requires w.b >= 1 && w.cap >= 2 && m < n && GoodRun(OneUser(w, n), Start(w.b), before, 0, false, w.fees)
    requires Spreading(w.b, Exec(Start(w.b), before), m)
    ensures GoodRun(OneUser(w, n), Start(w.b), steps, 0, false, w.fees)
        && Spreading(w.b, Exec(Start(w.b), steps), m + 1)
  {
    hide Next, Id, OneUser, Members, Start, Reader, Spread, Good, GoodRun, Exec;
    var cfg := OneUser(w, n);
    var x, y, z := Look(0, cfg, Req(Id(0), m)), Take(0), Enter(0, 0);
    var s := Exec(Start(w.b), before);
    SpreadGrows(0, m, w.b);
    LookIn(w, n, s, 0, Id(0), m);
    assert Readers(map[], 1) == {};
    PlainIsGood(cfg, s, x, 0, false, w.fees);
    SubsetSize(Members(s.sets, UserSet(1)), {Id(0)});
    Admitted(w, n, 0, false, w.fees, Next(s, x), 0, Id(0), m, map[]);
    GoodThenThree(cfg, Start(w.b), before, x, y, z, 0, false, w.fees);
    steps := before + [x] + [y] + [z];
  }

  /** Handlers that have charged their call and hold no grant to wait for. */
  ghost predicate Charging(b: int, s: State, d: nat, m: nat) {
    && s.balances == map[1 := b - d * b] && s.granted == Spread(d, m, b)
    && Readers(s.jobs, 1) == {} && forall j :: j in s.jobs ==> 0 <= j < d
  }

  lemma ChargeOneMore(w: World, n: nat, before: seq<Step>, d: nat) returns (steps: seq<Step>)
    requires w.b >= 1 && d < n && GoodRun(OneUser(w, n), Start(w.b), before, 0, false, w.fees)
    requires Charging(w.b, Exec(Start(w.b), before), d, n)
    ensures GoodRun(OneUser(w, n), Start(w.b), steps, 0, false, w.fees)
        && Charging(w.b, Exec(Start(w.b), steps), d + 1, n)
  {
    hide Next, Id, OneUser, Start, Spread, Good, GoodRun, Exec, CallIds.SanitizeCallID, Readers;
    var cfg := OneUser(w, n);
    var s := Exec(Start(w.b), before);
    var x := Hangs(w, d, Id(0), d);
    SpreadShrinks(d, n, w.b);
    Charged(w, n, 0, false, w.fees, s, d, Id(0), d, s.jobs);
    OneMoreReader(s.jobs, d, Clearing({Id(0)}, Some(CallIds.SanitizeCallID(Id(0))), {}, {}));
    GoodThenTwo(cfg, Start(w.b), before, x, Debit(d), 0, false, w.fees);
    steps := before + [x] + [Debit(d)];
    assert w.b - d * w.b - w.b == w.b - (d + 1) * w.b;
  }

  lemma NothingSpread(w: World, n: nat)
    ensures GoodRun(OneUser(w, n), Start(w.b), [], 0, false, w.fees) && Spreading(w.b, Exec(Start(w.b), []), 0)
  {
    hide OneUser, Good, Next;
    assert Span(0, 0) == {};
    assert Spread(0, 0, w.b) == map[];
  }

  lemma {:induction false} SpreadOver(w: World, n: nat, m: nat) returns (steps: seq<Step>)
    requires w.b >= 1 && w.cap >= 2 && m <= n
    ensures GoodRun(OneUser(w, n), Start(w.b), steps, 0, false, w.fees) && Spreading(w.b, Exec(Start(w.b), steps), m)
  {
    hide Spreading, GoodRun, Exec;
    if m == 0 {
      steps := [];
      NothingSpread(w, n);
    } else {
      var before := SpreadOver(w, n, m - 1);
      steps := SpreadOneMore(w, n, before, m - 1);
    }
  }

  lemma {:induction false} ChargeAll(w: World, n: nat, d: nat) returns (steps: seq<Step>)
    requires w.b >= 1 && w.cap >= 2 && d <= n
    ensures GoodRun(OneUser(w, n), Start(w.b), steps, 0, false, w.fees) && Charging(w.b, Exec(Start(w.b), steps), d, n)
  {
    if d == 0 {
      hide GoodRun, Exec;
      steps := SpreadOver(w, n, n);
    } else {
      hide Charging, GoodRun, Exec;
      var before := ChargeAll(w, n, d - 1);
      steps := ChargeOneMore(w, n, before, d - 1);
    }
  }

  /** The script counts members, and a Call-ID that is up on several numbers is one member of its user's set: under
      any cap from 2 on, with gate and reservation as one step and every call charged once, the balance falls to
      B - n * B, whatever n. `BoundedOverdraft` therefore asks for one number a Call-ID where it speaks of the cap. */
  lemma SharedCallIdHasNoBound(w: World, n: nat)
    requires w.b >= 1 && w.cap >= 2 && w.capped && !w.fees
    ensures ValidBilling(OneUser(w, n)) && OneUser(w, n).users[1].cap == w.cap
    ensures exists steps ::
      && LawfulRun(OneUser(w, n), Start(w.b), steps, 1, 0) && TopUps(steps, 1) == 0
      && !HasFees(Start(w.b), steps, 1) && Uncovered(Start(w.b), steps, 1) == 0
      && Exec(Start(w.b), steps).balances == map[1 := w.b - n * w.b]
  {
    UserAt(w, n);
    hide Exec, LawfulRun, OneNumberRun, GoodRun, OneUser, Start, ValidBilling, HasFees, Uncovered;
    OneUserIsValid(w, n);
    var steps := ChargeAll(w, n, n);
    GoodIsLawful(OneUser(w, n), Start(w.b), steps, 0, false, w.fees);
    assert LawfulRun(OneUser(w, n), Start(w.b), steps, 1, 0);
  }
}
