/** How far below zero calls can drive a balance: the user's cap limits the calls that are up at once, if every Call-ID
    is up on one number, and so do the channel counts of the user's numbers in any case. */
module Overdraft {
  import opened Basics
  import opened CallControl
  import opened LiveIndex
  import opened AtStake
  import Caps
  import CallIds
  import Rating

  // ---------- the user's cap ----------

  ghost predicate OneTicketACall(granted: map<Ticket, Grant>) {
    forall t, u :: t in granted && u in granted && t.callId == u.callId ==> t == u
  }

  /** `slots` is the user's reservation set. */
  ghost predicate Slotted(granted: map<Ticket, Grant>, slots: set<string>, user: int, cap: int) {
    && (forall t :: t in OpenOf(granted, user) ==> t.callId in slots)
    && OneTicketACall(granted)
    && |slots| <= cap
  }

  lemma {:induction false} OneSlotATicket(open: set<Ticket>, slots: set<string>)
    requires forall t :: t in open ==> t.callId in slots
    requires forall t, u :: t in open && u in open && t.callId == u.callId ==> t == u
    ensures |open| <= |slots|
    decreases |open|
  {
    if open != {} {
      var t :| t in open;
      OneSlotATicket(open - {t}, slots - {t.callId});
    }
  }

  lemma SlottedLimits(granted: map<Ticket, Grant>, slots: set<string>, user: int, cap: int)
    requires Slotted(granted, slots, user, cap)
    ensures |OpenOf(granted, user)| <= cap && |slots| <= cap
  {
    OneSlotATicket(OpenOf(granted, user), slots);
  }

  lemma GrantIsSlotted(granted: map<Ticket, Grant>, before: set<string>, after: set<string>, t: Ticket, g: Grant,
                       user: int,
                       cap: int)
    requires Slotted(granted, before, user, cap) && before <= after && |after| <= cap
    requires g.user == user ==> t.callId in after
    requires forall u :: u in granted && u.callId == t.callId ==> u == t
    ensures Slotted(granted, after, user, cap) && Slotted(AddGrant(granted, t, g), after, user, cap)
  {
  }

  lemma WiderSlots(granted: map<Ticket, Grant>, before: set<string>, after: set<string>, user: int, cap: int)
    requires Slotted(granted, before, user, cap) && before <= after && |after| <= cap
    ensures Slotted(granted, after, user, cap)
  {
  }

  /** `t` keeps a slot of every call of the user that `s` had, but for one that was charged. */
  lemma FewerSlots(before: map<Ticket, Grant>, after: map<Ticket, Grant>, slots: set<string>, fewer: set<string>,
                   user: int, cap: int)
    requires Slotted(before, slots, user, cap) && fewer <= slots
    requires forall t :: t in after ==> t in before && after[t] == before[t]
    requires forall t :: t in after && t.callId in slots ==> t.callId in fewer
    ensures Slotted(after, fewer, user, cap)
  {
    SubsetSize(fewer, slots);
    forall t | t in OpenOf(after, user) ensures t.callId in fewer {
      assert t in OpenOf(before, user);
    }
  }

  lemma ReserveSlots(s: State, j: int, cfg: Config, user: int)
    requires Enabled(s, Take(j)) && Caps.AllAskFor(cfg, s.jobs) && user in cfg.users && cfg.users[user].cap >= 0
    requires |Members(s.sets, UserSet(user))| <= cfg.users[user].cap
    ensures var a := s.jobs[j];
      var before, after := Members(s.sets, UserSet(user)), Members(Next(s, Take(j)).sets, UserSet(user));
      && before <= after && |after| <= cfg.users[user].cap
      && (Reserve(s.sets, a.order.user, a.line.did, a.req.callId, a.cap, a.order.channelCount).1 == 1
          && a.order.user == user
          ==> a.req.callId in after)
  {
    hide Next, DoTake, Reserve, Members, HasOrder;
    var a := s.jobs[j];
    assert Caps.AsksFor(cfg, a);
    TakeIs(s, j);
    TakeSets(s, j, a.req, a.line, a.order, a.cap, a.credit);
    ReserveMembers(s.sets, a.order.user, a.line.did, a.req.callId, a.cap, a.order.channelCount);
    assert |Members(s.sets, UserSet(user)) + {a.req.callId}| <= |Members(s.sets, UserSet(user))| + 1;
  }

  ghost predicate UnderCap(cfg: Config, s: State, user: int) {
    && user in cfg.users && cfg.users[user].cap >= 0 && Caps.AllAskFor(cfg, s.jobs)
    && Slotted(s.granted, Members(s.sets, UserSet(user)), user, cfg.users[user].cap)
  }

  lemma TakeStaysUnderCap(cfg: Config, s: State, j: int, user: int)
    requires UnderCap(cfg, s, user) && Enabled(s, Take(j)) && OneNumber(s, Take(j))
    ensures UnderCap(cfg, Next(s, Take(j)), user)
  {
    hide Next, Reserve, Members, Slotted, AddGrant, Caps.AllAskFor, Rating.MaxSecondsForBalance, Askers;
    var a := s.jobs[j];
    var t := Next(s, Take(j));
    var cap := cfg.users[user].cap;
    var before, after := Members(s.sets, UserSet(user)), Members(t.sets, UserSet(user));
    var g := Grant(a.order.user, Rating.MaxSecondsForBalance(a.credit, a.order.rate), a.credit);
    SlottedLimits(s.granted, before, user, cap);
    TakeBooks(s, j);
    ReserveSlots(s, j, cfg, user);
    Caps.TakeAsks(cfg, s, j);
    if t.granted == s.granted {
      WiderSlots(s.granted, before, after, user, cap);
    } else {
      GrantIsSlotted(s.granted, before, after, Ticket(a.req.callId, a.req.e164), g, user, cap);
    }
  }

  /** What the other steps do to grants and slots. */
  lemma SlotsOnlyGo(s: State, step: Step, key: SetKey)
    requires !(Enabled(s, step) && step.Take?)
    requires step.Page? && Enabled(s, step) ==> forall t :: t in s.granted ==> t.callId !in s.jobs[step.j].ids
    ensures var t := Next(s, step);
      && (forall u :: u in t.granted ==> u in s.granted && t.granted[u] == s.granted[u])
      && Members(t.sets, key) <= Members(s.sets, key)
      && (forall u :: u in t.granted && u.callId in Members(s.sets, key) ==> u.callId in Members(t.sets, key))
  {
    hide Next, Members;
    GrantsOnlyGo(s, step);
    if Enabled(s, step) && step.Page? {
      PageIs(s, step.j, step.keys);
      hide ReleaseFrom, NoteAll;
      ReleaseMembers(s.sets, s.jobs[step.j].ids, step.keys, key);
    } else {
      OthersKeepSets(s, step);
    }
  }

  lemma GrantsOnlyGo(s: State, step: Step)
    requires !(Enabled(s, step) && step.Take?)
    ensures var t := Next(s, step).granted; forall u :: u in t ==> u in s.granted && t[u] == s.granted[u]
  {
    hide Next, DoLook;
    if !Enabled(s, step) {
      Idle(s, step);
    } else if step.Look? {
      LookIs(s, step.j, step.cfg, step.req);
      LookShape(s, step.j, step.cfg, step.req);
    } else if step.Claim? {
      hide Askers;
      ClaimBooks(s, step);
    } else if step.Debit? {
      hide CallIds.SanitizeCallID, ChargeOf, DebitFrom;
      DebitIs(s, step.j);
    } else if step.Enter? || step.Leave? || step.Unlist? || step.Remove? || step.Rewrite? || step.Page? {
      ToldBooks(s, step);
    } else {
      QuietFrame(s, step);
    }
  }

  lemma StepStaysUnderCap(cfg: Config, s: State, step: Step, user: int)
    requires UnderCap(cfg, s, user) && Lawful(cfg, s, step) && OneNumber(s, step)
    ensures UnderCap(cfg, Next(s, step), user)
  {
    hide Next, Members, Slotted, Caps.AllAskFor, OpenOf;
    Caps.StepKeepsAsks(cfg, s, step);
    if Enabled(s, step) && step.Take? {
      TakeStaysUnderCap(cfg, s, step.j, user);
    } else {
      var t := Next(s, step);
      SlotsOnlyGo(s, step, UserSet(user));
      FewerSlots(s.granted, t.granted, Members(s.sets, UserSet(user)), Members(t.sets, UserSet(user)), user,
                 cfg.users[user].cap);
    }
  }

  /** With one number a Call-ID, the cap limits the calls that are up. */
  lemma {:induction false} CapLimitsCalls(cfg: Config, s: State, steps: seq<Step>, user: int, k: nat)
    requires UnderCap(cfg, s, user) && LawfulRun(cfg, s, steps, user, k) && OneNumberRun(s, steps)
    ensures AtMostUp(s, steps, user, cfg.users[user].cap)
    decreases |steps|
  {
    hide Next, Slotted, Caps.AllAskFor, Lawful, OneNumber, Windowed, OpenOf;
    SlottedLimits(s.granted, Members(s.sets, UserSet(user)), user, cfg.users[user].cap);
    if steps != [] {
      StepStaysUnderCap(cfg, s, steps[0], user);
      CapLimitsCalls(cfg, Next(s, steps[0]), steps[1..], user, k);
    }
  }

  // ---------- the numbers' channel counts ----------

  ghost predicate IsNumberOf(cfg: Config, e164: string, user: int) {
    e164 in cfg.dids && HasOrder(cfg, cfg.dids[e164]) && cfg.dids[e164].order.value.user == user
  }

  ghost function NumbersOf(cfg: Config, user: int): set<string> {
    set e | e in cfg.dids && IsNumberOf(cfg, e, user)
  }

  ghost function ChannelCounts(cfg: Config): map<string, int> {
    map e | e in cfg.dids && HasOrder(cfg, cfg.dids[e]) :: cfg.dids[e].order.value.channelCount
  }

  /** The channels of all the user's numbers together. */
  ghost function Channels(cfg: Config, user: int): int {
    Sum(ChannelCounts(cfg), NumbersOf(cfg, user))
  }

  /** Every call that is up holds a slot of its number. */
  ghost predicate OnNumber(cfg: Config, sets: Sets, t: Ticket) {
    t.e164 in cfg.dids && t.callId in Members(sets, DidSet(cfg.dids[t.e164].did))
  }

  ghost predicate OnNumbers(cfg: Config, s: State) {
    forall t :: t in s.granted ==> OnNumber(cfg, s.sets, t)
  }

  ghost predicate WithinNumbers(cfg: Config, s: State) {
    Caps.AllAskFor(cfg, s.jobs) && Caps.CapsHold(cfg, s.sets) && GrantsOk(cfg, s.granted) && OnNumbers(cfg, s)
  }

  /** The user's calls on some of the numbers. */
  ghost function OpenOn(granted: map<Ticket, Grant>, user: int, numbers: set<string>): set<Ticket> {
    set t | t in granted && granted[t].user == user && t.e164 in numbers
  }

  /** Calls on one number differ in their Call-IDs, which are all in the number's set. */
  lemma OneNumbersCalls(cfg: Config, s: State, user: int, e164: string)
    requires WithinNumbers(cfg, s) && IsNumberOf(cfg, e164, user)
    ensures |OpenOn(s.granted, user, {e164})| <= cfg.dids[e164].order.value.channelCount
  {
    hide HasOrder, Members, GrantsOk, Caps.AllAskFor;
    var slots := Members(s.sets, DidSet(cfg.dids[e164].did));
    forall t | t in OpenOn(s.granted, user, {e164}) ensures t.callId in slots {
      assert OnNumber(cfg, s.sets, t);
    }
    OneSlotATicket(OpenOn(s.granted, user, {e164}), slots);
  }

  lemma {:induction false} NumbersCalls(cfg: Config, s: State, user: int, numbers: set<string>)
    requires WithinNumbers(cfg, s) && numbers <= NumbersOf(cfg, user)
    ensures |OpenOn(s.granted, user, numbers)| <= Sum(ChannelCounts(cfg), numbers)
    decreases |numbers|
  {
    hide WithinNumbers, HasOrder;
    if numbers == {} {
      assert OpenOn(s.granted, user, numbers) == {};
    } else {
      var e :| e in numbers;
      OneNumbersCalls(cfg, s, user, e);
      NumbersCalls(cfg, s, user, numbers - {e});
      SumRemove(ChannelCounts(cfg), numbers, e);
      assert OpenOn(s.granted, user, numbers) == OpenOn(s.granted, user, numbers - {e}) + OpenOn(s.granted, user, {e});
      UnionSize(OpenOn(s.granted, user, numbers - {e}), OpenOn(s.granted, user, {e}));
    }
  }

  lemma UnionSize<T>(a: set<T>, b: set<T>)
    ensures |a + b| <= |a| + |b|
  {
    assert a + b == a + (b - a);
    SubsetSize(b - a, b);
  }

  lemma NumbersLimit(cfg: Config, s: State, user: int)
    requires WithinNumbers(cfg, s)
    ensures |OpenOf(s.granted, user)| <= Channels(cfg, user)
  {
    hide HasOrder, Members, Caps.AllAskFor, Caps.CapsHold, OnNumbers;
    NumbersCalls(cfg, s, user, NumbersOf(cfg, user));
    forall t | t in OpenOf(s.granted, user) ensures t.e164 in NumbersOf(cfg, user) {
      assert t in s.granted;
    }
    assert OpenOf(s.granted, user) == OpenOn(s.granted, user, NumbersOf(cfg, user));
  }

  lemma TakeStaysWithin(cfg: Config, s: State, j: int)
    requires WithinNumbers(cfg, s) && Caps.ValidConfig(cfg) && Enabled(s, Take(j))
    ensures WithinNumbers(cfg, Next(s, Take(j)))
  {
    hide Next, Reserve, Members, AddGrant, Caps.AllAskFor, Caps.CapsHold, Caps.ValidConfig, GrantsOk,
        Rating.MaxSecondsForBalance,
         Askers;
    var a := s.jobs[j];
    var t := Next(s, Take(j));
    var ticket := Ticket(a.req.callId, a.req.e164);
    var g := Grant(a.order.user, Rating.MaxSecondsForBalance(a.credit, a.order.rate), a.credit);
    TakeBooks(s, j);
    TakeWidens(s, j);
    Caps.TakeAsks(cfg, s, j);
    Caps.StepKeepsCaps(cfg, s, Take(j));
    TicketOk(cfg, s.jobs, j);
    GrantsExtend(cfg, s.granted, ticket, g);
    GrantsOneOrTheOther(s.granted, ticket, g);
    AsksOnItsLine(cfg, s.jobs, j);
    forall u | u in t.granted ensures OnNumber(cfg, t.sets, u) {
      assert u in s.granted ==> OnNumber(cfg, s.sets, u);
    }
  }

  lemma AsksOnItsLine(cfg: Config, jobs: map<int, Job>, j: int)
    requires Caps.AllAskFor(cfg, jobs) && j in jobs && jobs[j].Asking?
    ensures jobs[j].req.e164 in cfg.dids && jobs[j].line == cfg.dids[jobs[j].req.e164]
  {
    hide HasOrder;
    assert Caps.AsksFor(cfg, jobs[j]);
  }

  lemma TakeWidens(s: State, j: int)
    requires Enabled(s, Take(j))
    ensures var a := s.jobs[j];
      var t := Next(s, Take(j));
      && (forall key :: Members(s.sets, key) <= Members(t.sets, key))
      && (Reserve(s.sets, a.order.user, a.line.did, a.req.callId, a.cap, a.order.channelCount).1 == 1 ==>
            a.req.callId in Members(t.sets, DidSet(a.line.did)))
  {
    hide Next, DoTake, Reserve, Members;
    var a := s.jobs[j];
    TakeIs(s, j);
    TakeSets(s, j, a.req, a.line, a.order, a.cap, a.credit);
    ReserveMembers(s.sets, a.order.user, a.line.did, a.req.callId, a.cap, a.order.channelCount);
  }

  lemma StepStaysWithin(cfg: Config, s: State, step: Step)
    requires WithinNumbers(cfg, s) && Caps.ValidConfig(cfg) && Lawful(cfg, s, step)
    ensures WithinNumbers(cfg, Next(s, step))
  {
    hide Next, Members, Caps.AllAskFor, Caps.CapsHold, Caps.ValidConfig, HasOrder, Rating.MaxSecondsForBalance;
    if Enabled(s, step) && step.Take? {
      TakeStaysWithin(cfg, s, step.j);
    } else {
      Caps.StepKeepsAsks(cfg, s, step);
      Caps.StepKeepsCaps(cfg, s, step);
      GrantsOnlyGo(s, step);
      var t := Next(s, step);
      forall u | u in t.granted ensures OnNumber(cfg, t.sets, u) {
        assert OnNumber(cfg, s.sets, u);
        SlotsOnlyGo(s, step, DidSet(cfg.dids[u.e164].did));
      }
    }
  }

  /** Whatever the Call-IDs, the user's numbers together limit the calls that are up. */
  lemma {:induction false} NumbersLimitCalls(cfg: Config, s: State, steps: seq<Step>, user: int, k: nat, calls: nat)
    requires WithinNumbers(cfg, s) && Caps.ValidConfig(cfg) && LawfulRun(cfg, s, steps, user, k)
    requires calls == Channels(cfg, user)
    ensures AtMostUp(s, steps, user, calls)
    decreases |steps|
  {
    hide Next, WithinNumbers, Caps.ValidConfig, Lawful, Windowed, OpenOf, Channels;
    NumbersLimit(cfg, s, user);
    if steps != [] {
      StepStaysWithin(cfg, s, steps[0]);
      NumbersLimitCalls(cfg, Next(s, steps[0]), steps[1..], user, k, calls);
    }
  }

  // ---------- the theorem ----------

  lemma QuietIsWithin(cfg: Config, s: State, user: int)
    requires Quiet(cfg, s, user) && Caps.CapsHold(cfg, s.sets)
    ensures WithinNumbers(cfg, s)
    ensures user in cfg.users && cfg.users[user].cap >= 0 ==> UnderCap(cfg, s, user)
    ensures Channels(cfg, user) >= 0
  {
    hide Members, Caps.AllAskFor, HasOrder;
    assert OpenOf(s.granted, user) == {};
    NumbersLimit(cfg, s, user);
  }

  /** Over every lawful interleaving from a balance B with no call up, with at most k other authorizes of the user
      between balance and reservation: the balance never falls below -(S + k - 1) * (B + top-ups) less the uncovered
      corrections, where S adds up the channels of the user's numbers; nor, for a user with cap C and one number a
      Call-ID, below the same with C for S. With fees taken from the same balance, k + 1 stands for k. */
  lemma BoundedOverdraft(cfg: Config, s: State, steps: seq<Step>, user: int, k: nat)
    requires ValidBilling(cfg) && Caps.ValidConfig(cfg) && LawfulRun(cfg, s, steps, user, k)
    requires Quiet(cfg, s, user) && Caps.CapsHold(cfg, s.sets)
    ensures var t := Exec(s, steps);
      var fees, peak, low := HasFees(s, steps, user), s.balances[user] + TopUps(steps, user), Uncovered(s, steps, user);
      && user in t.balances && Channels(cfg, user) >= 0
      && t.balances[user] >= Floor(Channels(cfg, user), k, fees, peak, low)
      && (user in cfg.users && cfg.users[user].cap >= 0 && OneNumberRun(s, steps) ==>
            t.balances[user] >= Floor(cfg.users[user].cap, k, fees, peak, low))
  {
    hide LawfulRun, OneNumberRun, AtMostUp, HasFees, Exec, ValidBilling, Caps.ValidConfig, Caps.CapsHold,
        WithinNumbers, UnderCap,
         Channels, Floor;
    QuietIsWithin(cfg, s, user);
    NumbersLimitCalls(cfg, s, steps, user, k, Channels(cfg, user));
    BoundedByCallsUp(cfg, s, steps, user, Channels(cfg, user), k);
    if user in cfg.users && cfg.users[user].cap >= 0 && OneNumberRun(s, steps) {
      CapLimitsCalls(cfg, s, steps, user, k);
      BoundedByCallsUp(cfg, s, steps, user, cfg.users[user].cap, k);
    }
  }
}
