/** What authorize answers, what it has stored by then, and what the teardown charges, in terms of the rows, the balance
    and the sets alone. */
module Answers {
  import opened Basics
  import opened CallIds
  import opened CallControl
  import opened LiveIndex
  import opened Interleaving
  import Caps
  import Rating

  // ---------- the reference ----------

  /** A number of ours, called from its supplier's address. */
  predicate Known(cfg: Config, req: Request) {
    req.e164 != "" && req.srcIpOk && req.e164 in cfg.dids && req.aclOk
  }

  predicate Ordered(cfg: Config, req: Request) {
    && Known(cfg, req) && cfg.dids[req.e164].status == Assigned && cfg.dids[req.e164].order.Some?
    && var o := cfg.dids[req.e164].order.value;
       (o.status == Active || o.status == Quarantined || o.status == KycPending) && o.user in cfg.users
  }

  function BalanceAt(s: State, user: int): int {
    if user in s.balances then s.balances[user] else 0
  }

  /** The whole minutes the balance covers, in seconds; four hours at a free rate. */
  ghost predicate Affords(seconds: int, balance: int, rate: real) {
    if rate <= 0.0 then seconds == 14400
    else
      && seconds % 60 == 0 && seconds >= 0 && (balance < 0 ==> seconds == 0)
      && (balance >= 0 ==> seconds as real * rate <= 60.0 * balance as real < (seconds + 60) as real * rate)
  }

  predicate Serving(cfg: Config, req: Request) {
    && Ordered(cfg, req)
    && var o := cfg.dids[req.e164].order.value; o.status == Active && cfg.users[o.user].active
  }

  predicate GroupLacks(kind: string, group: Option<int>, pick: Option<string>) {
    kind == "audio_group" && (group.None? || pick.None?)
  }

  predicate UserFull(cfg: Config, sets: Sets, o: OrderLine)
    requires o.user in cfg.users
  {
    cfg.users[o.user].cap >= 0 && |Members(sets, UserSet(o.user))| >= cfg.users[o.user].cap
  }

  predicate NumberFull(sets: Sets, line: DidLine, o: OrderLine) {
    |Members(sets, DidSet(line.did))| >= o.channelCount
  }

  /** `s` is the state when the rows are read; each reason fits exactly one stage of the checks over them. */
  ghost predicate RowsRefuse(cfg: Config, req: Request, s: State, reason: string) {
    if req.e164 == "" then reason == "bad_to_uri"
    else if !req.srcIpOk then reason == "bad_src_ip"
    else if req.e164 !in cfg.dids then reason == "unknown_did"
    else if !req.aclOk then reason == "src_ip_not_authorized"
    else
      var line := cfg.dids[req.e164];
      if line.status == Reserved then
        && reason == "reservation_misconfigured"
        && (|| line.reservedKind == "" || GroupLacks(line.reservedKind, line.reservedGroup, req.pick)
            || (line.reservedKind != "audio_group" && line.reservedTarget == ""))
      else if !Ordered(cfg, req) then reason == "did_not_assigned"
      else
        var o := line.order.value;
        if o.status == KycPending then reason == "kyc_pending"
        else if o.status == Quarantined then reason == "quarantined"
        else if !cfg.users[o.user].active then reason == "user_blocked"
        else
          && reason == "insufficient_balance"
          && exists seconds :: Affords(seconds, BalanceAt(s, o.user), o.rate) && seconds < cfg.minSeconds
  }

  /** `sets` are those the script sees. */
  ghost predicate ScriptRefuses(cfg: Config, req: Request, sets: Sets, reason: string) {
    && Serving(cfg, req)
    && var line := cfg.dids[req.e164];
       var o := line.order.value;
       if UserFull(cfg, sets, o) then reason == "user_channel_cap_hit"
       else if NumberFull(sets, line, o) then reason == "did_channel_cap_hit"
       else reason == "reservation_misconfigured" && GroupLacks(o.routeKind, o.audioGroup, req.pick)
  }

  /** The route as configured, but for an audio group, which stands for the clip picked. */
  ghost predicate Routed(kind: string, target: string, pick: Option<string>, outKind: string, outTarget: string) {
    if kind == "audio_group" then pick.Some? && outKind == "audio" && outTarget == "didstorage/" + pick.value
    else outKind == kind && outTarget == target
  }

  /** Four hours for a reserved number; for an order what the balance read first covers. */
  ghost predicate AllowFits(cfg: Config, req: Request, s: State, sets: Sets, r: Response)
    requires r.Allow?
  {
    && Known(cfg, req)
    && var line := cfg.dids[req.e164];
       if line.status == Reserved then
         && line.reservedKind != "" && !GroupLacks(line.reservedKind, line.reservedGroup, req.pick)
         && r.maxSeconds == 14400 && r.routeTarget != ""
         && Routed(line.reservedKind, line.reservedTarget, req.pick, r.routeKind, r.routeTarget)
       else
         && Serving(cfg, req)
         && var o := line.order.value;
            && Affords(r.maxSeconds, BalanceAt(s, o.user), o.rate) && r.maxSeconds >= cfg.minSeconds
            && !UserFull(cfg, sets, o) && !NumberFull(sets, line, o) && !GroupLacks(o.routeKind, o.audioGroup, req.pick)
            && Routed(o.routeKind, o.routeTarget, req.pick, r.routeKind, r.routeTarget)
  }

  ghost predicate AnswerFits(cfg: Config, req: Request, s: State, sets: Sets, r: Response) {
    match r
    case Deny(reason) => RowsRefuse(cfg, req, s, reason) || ScriptRefuses(cfg, req, sets, reason)
    case Allow(_, _, _) => AllowFits(cfg, req, s, sets, r)
  }

  // ---------- what the rows decide ----------

  lemma AffordsIt(balance: int, rate: real)
    ensures Affords(Rating.MaxSecondsForBalance(balance, rate), balance, rate)
  {
    Rating.MaxSecondsMeans(balance, rate);
  }

  lemma ScreenRefuses(cfg: Config, req: Request, s: State)
    ensures Screen(cfg, req, s.balances).Refused? ==> RowsRefuse(cfg, req, s, Screen(cfg, req, s.balances).reason)
  {
    hide Rating.MaxSecondsForBalance, Affords;
    if Ordered(cfg, req) {
      var o := cfg.dids[req.e164].order.value;
      AffordsIt(BalanceAt(s, o.user), o.rate);
    }
  }

  lemma ScreenAccepts(cfg: Config, req: Request, s: State)
    ensures match Screen(cfg, req, s.balances)
      case Refused(_) => true
      case Unbilled(line, target) =>
        && Known(cfg, req) && line == cfg.dids[req.e164] && line.status == Reserved && line.reservedKind != ""
        && target != ""
        && !GroupLacks(line.reservedKind, line.reservedGroup, req.pick)
        && target == if line.reservedKind == "audio_group" then "didstorage/" + req.pick.value else line.reservedTarget
      case Billable(line, o, cap, credit) =>
        && Serving(cfg, req) && line == cfg.dids[req.e164] && o == line.order.value && cap == cfg.users[o.user].cap
        && credit == BalanceAt(s, o.user) && Rating.MaxSecondsForBalance(credit, o.rate) >= cfg.minSeconds
  {
    hide Rating.MaxSecondsForBalance;
  }

  // ---------- what the last step says ----------

  lemma EnterReplies(s: State, j: int, now: int, c: LiveCall, maxSeconds: int)
    requires j in s.jobs && s.jobs[j].Entering? && s.jobs[j].call == c && s.jobs[j].maxSeconds == maxSeconds
    ensures var r := Reply(s, Enter(j, now));
      && r.Some? && r.value.Allow? && r.value.maxSeconds == maxSeconds && r.value.routeTarget == c.routeTarget
      && r.value.routeKind == if c.routeKind == "audio_group" then "audio" else c.routeKind
  {
  }

  lemma FreeIs(req: Request, line: DidLine, target: string)
    ensures FreeEntry(req, line, target).routeKind == line.reservedKind
        && FreeEntry(req, line, target).routeTarget == target
    ensures Rating.FREE_CALL_SECONDS == 14400
  {
  }

  lemma PaidIs(req: Request, line: DidLine, o: OrderLine)
    requires !GroupLacks(o.routeKind, o.audioGroup, req.pick)
    ensures Resolves(o, req) && PaidEntry(req, line, o).routeKind == o.routeKind
    ensures PaidEntry(req, line, o).routeTarget ==
              if o.routeKind == "audio_group" then "didstorage/" + req.pick.value else o.routeTarget
  {
  }

  /** The handler answers at its only step. */
  lemma OneStepAnswer(s: State, t: State, r: Response, x: Step, others: nat -> seq<Step>)
    requires Answered(s, t, r, [x], others)
    ensures Some(r) == Reply(s, x) && t == Next(s, x)
  {
    hide Next, Reply;
    assert [x][..0] == [];
  }

  lemma TwoStepAnswer(s: State, t: State, r: Response, x: Step, y: Step, others: nat -> seq<Step>)
    requires Answered(s, t, r, [x, y], others)
    ensures var u := Exec(Next(s, x), others(0)); Some(r) == Reply(u, y) && t == Next(u, y)
  {
    hide Next, Reply, Exec;
    assert [x, y][..1] == [x];
    ThreeInterleaved(s, x, y, y, others, 0);
  }

  lemma ThreeStepAnswer(s: State, t: State, r: Response, x: Step, y: Step, z: Step, others: nat -> seq<Step>)
    requires Answered(s, t, r, [x, y, z], others)
    ensures var u := Exec(Next(Exec(Next(s, x), others(0)), y), others(1)); Some(r) == Reply(u, z) && t == Next(u, z)
  {
    hide Next, Reply, Exec;
    assert [x, y, z][..2] == [x] + [y];
    ThreeInterleaved(s, x, y, y, others, 0);
    OneMore(s, [x], y, others, 0);
  }

  // ---------- the three ways through ----------

  lemma RefusedFits(s: State, t: State, j: int, cfg: Config, req: Request, now: int, others: nat -> seq<Step>,
                    r: Response)
    requires j !in s.jobs && Screen(cfg, req, s.balances).Refused?
    requires Answered(s, t, r, AuthorizeSteps(s, j, cfg, req, now, others), others)
    ensures r.Deny? && forall sets :: AnswerFits(cfg, req, s, sets, r)
  {
    hide Next, Screen, Reply, Answered, RowsRefuse, ScriptRefuses;
    LookIsStep(s, j, cfg, req);
    OneStepAnswer(s, t, r, Look(j, cfg, req), others);
    ScreenRefuses(cfg, req, s);
  }

  lemma FreeFits(s: State, t: State, j: int, cfg: Config, req: Request, now: int, others: nat -> seq<Step>, r: Response)
    requires NotMine(others, j) && j !in s.jobs && Screen(cfg, req, s.balances).Unbilled?
    requires Answered(s, t, r, AuthorizeSteps(s, j, cfg, req, now, others), others)
    ensures forall sets :: AnswerFits(cfg, req, s, sets, r)
    ensures r.Allow? && cfg.dids[req.e164].status == Reserved && RecordFits(cfg, req, now, t, r)
  {
    hide Next, Screen, Reply, Answered, Exec, NotMine, FreeEntry, Serving, Affords, UserFull, NumberFull,
        SanitizeCallID;
    var look := Look(j, cfg, req);
    var v := Screen(cfg, req, s.balances);
    LookIsStep(s, j, cfg, req);
    ScreenAccepts(cfg, req, s);
    TwoStepAnswer(s, t, r, look, Enter(j, now), others);
    var u := Exec(Next(s, look), others(0));
    Ours(Next(s, look), others, 0, j);
    StillEntering(u.jobs[j], FreeEntry(req, v.line, v.target), Rating.FREE_CALL_SECONDS);
    EnterReplies(u, j, now, FreeEntry(req, v.line, v.target), Rating.FREE_CALL_SECONDS);
    FreeIs(req, v.line, v.target);
    FreeRecord(req, v.line, v.target);
    if SanitizeCallID(req.callId) != "" {
      Registered(u, j, now, FreeEntry(req, v.line, v.target));
    }
  }

  /** The state the script runs in. */
  ghost function AtScript(s: State, j: int, cfg: Config, req: Request, others: nat -> seq<Step>): State {
    Exec(Next(s, Look(j, cfg, req)), others(0))
  }

  lemma ScriptAnswers(s: State, j: int, req: Request, line: DidLine, o: OrderLine, cap: int, credit: int)
    requires j in s.jobs && s.jobs[j] == Asking(req, line, o, cap, credit)
    ensures var t := Next(s, Take(j));
      var userFull := cap >= 0 && |Members(s.sets, UserSet(o.user))| >= cap;
      var didFull := |Members(s.sets, DidSet(line.did))| >= o.channelCount;
      && (userFull ==> Reply(s, Take(j)) == Some(Deny("user_channel_cap_hit")) && j !in t.jobs)
      && (!userFull && didFull ==> Reply(s, Take(j)) == Some(Deny("did_channel_cap_hit")) && j !in t.jobs)
      && (!userFull && !didFull && GroupLacks(o.routeKind, o.audioGroup, req.pick) ==>
            Reply(s, Take(j)) == Some(Deny("reservation_misconfigured")) && j !in t.jobs)
      && (!userFull && !didFull && !GroupLacks(o.routeKind, o.audioGroup, req.pick) ==>
            Resolves(o, req) && j in t.jobs
            && t.jobs[j] == Entering(PaidEntry(req, line, o), Rating.MaxSecondsForBalance(credit, o.rate), {}))
  {
    hide Next, Reply, Rating.MaxSecondsForBalance, PaidEntry, SAdd, Members;
    TakeIsStep(s, j, req, line, o, cap, credit);
    TakeReplies(s, j, req, line, o, cap, credit);
  }

  lemma BilledFits(s: State, t: State, j: int, cfg: Config, req: Request, now: int, others: nat -> seq<Step>,
                   r: Response)
    requires NotMine(others, j) && j !in s.jobs && Screen(cfg, req, s.balances).Billable?
    requires Answered(s, t, r, AuthorizeSteps(s, j, cfg, req, now, others), others)
    ensures AnswerFits(cfg, req, s, AtScript(s, j, cfg, req, others).sets, r)
    ensures r.Allow? ==>
              GrantFits(cfg, req, s, AtScript(s, j, cfg, req, others), j, r) && RecordFits(cfg, req, now, t, r)
  {
    hide Next, Screen, Reply, Answered, Exec, NotMine, Resolves, Affords, UserFull, NumberFull, RowsRefuse, GrantFits,
         RecordFits;
    var look := Look(j, cfg, req);
    var v := Screen(cfg, req, s.balances);
    LookIsStep(s, j, cfg, req);
    ScreenAccepts(cfg, req, s);
    Ours(Next(s, look), others, 0, j);
    var u := AtScript(s, j, cfg, req, others);
    ScriptAnswers(u, j, req, v.line, v.order, v.cap, v.credit);
    FullMeans(cfg, u.sets, v.line, v.order);
    if j in Next(u, Take(j)).jobs {
      EnteredFits(s, t, j, cfg, req, now, others, r);
    } else {
      TwoStepAnswer(s, t, r, look, Take(j), others);
    }
  }

  lemma FullMeans(cfg: Config, sets: Sets, line: DidLine, o: OrderLine)
    requires o.user in cfg.users
    ensures var cap := cfg.users[o.user].cap;
      UserFull(cfg, sets, o) <==> cap >= 0 && |Members(sets, UserSet(o.user))| >= cap
    ensures NumberFull(sets, line, o) <==> |Members(sets, DidSet(line.did))| >= o.channelCount
  {
  }

  /** What the script's step records: the seconds it will answer, on the balance read, unless a retransmission of the
      call is already recorded on a larger one. */
  ghost predicate GrantFits(cfg: Config, req: Request, s: State, u: State, j: int, r: Response)
    requires r.Allow?
  {
    && Serving(cfg, req)
    && var o := cfg.dids[req.e164].order.value;
       var ticket := Ticket(req.callId, req.e164);
       var after := Next(u, Take(j)).granted;
       && ticket in after
       && (ticket !in u.granted || u.granted[ticket].credit <= BalanceAt(s, o.user) ==>
             after[ticket] == Grant(o.user, r.maxSeconds, BalanceAt(s, o.user)))
       && (ticket in u.granted && u.granted[ticket].credit > BalanceAt(s, o.user) ==>
           after[ticket] == u.granted[ticket])
       && (forall x :: x in after && x != ticket ==> x in u.granted && after[x] == u.granted[x])
  }

  /** What is in the index by the time of the answer: the raw Call-ID under the sanitised one, and the route as
      configured, with the clip for its target. */
  ghost predicate RecordFits(cfg: Config, req: Request, now: int, t: State, r: Response)
    requires r.Allow?
  {
    var k := SanitizeCallID(req.callId);
    k != "" && req.e164 in cfg.dids ==>
      && k in t.meta && k in t.zset && t.zset[k] == now
      && var c, line := t.meta[k], cfg.dids[req.e164];
         && c.callId == k && c.full == req.callId && c.startedAt == now && c.did == line.did && c.channel == req.channel
         && c.routeTarget == r.routeTarget && c.lastAction == ""
         && (if line.status == Reserved then c.reserved && c.user == 0 && c.orderId == 0
             && c.routeKind == line.reservedKind
             else line.order.Some? && !c.reserved && c.user == line.order.value.user && c.orderId == line.order.value.id
                  && c.routeKind == line.order.value.routeKind)
  }

  lemma Registered(s: State, j: int, now: int, c: LiveCall)
    requires j in s.jobs && s.jobs[j].Entering? && s.jobs[j].call == c && c.callId != ""
    ensures var t := Next(s, Enter(j, now));
      && c.callId in t.meta && t.meta[c.callId] == c.(startedAt := now) && c.callId in t.zset && t.zset[c.callId] == now
  {
    hide Next, NoteAll;
    EnterIs(s, j, now);
  }

  lemma ScriptGrants(s: State, j: int, req: Request, line: DidLine, o: OrderLine, cap: int, credit: int)
    requires j in s.jobs && s.jobs[j] == Asking(req, line, o, cap, credit)
    requires j in Next(s, Take(j)).jobs
    ensures var after := Next(s, Take(j)).granted;
      var ticket := Ticket(req.callId, req.e164);
      && ticket in after
      && (ticket !in s.granted || s.granted[ticket].credit <= credit ==>
            after[ticket] == Grant(o.user, Rating.MaxSecondsForBalance(credit, o.rate), credit))
      && (ticket in s.granted && s.granted[ticket].credit > credit ==> after[ticket] == s.granted[ticket])
      && (forall x :: x in after && x != ticket ==> x in s.granted && after[x] == s.granted[x])
  {
    hide Next, SanitizeCallID, Reserve, Rating.MaxSecondsForBalance, PaidEntry, NoteAll, Resolves;
    NotedKeys(s.jobs - {j}, Taken({UserSet(o.user), DidSet(line.did)}, req.callId));
    TakeIs(s, j);
  }

  /** A billed call that is let in. */
  lemma EnteredFits(s: State, t: State, j: int, cfg: Config, req: Request, now: int, others: nat -> seq<Step>,
                    r: Response)
    requires NotMine(others, j) && j !in s.jobs && Screen(cfg, req, s.balances).Billable?
    requires Answered(s, t, r, AuthorizeSteps(s, j, cfg, req, now, others), others)
    requires j in Next(AtScript(s, j, cfg, req, others), Take(j)).jobs
    ensures AnswerFits(cfg, req, s, AtScript(s, j, cfg, req, others).sets, r)
    ensures r.Allow? && GrantFits(cfg, req, s, AtScript(s, j, cfg, req, others), j, r)
        && RecordFits(cfg, req, now, t, r)
  {
    hide Next, Screen, Reply, Answered, Exec, NotMine, Resolves, Affords, RowsRefuse, Rating.MaxSecondsForBalance,
         PaidEntry, UserFull, NumberFull, SanitizeCallID;
    var look := Look(j, cfg, req);
    var v := Screen(cfg, req, s.balances);
    LookIsStep(s, j, cfg, req);
    ScreenAccepts(cfg, req, s);
    Ours(Next(s, look), others, 0, j);
    var u := AtScript(s, j, cfg, req, others);
    ScriptAnswers(u, j, req, v.line, v.order, v.cap, v.credit);
    FullMeans(cfg, u.sets, v.line, v.order);
    ScriptGrants(u, j, req, v.line, v.order, v.cap, v.credit);
    ThreeStepAnswer(s, t, r, look, Take(j), Enter(j, now), others);
    var e := Exec(Next(u, Take(j)), others(1));
    Ours(Next(u, Take(j)), others, 1, j);
    var seconds := Rating.MaxSecondsForBalance(v.credit, v.order.rate);
    StillEntering(e.jobs[j], PaidEntry(req, v.line, v.order), seconds);
    EnterReplies(e, j, now, PaidEntry(req, v.line, v.order), seconds);
    PaidIs(req, v.line, v.order);
    AffordsIt(v.credit, v.order.rate);
    PaidRecord(req, v.line, v.order);
    if SanitizeCallID(req.callId) != "" {
      Registered(e, j, now, PaidEntry(req, v.line, v.order));
    }
  }

  lemma PaidRecord(req: Request, line: DidLine, o: OrderLine)
    requires Resolves(o, req)
    ensures var c := PaidEntry(req, line, o);
      && c.callId == SanitizeCallID(req.callId) && c.full == req.callId && c.did == line.did && c.channel == req.channel
      && c.lastAction == "" && !c.reserved && c.user == o.user && c.orderId == o.id
  {
  }

  lemma FreeRecord(req: Request, line: DidLine, target: string)
    ensures var c := FreeEntry(req, line, target);
      && c.callId == SanitizeCallID(req.callId) && c.full == req.callId && c.did == line.did && c.channel == req.channel
      && c.lastAction == "" && c.reserved && c.user == 0 && c.orderId == 0
  {
  }

  /** The answer of authorize, whatever other handlers do between its commands. A denial names the first check that
      fails, over the rows as they are read or the sets as the script finds them. An allow gives a reserved number four
      hours on its own route; an assigned one the whole minutes that the balance read first covers, on its order's
      route; the same seconds are on record for the call and number, and the call is in the index. */
  lemma AnswerMeans(s: State, t: State, j: int, cfg: Config, req: Request, now: int, others: nat -> seq<Step>,
                    r: Response)
    requires NotMine(others, j) && j !in s.jobs
    requires Answered(s, t, r, AuthorizeSteps(s, j, cfg, req, now, others), others)
    ensures AnswerFits(cfg, req, s, AtScript(s, j, cfg, req, others).sets, r)
    ensures r.Allow? ==> RecordFits(cfg, req, now, t, r)
    ensures r.Allow? && req.e164 in cfg.dids && cfg.dids[req.e164].status != Reserved ==>
              GrantFits(cfg, req, s, AtScript(s, j, cfg, req, others), j, r)
  {
    hide Screen, Answered, AuthorizeSteps, RowsRefuse, ScriptRefuses, RecordFits, GrantFits, AtScript, Serving, Affords,
         UserFull, NumberFull;
    match Screen(cfg, req, s.balances)
    case Refused(_) => RefusedFits(s, t, j, cfg, req, now, others, r);
    case Unbilled(_, _) => FreeFits(s, t, j, cfg, req, now, others, r);
    case Billable(_, _, _, _) => BilledFits(s, t, j, cfg, req, now, others, r);
  }

  // ---------- what the call is charged ----------

  /** `cents` is the price of the call on these terms: its seconds, at least the minimum and then whole increments, in
      the least whole cents that cover them. */
  ghost predicate Costs(o: OrderLine, billsec: int, cents: int) {
    if billsec <= 0 then cents == 0
    else exists billed ::
           Rating.BilledFor(billsec, o.billMin, o.billInc, billed) && Rating.LeastCents(cents, billed, o.rate)
  }

  lemma CostsIt(o: OrderLine, billsec: int)
    ensures Costs(o, billsec, ChargeOf(Some(o), billsec))
  {
    Rating.ChargeMeans(billsec, o.billMin, o.billInc, o.rate);
    hide Rating.ChargeForCall, Rating.BilledFor, Rating.LeastCents;
    var c := Rating.ChargeForCall(billsec, o.billMin, o.billInc, o.rate);
    if billsec > 0 {
      assert Rating.BilledFor(billsec, o.billMin, o.billInc, c.billedSeconds);
    }
  }

  /** A call has one price. */
  lemma OnePrice(o: OrderLine, billsec: int, a: int, b: int)
    requires Costs(o, billsec, a) && Costs(o, billsec, b)
    ensures a == b
  {
    hide Rating.BilledFor;
    if billsec > 0 {
      var x :| Rating.BilledFor(billsec, o.billMin, o.billInc, x) && Rating.LeastCents(a, x, o.rate);
      var y :| Rating.BilledFor(billsec, o.billMin, o.billInc, y) && Rating.LeastCents(b, y, o.rate);
      Rating.OneBilling(billsec, o.billMin, o.billInc, x, y);
    }
  }

  /** What the teardown of a call charges: the owner of the order found pays its price, if that is positive, and nobody
      pays anything else; a call without an order is free. */
  lemma ChargeFits(s: State, j: int, cents: int)
    requires j in s.jobs && s.jobs[j].Settling?
    requires var a := s.jobs[j]; a.found.Some? ==> Costs(a.found.value, a.billsec, cents)
    ensures var a := s.jobs[j];
      var t := Next(s, Debit(j));
      && t.balances.Keys == s.balances.Keys && t.granted == s.granted - {Ticket(a.raw, a.e164)}
      && (forall u :: u in s.balances ==>
            t.balances[u] == if a.found.Some? && a.found.value.user == u && cents > 0 then s.balances[u] - cents
                             else s.balances[u])
      && t.sets == s.sets && t.zset == s.zset && t.meta == s.meta && t.pending == s.pending
  {
    hide Next, ChargeOf, Costs, SanitizeCallID;
    DebitIs(s, j);
    var a := s.jobs[j];
    if a.found.Some? {
      CostsIt(a.found.value, a.billsec);
      OnePrice(a.found.value, a.billsec, cents, ChargeOf(a.found, a.billsec));
    }
  }
}
