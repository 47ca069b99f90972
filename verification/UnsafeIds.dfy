/** Which Call-IDs may be presented together: exactly those sets in which no id is the index key of another. */
module UnsafeIds {
  import opened Basics
  import opened CallIds
  import opened CallControl
  import opened LiveIndex
  import opened Agreement
  import Overlaps
  import Ticks
  import opened Windows

  /** Apart runs from an empty system that present only these ids keep live calls in their sets. */
  ghost predicate AgreeAlways(ids: iset<string>) {
    forall steps :: PresentsOnly(steps, ids) && ApartThroughout(EMPTY, steps) ==> AgreesThroughout(EMPTY, steps)
  }

  // ---------- one user, one number, free calls ----------

  const FREE_ORDER: OrderLine := OrderLine(1, 1, 9, "ip", "192.0.2.1", Active, 0.0, 60, 60, None)
  const LINE: DidLine := DidLine(1, Assigned, "", "", None, Some(FREE_ORDER))
  const DEMO: Config := Config(map["1" := LINE], map[1 := Account(true, -1)], 6)

  function Dialled(id: string, channel: string): Request {
    Request(id, "1", true, true, None, channel)
  }

  function CallSteps(id: string, channel: string): seq<Step> {
    [Look(0, DEMO, Dialled(id, channel)), Take(0), Enter(0, 0)]
  }

  function LiveOf(id: string, channel: string): LiveCall {
    LiveCall(SanitizeCallID(id), id, 0, 1, 1, 1, "ip", "192.0.2.1", false, channel, "")
  }

  lemma LookAlone(s: State, id: string, channel: string)
    requires s.jobs == map[]
    ensures Next(s, Look(0, DEMO, Dialled(id, channel)))
         == s.(jobs := map[0 := Asking(Dialled(id, channel), LINE, FREE_ORDER, -1, BalanceOf(s.balances, 1))])
  {
    hide SanitizeCallID;
    assert DEMO.dids["1"] == LINE && DEMO.users[1] == Account(true, -1);
    assert Screen(DEMO, Dialled(id, channel), s.balances) == Billable(LINE, FREE_ORDER, -1, BalanceOf(s.balances, 1));
  }

  lemma TakeAlone(s: State, id: string, channel: string, credit: int)
    requires s.jobs == map[0 := Asking(Dialled(id, channel), LINE, FREE_ORDER, -1, credit)]
    requires |Members(s.sets, DidSet(1))| < 9
    ensures var t := Next(s, Take(0));
      && t.sets == SAdd(SAdd(s.sets, UserSet(1), id), DidSet(1), id) && t.zset == s.zset && t.meta == s.meta
      && t.jobs == map[0 := Entering(LiveOf(id, channel), Rating.FREE_CALL_SECONDS, {})]
  {
    hide SanitizeCallID, AddGrant;
    var e := Taken({UserSet(1), DidSet(1)}, id);
    assert s.jobs - {0} == map[] && NoteAll(map[], e) == map[];
    assert PaidEntry(Dialled(id, channel), LINE, FREE_ORDER) == LiveOf(id, channel);
  }

  lemma EnterAlone(s: State, c: LiveCall, maxSeconds: int)
    requires s.jobs == map[0 := Entering(c, maxSeconds, {})] && c.callId != "" && c.startedAt == 0
    ensures Next(s, Enter(0, 0)) == s.(zset := s.zset[c.callId := 0], meta := s.meta[c.callId := c], jobs := map[])
  {
    assert s.jobs - {0} == map[] && NoteAll(map[], Entered(c)) == map[];
  }

  lemma CallGoesThrough(s: State, id: string, channel: string)
    requires s.jobs == map[] && SanitizeCallID(id) != "" && |Members(s.sets, DidSet(1))| < 9
    ensures var t := Exec(s, CallSteps(id, channel));
      && t.sets == SAdd(SAdd(s.sets, UserSet(1), id), DidSet(1), id) && t.jobs == map[]
      && t.zset == s.zset[SanitizeCallID(id) := 0] && t.meta == s.meta[SanitizeCallID(id) := LiveOf(id, channel)]
  {
    hide SanitizeCallID, Next, Members;
    LookAlone(s, id, channel);
    var s1 := Next(s, Look(0, DEMO, Dialled(id, channel)));
    TakeAlone(s1, id, channel, BalanceOf(s.balances, 1));
    EnterAlone(Next(s1, Take(0)), LiveOf(id, channel), Rating.FREE_CALL_SECONDS);
    Ticks.ThreeSteps(s, Look(0, DEMO, Dialled(id, channel)), Take(0), Enter(0, 0));
  }

  // ---------- runs of a single handler are apart ----------

  lemma NotedAreFew(jobs: map<int, Job>, e: Event)
    requires jobs.Keys <= {0}
    ensures NoteAll(jobs, e).Keys <= {0}
  {
    NotedKeys(jobs, e);
  }

  /** Steps that tell the handlers in flight what they did. */
  lemma OneHandlerTold(s: State, step: Step)
    requires s.jobs.Keys <= {0} && step.j == 0 && Enabled(s, step)
    requires step.Enter? || step.Page? || step.Leave? || step.Unlist? || step.Remove? || step.Rewrite?
    ensures Next(s, step).jobs.Keys <= {0}
  {
    hide SanitizeCallID, NoteAll, ReleaseFrom;
    match step
    case Enter(_, now) => NotedAreFew(s.jobs - {0}, Entered(s.jobs[0].call.(startedAt := now)));
    case Page(_, keys) =>
      var a := s.jobs[0];
      NotedAreFew(s.jobs[0 := a.(must := a.must - keys)], Freed(keys, a.ids, ReleaseFrom(s.sets, a.ids, keys).Keys));
    case Leave(_) => if s.jobs[0].own.Some? { NotedAreFew(s.jobs - {0}, Gone({s.jobs[0].own.value})); }
    case Unlist(_, id) => NotedAreFew(s.jobs[0 := s.jobs[0].(todo := s.jobs[0].todo - {id})], Gone({id}));
    case Remove(_, key) => NotedAreFew(s.jobs, Gone({key}));
    case Rewrite(_) => NotedAreFew(s.jobs - {0}, Rewritten(s.jobs[0].call));
  }

  lemma OneHandlerStep(s: State, step: Step)
    requires s.jobs.Keys <= {0} && step.j == 0
    ensures Next(s, step).jobs.Keys <= {0}
  {
    if Enabled(s, step) {
      if step.Enter? || step.Page? || step.Leave? || step.Unlist? || step.Remove? || step.Rewrite? {
        OneHandlerTold(s, step);
      } else if step.Take? {
        var a := s.jobs[0];
        hide DoTake, NoteAll;
        TakeShape(s, 0, a.req, a.line, a.order, a.cap, a.credit);
        NotedAreFew(s.jobs - {0}, Taken({UserSet(a.order.user), DidSet(a.line.did)}, a.req.callId));
      } else if step.Look? {
        hide DoLook;
        LookShape(s, 0, step.cfg, step.req);
      } else if step.Claim? {
        hide PopPending, SanitizeCallID;
        PopKeepsRest(s, SanitizeCallID(step.raw));
      } else {
        hide SanitizeCallID, ChargeOf, DebitFrom, SweptBy, Evicted, Missing;
      }
    }
  }

  lemma {:induction false} OneHandlerIsApart(s: State, steps: seq<Step>)
    requires s.jobs.Keys <= {0} && forall i :: 0 <= i < |steps| ==> steps[i].j == 0
    ensures ApartThroughout(s, steps)
    decreases |steps|
  {
    hide Next;
    if steps != [] {
      OneHandlerStep(s, steps[0]);
      OneHandlerIsApart(Next(s, steps[0]), steps[1..]);
    }
  }

  lemma {:induction false} AgreesInTheEnd(s: State, steps: seq<Step>)
    requires AgreesThroughout(s, steps)
    ensures LiveAgrees(Exec(s, steps))
    decreases |steps|
  {
    hide Next, LiveAgrees;
    if steps != [] {
      AgreesInTheEnd(Next(s, steps[0]), steps[1..]);
    }
  }

  // ---------- two calls and a tick ----------

  /** Two calls, then a tick that sees only the second one's channel. */
  function TwoCallsAndATick(x: string, y: string): seq<Step> {
    var purpose := Reconcile({"c2"}, 0);
    CallSteps(x, "c1") + (CallSteps(y, "c2")
      + Ticks.TickSteps(0, [y, SanitizeCallID(y)], purpose, 0, [y], {UserSet(1), DidSet(1)}))
  }

  lemma TickTakesTheWrongSlots(s: State, x: string, y: string)
    requires y == SanitizeCallID(x) && SanitizeCallID(y) != y && y != "" && SanitizeCallID(y) != ""
    requires s.jobs == map[] && s.sets.Keys <= {UserSet(1), DidSet(1)}
    requires s.zset == map[y := 0, SanitizeCallID(y) := 0]
    requires s.meta == map[y := LiveOf(x, "c1"), SanitizeCallID(y) := LiveOf(y, "c2")]
    ensures !LiveAgrees(Exec(s, Ticks.TickSteps(0, [y, SanitizeCallID(y)], Reconcile({"c2"}, 0), 0, [y],
                                                {UserSet(1), DidSet(1)})))
  {
    hide SanitizeCallID, Members, Exec, ReleaseFrom, Ticks.TickSteps;
    var reply := [y, SanitizeCallID(y)];
    var purpose := Reconcile({"c2"}, 0);
    var t := Ticks.Tick(s, reply, purpose, 0);
    assert reply[0] == y && reply[1] == SanitizeCallID(y);
    FirstIsDead(s, x, y, reply);
    assert [y][0] == y;
    assert AsSet([y]) == {y};
    Ticks.TickIsItsSteps(s, 0, reply, purpose, 0, [y], {UserSet(1), DidSet(1)});
    Ticks.TickSets(s, reply, purpose, 0);
    assert SanitizeCallID(y) !in SweptBy(s, reply, 0);
    Overlaps.EntryWithoutSlot(t, SanitizeCallID(y), UserSet(1));
  }

  lemma FirstIsDead(s: State, x: string, y: string, reply: seq<string>)
    requires y == SanitizeCallID(x) && SanitizeCallID(y) != y && reply == [y, SanitizeCallID(y)]
    requires s.meta == map[y := LiveOf(x, "c1"), SanitizeCallID(y) := LiveOf(y, "c2")]
    ensures Evicted(s, reply, Reconcile({"c2"}, 0), 0) == {y}
  {
    hide SanitizeCallID;
    var purpose := Reconcile({"c2"}, 0);
    var e := Evicted(s, reply, purpose, 0);
    assert reply[0] == y && reply[1] == SanitizeCallID(y);
    assert y in e by {
      assert y in reply && Listable(s, y, 0) && Dead(s.meta[y], purpose, 0) && s.meta[y].callId == y;
    }
    forall k | k in e ensures k == y {
      var m :| m in reply && Listable(s, m, 0) && Dead(s.meta[m], purpose, 0) && s.meta[m].callId == k;
      assert m == y || m == SanitizeCallID(y);
    }
  }

  lemma UnsafePairBreaks(x: string, y: string)
    requires y == SanitizeCallID(x) && SanitizeCallID(y) != y
    ensures !LiveAgrees(Exec(EMPTY, TwoCallsAndATick(x, y)))
  {
    EmptyIsItsOwn();
    SanitizedStays(x);
    hide SanitizeCallID, Exec, Next;
    var s1 := Exec(EMPTY, CallSteps(x, "c1"));
    CallGoesThrough(EMPTY, x, "c1");
    assert Members(s1.sets, DidSet(1)) == {x};
    CallGoesThrough(s1, y, "c2");
    var s2 := Exec(s1, CallSteps(y, "c2"));
    assert s2.zset == map[y := 0, SanitizeCallID(y) := 0];
    assert s2.meta == map[y := LiveOf(x, "c1"), SanitizeCallID(y) := LiveOf(y, "c2")];
    TickTakesTheWrongSlots(s2, x, y);
    var tick := Ticks.TickSteps(0, [y, SanitizeCallID(y)], Reconcile({"c2"}, 0), 0, [y], {UserSet(1), DidSet(1)});
    ExecAppend(s1, CallSteps(y, "c2"), tick);
    ExecAppend(EMPTY, CallSteps(x, "c1"), CallSteps(y, "c2") + tick);
  }

  lemma EmptyIsItsOwn()
    ensures SanitizeCallID("") == ""
  {
  }

  lemma TwoCallsAreOneHandler(x: string, y: string)
    ensures var steps := TwoCallsAndATick(x, y);
      forall i :: 0 <= i < |steps| ==> steps[i].j == 0
    ensures var steps := TwoCallsAndATick(x, y);
      forall i :: 0 <= i < |steps| && steps[i].Look? ==> steps[i].req.callId == x || steps[i].req.callId == y
  {
    hide SanitizeCallID;
    assert Ticks.Unlists(0, [y][1..]) == [];
    assert Ticks.Unlists(0, [y]) == [Unlist(0, y)];
  }

  /** The run-level condition on the presented Call-IDs: apart runs keep live calls in their sets, whatever
      the configuration, exactly when no presented id is the index key of another presented id without being
      its own. Blank-free ids, the only ones section 25.1 of RFC 3261 allows, are always safe. */
  lemma SafeIdsIff(ids: iset<string>)
    ensures AgreeAlways(ids) <==> SafeIds(ids)
  {
    hide Exec, Next, LiveAgrees;
    if SafeIds(ids) {
      forall steps | PresentsOnly(steps, ids) && ApartThroughout(EMPTY, steps) ensures AgreesThroughout(EMPTY, steps) {
        EmptyIsFine(ids);
        ApartRunsAgree(EMPTY, steps, ids);
      }
    } else {
      var x, y :| x in ids && y in ids && y == SanitizeCallID(x) && SanitizeCallID(y) != y;
      hide SanitizeCallID;
      var steps := TwoCallsAndATick(x, y);
      TwoCallsAreOneHandler(x, y);
      hide TwoCallsAndATick;
      OneHandlerIsApart(EMPTY, steps);
      UnsafePairBreaks(x, y);
      if AgreesThroughout(EMPTY, steps) {
        AgreesInTheEnd(EMPTY, steps);
      }
      assert PresentsOnly(steps, ids) && ApartThroughout(EMPTY, steps) && !AgreesThroughout(EMPTY, steps);
    }
  }

  lemma EmptyIsFine(ids: iset<string>)
    ensures Inv(EMPTY, ids) && LiveAgrees(EMPTY) && AllUnharmed(EMPTY)
  {
  }

  lemma BlankFreeIdsAreSafe(ids: iset<string>)
    requires forall x, i :: x in ids && 0 <= i < |x| ==> !IsSpace(x[i])
    ensures SafeIds(ids)
  {
    forall x, y | x in ids && y in ids && y == SanitizeCallID(x) ensures SanitizeCallID(y) == y {
      BlankFreeIsClean(x);
      SanitizeIdempotentIffClean(x);
    }
  }
}
