/** What overlapping handlers do: for every state in which the first step is possible, a run that leaves a
    live billed call without its slots. */
module Overlaps {
  import opened Basics
  import opened CallIds
  import opened CallControl
  import opened LiveIndex
  import opened Agreement

  lemma EntryWithoutSlot(s: State, k: string, key: SetKey)
    requires k in s.zset && k in s.meta && !s.meta[k].reserved
    requires key in SlotsOf(s.meta[k]) && s.meta[k].full !in Members(s.sets, key)
    requires !TornDown(s.jobs, s.meta[k].full)
    ensures !LiveAgrees(s)
  {
    hide Members, TornDown;
    assert !Agrees(s, s.meta[k]);
  }

  // ---------- a hangup inside an authorize ----------

  /** The authorize `j` is about to enter `c`, and no teardown of it is under way. */
  ghost predicate AboutToEnter(s: State, j: int, c: LiveCall) {
    j in s.jobs && s.jobs[j].Entering? && s.jobs[j].call == c && !TornDown(s.jobs, c.full)
  }

  lemma TakeGoesOn(s: State, j: int)
    requires Enabled(s, Take(j))
    requires var a := s.jobs[j];
      && Reserve(s.sets, a.order.user, a.line.did, a.req.callId, a.cap, a.order.channelCount).1 == 1
      && Resolves(a.order, a.req) && !TornDown(s.jobs, a.req.callId)
    ensures AboutToEnter(Next(s, Take(j)), j, PaidEntry(s.jobs[j].req, s.jobs[j].line, s.jobs[j].order))
    ensures Next(s, Take(j)).jobs.Keys == s.jobs.Keys
  {
    hide SanitizeCallID, Reserve, NoteAll, AddGrant, Rating.MaxSecondsForBalance, TornDown;
    var a := s.jobs[j];
    var e := Taken({UserSet(a.order.user), DidSet(a.line.did)}, a.req.callId);
    var t := Next(s, Take(j));
    var c := PaidEntry(a.req, a.line, a.order);
    assert t.jobs == NoteAll(s.jobs - {j}, e)[j := t.jobs[j]] && t.jobs[j].call == c;
    NotedKeys(s.jobs - {j}, e);
    WithoutTears(s.jobs, j, c.full);
    NoteTears(s.jobs - {j}, e, c.full);
    WithoutTears(t.jobs, j, c.full);
    assert t.jobs - {j} == NoteAll(s.jobs - {j}, e);
  }

  lemma ClaimMoves(s: State, i: int, raw: string, e164: string, found: Option<OrderLine>, billsec: int, timed: bool)
    requires i !in s.jobs
    ensures var t := Next(s, Claim(i, raw, e164, found, billsec, timed));
      && t.sets == s.sets && t.zset == s.zset && t.meta == s.meta
      && t.jobs == s.jobs[i := Settling(raw, e164, found, billsec)]
  {
    hide SanitizeCallID;
  }

  lemma DebitMoves(s: State, i: int)
    requires Enabled(s, Debit(i))
    ensures var t := Next(s, Debit(i));
      var raw := s.jobs[i].raw;
      && t.sets == s.sets && t.zset == s.zset && t.meta == s.meta
      && t.jobs == s.jobs[i := Clearing({raw}, Some(SanitizeCallID(raw)), {}, {})]
  {
    hide SanitizeCallID, ChargeOf, DebitFrom;
  }

  lemma ScanMoves(s: State, i: int)
    requires Enabled(s, Scan(i))
    ensures var t := Next(s, Scan(i));
      var a := s.jobs[i];
      && t.sets == s.sets && t.zset == s.zset && t.meta == s.meta
      && t.jobs == s.jobs[i := Releasing(a.ids, a.own, a.back, s.sets.Keys, {})]
  {
  }

  /** Up to its first page a teardown leaves sets and index alone. */
  lemma TeardownStarts(s: State, i: int, raw: string, e164: string, found: Option<OrderLine>, billsec: int, timed: bool)
    requires i !in s.jobs
    ensures var t := Next(Next(Next(s, Claim(i, raw, e164, found, billsec, timed)), Debit(i)), Scan(i));
      && t.sets == s.sets && t.zset == s.zset && t.meta == s.meta
      && t.jobs == s.jobs[i := Releasing({raw}, Some(SanitizeCallID(raw)), {}, s.sets.Keys, {})]
  {
    hide SanitizeCallID, Next;
    ClaimMoves(s, i, raw, e164, found, billsec, timed);
    var s1 := Next(s, Claim(i, raw, e164, found, billsec, timed));
    DebitMoves(s1, i);
    ScanMoves(Next(s1, Debit(i)), i);
  }

  /** It releases everywhere, deregisters and is gone; the authorize it overlapped still means to enter. */
  lemma TeardownEnds(s: State, i: int, j: int, c: LiveCall, keys: set<SetKey>)
    requires i !in s.jobs && AboutToEnter(s, j, c)
    requires s.sets.Keys <= keys
    ensures var mid := s.(jobs := s.jobs[i := Releasing({c.full}, Some(SanitizeCallID(c.full)), {}, s.sets.Keys, {})]);
      var t := Next(Next(mid, Page(i, keys)), Leave(i));
      && AboutToEnter(t, j, c) && (forall key :: c.full !in Members(t.sets, key))
  {
    hide Next, SanitizeCallID, TornDown, ReleaseFrom, LostAfter, BackAfter, AgainAfter;
    var own := Some(SanitizeCallID(c.full));
    var mid := s.(jobs := s.jobs[i := Releasing({c.full}, own, {}, s.sets.Keys, {})]);
    var s1 := Next(mid, Page(i, keys));
    PageIs(mid, i, keys);
    var e := Freed(keys, {c.full}, s1.sets.Keys);
    assert s.sets.Keys - keys == {};
    var told := mid.jobs[i := Releasing({c.full}, own, {}, {}, {})];
    assert s1.jobs == NoteAll(told, e);
    assert s1.jobs[i].must == {} && s1.jobs[i].own == own;
    forall key ensures c.full !in Members(s1.sets, key) {
      ReleaseMembers(s.sets, {c.full}, keys, key);
    }
    var rest := s1.(jobs := s1.jobs - {i});
    assert rest.jobs == NoteAll(s.jobs, e);
    NoteTears(s.jobs, e, c.full);
    var t := Next(s1, Leave(i));
    LeaveIs(s1, i);
    assert t == Deregister(rest, own.value);
    NoteTears(rest.jobs, Gone({own.value}), c.full);
  }

  lemma EnterWithoutSlots(s: State, j: int, c: LiveCall, now: int)
    requires AboutToEnter(s, j, c) && c.callId != "" && !c.reserved
    requires c.full !in Members(s.sets, UserSet(c.user))
    ensures !LiveAgrees(Next(s, Enter(j, now)))
  {
    hide Members, TornDown, Note;
    var t := Next(s, Enter(j, now));
    WithoutTears(s.jobs, j, c.full);
    NoteTears(s.jobs - {j}, Entered(c.(startedAt := now)), c.full);
    EntryWithoutSlot(t, c.callId, UserSet(c.user));
  }

  /** The steps of a hangup that comes between an authorize's reservation and its registration. */
  function HangupInside(j: int, i: int, raw: string, e164: string, found: Option<OrderLine>, billsec: int, timed: bool,
                        keys: set<SetKey>, now: int): seq<Step> {
    [Take(j), Claim(i, raw, e164, found, billsec, timed), Debit(i), Scan(i), Page(i, keys), Leave(i), Enter(j, now)]
  }

  /** Whatever the state, if the script of an authorize grants its slots and the caller's hangup comes before
      the registration, a complete teardown of the same Call-ID runs first, and the registration leaves a live
      billed call that holds no slot. */
  lemma HangupInsideAuthorize(s: State, j: int, i: int, found: Option<OrderLine>, billsec: int, timed: bool,
                              keys: set<SetKey>, now: int)
    requires Enabled(s, Take(j)) && i !in s.jobs
    requires var a := s.jobs[j];
      && Reserve(s.sets, a.order.user, a.line.did, a.req.callId, a.cap, a.order.channelCount).1 == 1
      && Resolves(a.order, a.req) && !TornDown(s.jobs, a.req.callId) && SanitizeCallID(a.req.callId) != ""
    requires Next(s, Take(j)).sets.Keys <= keys
    ensures var req := s.jobs[j].req;
      !LiveAgrees(Exec(s, HangupInside(j, i, req.callId, req.e164, found, billsec, timed, keys, now)))
  {
    hide SanitizeCallID, Next, TornDown, LiveAgrees;
    var a := s.jobs[j];
    var c := PaidEntry(a.req, a.line, a.order);
    var steps := HangupInside(j, i, a.req.callId, a.req.e164, found, billsec, timed, keys, now);
    var s1 := Next(s, steps[0]);
    TakeGoesOn(s, j);
    TeardownStarts(s1, i, c.full, a.req.e164, found, billsec, timed);
    var s4 := Next(Next(Next(s1, steps[1]), steps[2]), steps[3]);
    var plain := s1.(pending := s4.pending, balances := s4.balances, granted := s4.granted);
    TeardownEnds(plain, i, j, c, keys);
    var s6 := Next(Next(s4, steps[4]), steps[5]);
    EnterWithoutSlots(s6, j, c, now);
    SevenSteps(s, steps);
  }

  lemma SevenSteps(s: State, steps: seq<Step>)
    requires |steps| == 7
    ensures Exec(s, steps) == Next(Next(Next(Next(Next(Next(Next(s, steps[0]), steps[1]), steps[2]), steps[3]),
                                             steps[4]), steps[5]), steps[6])
  {
    hide Next;
    FirstStep(s, steps);
    var s1 := Next(s, steps[0]);
    FirstStep(s1, steps[1..]);
    var s2 := Next(s1, steps[1]);
    FirstStep(s2, steps[1..][1..]);
    var s3 := Next(s2, steps[2]);
    var rest := steps[3..];
    assert steps[1..][1..][1..] == rest;
    FirstStep(s3, rest);
    var s4 := Next(s3, steps[3]);
    FirstStep(s4, rest[1..]);
    var s5 := Next(s4, steps[4]);
    FirstStep(s5, rest[1..][1..]);
    var s6 := Next(s5, steps[5]);
    FirstStep(s6, rest[1..][1..][1..]);
    assert rest[1..][1..][1..][1..] == [];
  }

  lemma FirstStep(s: State, steps: seq<Step>)
    requires steps != []
    ensures Exec(s, steps) == Exec(Next(s, steps[0]), steps[1..])
  {
  }

  lemma TwoSteps(s: State, a: Step, b: Step)
    ensures Exec(s, [a, b]) == Next(Next(s, a), b)
  {
    hide Next;
    FirstStep(s, [a, b]);
    assert [a, b][1..] == [b];
    FirstStep(Next(s, a), [b]);
    assert [b][1..] == [];
  }

  // ---------- a retransmission inside an eviction ----------

  /** An eviction has deregistered a key and is about to release; the call under that key comes back. Its next
      page takes the slots of the call that is live again. */
  lemma RetryInsideEviction(s: State, j: int, i: int, now: int, keys: set<SetKey>)
    requires Enabled(s, Enter(j, now)) && Enabled(s, Page(i, keys))
    requires var c := s.jobs[j].call;
      && c.callId != "" && !c.reserved && !TornDown(s.jobs, c.full)
      && s.jobs[i].own.None? && c.full in s.jobs[i].ids && UserSet(c.user) in keys
    ensures !LiveAgrees(Exec(s, [Enter(j, now), Page(i, keys)]))
  {
    hide Members, TornDown, ReleaseFrom, LostAfter, BackAfter, AgainAfter;
    var c := s.jobs[j].call.(startedAt := now);
    var s1 := Next(s, Enter(j, now));
    WithoutTears(s.jobs, j, c.full);
    NoteTears(s.jobs - {j}, Entered(c), c.full);
    assert i in s1.jobs && s1.jobs[i].Releasing? && s1.jobs[i].own.None? && s1.jobs[i].ids == s.jobs[i].ids;
    hide Note;
    PageTears(s1, i, keys, c.full);
    ReleaseMembers(s1.sets, s1.jobs[i].ids, keys, UserSet(c.user));
    EntryWithoutSlot(Next(s1, Page(i, keys)), c.callId, UserSet(c.user));
    TwoSteps(s, Enter(j, now), Page(i, keys));
  }

  // ---------- a new call inside a route update ----------

  lemma EnterTellsReroute(s: State, j: int, i: int, now: int)
    requires Enabled(s, Rewrite(j)) && Enabled(s, Enter(i, now)) && s.jobs[i].call.callId == s.jobs[j].key != ""
    requires !TornDown(s.jobs, s.jobs[j].call.full)
    ensures var s1 := Next(s, Enter(i, now));
      && Enabled(s1, Rewrite(j)) && s1.jobs[j].key == s.jobs[j].key && s1.jobs[j].call == s.jobs[j].call
      && s1.sets == s.sets && s.jobs[j].key in s1.zset && !TornDown(s1.jobs, s.jobs[j].call.full)
  {
    hide TornDown, LostAfter;
    var c := s.jobs[i].call.(startedAt := now);
    WithoutTears(s.jobs, i, s.jobs[j].call.full);
    NoteTears(s.jobs - {i}, Entered(c), s.jobs[j].call.full);
    assert Next(s, Enter(i, now)).jobs[j] == Note(s.jobs[j], Entered(c));
  }

  lemma RewriteAfter(s: State, j: int, c: LiveCall)
    requires Enabled(s, Rewrite(j)) && s.jobs[j].call == c && !TornDown(s.jobs, c.full)
    ensures var t := Next(s, Rewrite(j));
      && t.sets == s.sets && t.zset == s.zset && t.meta == s.meta[s.jobs[j].key := c] && !TornDown(t.jobs, c.full)
  {
    hide TornDown, Note;
    WithoutTears(s.jobs, j, c.full);
    NoteTears(s.jobs - {j}, Rewritten(c), c.full);
  }

  /** A route update has read the entry of a call that has lost a slot since; another call registers under the
      same key; the update then writes the first one back over it. */
  lemma CallInsideReroute(s: State, j: int, i: int, now: int, ids: iset<string>)
    requires Inv(s, ids) && Enabled(s, Rewrite(j)) && Enabled(s, Enter(i, now))
    requires var a := s.jobs[j];
      && !a.call.reserved && a.lost != {} && !TornDown(s.jobs, a.call.full)
      && s.jobs[i].call.callId == a.key
    ensures !LiveAgrees(Exec(s, [Enter(i, now), Rewrite(j)]))
  {
    hide Members, TornDown, SanitizeCallID, Note;
    var a := s.jobs[j];
    assert JobFits(s, a, ids);
    var s1 := Next(s, Enter(i, now));
    EnterTellsReroute(s, j, i, now);
    hide Next;
    RewriteAfter(s1, j, a.call);
    var key :| key in a.lost;
    EntryWithoutSlot(Next(s1, Rewrite(j)), a.key, key);
    TwoSteps(s, Enter(i, now), Rewrite(j));
  }
}
