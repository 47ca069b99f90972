/** A handler's steps with the steps of other handlers in between, and what each of its steps changes. */
module Interleaving {
  import opened Basics
  import opened CallIds
  import opened CallControl
  import opened LiveIndex
  import opened Ticks
  import Rating

  // ---------- what comes between ----------

  /** After its i-th step, counted from `at`, the others make the steps `others(i)`. */
  function Interleaved(s: State, own: seq<Step>, others: nat -> seq<Step>, at: nat): State
    decreases |own|
  {
    if own == [] then s
    else Interleaved(Exec(Next(s, own[0]), others(at)), own[1..], others, at + 1)
  }

  function Weave(own: seq<Step>, others: nat -> seq<Step>, at: nat): seq<Step>
    decreases |own|
  {
    if own == [] then [] else [own[0]] + others(at) + Weave(own[1..], others, at + 1)
  }

  function StepsOf(steps: seq<Step>, j: int): seq<Step>
    decreases |steps|
  {
    if steps == [] then []
    else if steps[0].j == j then [steps[0]] + StepsOf(steps[1..], j)
    else StepsOf(steps[1..], j)
  }

  ghost predicate NotMine(others: nat -> seq<Step>, j: int) {
    forall i, k :: 0 <= k < |others(i)| ==> others(i)[k].j != j
  }

  lemma {:induction false} StepsOfAppend(a: seq<Step>, b: seq<Step>, j: int)
    ensures StepsOf(a + b, j) == StepsOf(a, j) + StepsOf(b, j)
    decreases |a|
  {
    if a == [] {
      assert a + b == b;
    } else {
      assert (a + b)[0] == a[0] && (a + b)[1..] == a[1..] + b;
      StepsOfAppend(a[1..], b, j);
    }
  }

  lemma {:induction false} NoneOf(steps: seq<Step>, j: int)
    requires forall k :: 0 <= k < |steps| ==> steps[k].j != j
    ensures StepsOf(steps, j) == []
    decreases |steps|
  {
    if steps != [] {
      NoneOf(steps[1..], j);
    }
  }

  /** An interleaving is a run of the machine... */
  lemma {:induction false} InterleavedIsARun(s: State, own: seq<Step>, others: nat -> seq<Step>, at: nat)
    ensures Interleaved(s, own, others, at) == Exec(s, Weave(own, others, at))
    decreases |own|
  {
    hide Next;
    if own != [] {
      var rest := Weave(own[1..], others, at + 1);
      InterleavedIsARun(Exec(Next(s, own[0]), others(at)), own[1..], others, at + 1);
      ExecAppend(Next(s, own[0]), others(at), rest);
      var all := Weave(own, others, at);
      assert all[0] == own[0] && all[1..] == others(at) + rest;
    }
  }

  /** ...in which the handler's steps are its own, in order. */
  lemma {:induction false} OwnStepsInOrder(own: seq<Step>, others: nat -> seq<Step>, at: nat, j: int)
    requires NotMine(others, j) && forall i :: 0 <= i < |own| ==> own[i].j == j
    ensures StepsOf(Weave(own, others, at), j) == own
    decreases |own|
  {
    if own != [] {
      var rest := Weave(own[1..], others, at + 1);
      OwnStepsInOrder(own[1..], others, at + 1, j);
      var all := Weave(own, others, at);
      assert all[0] == own[0] && all[1..] == others(at) + rest;
      NoneOf(others(at), j);
      StepsOfAppend(others(at), rest, j);
    }
  }

  lemma {:induction false} InterleavedAppend(s: State, a: seq<Step>, b: seq<Step>, others: nat -> seq<Step>, at: nat)
    ensures Interleaved(s, a + b, others, at) == Interleaved(Interleaved(s, a, others, at), b, others, at + |a|)
    decreases |a|
  {
    hide Next, Exec;
    if a == [] {
      assert a + b == b;
    } else {
      assert (a + b)[0] == a[0] && (a + b)[1..] == a[1..] + b;
      InterleavedAppend(Exec(Next(s, a[0]), others(at)), a[1..], b, others, at + 1);
    }
  }

  lemma OneMore(s: State, a: seq<Step>, x: Step, others: nat -> seq<Step>, at: nat)
    ensures Interleaved(s, a + [x], others, at) == Exec(Next(Interleaved(s, a, others, at), x), others(at + |a|))
  {
    hide Next, Exec;
    InterleavedAppend(s, a, [x], others, at);
    assert [x][1..] == [];
  }

  // ---------- SREMs ----------

  /** No key holds an empty set: Redis deletes a set with its last member. */
  ghost predicate NoEmptySets(sets: Sets) {
    forall k :: k in sets ==> sets[k] != {}
  }

  function SRem(sets: Sets, k: SetKey, id: string): Sets {
    if k !in sets then sets
    else if sets[k] - {id} == {} then sets - {k}
    else sets[k := sets[k] - {id}]
  }

  lemma ReleaseOneMore(sets: Sets, ids: set<string>, k: SetKey, id: string)
    requires NoEmptySets(sets)
    ensures SRem(ReleaseFrom(sets, ids, {k}), k, id) == ReleaseFrom(sets, ids + {id}, {k})
  {
    if k in sets {
      assert sets[k] - ids - {id} == sets[k] - (ids + {id});
    }
  }

  lemma ReleaseNextKey(sets: Sets, ids: set<string>, seen: set<SetKey>, k: SetKey)
    ensures ReleaseFrom(ReleaseFrom(sets, ids, seen), ids, {k}) == ReleaseFrom(sets, ids, seen + {k})
    ensures NoEmptySets(sets) ==> NoEmptySets(ReleaseFrom(sets, ids, seen))
  {
    if k in sets {
      assert sets[k] - ids - ids == sets[k] - ids;
    }
  }

  lemma ReleaseNone(sets: Sets, ids: set<string>, k: SetKey)
    requires NoEmptySets(sets)
    ensures ReleaseFrom(sets, ids, {}) == sets
    ensures ReleaseFrom(sets, {}, {k}) == sets
  {
    forall j | j in sets ensures sets[j] - {} == sets[j] {
    }
  }

  lemma ReserveKeepsNonEmpty(sets: Sets, user: int, did: int, id: string, userCap: int, didCap: int)
    requires NoEmptySets(sets)
    ensures NoEmptySets(Reserve(sets, user, did, id, userCap, didCap).0)
  {
  }

  lemma StepKeepsNonEmpty(s: State, step: Step)
    requires NoEmptySets(s.sets)
    ensures NoEmptySets(Next(s, step).sets)
  {
    hide NoEmptySets, DoTake, Reserve, ReleaseFrom;
    if Enabled(s, step) && step.Take? {
      var a := s.jobs[step.j];
      TakeSets(s, step.j, a.req, a.line, a.order, a.cap, a.credit);
      ReserveKeepsNonEmpty(s.sets, a.order.user, a.line.did, a.req.callId, a.cap, a.order.channelCount);
    } else if Enabled(s, step) && step.Page? {
      ReleaseNextKey(s.sets, s.jobs[step.j].ids, step.keys, UserSet(0));
    } else {
      OthersKeepSets(s, step);
    }
  }

  /** No step of any run leaves an empty set behind, so a page's SREMs are the machine's page. */
  lemma {:induction false} RunsKeepSetsNonEmpty(s: State, steps: seq<Step>)
    requires NoEmptySets(s.sets)
    ensures NoEmptySets(Exec(s, steps).sets)
    decreases |steps|
  {
    hide NoEmptySets, Next;
    if steps != [] {
      StepKeepsNonEmpty(s, steps[0]);
      RunsKeepSetsNonEmpty(Next(s, steps[0]), steps[1..]);
    }
  }

  // ---------- listings ----------

  /** The listed metadata, in reply order, without the entries that are too old. */
  function Listed(s: State, reply: seq<string>, now: int): (out: seq<LiveCall>)
    ensures forall c :: c in out <==> exists k :: k in reply && Listable(s, k, now) && s.meta[k] == c
  {
    if reply == [] then []
    else
      var n := |reply| - 1;
      var before := Listed(s, reply[..n], now);
      assert forall k :: k in reply <==> k in reply[..n] || k == reply[n];
      if Listable(s, reply[n], now) then before + [s.meta[reply[n]]] else before
  }

  /** The evicted keys, in listing order. */
  function DeadIds(calls: seq<LiveCall>, purpose: Purpose, now: int): (ids: seq<string>)
    ensures forall x :: x in ids <==> exists c :: c in calls && Dead(c, purpose, now) && c.callId == x
  {
    if calls == [] then []
    else
      var n := |calls| - 1;
      var before := DeadIds(calls[..n], purpose, now);
      assert forall c :: c in calls <==> c in calls[..n] || c == calls[n];
      if Dead(calls[n], purpose, now) then before + [calls[n].callId] else before
  }

  lemma DeadAreEvicted(s: State, reply: seq<string>, purpose: Purpose, now: int)
    ensures AsSet(DeadIds(Listed(s, reply, now), purpose, now)) == Evicted(s, reply, purpose, now)
  {
    var calls := Listed(s, reply, now);
    var ids := DeadIds(calls, purpose, now);
    var e := Evicted(s, reply, purpose, now);
    forall x | x in e ensures x in ids {
      var k :| k in reply && Listable(s, k, now) && Dead(s.meta[k], purpose, now) && s.meta[k].callId == x;
      assert s.meta[k] in calls;
    }
    forall x | x in ids ensures x in e {
      var c :| c in calls && Dead(c, purpose, now) && c.callId == x;
      var k :| k in reply && Listable(s, k, now) && s.meta[k] == c;
    }
  }

  ghost predicate Distinct<T>(xs: seq<T>) {
    forall i, k :: 0 <= i < k < |xs| ==> xs[i] != xs[k]
  }

  /** An entry is stored under its own id. */
  ghost predicate OwnKeys(s: State) {
    forall k :: k in s.meta ==> s.meta[k].callId == k
  }

  lemma {:induction false} DeadAreDistinct(s: State, reply: seq<string>, purpose: Purpose, now: int)
    requires Distinct(reply) && OwnKeys(s)
    ensures Distinct(DeadIds(Listed(s, reply, now), purpose, now))
    ensures forall x :: x in DeadIds(Listed(s, reply, now), purpose, now) ==> x in reply
    decreases |reply|
  {
    hide Dead, Listable, DeadIds, Listed;
    var ids := DeadIds(Listed(s, reply, now), purpose, now);
    forall x | x in ids ensures x in reply {
      DeadIdsMean(s, reply, purpose, now, x);
    }
    if reply == [] {
      NoneDead(s, purpose, now);
    } else {
      var n := |reply| - 1;
      DeadAreDistinct(s, reply[..n], purpose, now);
      OneMoreDead(s, reply, purpose, now);
      assert reply[n] !in reply[..n];
    }
  }

  lemma NoneDead(s: State, purpose: Purpose, now: int)
    ensures DeadIds(Listed(s, [], now), purpose, now) == []
  {
  }

  lemma OneMoreDead(s: State, reply: seq<string>, purpose: Purpose, now: int)
    requires OwnKeys(s) && reply != []
    ensures var n := |reply| - 1;
      var before := DeadIds(Listed(s, reply[..n], now), purpose, now);
      var ids := DeadIds(Listed(s, reply, now), purpose, now);
      ids == before || ids == before + [reply[n]]
  {
    hide Dead;
    var n := |reply| - 1;
    var before := Listed(s, reply[..n], now);
    if Listable(s, reply[n], now) {
      assert (before + [s.meta[reply[n]]])[..|before|] == before;
    }
  }

  // ---------- what each handler's steps are ----------

  function Pages(j: int, pages: seq<seq<SetKey>>): seq<Step> {
    seq(|pages|, i requires 0 <= i < |pages| => Page(j, AsSet(pages[i])))
  }

  /** Of authorize: it ends at the step that answers. */
  ghost function AuthorizeSteps(s: State, j: int, cfg: Config, req: Request, now: int,
                                others: nat -> seq<Step>): seq<Step> {
    var look := Look(j, cfg, req);
    var s1 := Next(s, look);
    if j !in s1.jobs then [look]
    else if s1.jobs[j].Entering? then [look, Enter(j, now)]
    else if j !in Next(Exec(s1, others(0)), Take(j)).jobs then [look, Take(j)]
    else [look, Take(j), Enter(j, now)]
  }

  function CdrSteps(j: int, raw: string, e164: string, found: Option<OrderLine>, billsec: int, timed: bool,
                    pages: seq<seq<SetKey>>): seq<Step>
  {
    [Claim(j, raw, e164, found, billsec, timed), Debit(j), Scan(j)] + Pages(j, pages)
  }

  function ListSteps(j: int, reply: seq<string>, purpose: Purpose, now: int): seq<Step> {
    [Range(j, reply, purpose), Fetch(j, now), Drop(j)]
  }

  function EvictSteps(j: int, evicted: seq<string>, pages: seq<seq<SetKey>>): seq<Step> {
    Unlists(j, evicted) + [Scan(j)] + Pages(j, pages) + [Leave(j)]
  }

  lemma NothingDone(s: State, others: nat -> seq<Step>, at: nat)
    ensures Interleaved(s, [], others, at) == s
  {
  }

  lemma PageIsStep(s: State, t: State, j: int, ids: seq<string>, page: seq<SetKey>)
    requires NoEmptySets(s.sets) && j in s.jobs && s.jobs[j].Releasing? && s.jobs[j].ids == AsSet(ids)
    requires t == s.(sets := t.sets, jobs := Next(s, Page(j, AsSet(page))).jobs)
    requires t.sets == if page == [] then s.sets else ReleaseFrom(s.sets, AsSet(ids), AsSet(page))
    ensures t == Next(s, Page(j, AsSet(page)))
    ensures j in t.jobs && Plain(t.jobs[j]) == Plain(s.jobs[j])
  {
    hide Next, NoteAll, ReleaseFrom, Plain, AsSet;
    PageIs(s, j, AsSet(page));
    if page == [] {
      NothingIn(page);
      ReleaseNone(s.sets, AsSet(ids), UserSet(0));
    }
    var a := s.jobs[j];
    var mid := s.jobs[j := a.(must := a.must - AsSet(page))];
    NotedUntouched(mid, Freed(AsSet(page), a.ids, t.sets.Keys), j);
    assert Plain(mid[j]) == Plain(a) by { MustIsNotPlain(a, a.must - AsSet(page)); }
  }

  lemma NothingIn(page: seq<SetKey>)
    requires page == []
    ensures AsSet(page) == {}
  {
  }

  lemma MustIsNotPlain(job: Job, must: set<SetKey>)
    requires job.Releasing?
    ensures Plain(job.(must := must)) == Plain(job)
  {
  }

  lemma SameHand(a: Job, b: Job)
    requires a.Releasing? && Plain(a) == Plain(b)
    ensures b.Releasing? && b.ids == a.ids
  {
  }

  /** After a listing its handler is through, or has the evicted entries in hand. */
  ghost predicate ListedJob(jobs: map<int, Job>, j: int, evicted: set<string>) {
    if evicted == {} then j !in jobs else j in jobs && Plain(jobs[j]) == Clearing(evicted, None, evicted, {})
  }

  function Channels(snapshot: Option<set<string>>): set<string> {
    if snapshot.Some? then snapshot.value else {}
  }

  /** Of the keys listed, exactly those are evicted whose metadata, as fetched, is younger than two hours, has settled
      if
      there is a settle window, and has no channel that is up; without a snapshot none is. */
  ghost predicate EvictsTheDead(fetch: State, reply: seq<string>, evicted: seq<string>, snapshot: Option<set<string>>,
                                settle: Option<int>, now: int)
  {
    forall k :: k in evicted <==>
      && k in reply && k in fetch.meta && fetch.meta[k].startedAt >= now - 7200
      && (settle.Some? ==> fetch.meta[k].startedAt <= now - settle.value)
      && (snapshot.Some? ==> !IsUp(fetch.meta[k], snapshot.value))
  }

  lemma DeadIdsMean(fetch: State, reply: seq<string>, purpose: Purpose, now: int, k: string)
    requires OwnKeys(fetch)
    ensures k in DeadIds(Listed(fetch, reply, now), purpose, now) <==>
              k in reply && Listable(fetch, k, now) && Dead(fetch.meta[k], purpose, now)
  {
    hide Dead;
    var calls := Listed(fetch, reply, now);
    if k in DeadIds(calls, purpose, now) {
      var c :| c in calls && Dead(c, purpose, now) && c.callId == k;
      var m :| m in reply && Listable(fetch, m, now) && fetch.meta[m] == c;
    }
    if k in reply && Listable(fetch, k, now) && Dead(fetch.meta[k], purpose, now) {
      assert fetch.meta[k] in calls;
    }
  }

  lemma CleanupEvicts(fetch: State, reply: seq<string>, snapshot: Option<set<string>>, now: int)
    requires OwnKeys(fetch)
    ensures EvictsTheDead(fetch, reply, DeadIds(Listed(fetch, reply, now), Cleanup(Channels(snapshot)), now), snapshot,
                          None, now)
  {
    hide DeadIds, Listed;
    forall k { DeadIdsMean(fetch, reply, Cleanup(Channels(snapshot)), now, k); }
  }

  lemma TickEvicts(fetch: State, reply: seq<string>, chans: set<string>, settle: int, now: int)
    requires OwnKeys(fetch)
    ensures EvictsTheDead(fetch, reply, DeadIds(Listed(fetch, reply, now), Reconcile(chans, settle), now), Some(chans),
                          Some(settle), now)
  {
    hide DeadIds, Listed;
    forall k { DeadIdsMean(fetch, reply, Reconcile(chans, settle), now, k); }
  }

  /** A listing shows the calls younger than two hours in the order of the reply. */
  lemma ListedMeans(s: State, front: seq<string>, back: seq<string>, k: string, now: int)
    ensures Listed(s, front + back, now) == Listed(s, front, now) + Listed(s, back, now)
    ensures Listed(s, [k], now) == if k in s.meta && s.meta[k].startedAt >= now - 7200 then [s.meta[k]] else []
  {
    assert [k][..0] == [] && Listed(s, [], now) == [];
    ListedConcat(s, front, back, now);
  }

  lemma {:induction false} ListedConcat(s: State, front: seq<string>, back: seq<string>, now: int)
    ensures Listed(s, front + back, now) == Listed(s, front, now) + Listed(s, back, now)
    decreases |back|
  {
    if back == [] {
      assert front + back == front;
    } else {
      var n := |back| - 1;
      assert (front + back)[..|front + back| - 1] == front + back[..n];
      ListedConcat(s, front, back[..n], now);
    }
  }

  /** A listing and, if anything was evicted, its eviction: by the metadata as it was when the keys were fetched. */
  ghost predicate TickRan(s: State, t: State, j: int, reply: seq<string>, purpose: Purpose, now: int,
                          evicted: seq<string>,
                          pages: seq<seq<SetKey>>, others: nat -> seq<Step>)
  {
    var fetch := Interleaved(s, [Range(j, reply, purpose)], others, 0);
    var own := ListSteps(j, reply, purpose, now) + if evicted == [] then [] else EvictSteps(j, evicted, pages);
    evicted == DeadIds(Listed(fetch, reply, now), purpose, now) && t == Interleaved(s, own, others, 0)
  }

  /** A pause leaves the handler where it stands. */
  lemma Ours(s: State, others: nat -> seq<Step>, i: nat, j: int)
    requires NotMine(others, j)
    ensures var t := Exec(s, others(i));
      && (j in t.jobs <==> j in s.jobs) && (j in s.jobs ==> Plain(t.jobs[j]) == Plain(s.jobs[j]))
      && (NoEmptySets(s.sets) ==> NoEmptySets(t.sets))
      && (j in s.jobs && !Hears(s.jobs[j]) ==> t.jobs[j] == s.jobs[j])
  {
    hide Exec, NoEmptySets;
    OthersLeaveHandler(s, others(i), j);
    if NoEmptySets(s.sets) {
      RunsKeepSetsNonEmpty(s, others(i));
    }
  }

  /** Handlers that other handlers' commands leave a note with. */
  predicate Hears(job: Job) {
    job.Entering? || job.Clearing? || job.Releasing? || job.Rerouting?
  }

  lemma ThreeInterleaved(s: State, a: Step, b: Step, c: Step, others: nat -> seq<Step>, at: nat)
    ensures Interleaved(s, [a], others, at) == Exec(Next(s, a), others(at))
    ensures Interleaved(s, [a, b, c], others, at)
         == Exec(Next(Exec(Next(Exec(Next(s, a), others(at)), b), others(at + 1)), c), others(at + 2))
  {
    hide Exec, Next;
    NothingDone(s, others, at);
    OneMore(s, [], a, others, at);
    OneMore(s, [a], b, others, at);
    OneMore(s, [a, b], c, others, at);
    assert [] + [a] == [a] && [a] + [b] == [a, b] && [a, b] + [c] == [a, b, c];
  }

  lemma DropIsStep(s: State, j: int, stale: set<string>, evicted: set<string>)
    requires j in s.jobs && s.jobs[j] == Sweeping(stale, evicted)
    ensures var t := Next(s, Drop(j));
      t == s.(zset := s.zset - stale, jobs := t.jobs) && ListedJob(t.jobs, j, evicted)
  {
  }

  lemma RereadIsStep(s: State, j: int, key: string, kind: string, target: string, act: string)
    requires j !in s.jobs && key != "" && key in s.meta
    ensures var t := Next(s, Reread(j, key, kind, target, act));
      && t == s.(jobs := t.jobs) && j in t.jobs
      && Plain(t.jobs[j]) == Rerouting(key, s.meta[key].(routeKind := kind, routeTarget := target, lastAction := act),
                                       {}, false)
  {
    hide Missing;
  }

  lemma StillRerouting(job: Job, key: string, c: LiveCall)
    requires Plain(job) == Rerouting(key, c, {}, false)
    ensures job.Rerouting? && job.key == key && job.call == c
  {
  }

  lemma RewriteIsStep(s: State, j: int, key: string, c: LiveCall)
    requires j in s.jobs && s.jobs[j].Rerouting? && s.jobs[j].key == key && s.jobs[j].call == c
    ensures Next(s, Rewrite(j)) == s.(meta := s.meta[key := c], jobs := Next(s, Rewrite(j)).jobs)
  {
    hide NoteAll;
  }

  lemma UnlistIsStep(s: State, t: State, j: int, evicted: seq<string>, i: nat)
    requires i < |evicted| && Distinct(evicted)
    requires j in s.jobs && Plain(s.jobs[j]) == Clearing(AsSet(evicted), None, AsSet(evicted[i..]), {})
    requires t == s.(zset := t.zset, meta := t.meta, jobs := Next(s, Unlist(j, evicted[i])).jobs)
    requires var id := evicted[i];
      if id == "" then t.zset == s.zset && t.meta == s.meta else t.zset == s.zset - {id} && t.meta == s.meta - {id}
    ensures t == Next(s, Unlist(j, evicted[i]))
    ensures j in t.jobs && Plain(t.jobs[j]) == Clearing(AsSet(evicted), None, AsSet(evicted[i + 1..]), {})
  {
    hide LostAfter, AgainAfter, BackAfter;
    assert evicted[i..][0] == evicted[i] && evicted[i..][1..] == evicted[i + 1..];
    assert AsSet(evicted[i..]) - {evicted[i]} == AsSet(evicted[i + 1..]);
  }

  lemma UnlistsFirst(j: int)
    ensures Unlists(j, []) == []
  {
  }

  lemma AsSetEnds(xs: seq<string>)
    ensures AsSet<string>([]) == {} && AsSet(xs[|xs|..]) == {}
  {
  }

  lemma {:induction false} UnlistsSplit(j: int, xs: seq<string>, x: string)
    ensures Unlists(j, xs + [x]) == Unlists(j, xs) + [Unlist(j, x)]
    decreases |xs|
  {
    if xs == [] {
      assert [] + [x] == [x] && [x][1..] == [];
    } else {
      assert (xs + [x])[0] == xs[0] && (xs + [x])[1..] == xs[1..] + [x];
      UnlistsSplit(j, xs[1..], x);
    }
  }

  lemma UnlistsLast(j: int, xs: seq<string>, i: nat)
    requires i < |xs|
    ensures Unlists(j, xs[..i + 1]) == Unlists(j, xs[..i]) + [Unlist(j, xs[i])] && |Unlists(j, xs[..i])| == i
  {
    assert xs[..i + 1] == xs[..i] + [xs[i]];
    UnlistsSplit(j, xs[..i], xs[i]);
    UnlistsLength(j, xs[..i]);
  }

  lemma {:induction false} UnlistsLength(j: int, xs: seq<string>)
    ensures |Unlists(j, xs)| == |xs|
    decreases |xs|
  {
    if xs != [] {
      UnlistsLength(j, xs[1..]);
    }
  }

  lemma PagesLength(j: int, pages: seq<seq<SetKey>>)
    ensures |Pages(j, pages)| == |pages|
  {
  }

  lemma ScanIsStep(s: State, j: int, ids: set<string>, own: Option<string>)
    requires j in s.jobs && Plain(s.jobs[j]) == Clearing(ids, own, {}, {})
    ensures var t := Next(s, Scan(j));
      t == s.(jobs := t.jobs) && j in t.jobs && Plain(t.jobs[j]) == Releasing(ids, own, {}, {}, {})
  {
  }

  lemma StillReleasing(job: Job, ids: set<string>, own: Option<string>)
    requires Plain(job) == Releasing(ids, own, {}, {}, {})
    ensures job.Releasing? && job.ids == ids && job.own == own
  {
  }

  lemma SilentLeaveIsStep(s: State, j: int)
    requires j in s.jobs && s.jobs[j].Releasing? && s.jobs[j].own.None?
    ensures Next(s, Leave(j)) == s.(jobs := Next(s, Leave(j)).jobs)
  {
  }

  lemma NoneOrSome(xs: seq<string>)
    ensures AsSet(xs) == {} <==> xs == []
  {
    if xs != [] {
      assert xs[0] in AsSet(xs);
    }
  }

  /** The handler ends with its answer: all its steps but the last are interleaved, the last one replies. */
  ghost predicate Answered(s: State, t: State, r: Response, own: seq<Step>, others: nat -> seq<Step>) {
    && own != []
    && var before := Interleaved(s, own[..|own| - 1], others, 0);
       t == Next(before, own[|own| - 1]) && Some(r) == Reply(before, own[|own| - 1])
  }

  lemma LookIsStep(s: State, j: int, cfg: Config, req: Request)
    requires j !in s.jobs
    ensures var t := Next(s, Look(j, cfg, req));
      t == s.(jobs := t.jobs)
      && match Screen(cfg, req, s.balances) {
        case Refused(reason) => t == s && Reply(s, Look(j, cfg, req)) == Some(Deny(reason))
        case Unbilled(line, target) =>
          j in t.jobs && t.jobs[j] == Entering(FreeEntry(req, line, target), Rating.FREE_CALL_SECONDS, {})
        case Billable(line, o, cap, credit) => j in t.jobs && t.jobs[j] == Asking(req, line, o, cap, credit)
      }
  {
    hide Screen, FreeEntry;
  }

  lemma RefusedAnswers(s: State, j: int, cfg: Config, req: Request, now: int, others: nat -> seq<Step>, reason: string)
    requires j !in s.jobs && Screen(cfg, req, s.balances) == Refused(reason)
    ensures Answered(s, s, Deny(reason), AuthorizeSteps(s, j, cfg, req, now, others), others)
  {
    hide Screen, Next, Reply, Exec;
    LookIsStep(s, j, cfg, req);
    var own := [Look(j, cfg, req)];
    assert AuthorizeSteps(s, j, cfg, req, now, others) == own;
    assert own[..|own| - 1] == [];
  }

  lemma StillEntering(job: Job, c: LiveCall, maxSeconds: int)
    requires Plain(job) == Entering(c, maxSeconds, {})
    ensures job.Entering? && job.call == c && job.maxSeconds == maxSeconds
  {
  }

  lemma FreeAnswers(s: State, t: State, j: int, cfg: Config, req: Request, now: int, others: nat -> seq<Step>,
                    line: DidLine,
                    target: string)
    requires j !in s.jobs && Screen(cfg, req, s.balances) == Unbilled(line, target)
    requires t == Exec(Next(s, Look(j, cfg, req)), others(0))
    ensures forall r :: Some(r) == Reply(t, Enter(j, now)) ==>
              Answered(s, Next(t, Enter(j, now)), r, AuthorizeSteps(s, j, cfg, req, now, others), others)
  {
    hide Screen, Next, Reply, Exec, FreeEntry;
    LookIsStep(s, j, cfg, req);
    var own := [Look(j, cfg, req), Enter(j, now)];
    assert AuthorizeSteps(s, j, cfg, req, now, others) == own;
    assert own[..|own| - 1] == [Look(j, cfg, req)];
    ThreeInterleaved(s, Look(j, cfg, req), Take(j), Take(j), others, 0);
  }

  lemma TakeIsStep(s: State, j: int, req: Request, line: DidLine, o: OrderLine, cap: int, credit: int)
    requires j in s.jobs && s.jobs[j] == Asking(req, line, o, cap, credit)
    ensures var t := Next(s, Take(j));
      var (sets, res) := Reserve(s.sets, o.user, line.did, req.callId, cap, o.channelCount);
      && t == s.(sets := sets, jobs := t.jobs, granted := t.granted) && res in {1, -1, -2}
      && (if res == 1 && Resolves(o, req)
          then j in t.jobs && t.jobs[j] == Entering(PaidEntry(req, line, o),
                                                    Rating.MaxSecondsForBalance(credit, o.rate), {})
          else j !in t.jobs)
  {
    hide Rating.MaxSecondsForBalance, PaidEntry, SanitizeCallID, AddGrant, Reserve, NoteAll, Resolves;
    ReserveMembers(s.sets, o.user, line.did, req.callId, cap, o.channelCount);
    NotedKeys(s.jobs - {j}, Taken({UserSet(o.user), DidSet(line.did)}, req.callId));
  }

  lemma TakeReplies(s: State, j: int, req: Request, line: DidLine, o: OrderLine, cap: int, credit: int)
    requires j in s.jobs && s.jobs[j] == Asking(req, line, o, cap, credit)
    ensures var res := Reserve(s.sets, o.user, line.did, req.callId, cap, o.channelCount).1;
      Reply(s, Take(j)) ==
        if res == -1 then Some(Deny("user_channel_cap_hit"))
        else if res == -2 then Some(Deny("did_channel_cap_hit"))
        else if !Resolves(o, req) then Some(Deny("reservation_misconfigured")) else None
  {
    hide Reserve, Resolves;
  }

  /** The rows let the call through: what the script's step answers, if it does. */
  lemma BilledAnswers(s: State, t: State, j: int, cfg: Config, req: Request, now: int, others: nat -> seq<Step>,
                      line: DidLine,
                      o: OrderLine, cap: int, credit: int)
    requires j !in s.jobs && Screen(cfg, req, s.balances) == Billable(line, o, cap, credit)
    requires t == Exec(Next(s, Look(j, cfg, req)), others(0)) && j in t.jobs
        && t.jobs[j] == Asking(req, line, o, cap, credit)
    ensures var res := Reserve(t.sets, o.user, line.did, req.callId, cap, o.channelCount).1;
      var own := AuthorizeSteps(s, j, cfg, req, now, others);
      var u := Next(t, Take(j));
      && (res == -1 ==> Answered(s, u, Deny("user_channel_cap_hit"), own, others))
      && (res == -2 ==> Answered(s, u, Deny("did_channel_cap_hit"), own, others))
      && (res == 1 && !Resolves(o, req) ==> Answered(s, u, Deny("reservation_misconfigured"), own, others))
      && (res == 1 && Resolves(o, req) ==> own == [Look(j, cfg, req), Take(j), Enter(j, now)])
  {
    hide Screen, Next, Reply, Exec, Reserve, Resolves;
    LookIsStep(s, j, cfg, req);
    TakeIsStep(t, j, req, line, o, cap, credit);
    TakeReplies(t, j, req, line, o, cap, credit);
    var own := [Look(j, cfg, req), Take(j)];
    assert own[..|own| - 1] == [Look(j, cfg, req)];
    ThreeInterleaved(s, Look(j, cfg, req), Take(j), Take(j), others, 0);
  }

  lemma PaidAnswers(s: State, t: State, u: State, j: int, cfg: Config, req: Request, now: int, others: nat -> seq<Step>)
    requires AuthorizeSteps(s, j, cfg, req, now, others) == [Look(j, cfg, req), Take(j), Enter(j, now)]
    requires t == Next(Exec(Next(s, Look(j, cfg, req)), others(0)), Take(j)) && u == Exec(t, others(1))
    ensures forall r :: Some(r) == Reply(u, Enter(j, now)) ==>
              Answered(s, Next(u, Enter(j, now)), r, AuthorizeSteps(s, j, cfg, req, now, others), others)
  {
    hide Next, Reply, Exec, AuthorizeSteps;
    var own := [Look(j, cfg, req), Take(j), Enter(j, now)];
    assert own[..|own| - 1] == [Look(j, cfg, req)] + [Take(j)];
    ThreeInterleaved(s, Look(j, cfg, req), Take(j), Take(j), others, 0);
    OneMore(s, [Look(j, cfg, req)], Take(j), others, 0);
  }

  lemma SameSets(s: State, step: Step)
    requires step.Claim? || step.Debit?
    ensures Next(s, step).sets == s.sets
  {
    OthersKeepSets(s, step);
  }

  lemma LeaveIsStep(s: State, j: int, key: string)
    requires j in s.jobs && s.jobs[j].Releasing? && s.jobs[j].own == Some(key) && Enabled(s, Leave(j))
    ensures var t := Next(s, Leave(j));
      t == s.(meta := if key == "" then s.meta else s.meta - {key}, zset := if key == "" then s.zset
              else s.zset - {key}, jobs := t.jobs)
  {
    hide NoteAll;
  }
}
