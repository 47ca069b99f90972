/** The handlers as they run, command by command over Redis and the balances, with other handlers at work
    between any two commands. Each is a run of the machine of `CallControl`: its own steps in order, theirs
    in between. */
module CallServer {
  import opened Basics
  import opened CallIds
  import opened CallControl
  import opened LiveIndex
  import opened Ticks
  import opened Interleaving
  import opened Answers
  import Rating

  class Server {
    var sets: Sets
    var zset: map<string, int>
    var meta: map<string, LiveCall>
    var pending: map<string, PendingAction>
    var balances: map<int, int>
    /** The machine's record of the calls let in and of where each handler stands; no handler decides by it. */
    var granted: map<Ticket, Grant>
    var jobs: map<int, Job>

    function View(): State
      reads this
    {
      State(sets, zset, meta, pending, balances, granted, jobs)
    }

    /** What the other handlers do before the next command. */
    method Pause(steps: seq<Step>)
      modifies this
      ensures View() == Exec(old(View()), steps)
    {
      var t := Exec(View(), steps);
      sets, zset, meta, pending, balances := t.sets, t.zset, t.meta, t.pending, t.balances;
      granted, jobs := t.granted, t.jobs;
    }

    // ---------- reservation sets ----------

    method ReserveChannel(user: int, did: int, id: string, userCap: int, didCap: int) returns (res: int)
      modifies this`sets
      ensures (sets, res) == Reserve(old(sets), user, did, id, userCap, didCap)
    {
      var userActive := |Members(sets, UserSet(user))|;
      var didActive := |Members(sets, DidSet(did))|;
      if userCap >= 0 && userActive >= userCap { return -1; }
      if didActive >= didCap { return -2; }
      sets := SAdd(sets, UserSet(user), id);
      sets := SAdd(sets, DidSet(did), id);
      res := 1;
    }

    /** One key of one page: an SREM for every id. */
    method ReleaseKey(k: SetKey, ids: seq<string>)
      requires NoEmptySets(sets)
      modifies this`sets
      ensures sets == ReleaseFrom(old(sets), AsSet(ids), {k})
    {
      ReleaseNone(sets, {}, k);
      assert AsSet(ids[..0]) == {};
      var i := 0;
      while i < |ids|
        invariant 0 <= i <= |ids|
        invariant sets == ReleaseFrom(old(sets), AsSet(ids[..i]), {k})
      {
        ReleaseOneMore(old(sets), AsSet(ids[..i]), k, ids[i]);
        sets := SRem(sets, k, ids[i]);
        assert ids[..i + 1] == ids[..i] + [ids[i]];
        assert AsSet(ids[..i + 1]) == AsSet(ids[..i]) + {ids[i]};
        i := i + 1;
      }
      assert ids[..|ids|] == ids;
    }

    /** The pipeline of one page. */
    method ReleasePage(keys: seq<SetKey>, ids: seq<string>)
      requires NoEmptySets(sets)
      modifies this`sets
      ensures sets == ReleaseFrom(old(sets), AsSet(ids), AsSet(keys))
    {
      ghost var all := AsSet(ids);
      ReleaseNone(sets, all, UserSet(0));
      assert AsSet(keys[..0]) == {};
      var i := 0;
      while i < |keys|
        invariant 0 <= i <= |keys|
        invariant sets == ReleaseFrom(old(sets), all, AsSet(keys[..i])) && NoEmptySets(sets)
      {
        ReleaseNextKey(old(sets), all, AsSet(keys[..i]), keys[i]);
        ReleaseKey(keys[i], ids);
        assert AsSet(keys[..i]) + {keys[i]} == AsSet(keys[..i + 1]);
        ReleaseNextKey(old(sets), all, AsSet(keys[..i + 1]), keys[i]);
        i := i + 1;
      }
      assert keys[..|keys|] == keys;
    }

    /** A page, its pipeline, and what others do before the next page. */
    method ReleaseNextPage(j: int, ids: seq<string>, page: seq<SetKey>, others: nat -> seq<Step>, i: nat)
      requires NoEmptySets(sets) && NotMine(others, j)
      requires j in jobs && jobs[j].Releasing? && jobs[j].ids == AsSet(ids)
      modifies this
      ensures View() == Exec(Next(old(View()), Page(j, AsSet(page))), others(i))
      ensures NoEmptySets(sets) && j in jobs && Plain(jobs[j]) == old(Plain(jobs[j]))
    {
      hide Exec, Next, ReleaseFrom, NoEmptySets, NotMine, Plain, AsSet;
      ghost var was := View();
      var told := Next(View(), Page(j, AsSet(page))).jobs;
      if page != [] {
        ReleasePage(page, ids);
      }
      jobs := told;
      ghost var t := View();
      PageIsStep(was, t, j, ids, page);
      StepKeepsNonEmpty(was, Page(j, AsSet(page)));
      Pause(others(i));
      Ours(t, others, i, j);
    }

    /** The SCAN loop. */
    method ReleaseReservations(j: int, ids: seq<string>, pages: seq<seq<SetKey>>, others: nat -> seq<Step>, at: nat)
      requires NoEmptySets(sets) && NotMine(others, j)
      requires j in jobs && jobs[j].Releasing? && jobs[j].ids == AsSet(ids)
      modifies this
      ensures View() == Interleaved(old(View()), Pages(j, pages), others, at)
      ensures NoEmptySets(sets) && j in jobs && Plain(jobs[j]) == old(Plain(jobs[j]))
    {
      hide Exec, Next, NoEmptySets, NotMine, Interleaved, Plain, AsSet;
      ghost var s := View();
      var cursor := 0;
      assert Interleaved(s, [], others, at) == s by { NothingDone(s, others, at); }
      assert Pages(j, pages[..0]) == [];
      while cursor < |pages|
        invariant 0 <= cursor <= |pages| && NoEmptySets(sets)
        invariant View() == Interleaved(s, Pages(j, pages[..cursor]), others, at)
        invariant j in jobs && Plain(jobs[j]) == Plain(s.jobs[j])
      {
        var page := pages[cursor];
        SameHand(s.jobs[j], jobs[j]);
        ReleaseNextPage(j, ids, page, others, at + cursor);
        assert Pages(j, pages[..cursor + 1]) == Pages(j, pages[..cursor]) + [Page(j, AsSet(page))];
        OneMore(s, Pages(j, pages[..cursor]), Page(j, AsSet(page)), others, at);
        cursor := cursor + 1;
      }
      assert pages[..|pages|] == pages;
    }

    // ---------- live index ----------

    method RegisterCall(c: LiveCall)
      modifies this`meta, this`zset
      ensures c.callId == "" ==> meta == old(meta) && zset == old(zset)
      ensures c.callId != "" ==> meta == old(meta)[c.callId := c] && zset == old(zset)[c.callId := c.startedAt]
    {
      if c.callId == "" { return; }
      meta := meta[c.callId := c];
      zset := zset[c.callId := c.startedAt];
    }

    method DeregisterCall(id: string)
      modifies this`meta, this`zset
      ensures id == "" ==> meta == old(meta) && zset == old(zset)
      ensures id != "" ==> meta == old(meta) - {id} && zset == old(zset) - {id}
    {
      if id == "" { return; }
      zset := zset - {id};
      meta := meta - {id};
    }

    /** The loop over the values of the MGET. */
    method Sift(vals: map<string, LiveCall>, reply: seq<string>, now: int, ghost s: State)
      returns (out: seq<LiveCall>, stale: set<string>)
      requires vals == s.meta
      ensures out == Listed(s, reply, now) && stale == SweptBy(s, reply, now)
    {
      out, stale := [], {};
      var i := 0;
      while i < |reply|
        invariant 0 <= i <= |reply|
        invariant out == Listed(s, reply[..i], now)
        invariant stale == SweptBy(s, reply[..i], now)
      {
        assert reply[..i + 1][..i] == reply[..i];
        assert forall k :: k in reply[..i + 1] <==> k in reply[..i] || k == reply[i];
        if reply[i] !in vals || vals[reply[i]].startedAt < now - SWEEP_WINDOW {
          stale := stale + {reply[i]};
        } else {
          out := out + [vals[reply[i]]];
        }
        i := i + 1;
      }
      assert reply[..|reply|] == reply;
    }

    /** The MGET of the listed keys, and the loop over its values. */
    method FetchListed(j: int, reply: seq<string>, purpose: Purpose, now: int, others: nat -> seq<Step>)
      returns (out: seq<LiveCall>, stale: set<string>)
      requires NotMine(others, j) && j in jobs && jobs[j] == Ranged(reply, purpose) && NoEmptySets(sets)
      modifies this
      ensures View() == Exec(Next(old(View()), Fetch(j, now)), others(1)) && NoEmptySets(sets)
      ensures out == Listed(old(View()), reply, now) && stale == SweptBy(old(View()), reply, now)
      ensures j in jobs && jobs[j] == Sweeping(stale, Evicted(old(View()), reply, purpose, now))
    {
      hide Exec, Next, SweptBy, Evicted, Listed, NoEmptySets, NotMine;
      ghost var s := View();
      var vals := meta;
      FetchIs(s, j, now);
      jobs := Next(View(), Fetch(j, now)).jobs;
      ghost var t := View();
      out, stale := Sift(vals, reply, now, s);
      Pause(others(1));
      Ours(t, others, 1, j);
    }

    /** The ZREM of the stale keys. */
    method DropStale(j: int, stale: set<string>, ghost evicted: set<string>, others: nat -> seq<Step>)
      requires NotMine(others, j) && j in jobs && jobs[j] == Sweeping(stale, evicted) && NoEmptySets(sets)
      modifies this
      ensures View() == Exec(Next(old(View()), Drop(j)), others(2)) && NoEmptySets(sets)
      ensures ListedJob(jobs, j, evicted)
    {
      hide Exec, Next, NoEmptySets, NotMine, Plain;
      DropIsStep(View(), j, stale, evicted);
      jobs := Next(View(), Drop(j)).jobs;
      zset := zset - stale;
      ghost var t := View();
      Pause(others(2));
      Ours(t, others, 2, j);
    }

    method List(j: int, reply: seq<string>, purpose: Purpose, now: int, others: nat -> seq<Step>)
        returns (out: seq<LiveCall>)
      requires NotMine(others, j) && j !in jobs && NoEmptySets(sets)
      modifies this
      ensures View() == Interleaved(old(View()), ListSteps(j, reply, purpose, now), others, 0)
      ensures var fetch := Interleaved(old(View()), [Range(j, reply, purpose)], others, 0);
        out == Listed(fetch, reply, now) && ListedJob(jobs, j, Evicted(fetch, reply, purpose, now))
      ensures NoEmptySets(sets)
    {
      hide Exec, Next, SweptBy, Evicted, Listed, NoEmptySets, Interleaved, ListedJob, NotMine;
      ghost var s := View();
      RangeIs(s, j, reply, purpose);
      jobs := Next(View(), Range(j, reply, purpose)).jobs;
      ghost var t := View();
      Pause(others(0));
      Ours(t, others, 0, j);
      var stale;
      ghost var fetch := View();
      out, stale := FetchListed(j, reply, purpose, now, others);
      DropStale(j, stale, Evicted(fetch, reply, purpose, now), others);
      ThreeInterleaved(s, Range(j, reply, purpose), Fetch(j, now), Drop(j), others, 0);
    }

    // ---------- reconciler and force cleanup ----------

    /** The tick's decision: settled entries with no channel, or a dead one. */
    method CollectDead(calls: seq<LiveCall>, chans: set<string>, settle: int, now: int) returns (evicted: seq<string>)
      ensures evicted == DeadIds(calls, Reconcile(chans, settle), now)
    {
      var cutoff := now - settle;
      evicted := [];
      for i := 0 to |calls|
        invariant evicted == DeadIds(calls[..i], Reconcile(chans, settle), now)
      {
        var ac := calls[i];
        assert calls[..i + 1][..i] == calls[..i];
        if ac.startedAt > cutoff {
        } else if ac.channel == "" {
          evicted := evicted + [ac.callId];
        } else if ac.channel !in chans {
          evicted := evicted + [ac.callId];
        }
      }
      assert calls[..|calls|] == calls;
    }

    /** The force cleanup's, which has no settle window. */
    method CollectGone(calls: seq<LiveCall>, chans: set<string>, now: int) returns (evicted: seq<string>)
      ensures evicted == DeadIds(calls, Cleanup(chans), now)
    {
      evicted := [];
      for i := 0 to |calls|
        invariant evicted == DeadIds(calls[..i], Cleanup(chans), now)
      {
        var ac := calls[i];
        assert calls[..i + 1][..i] == calls[..i];
        if ac.channel == "" {
          evicted := evicted + [ac.callId];
        } else if ac.channel !in chans {
          evicted := evicted + [ac.callId];
        }
      }
      assert calls[..|calls|] == calls;
    }

    method DeregisterAll(j: int, evicted: seq<string>, others: nat -> seq<Step>, at: nat)
      requires NoEmptySets(sets) && NotMine(others, j) && Distinct(evicted)
      requires ListedJob(jobs, j, AsSet(evicted)) && j in jobs
      modifies this
      ensures View() == Interleaved(old(View()), Unlists(j, evicted), others, at)
      ensures j in jobs && Plain(jobs[j]) == Clearing(AsSet(evicted), None, {}, {}) && NoEmptySets(sets)
    {
      hide Exec, Next, NoEmptySets, Interleaved, Plain, AsSet, Unlists;
      ghost var s := View();
      var i := 0;
      UnlistsFirst(j);
      NothingDone(s, others, at);
      AsSetEnds(evicted);
      assert evicted[..0] == [] && evicted[0..] == evicted;
      while i < |evicted|
        invariant 0 <= i <= |evicted| && NoEmptySets(sets)
        invariant View() == Interleaved(s, Unlists(j, evicted[..i]), others, at)
        invariant j in jobs && Plain(jobs[j]) == Clearing(AsSet(evicted), None, AsSet(evicted[i..]), {})
      {
        ghost var was := View();
        var told := Next(View(), Unlist(j, evicted[i])).jobs;
        DeregisterCall(evicted[i]);
        jobs := told;
        ghost var t := View();
        UnlistIsStep(was, t, j, evicted, i);
        Pause(others(at + i));
        Ours(t, others, at + i, j);
        UnlistsLast(j, evicted, i);
        OneMore(s, Unlists(j, evicted[..i]), Unlist(j, evicted[i]), others, at);
        i := i + 1;
      }
      assert evicted[..|evicted|] == evicted;
    }

    /** Each evicted entry is deregistered, then the SCAN loop releases them all. */
    method Evict(j: int, evicted: seq<string>, pages: seq<seq<SetKey>>, others: nat -> seq<Step>, at: nat)
      requires NoEmptySets(sets) && NotMine(others, j) && Distinct(evicted)
      requires ListedJob(jobs, j, AsSet(evicted)) && j in jobs
      modifies this
      ensures View() == Interleaved(old(View()), EvictSteps(j, evicted, pages), others, at)
    {
      hide Exec, Next, NoEmptySets, Interleaved, Plain, AsSet, Unlists, Pages;
      ghost var s := View();
      var n := |evicted|;
      DeregisterAll(j, evicted, others, at);
      UnlistsLength(j, evicted);
      BeginRelease(j, AsSet(evicted), None, others, at + n);
      OneMore(s, Unlists(j, evicted), Scan(j), others, at);
      StillReleasing(jobs[j], AsSet(evicted), None);
      ReleaseReservations(j, evicted, pages, others, at + n + 1);
      ghost var s4 := View();
      PagesLength(j, pages);
      InterleavedAppend(s, Unlists(j, evicted) + [Scan(j)], Pages(j, pages), others, at);
      StillReleasing(jobs[j], AsSet(evicted), None);
      jobs := Next(View(), Leave(j)).jobs;
      SilentLeaveIsStep(s4, j);
      Pause(others(at + n + 1 + |pages|));
      OneMore(s, Unlists(j, evicted) + [Scan(j)] + Pages(j, pages), Leave(j), others, at);
    }

    method RunReconcileOnce(j: int, reply: seq<string>, snapshot: Option<set<string>>, now: int, settle: int,
                            pages: seq<seq<SetKey>>, others: nat -> seq<Step>) returns (evicted: seq<string>)
      requires NoEmptySets(sets) && NotMine(others, j) && j !in jobs && Distinct(reply)
      requires snapshot.Some? ==>
                 OwnKeys(Interleaved(View(), [Range(j, reply, Reconcile(snapshot.value, settle))], others, 0))
      modifies this
      ensures snapshot.None? ==> evicted == [] && View() == old(View())
      ensures snapshot.Some? ==>
                && TickRan(old(View()), View(), j, reply, Reconcile(snapshot.value, settle), now, evicted, pages,
                           others)
                && EvictsTheDead(Interleaved(old(View()), [Range(j, reply, Reconcile(snapshot.value, settle))], others,
                                             0),
                                 reply, evicted, snapshot, Some(settle), now)
    {
      hide Exec, Next, NoEmptySets, Interleaved, Plain, AsSet, DeadIds, Listed, Evicted, EvictSteps;
      if snapshot.None? { return []; }
      hide EvictsTheDead;
      ghost var s := View();
      ghost var purpose := Reconcile(snapshot.value, settle);
      ghost var fetch := Interleaved(s, [Range(j, reply, purpose)], others, 0);
      var calls := List(j, reply, Reconcile(snapshot.value, settle), now, others);
      evicted := CollectDead(calls, snapshot.value, settle, now);
      TickEvicts(fetch, reply, snapshot.value, settle, now);
      DeadAreEvicted(fetch, reply, purpose, now);
      DeadAreDistinct(fetch, reply, purpose, now);
      NoneOrSome(evicted);
      assert ListSteps(j, reply, purpose, now) + [] == ListSteps(j, reply, purpose, now);
      if evicted == [] { return; }
      Evict(j, evicted, pages, others, 3);
      InterleavedAppend(s, ListSteps(j, reply, purpose, now), EvictSteps(j, evicted, pages), others, 0);
    }

    method LiveForceCleanup(j: int, reply: seq<string>, snapshot: Option<set<string>>, now: int,
                            pages: seq<seq<SetKey>>, others: nat -> seq<Step>) returns (evicted: seq<string>)
      requires NoEmptySets(sets) && NotMine(others, j) && j !in jobs && Distinct(reply)
      requires OwnKeys(Interleaved(View(), [Range(j, reply, Cleanup(Channels(snapshot)))], others, 0))
      modifies this
      ensures TickRan(old(View()), View(), j, reply, Cleanup(Channels(snapshot)), now, evicted, pages, others)
      ensures EvictsTheDead(Interleaved(old(View()), [Range(j, reply, Cleanup(Channels(snapshot)))], others, 0),
                            reply, evicted, snapshot, None, now)
    {
      hide Exec, Next, NoEmptySets, Interleaved, Plain, AsSet, DeadIds, Listed, Evicted, EvictSteps;
      hide EvictsTheDead;
      ghost var s := View();
      var chans := Channels(snapshot);
      ghost var purpose := Cleanup(chans);
      ghost var fetch := Interleaved(s, [Range(j, reply, purpose)], others, 0);
      var calls := List(j, reply, Cleanup(chans), now, others);
      evicted := CollectGone(calls, chans, now);
      CleanupEvicts(fetch, reply, snapshot, now);
      DeadAreEvicted(fetch, reply, purpose, now);
      DeadAreDistinct(fetch, reply, purpose, now);
      NoneOrSome(evicted);
      assert ListSteps(j, reply, purpose, now) + [] == ListSteps(j, reply, purpose, now);
      if evicted == [] { return; }
      Evict(j, evicted, pages, others, 3);
      InterleavedAppend(s, ListSteps(j, reply, purpose, now), EvictSteps(j, evicted, pages), others, 0);
    }

    // ---------- redirect ----------

    /** The read and the write of a route update: what others store under the key in between is overwritten by
        the record read before. */
    method UpdateLiveRoute(j: int, key: string, kind: string, target: string, action: string, others: nat -> seq<Step>)
      requires NotMine(others, j) && j !in jobs
      modifies this
      ensures key == "" || key !in old(meta) ==> View() == old(View())
      ensures key != "" && key in old(meta) ==>
                && View() == Next(Interleaved(old(View()), [Reread(j, key, kind, target, action)], others, 0),
                                  Rewrite(j))
                && key in meta && meta[key] == old(meta)[key].(routeKind := kind, routeTarget := target,
                                                               lastAction := action)
    {
      hide Exec, Interleaved, Next, NotMine;
      if key == "" { return; }
      if key !in meta { return; }
      ghost var s := View();
      var ac := meta[key];
      ac := ac.(routeKind := kind);
      ac := ac.(routeTarget := target);
      ac := ac.(lastAction := action);
      RereadIsStep(s, j, key, kind, target, action);
      jobs := Next(View(), Reread(j, key, kind, target, action)).jobs;
      ghost var t := View();
      Pause(others(0));
      Ours(t, others, 0, j);
      StillRerouting(jobs[j], key, ac);
      ThreeInterleaved(s, Reread(j, key, kind, target, action), Rewrite(j), Rewrite(j), others, 0);
      RewriteIsStep(View(), j, key, ac);
      jobs := Next(View(), Rewrite(j)).jobs;
      meta := meta[key := ac];
    }

    // ---------- authorize ----------

    /** The checks over the rows, in their order. */
    method ReadRows(cfg: Config, req: Request) returns (v: Screened)
      ensures v == Screen(cfg, req, balances)
    {
      if req.e164 == "" { return Refused("bad_to_uri"); }
      if !req.srcIpOk { return Refused("bad_src_ip"); }
      if req.e164 !in cfg.dids { return Refused("unknown_did"); }
      if !req.aclOk { return Refused("src_ip_not_authorized"); }
      var line := cfg.dids[req.e164];
      if line.status == Reserved {
        if line.reservedKind == "" { return Refused("reservation_misconfigured"); }
        var target := line.reservedTarget;
        if line.reservedKind == "audio_group" {
          if line.reservedGroup.None? { return Refused("reservation_misconfigured"); }
          if req.pick.None? { return Refused("reservation_misconfigured"); }
          target := "didstorage/" + req.pick.value;
        }
        if target == "" { return Refused("reservation_misconfigured"); }
        return Unbilled(line, target);
      }
      if line.status != Assigned { return Refused("did_not_assigned"); }
      if !HasOrder(cfg, line) { return Refused("did_not_assigned"); }
      var o := line.order.value;
      if o.status == KycPending { return Refused("kyc_pending"); }
      if o.status == Quarantined { return Refused("quarantined"); }
      var u := cfg.users[o.user];
      if !u.active { return Refused("user_blocked"); }
      var credit := BalanceOf(balances, o.user);
      if Rating.MaxSecondsForBalance(credit, o.rate) < cfg.minSeconds { return Refused("insufficient_balance"); }
      return Billable(line, o, u.cap, credit);
    }

    /** Its answer fits the rows, the balance and the sets (see `Answers`), and so does what it has stored. */
    method Decide(j: int, cfg: Config, req: Request, now: int, others: nat -> seq<Step>) returns (r: Response)
      requires NotMine(others, j) && j !in jobs
      modifies this
      ensures Answered(old(View()), View(), r, AuthorizeSteps(old(View()), j, cfg, req, now, others), others)
      ensures AnswerFits(cfg, req, old(View()), AtScript(old(View()), j, cfg, req, others).sets, r)
      ensures r.Allow? ==> RecordFits(cfg, req, now, View(), r)
      ensures r.Allow? && req.e164 in cfg.dids && cfg.dids[req.e164].status != Reserved ==>
                GrantFits(cfg, req, old(View()), AtScript(old(View()), j, cfg, req, others), j, r)
    {
      hide AnswerFits, RecordFits, GrantFits, AtScript, Answered, AuthorizeSteps;
      r := DecideStepwise(j, cfg, req, now, others);
      AnswerMeans(old(View()), View(), j, cfg, req, now, others, r);
    }

    method DecideStepwise(j: int, cfg: Config, req: Request, now: int, others: nat -> seq<Step>) returns (r: Response)
      requires NotMine(others, j) && j !in jobs
      modifies this
      ensures Answered(old(View()), View(), r, AuthorizeSteps(old(View()), j, cfg, req, now, others), others)
    {
      hide Exec, Next, Interleaved, Screen, NotMine, Answered, AuthorizeSteps, FreeEntry, Reserve,
          Rating.MaxSecondsForBalance;
      ghost var s := View();
      var v := ReadRows(cfg, req);
      LookIsStep(s, j, cfg, req);
      jobs := Next(View(), Look(j, cfg, req)).jobs;
      ghost var s1 := View();
      match v {
        case Refused(reason) =>
          RefusedAnswers(s, j, cfg, req, now, others, reason);
          return Deny(reason);
        case Unbilled(line, target) =>
          Pause(others(0));
          Ours(s1, others, 0, j);
          StillEntering(jobs[j], FreeEntry(req, line, target), Rating.FREE_CALL_SECONDS);
          FreeAnswers(s, View(), j, cfg, req, now, others, line, target);
          r := Let(j, FreeEntry(req, line, target), Rating.FREE_CALL_SECONDS, now);
        case Billable(line, o, cap, credit) =>
          Pause(others(0));
          Ours(s1, others, 0, j);
          ghost var s2 := View();
          var maxSeconds := Rating.MaxSecondsForBalance(credit, o.rate);
          var res := TakeSlots(j, req, line, o, cap, credit);
          BilledAnswers(s, s2, j, cfg, req, now, others, line, o, cap, credit);
          if res == -1 { return Deny("user_channel_cap_hit"); }
          if res == -2 { return Deny("did_channel_cap_hit"); }
          if o.routeKind == "audio_group" {
            if o.audioGroup.None? { return Deny("reservation_misconfigured"); }
            if req.pick.None? { return Deny("reservation_misconfigured"); }
          }
          ghost var s3 := View();
          Pause(others(1));
          Ours(s3, others, 1, j);
          StillEntering(jobs[j], PaidEntry(req, line, o), maxSeconds);
          PaidAnswers(s, s3, View(), j, cfg, req, now, others);
          r := Let(j, PaidEntry(req, line, o), maxSeconds, now);
      }
    }

    method TakeSlots(j: int, req: Request, line: DidLine, o: OrderLine, cap: int, credit: int) returns (res: int)
      requires j in jobs && jobs[j] == Asking(req, line, o, cap, credit)
      modifies this
      ensures View() == Next(old(View()), Take(j))
      ensures res == Reserve(old(sets), o.user, line.did, req.callId, cap, o.channelCount).1 && res in {1, -1, -2}
      ensures res == 1 && Resolves(o, req) ==>
                j in jobs && jobs[j] == Entering(PaidEntry(req, line, o), Rating.MaxSecondsForBalance(credit, o.rate),
                                                 {})
    {
      hide Next, Reserve, Rating.MaxSecondsForBalance, PaidEntry;
      ghost var s := View();
      var t := Next(View(), Take(j));
      TakeIsStep(s, j, req, line, o, cap, credit);
      res := ReserveChannel(o.user, line.did, req.callId, cap, o.channelCount);
      jobs := t.jobs;
      granted := t.granted;
    }

    /** Into the index, and the answer. */
    method Let(j: int, c: LiveCall, maxSeconds: int, now: int) returns (r: Response)
      requires j in jobs && jobs[j].Entering? && jobs[j].call == c && jobs[j].maxSeconds == maxSeconds
      modifies this
      ensures View() == Next(old(View()), Enter(j, now)) && Some(r) == Reply(old(View()), Enter(j, now))
    {
      hide NoteAll, Next, Reply;
      EnterIs(View(), j, now);
      EnterReplies(View(), j, now, c, maxSeconds);
      var told := Next(View(), Enter(j, now)).jobs;
      RegisterCall(c.(startedAt := now));
      jobs := told;
      r := Allow(maxSeconds, DialKind(c.routeKind), c.routeTarget);
    }

    // ---------- cdr ----------

    method PopPendingAction(key: string) returns (p: Option<PendingAction>)
      modifies this`pending
      ensures p == if key != "" && key in old(pending) then Some(old(pending)[key]) else None
      ensures pending == if p.Some? then old(pending) - {key} else old(pending)
    {
      if key == "" { return None; }
      if key !in pending { return None; }
      p := Some(pending[key]);
      pending := pending - {key};
    }

    /** The lookup's row and the pending mark. */
    method ClaimMark(j: int, raw: string, e164: string, found: Option<OrderLine>, billsec: int, timed: bool)
      returns (action: Option<PendingAction>)
      requires j !in jobs
      modifies this
      ensures View() == Next(old(View()), Claim(j, raw, e164, found, billsec, timed))
      ensures j in jobs && jobs[j] == Settling(raw, e164, found, billsec)
      ensures action == if Claims(found, billsec, timed) then PopPending(old(View()), SanitizeCallID(raw)).1 else None
    {
      hide SanitizeCallID;
      if found.None? && billsec <= 0 && !timed {
        action := None;
      } else {
        action := PopPendingAction(SanitizeCallID(raw));
      }
      jobs := jobs[j := Settling(raw, e164, found, billsec)];
    }

    /** The charging transaction. */
    method ChargeCall(j: int, raw: string, e164: string, found: Option<OrderLine>, billsec: int)
      requires j in jobs && jobs[j] == Settling(raw, e164, found, billsec)
      modifies this
      ensures View() == Next(old(View()), Debit(j))
      ensures j in jobs && Plain(jobs[j]) == Clearing({raw}, Some(SanitizeCallID(raw)), {}, {})
    {
      hide SanitizeCallID;
      if found.Some? {
        var o := found.value;
        var charge := Rating.ChargeForCall(billsec, o.billMin, o.billInc, o.rate);
        if charge.chargeCents > 0 && o.user in balances {
          balances := balances[o.user := balances[o.user] - charge.chargeCents];
        }
      }
      granted := granted - {Ticket(raw, e164)};
      jobs := jobs[j := Clearing({raw}, Some(SanitizeCallID(raw)), {}, {})];
    }

    /** The release loop begins. */
    method BeginRelease(j: int, ids: set<string>, own: Option<string>, others: nat -> seq<Step>, at: nat)
      requires NoEmptySets(sets) && NotMine(others, j) && j in jobs && Plain(jobs[j]) == Clearing(ids, own, {}, {})
      modifies this
      ensures View() == Exec(Next(old(View()), Scan(j)), others(at))
      ensures NoEmptySets(sets) && j in jobs && Plain(jobs[j]) == Releasing(ids, own, {}, {}, {})
    {
      hide Exec, Next, NoEmptySets, NotMine, Plain;
      ScanIsStep(View(), j, ids, own);
      jobs := Next(View(), Scan(j)).jobs;
      ghost var t := View();
      Pause(others(at));
      Ours(t, others, at, j);
    }

    /** The mark, then the charge. */
    method ClaimAndCharge(j: int, raw: string, e164: string, found: Option<OrderLine>, billsec: int, timed: bool,
                          others: nat -> seq<Step>) returns (action: Option<PendingAction>)
      requires NoEmptySets(sets) && NotMine(others, j) && j !in jobs
      modifies this
      ensures var s1 := Next(old(View()), Claim(j, raw, e164, found, billsec, timed));
        View() == Exec(Next(Exec(s1, others(0)), Debit(j)), others(1))
      ensures action == if Claims(found, billsec, timed) then PopPending(old(View()), SanitizeCallID(raw)).1 else None
      ensures NoEmptySets(sets) && j in jobs && Plain(jobs[j]) == Clearing({raw}, Some(SanitizeCallID(raw)), {}, {})
    {
      hide Exec, Next, NoEmptySets, NotMine, Plain, SanitizeCallID, PopPending, Claims;
      SameSets(View(), Claim(j, raw, e164, found, billsec, timed));
      action := ClaimMark(j, raw, e164, found, billsec, timed);
      ghost var s1 := View();
      Pause(others(0));
      Ours(s1, others, 0, j);
      SameSets(View(), Debit(j));
      ChargeCall(j, raw, e164, found, billsec);
      ghost var s2 := View();
      Pause(others(1));
      Ours(s2, others, 1, j);
    }

    /** The mark, the charge, and the release loop is about to begin. */
    method SettleCall(j: int, raw: string, e164: string, found: Option<OrderLine>, billsec: int, timed: bool,
                      others: nat -> seq<Step>) returns (action: Option<PendingAction>)
      requires NoEmptySets(sets) && NotMine(others, j) && j !in jobs
      modifies this
      ensures View() == Interleaved(old(View()), [Claim(j, raw, e164, found, billsec, timed), Debit(j), Scan(j)],
                                    others, 0)
      ensures action == if Claims(found, billsec, timed) then PopPending(old(View()), SanitizeCallID(raw)).1 else None
      ensures NoEmptySets(sets) && j in jobs
          && Plain(jobs[j]) == Releasing({raw}, Some(SanitizeCallID(raw)), {}, {}, {})
    {
      hide Exec, Next, NoEmptySets, NotMine, Interleaved, Plain, SanitizeCallID, PopPending, Claims;
      ghost var s := View();
      action := ClaimAndCharge(j, raw, e164, found, billsec, timed, others);
      BeginRelease(j, {raw}, Some(SanitizeCallID(raw)), others, 2);
      ThreeInterleaved(s, Claim(j, raw, e164, found, billsec, timed), Debit(j), Scan(j), others, 0);
    }

    /** Charge, release page by page, deregister. SCAN has shown, by its end, every key that was there all along. */
    method HandleCdr(j: int, raw: string, e164: string, found: Option<OrderLine>, billsec: int, timed: bool,
                     pages: seq<seq<SetKey>>, others: nat -> seq<Step>) returns (action: Option<PendingAction>)
      requires NoEmptySets(sets) && NotMine(others, j) && j !in jobs
      requires Enabled(Interleaved(View(), CdrSteps(j, raw, e164, found, billsec, timed, pages), others, 0), Leave(j))
      modifies this
      ensures View() == Interleaved(old(View()), CdrSteps(j, raw, e164, found, billsec, timed, pages) + [Leave(j)],
                                    others, 0)
      ensures action == if Claims(found, billsec, timed) then PopPending(old(View()), SanitizeCallID(raw)).1 else None
    {
      hide Exec, Next, NoEmptySets, NotMine, Interleaved, Plain, Pages, SanitizeCallID, PopPending, Enabled;
      ghost var s := View();
      action := SettleCall(j, raw, e164, found, billsec, timed, others);
      InterleavedAppend(s, [Claim(j, raw, e164, found, billsec, timed), Debit(j), Scan(j)], Pages(j, pages), others, 0);
      StillReleasing(jobs[j], {raw}, Some(SanitizeCallID(raw)));
      ReleaseChannelByCallId(j, raw, pages, others, 3);
      StillReleasing(jobs[j], {raw}, Some(SanitizeCallID(raw)));
      LeaveIsStep(View(), j, SanitizeCallID(raw));
      var told := Next(View(), Leave(j)).jobs;
      DeregisterCall(SanitizeCallID(raw));
      jobs := told;
      Pause(others(3 + |pages|));
      PagesLength(j, pages);
      OneMore(s, CdrSteps(j, raw, e164, found, billsec, timed, pages), Leave(j), others, 0);
    }

    method ReleaseChannelByCallId(j: int, id: string, pages: seq<seq<SetKey>>, others: nat -> seq<Step>, at: nat)
      requires NoEmptySets(sets) && NotMine(others, j)
      requires j in jobs && jobs[j].Releasing? && jobs[j].ids == {id}
      modifies this
      ensures View() == Interleaved(old(View()), Pages(j, pages), others, at)
      ensures NoEmptySets(sets) && j in jobs && Plain(jobs[j]) == old(Plain(jobs[j]))
    {
      assert AsSet([id]) == {id};
      ReleaseReservations(j, [id], pages, others, at);
    }
  }
}
