/** What one listing, reconciler tick or force cleanup leaves behind when nothing comes between its commands,
    and which slots an eviction frees. */
module Ticks {
  import opened Basics
  import opened CallIds
  import opened CallControl
  import opened LiveIndex
  import opened Agreement

  /** What a reverse range over the index answers: its newest entries, at most 501 of them. */
  ghost predicate IsNewest(zset: map<string, int>, reply: seq<string>) {
    && |reply| == (if |zset| < 501 then |zset| else 501)
    && (forall i, j :: 0 <= i < j < |reply| ==> reply[i] != reply[j])
    && (forall i :: 0 <= i < |reply| ==> reply[i] in zset)
    && (forall i, j :: 0 <= i < j < |reply| ==> zset[reply[i]] >= zset[reply[j]])
    && (forall k, i :: k in zset && k !in reply && 0 <= i < |reply| ==> zset[k] <= zset[reply[i]])
  }

  function Sweep(s: State, reply: seq<string>, now: int): State {
    s.(zset := s.zset - SweptBy(s, reply, now))
  }

  function Evict(s: State, ids: set<string>): State {
    s.(zset := s.zset - ids, meta := s.meta - ids, sets := ReleaseFrom(s.sets, ids, s.sets.Keys))
  }

  /** The whole effect: stale entries leave the index, evicted ones the index and every set. */
  function Tick(s: State, reply: seq<string>, purpose: Purpose, now: int): State {
    var ids := Evicted(s, reply, purpose, now);
    s.(zset := s.zset - SweptBy(s, reply, now) - ids, meta := s.meta - ids,
       sets := if ids == {} then s.sets else ReleaseFrom(s.sets, ids, s.sets.Keys))
  }

  // ---------- the commands add up to it ----------

  function Unlists(j: int, order: seq<string>): seq<Step> {
    if order == [] then [] else [Unlist(j, order[0])] + Unlists(j, order[1..])
  }

  function TickSteps(j: int, reply: seq<string>, purpose: Purpose, now: int, order: seq<string>,
                     keys: set<SetKey>): seq<Step> {
    [Range(j, reply, purpose), Fetch(j, now), Drop(j)]
    + if order == [] then [] else Unlists(j, order) + [Scan(j), Page(j, keys), Leave(j)]
  }

  lemma {:induction false} UnlistAll(s: State, j: int, ids: set<string>, order: seq<string>)
    requires s.jobs == map[j := Clearing(ids, None, AsSet(order), {})]
    requires "" !in order && forall a, b :: 0 <= a < b < |order| ==> order[a] != order[b]
    ensures Exec(s, Unlists(j, order))
         == s.(zset := s.zset - AsSet(order), meta := s.meta - AsSet(order),
               jobs := map[j := Clearing(ids, None, {}, {})])
    decreases |order|
  {
    if order == [] {
      assert AsSet(order) == {};
      assert s.zset - {} == s.zset && s.meta - {} == s.meta;
    } else {
      var id, rest := order[0], order[1..];
      HeadAndRest(order);
      hide Next, Exec, AsSet;
      var t := Next(s, Unlist(j, id));
      UnlistOne(s, j, ids, id, AsSet(rest));
      UnlistAll(t, j, ids, rest);
      assert s.zset - {id} - AsSet(rest) == s.zset - AsSet(order);
      assert s.meta - {id} - AsSet(rest) == s.meta - AsSet(order);
      assert Unlists(j, order)[1..] == Unlists(j, rest);
      FirstOf(s, Unlists(j, order));
    }
  }

  lemma HeadAndRest(order: seq<string>)
    requires order != [] && forall a, b :: 0 <= a < b < |order| ==> order[a] != order[b]
    ensures AsSet(order) == {order[0]} + AsSet(order[1..]) && order[0] !in order[1..] && order[0] !in AsSet(order[1..])
  {
  }

  lemma UnlistOne(s: State, j: int, ids: set<string>, id: string, rest: set<string>)
    requires s.jobs == map[j := Clearing(ids, None, {id} + rest, {})] && id !in rest && id != ""
    ensures Next(s, Unlist(j, id))
         == s.(zset := s.zset - {id}, meta := s.meta - {id}, jobs := map[j := Clearing(ids, None, rest, {})])
  {
    hide SanitizeCallID, AgainAfter, LostAfter;
    assert {id} + rest - {id} == rest;
    var told := map[j := Clearing(ids, None, rest, {})];
    assert s.jobs[j := s.jobs[j].(todo := s.jobs[j].todo - {id})] == told;
    var none: set<string> := {};
    assert none - {id} == none;
    assert NoteAll(told, Gone({id})) == told;
  }

  lemma ReleaseAlone(s: State, j: int, ids: set<string>, keys: set<SetKey>)
    requires s.jobs == map[j := Clearing(ids, None, {}, {})] && s.sets.Keys <= keys
    ensures Next(Next(Next(s, Scan(j)), Page(j, keys)), Leave(j))
         == s.(sets := ReleaseFrom(s.sets, ids, s.sets.Keys), jobs := map[])
  {
    var sets := ReleaseFrom(s.sets, ids, keys);
    var s1 := Next(s, Scan(j));
    ScanAlone(s, j, ids);
    PageAlone(s1, j, ids, keys);
    hide Next, ReleaseFrom;
    var s2 := Next(s1, Page(j, keys));
    LeaveAlone(s2, j, ids);
    assert sets == ReleaseFrom(s.sets, ids, s.sets.Keys) by { AllKeys(s.sets, ids, keys); }
  }

  lemma AllKeys(sets: Sets, ids: set<string>, keys: set<SetKey>)
    requires sets.Keys <= keys
    ensures ReleaseFrom(sets, ids, keys) == ReleaseFrom(sets, ids, sets.Keys)
  {
  }

  lemma ScanAlone(s: State, j: int, ids: set<string>)
    requires s.jobs == map[j := Clearing(ids, None, {}, {})]
    ensures Next(s, Scan(j)) == s.(jobs := map[j := Releasing(ids, None, {}, s.sets.Keys, {})])
  {
  }

  lemma PageAlone(s: State, j: int, ids: set<string>, keys: set<SetKey>)
    requires s.jobs == map[j := Releasing(ids, None, {}, s.sets.Keys, {})] && s.sets.Keys <= keys
    ensures Next(s, Page(j, keys))
        == s.(sets := ReleaseFrom(s.sets, ids, keys), jobs := map[j := Releasing(ids, None, {}, {}, {})])
  {
    hide ReleaseFrom;
    assert s.sets.Keys - keys == {};
    var sets := ReleaseFrom(s.sets, ids, keys);
    var told := map[j := Releasing(ids, None, {}, {}, {})];
    assert s.jobs[j := s.jobs[j].(must := s.jobs[j].must - keys)] == told;
    var none: set<SetKey>, taken: set<(SetKey, string)> := {}, {};
    assert none * sets.Keys == none && AgainAfter(taken, ids, Freed(keys, ids, sets.Keys)) == taken;
    assert NoteAll(told, Freed(keys, ids, sets.Keys)) == told;
  }

  lemma LeaveAlone(s: State, j: int, ids: set<string>)
    requires s.jobs == map[j := Releasing(ids, None, {}, {}, {})]
    ensures Next(s, Leave(j)) == s.(jobs := map[])
  {
    assert s.jobs - {j} == map[];
  }

  lemma ThreeSteps(s: State, a: Step, b: Step, c: Step)
    ensures Exec(s, [a, b, c]) == Next(Next(Next(s, a), b), c)
  {
    hide Next;
    var steps := [a, b, c];
    assert steps[1..] == [b, c] && steps[1..][1..] == [c] && steps[1..][1..][1..] == [];
    FirstOf(s, steps);
    FirstOf(Next(s, a), steps[1..]);
    FirstOf(Next(Next(s, a), b), steps[1..][1..]);
  }

  lemma ListingSteps(s: State, j: int, reply: seq<string>, purpose: Purpose, now: int)
    requires s.jobs == map[]
    ensures var ids := Evicted(s, reply, purpose, now);
      Next(Next(Next(s, Range(j, reply, purpose)), Fetch(j, now)), Drop(j))
      == Sweep(s, reply, now).(jobs := if ids == {} then map[] else map[j := Clearing(ids, None, ids, {})])
  {
    hide SweptBy, Evicted, Next;
    FetchedAlone(s, j, reply, purpose, now);
    var s2 := Next(Next(s, Range(j, reply, purpose)), Fetch(j, now));
    assert s2.jobs - {j} == map[];
    DropIs(s2, j);
  }

  lemma FetchedAlone(s: State, j: int, reply: seq<string>, purpose: Purpose, now: int)
    requires s.jobs == map[]
    ensures Next(Next(s, Range(j, reply, purpose)), Fetch(j, now))
         == s.(jobs := map[j := Sweeping(SweptBy(s, reply, now), Evicted(s, reply, purpose, now))])
  {
    hide SweptBy, Evicted, Next;
    var s1 := Next(s, Range(j, reply, purpose));
    RangeIs(s, j, reply, purpose);
    SameListing(s, s1, reply, purpose, now);
    FetchIs(s1, j, now);
  }

  /** Uninterrupted, the commands of a listing, tick or cleanup have exactly this effect. */
  lemma TickIsItsSteps(s: State, j: int, reply: seq<string>, purpose: Purpose, now: int, order: seq<string>,
                       keys: set<SetKey>)
    requires s.jobs == map[] && s.sets.Keys <= keys
    requires AsSet(order) == Evicted(s, reply, purpose, now) && "" !in order
    requires forall a, b :: 0 <= a < b < |order| ==> order[a] != order[b]
    ensures Exec(s, TickSteps(j, reply, purpose, now, order, keys)) == Tick(s, reply, purpose, now)
  {
    hide SweptBy, Evicted, Next, Exec;
    var front := [Range(j, reply, purpose), Fetch(j, now), Drop(j)];
    ThreeSteps(s, front[0], front[1], front[2]);
    ListingSteps(s, j, reply, purpose, now);
    var s3 := Exec(s, front);
    if order == [] {
      assert AsSet(order) == {};
      assert TickSteps(j, reply, purpose, now, order, keys) == front;
    } else {
      assert order[0] in AsSet(order);
      UnlistAll(s3, j, AsSet(order), order);
      var s4 := Exec(s3, Unlists(j, order));
      var back := [Scan(j), Page(j, keys), Leave(j)];
      ReleaseAlone(s4, j, AsSet(order), keys);
      ThreeSteps(s4, back[0], back[1], back[2]);
      ExecAppend(s3, Unlists(j, order), back);
      ExecAppend(s, front, Unlists(j, order) + back);
    }
  }

  lemma FirstOf(s: State, steps: seq<Step>)
    requires steps != []
    ensures Exec(s, steps) == Exec(Next(s, steps[0]), steps[1..])
  {
  }

  lemma SameListing(s: State, t: State, reply: seq<string>, purpose: Purpose, now: int)
    requires s.meta == t.meta
    ensures SweptBy(s, reply, now) == SweptBy(t, reply, now)
        && Evicted(s, reply, purpose, now) == Evicted(t, reply, purpose, now)
  {
    hide Dead;
    assert forall k :: Listable(s, k, now) <==> Listable(t, k, now);
  }

  // ---------- what is left ----------

  lemma EvictedAreKeys(s: State, reply: seq<string>, purpose: Purpose, now: int, ids: iset<string>)
    requires Indexed(s, ids)
    ensures Evicted(s, reply, purpose, now) == set k | k in reply && Listable(s, k, now)
        && Dead(s.meta[k], purpose, now)
  {
    hide Dead, SanitizeCallID;
    var e := Evicted(s, reply, purpose, now);
    var f := set k | k in reply && Listable(s, k, now) && Dead(s.meta[k], purpose, now);
    forall k | k in f ensures k in e {
      assert s.meta[k].callId == k;
    }
  }

  /** What a tick does to the index, whatever its size: outside the listed window nothing moves, inside it
      exactly the entries that are young enough and not dead remain, with their metadata. */
  lemma TickWindow(s: State, reply: seq<string>, purpose: Purpose, now: int, ids: iset<string>)
    requires Indexed(s, ids)
    ensures var t := Tick(s, reply, purpose, now);
      && (forall k :: k in t.zset <==> (k in s.zset && (k in reply ==>
            s.meta[k].startedAt >= now - SWEEP_WINDOW && !Dead(s.meta[k], purpose, now))))
      && (forall k :: k in t.zset ==> t.zset[k] == s.zset[k] && k in t.meta && t.meta[k] == s.meta[k])
  {
    hide SanitizeCallID, Dead, Evicted, SweptBy, ReleaseFrom;
    EvictedAreKeys(s, reply, purpose, now, ids);
    var out, stale := Evicted(s, reply, purpose, now), SweptBy(s, reply, now);
    forall k ensures k in out <==> k in reply && Listable(s, k, now) && Dead(s.meta[k], purpose, now)
      ensures k in stale <==> k in reply && !Listable(s, k, now)
    {
      SweptMeans(s, reply, now, k);
    }
  }

  lemma SweptMeans(s: State, reply: seq<string>, now: int, k: string)
    ensures k in SweptBy(s, reply, now) <==> k in reply && !Listable(s, k, now)
  {
  }

  /** What it does to the reservations: the evicted ids leave every set, no other member moves. */
  lemma TickSets(s: State, reply: seq<string>, purpose: Purpose, now: int)
    ensures var t := Tick(s, reply, purpose, now);
      && (forall key :: Members(t.sets, key) == Members(s.sets, key) - Evicted(s, reply, purpose, now))
      && t.pending == s.pending && t.balances == s.balances && t.granted == s.granted
  {
    hide Evicted, SweptBy;
    var ids := Evicted(s, reply, purpose, now);
    forall key ensures Members(Tick(s, reply, purpose, now).sets, key) == Members(s.sets, key) - ids {
      ReleaseMembers(s.sets, ids, s.sets.Keys, key);
    }
  }

  lemma {:induction false} DistinctCoverAll(reply: seq<string>, keys: set<string>)
    requires forall i, j :: 0 <= i < j < |reply| ==> reply[i] != reply[j]
    requires forall i :: 0 <= i < |reply| ==> reply[i] in keys
    requires |reply| == |keys|
    ensures forall k :: k in keys ==> k in reply
    decreases |reply|
  {
    if reply == [] {
      assert keys == {};
    } else {
      var n := |reply| - 1;
      DistinctCoverAll(reply[..n], keys - {reply[n]});
      forall k | k in keys ensures k in reply {
        assert k == reply[n] || k in reply[..n];
      }
    }
  }

  /** A tick that finds every listed entry young and alive changes nothing. */
  lemma TickSettled(s: State, reply: seq<string>, purpose: Purpose, now: int)
    requires forall k :: k in reply ==> k in s.zset
    requires forall k :: k in s.zset ==> Listable(s, k, now) && !Dead(s.meta[k], purpose, now)
    ensures Tick(s, reply, purpose, now) == s
  {
    hide Dead;
    assert SweptBy(s, reply, now) == {};
    assert Evicted(s, reply, purpose, now) == {};
    assert s.zset - {} == s.zset;
  }

  /** The call's channel is among those Asterisk has up. */
  predicate IsUp(c: LiveCall, chans: set<string>) {
    c.channel != "" && c.channel in chans
  }

  /** Of the entries that `t` no longer has, those in `gone` have left every set; all else is as it was. */
  ghost predicate Without(s: State, t: State, gone: seq<string>) {
    && (forall k :: k in t.zset ==>
          k in s.zset && t.zset[k] == s.zset[k] && k in s.meta && k in t.meta && t.meta[k] == s.meta[k])
    && (forall key :: Members(t.sets, key) == Members(s.sets, key) - AsSet(gone))
    && t.pending == s.pending && t.balances == s.balances && t.granted == s.granted && t.jobs == map[]
  }

  /** The commands of one tick or cleanup over an index of at most 501 entries, in one go. */
  lemma WholeTick(s: State, j: int, reply: seq<string>, purpose: Purpose, now: int, order: seq<string>,
                  keys: set<SetKey>, ids: iset<string>)
    requires Indexed(s, ids) && IsNewest(s.zset, reply) && |s.zset| <= 501
    requires s.jobs == map[] && s.sets.Keys <= keys && forall a, b :: 0 <= a < b < |order| ==> order[a] != order[b]
    requires forall k :: k in order <==> k in s.zset && Listable(s, k, now) && Dead(s.meta[k], purpose, now)
    ensures var t := Exec(s, TickSteps(j, reply, purpose, now, order, keys));
      && t == Tick(s, reply, purpose, now) && Without(s, t, order) && t.sets.Keys <= s.sets.Keys
      && (forall k :: k in t.zset <==> k in s.zset && Listable(s, k, now) && !Dead(s.meta[k], purpose, now))
  {
    hide SanitizeCallID, Tick, Dead, TickSteps, Exec, Without;
    DistinctCoverAll(reply, s.zset.Keys);
    EvictedAreKeys(s, reply, purpose, now, ids);
    assert AsSet(order) == Evicted(s, reply, purpose, now);
    assert "" !in order;
    TickIsItsSteps(s, j, reply, purpose, now, order, keys);
    TickWindow(s, reply, purpose, now, ids);
    TickLeaves(s, reply, purpose, now, order, ids);
    TickEndsAll(s, reply, purpose, now);
  }

  lemma TickLeaves(s: State, reply: seq<string>, purpose: Purpose, now: int, order: seq<string>, ids: iset<string>)
    requires Indexed(s, ids) && s.jobs == map[] && AsSet(order) == Evicted(s, reply, purpose, now)
    ensures Without(s, Tick(s, reply, purpose, now), order)
  {
    hide SanitizeCallID, Tick, Dead, Members, Evicted, Presented;
    var t := Tick(s, reply, purpose, now);
    TickWindow(s, reply, purpose, now, ids);
    TickEndsAll(s, reply, purpose, now);
    TickSets(s, reply, purpose, now);
  }

  lemma TickEndsAll(s: State, reply: seq<string>, purpose: Purpose, now: int)
    ensures Tick(s, reply, purpose, now).jobs == s.jobs && Tick(s, reply, purpose, now).sets.Keys <= s.sets.Keys
  {
    hide Evicted, SweptBy;
  }

  /** Up to 501 entries a reconciler tick is exact: what remains are the entries younger than two hours that are
      unsettled or whose channel is up, the others among the young leave every set, and a second tick on the same facts
      is a no-op. `order` lists those others. */
  lemma TickIsExact(s: State, j: int, reply: seq<string>, chans: set<string>, settle: int, now: int, order: seq<string>,
                    keys: set<SetKey>, again: seq<string>, ids: iset<string>)
    requires Indexed(s, ids) && IsNewest(s.zset, reply) && |s.zset| <= 501
    requires s.jobs == map[] && s.sets.Keys <= keys && forall a, b :: 0 <= a < b < |order| ==> order[a] != order[b]
    requires forall k :: k in order <==>
        && k in s.zset && s.meta[k].startedAt >= now - 7200 && s.meta[k].startedAt <= now - settle
        && !IsUp(s.meta[k], chans)
    requires IsNewest(Exec(s, TickSteps(j, reply, Reconcile(chans, settle), now, order, keys)).zset, again)
    ensures var t := Exec(s, TickSteps(j, reply, Reconcile(chans, settle), now, order, keys));
      && (forall k :: k in t.zset <==>
            k in s.zset && s.meta[k].startedAt >= now - 7200
            && (s.meta[k].startedAt > now - settle || IsUp(s.meta[k], chans)))
      && Without(s, t, order)
      && Exec(t, TickSteps(j, again, Reconcile(chans, settle), now, [], keys)) == t
  {
    hide SanitizeCallID, Tick, TickSteps, Exec, Without;
    var purpose := Reconcile(chans, settle);
    WholeTick(s, j, reply, purpose, now, order, keys, ids);
    SecondTick(s, j, purpose, now, order, keys, again, Exec(s, TickSteps(j, reply, purpose, now, order, keys)));
  }

  lemma SecondTick(s: State, j: int, purpose: Purpose, now: int, order: seq<string>, keys: set<SetKey>,
                   again: seq<string>, t: State)
    requires IsNewest(t.zset, again) && Without(s, t, order) && t.sets.Keys <= keys
    requires forall k :: k in t.zset ==> Listable(s, k, now) && !Dead(s.meta[k], purpose, now)
    ensures Exec(t, TickSteps(j, again, purpose, now, [], keys)) == t
  {
    hide Tick, TickSteps, Exec, Dead, Members;
    assert forall k :: k in again ==> k in t.zset;
    TickSettled(t, again, purpose, now);
    assert Evicted(t, again, purpose, now) == {};
    assert AsSet<string>([]) == {};
    TickIsItsSteps(t, j, again, purpose, now, [], keys);
  }

  /** A force cleanup has no settle window: up to 501 entries, what remains are the entries younger than two hours whose
      channel is up, and the other young ones leave every set. */
  lemma CleanupIsExact(s: State, j: int, reply: seq<string>, chans: set<string>, now: int, order: seq<string>,
                       keys: set<SetKey>, ids: iset<string>)
    requires Indexed(s, ids) && IsNewest(s.zset, reply) && |s.zset| <= 501
    requires s.jobs == map[] && s.sets.Keys <= keys && forall a, b :: 0 <= a < b < |order| ==> order[a] != order[b]
    requires forall k :: k in order <==> k in s.zset && s.meta[k].startedAt >= now - 7200 && !IsUp(s.meta[k], chans)
    ensures var t := Exec(s, TickSteps(j, reply, Cleanup(chans), now, order, keys));
      && (forall k :: k in t.zset <==> k in s.zset && s.meta[k].startedAt >= now - 7200 && IsUp(s.meta[k], chans))
      && Without(s, t, order)
      && (chans == {} ==> t.zset == map[])
  {
    hide SanitizeCallID, Tick, TickSteps, Exec, Without;
    WholeTick(s, j, reply, Cleanup(chans), now, order, keys, ids);
  }

  /** With more entries than that, the tick is exact iff every entry beyond the window happens to be young
      and alive. */
  lemma TickIsExactIff(s: State, reply: seq<string>, purpose: Purpose, now: int, ids: iset<string>)
    requires Indexed(s, ids) && IsNewest(s.zset, reply)
    ensures (forall k :: k in Tick(s, reply, purpose, now).zset ==>
               s.meta[k].startedAt >= now - SWEEP_WINDOW && !Dead(s.meta[k], purpose, now))
       <==> (forall k :: k in s.zset && k !in reply ==>
               s.meta[k].startedAt >= now - SWEEP_WINDOW && !Dead(s.meta[k], purpose, now))
  {
    hide Dead, Tick, SanitizeCallID;
    TickWindow(s, reply, purpose, now, ids);
    var t := Tick(s, reply, purpose, now);
    forall k | k in s.zset && k !in reply ensures k in t.zset {
    }
  }

  // ---------- which slots an eviction frees ----------

  /** Evicting a live billed call frees its slots exactly when its raw Call-ID is already in sanitised form;
      a Call-ID with a host part keeps both slots. */
  lemma EvictionFreesSlotIffSanitised(s: State, reply: seq<string>, purpose: Purpose, now: int, k: string,
                                      ids: iset<string>)
    requires Indexed(s, ids) && SafeIds(ids) && LiveReserved(s)
    requires k in s.zset && !s.meta[k].reserved
    requires k in Evicted(s, reply, purpose, now)
    ensures var t := Tick(s, reply, purpose, now);
      var c := s.meta[k];
      && k !in t.zset
      && (c.full !in Members(t.sets, UserSet(c.user)) <==> SanitizeCallID(c.full) == c.full)
      && (c.full !in Members(t.sets, DidSet(c.did)) <==> SanitizeCallID(c.full) == c.full)
  {
    hide Tick, Dead, SanitizeCallID, Members;
    var c := s.meta[k];
    EvictedAreKeys(s, reply, purpose, now, ids);
    TickWindow(s, reply, purpose, now, ids);
    TickSets(s, reply, purpose, now);
    assert HoldsSlots(s.sets, c);
    assert Presented(c, ids);
    if c.full in Evicted(s, reply, purpose, now) {
      assert Presented(s.meta[c.full], ids);
    }
  }

  /** An eviction keeps every live call in its sets exactly when no surviving call's own id is among the
      evicted keys. */
  lemma EvictKeepsLiveReservedIff(s: State, hand: set<string>, ids: iset<string>)
    requires Indexed(s, ids) && LiveReserved(s)
    ensures LiveReserved(Evict(s, hand)) <==>
            (forall k :: k in s.zset && k !in hand && !s.meta[k].reserved ==> s.meta[k].full !in hand)
  {
    hide SanitizeCallID, ReleaseFrom, Members;
    var t := Evict(s, hand);
    forall key ensures Members(t.sets, key) == Members(s.sets, key) - hand {
      EvictMembers(s.sets, hand, key);
    }
    forall k | k in s.zset && k !in hand && !s.meta[k].reserved
      ensures HoldsSlots(t.sets, t.meta[k]) <==> s.meta[k].full !in hand
    {
      assert k in t.zset && t.meta[k] == s.meta[k] && HoldsSlots(s.sets, s.meta[k]);
      assert UserSet(s.meta[k].user) in SlotsOf(s.meta[k]);
    }
  }

  lemma EvictMembers(sets: Sets, hand: set<string>, key: SetKey)
    ensures Members(ReleaseFrom(sets, hand, sets.Keys), key) == Members(sets, key) - hand
  {
    ReleaseMembers(sets, hand, sets.Keys, key);
  }

  // ---------- Call-IDs with a host part ----------

  /** No handler has this Call-ID to charge or release. */
  ghost predicate NotInHand(s: State, raw: string) {
    forall j :: j in s.jobs ==>
      && (s.jobs[j].Settling? ==> s.jobs[j].raw != raw)
      && (HasHand(s.jobs[j]) ==> raw !in s.jobs[j].ids)
      && (s.jobs[j].Sweeping? ==> raw !in s.jobs[j].evicted)
  }

  lemma NotedNotInHand(s: State, jobs: map<int, Job>, e: Event, raw: string)
    requires NotInHand(s, raw) && jobs.Keys <= s.jobs.Keys
    requires forall j :: j in jobs ==> jobs[j] == s.jobs[j] || (HasHand(jobs[j]) && raw !in jobs[j].ids)
    ensures forall j :: j in NoteAll(jobs, e) && HasHand(NoteAll(jobs, e)[j]) ==> raw !in NoteAll(jobs, e)[j].ids
    ensures forall j :: j in NoteAll(jobs, e) && NoteAll(jobs, e)[j].Settling? ==> NoteAll(jobs, e)[j].raw != raw
    ensures forall j :: j in NoteAll(jobs, e) && NoteAll(jobs, e)[j].Sweeping? ==> raw !in NoteAll(jobs, e)[j].evicted
  {
    hide LostAfter, BackAfter, AgainAfter;
  }

  lemma KeysHaveNoHost(k: string, ids: iset<string>)
    requires Keyed(ids, k)
    ensures '@' !in k
  {
    var x :| x in ids && k == SanitizeCallID(x);
    SanitizedHasNoHost(x);
  }

  lemma TakeKeepsNotInHand(s: State, j: int, raw: string)
    requires NotInHand(s, raw) && Enabled(s, Take(j))
    ensures NotInHand(Next(s, Take(j)), raw)
  {
    hide DoTake, NoteAll;
    var a := s.jobs[j];
    NotedNotInHand(s, s.jobs - {j}, Taken({UserSet(a.order.user), DidSet(a.line.did)}, a.req.callId), raw);
    TakeShape(s, j, a.req, a.line, a.order, a.cap, a.credit);
  }

  /** Steps that tell every handler what they did. */
  lemma TellingKeepsNotInHand(s: State, step: Step, raw: string)
    requires NotInHand(s, raw) && Enabled(s, step)
    requires step.Enter? || step.Page? || step.Leave? || step.Unlist? || step.Remove? || step.Rewrite?
    ensures NotInHand(Next(s, step), raw)
  {
    hide Next, SanitizeCallID, ReleaseFrom, NoteAll;
    var j := step.j;
    match step
    case Enter(_, now) =>
      EnterIs(s, j, now);
      NotedNotInHand(s, s.jobs - {j}, Entered(s.jobs[j].call.(startedAt := now)), raw);
    case Page(_, keys) =>
      PageIs(s, j, keys);
      var a := s.jobs[j];
      NotedNotInHand(s, s.jobs[j := a.(must := a.must - keys)],
                     Freed(keys, a.ids, ReleaseFrom(s.sets, a.ids, keys).Keys), raw);
    case Leave(_) =>
      LeaveIs(s, j);
      if s.jobs[j].own.Some? { NotedNotInHand(s, s.jobs - {j}, Gone({s.jobs[j].own.value}), raw); }
    case Unlist(_, id) =>
      UnlistIs(s, j, id);
      NotedNotInHand(s, s.jobs[j := s.jobs[j].(todo := s.jobs[j].todo - {id})], Gone({id}), raw);
    case Remove(_, key) =>
      LooseIs(s, step);
      NotedNotInHand(s, s.jobs, Gone({key}), raw);
    case Rewrite(_) =>
      RewriteIs(s, j);
      NotedNotInHand(s, s.jobs - {j}, Rewritten(s.jobs[j].call), raw);
  }

  lemma CallKeepsNotInHand(s: State, step: Step, raw: string)
    requires NotInHand(s, raw) && Enabled(s, step)
    requires step.Look? || step.Claim? || step.Debit?
    requires step.Claim? ==> step.raw != raw
    ensures NotInHand(Next(s, step), raw)
  {
    hide SanitizeCallID, PopPending, ChargeOf, DebitFrom, DoLook;
    match step
    case Look(j, cfg, req) => LookShape(s, j, cfg, req);
    case Claim(_, _, _, _, _, _) => PoppedJobs(s, SanitizeCallID(step.raw));
    case _ =>
  }

  lemma ListKeepsNotInHand(s: State, step: Step, raw: string, ids: iset<string>)
    requires Inv(s, ids) && NotInHand(s, raw) && '@' in raw && Enabled(s, step)
    requires step.Scan? || step.Range? || step.Fetch? || step.Drop? || step.Mark? || step.Reread? || step.Book?
    ensures NotInHand(Next(s, step), raw)
  {
    hide SanitizeCallID, SweptBy, Evicted, Missing, JobFits, Indexed;
    if step.Fetch? {
      StepKeepsInv(s, step, ids);
      SweptHaveNoHost(Next(s, step), step.j, raw, ids);
    }
  }

  lemma PoppedJobs(s: State, key: string)
    ensures PopPending(s, key).0.jobs == s.jobs
  {
  }

  lemma SweptHaveNoHost(s: State, j: int, raw: string, ids: iset<string>)
    requires Inv(s, ids) && '@' in raw && j in s.jobs && s.jobs[j].Sweeping?
    ensures raw !in s.jobs[j].evicted
  {
    assert JobFits(s, s.jobs[j], ids);
    if raw in s.jobs[j].evicted {
      KeysHaveNoHost(raw, ids);
    }
  }

  lemma StepKeepsNotInHand(s: State, step: Step, raw: string, ids: iset<string>)
    requires Inv(s, ids) && NotInHand(s, raw) && '@' in raw
    requires step.Claim? ==> step.raw != raw
    ensures NotInHand(Next(s, step), raw)
  {
    hide Inv, NotInHand;
    if Enabled(s, step) {
      if step.Take? {
        TakeKeepsNotInHand(s, step.j, raw);
      } else if step.Enter? || step.Page? || step.Leave? || step.Unlist? || step.Remove? || step.Rewrite? {
        TellingKeepsNotInHand(s, step, raw);
      } else if step.Look? || step.Claim? || step.Debit? {
        CallKeepsNotInHand(s, step, raw);
      } else {
        ListKeepsNotInHand(s, step, raw, ids);
      }
    }
  }

  lemma StepKeepsSlot(s: State, step: Step, raw: string, key: SetKey)
    requires NotInHand(s, raw) && raw in Members(s.sets, key)
    ensures raw in Members(Next(s, step).sets, key)
  {
    hide Members, DoTake, Reserve, ReleaseFrom;
    if Enabled(s, step) && step.Take? {
      var a := s.jobs[step.j];
      TakeSets(s, step.j, a.req, a.line, a.order, a.cap, a.credit);
      ReserveMembers(s.sets, a.order.user, a.line.did, a.req.callId, a.cap, a.order.channelCount);
    } else if Enabled(s, step) && step.Page? {
      ReleaseMembers(s.sets, s.jobs[step.j].ids, step.keys, key);
    } else {
      OthersKeepSets(s, step);
    }
  }

  /** Over every interleaving, a reservation whose Call-ID has a host part survives until its own `/cdr`: no
      reconciler tick, cleanup, admin action or listing releases it. */
  lemma {:induction false} HostIdsKeepTheirSlot(s: State, steps: seq<Step>, raw: string, key: SetKey, ids: iset<string>)
    requires Inv(s, ids) && PresentsOnly(steps, ids) && NotInHand(s, raw)
    requires '@' in raw && raw in Members(s.sets, key)
    requires forall i :: 0 <= i < |steps| ==> steps[i].Claim? ==> steps[i].raw != raw
    ensures raw in Members(Exec(s, steps).sets, key)
    decreases |steps|
  {
    hide Inv, Next, NotInHand, Members;
    if steps != [] {
      StepKeepsInv(s, steps[0], ids);
      StepKeepsNotInHand(s, steps[0], raw, ids);
      StepKeepsSlot(s, steps[0], raw, key);
      HostIdsKeepTheirSlot(Next(s, steps[0]), steps[1..], raw, key, ids);
    }
  }
}
