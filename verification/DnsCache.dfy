/** The supplier hostname cache: every DNS answer is merged into the hostname's address set, and an
    address is dropped once it has gone unseen for a day. The cache is compared with the log of the
    queries merged into it, for every interleaving of overlapping refreshes. */
module DnsCache {
  import opened Basics

  /** Times are nanoseconds. */
  const SECOND := 1_000_000_000
  const REFRESH_TTL := 60 * SECOND
  const ENTRY_TTL := 24 * 3600 * SECOND

  datatype Entry = Entry(ips: map<string, int>, lastQueried: int)

  type Cache = map<string, Entry>

  /** One merged query: started at `at`, when `seen` earlier queries had been merged; `answer` is
      None when the lookup failed. */
  datatype Query = Query(host: string, at: int, seen: nat, answer: Option<seq<string>>)

  // ---------- the cache as a function of the log ----------

  function Pruned(ips: map<string, int>, now: int): map<string, int> {
    map ip | ip in ips && now - ips[ip] <= ENTRY_TTL :: ips[ip]
  }

  function Stamped(ips: map<string, int>, addrs: seq<string>, now: int): map<string, int> {
    map ip | ip in ips.Keys + (set a | a in addrs) :: if ip in addrs then now else ips[ip]
  }

  function Known(c: Cache, host: string): map<string, int> {
    if host in c then c[host].ips else map[]
  }

  function Merged(c: Cache, host: string, now: int, answer: Option<seq<string>>): Cache {
    var ips := if answer.Some? then Stamped(Known(c, host), answer.value, now) else Known(c, host);
    c[host := Entry(Pruned(ips, now), now)]
  }

  function Replay(log: seq<Query>): Cache {
    if log == [] then map[]
    else
      var q := log[|log| - 1];
      Merged(Replay(log[..|log| - 1]), q.host, q.at, q.answer)
  }

  function Answering(ips: map<string, int>, now: int): set<string> {
    set ip | ip in ips && now - ips[ip] <= ENTRY_TTL
  }

  predicate Hit(c: Cache, host: string, now: int) {
    host in c && now - c[host].lastQueried < REFRESH_TTL
  }

  /** Every query was made because the cache it looked at had no recent entry. */
  ghost predicate Honest(log: seq<Query>) {
    forall j :: 0 <= j < |log| ==> log[j].seen <= j && !Hit(Replay(log[..log[j].seen]), log[j].host, log[j].at)
  }

  // ---------- the cache as it runs ----------

  class HostCache {
    var cache: Cache
    ghost var log: seq<Query>

    ghost predicate Valid()
      reads this
    {
      cache == Replay(log) && Honest(log)
    }

    constructor ()
      ensures Valid() && log == []
    {
      cache, log := map[], [];
    }

    /** The read path. */
    method Lookup(host: string, now: int) returns (hit: Option<set<string>>)
      requires Valid()
      ensures hit == if Hit(Replay(log), host, now) then Some(Answering(Known(Replay(log), host), now)) else None
    {
      if host in cache && now - cache[host].lastQueried < REFRESH_TTL {
        var out := Snapshot(cache[host].ips, now);
        return Some(out);
      }
      return None;
    }

    /** The write path of a refresh that began at `now`, possibly with other refreshes merged since. */
    method Merge(host: string, now: int, answer: Option<seq<string>>, ghost seen: nat) returns (out: set<string>)
      requires Valid() && seen <= |log| && !Hit(Replay(log[..seen]), host, now)
      modifies this
      ensures Valid() && log == old(log) + [Query(host, now, seen, answer)]
      ensures out == Answering(Known(Replay(log), host), now)
    {
      hide Pruned, Stamped, Answering, Hit, Replay, Honest;
      var ips := if host in cache then cache[host].ips else map[];
      if answer.Some? {
        ips := Stamp(ips, answer.value, now);
      }
      ips := Prune(ips, now);
      cache := cache[host := Entry(ips, now)];
      AppendHonest(log, Query(host, now, seen, answer));
      ReplayAppend(log, Query(host, now, seen, answer));
      log := log + [Query(host, now, seen, answer)];
      out := Snapshot(ips, now);
    }

    /** A call that no other call overlaps. */
    method Resolve(host: string, now: int, answer: Option<seq<string>>) returns (out: set<string>)
      requires Valid()
      modifies this
      ensures Valid()
      ensures log == if Hit(old(Replay(log)), host, now) then old(log)
          else old(log) + [Query(host, now, |old(log)|, answer)]
      ensures out == Answering(Known(Replay(log), host), now)
    {
      var hit := Lookup(host, now);
      if hit.Some? { return hit.value; }
      assert log[..|log|] == log;
      out := Merge(host, now, answer, |log|);
    }
  }

  method Stamp(ips0: map<string, int>, addrs: seq<string>, now: int) returns (ips: map<string, int>)
    ensures ips == Stamped(ips0, addrs, now)
  {
    ips := ips0;
    var i := 0;
    while i < |addrs|
      invariant 0 <= i <= |addrs|
      invariant ips == Stamped(ips0, addrs[..i], now)
    {
      ips := ips[addrs[i] := now];
      assert forall a :: a in addrs[..i + 1] <==> a in addrs[..i] || a == addrs[i];
      i := i + 1;
    }
    assert addrs[..|addrs|] == addrs;
  }

  method Prune(ips0: map<string, int>, now: int) returns (ips: map<string, int>)
    ensures ips == Pruned(ips0, now)
  {
    ips := ips0;
    var rest := ips0.Keys;
    while rest != {}
      invariant rest <= ips0.Keys
      invariant ips == map ip | ip in ips0 && (ip in rest || now - ips0[ip] <= ENTRY_TTL) :: ips0[ip]
      decreases rest
    {
      var s :| s in rest;
      if now - ips0[s] > ENTRY_TTL {
        ips := ips - {s};
      }
      rest := rest - {s};
    }
  }

  method Snapshot(ips: map<string, int>, now: int) returns (out: set<string>)
    ensures out == Answering(ips, now)
  {
    out := {};
    var rest := ips.Keys;
    while rest != {}
      invariant rest <= ips.Keys
      invariant out == set ip | ip in ips && ip !in rest && now - ips[ip] <= ENTRY_TTL
      decreases rest
    {
      var s :| s in rest;
      if now - ips[s] <= ENTRY_TTL {
        out := out + {s};
      }
      rest := rest - {s};
    }
  }

  lemma ReplayAppend(log: seq<Query>, q: Query)
    ensures Replay(log + [q]) == Merged(Replay(log), q.host, q.at, q.answer)
  {
    assert (log + [q])[..|log|] == log;
  }

  lemma AppendHonest(log: seq<Query>, q: Query)
    requires Honest(log) && q.seen <= |log| && !Hit(Replay(log[..q.seen]), q.host, q.at)
    ensures Honest(log + [q])
  {
    hide Hit, Replay;
    var more := log + [q];
    assert more[..q.seen] == log[..q.seen];
    forall j | 0 <= j < |log| ensures log[j].seen <= j && more[..log[j].seen] == log[..log[j].seen] {
    }
  }

  // ---------- what is recorded ----------

  predicate Observes(q: Query, host: string, ip: string) {
    q.host == host && q.answer.Some? && ip in q.answer.value
  }

  /** Query `i` is the last one to observe the address, and no merge since found it too old. */
  ghost predicate Survives(log: seq<Query>, host: string, ip: string, i: int) {
    && 0 <= i < |log| && Observes(log[i], host, ip)
    && (forall j :: i < j < |log| ==> !Observes(log[j], host, ip))
    && (forall j :: i < j < |log| && log[j].host == host ==> log[j].at - log[i].at <= DAY)
  }

  lemma SurvivesOneMore(log: seq<Query>, q: Query, host: string, ip: string, i: int)
    ensures Survives(log + [q], host, ip, i) <==>
              (|| (i == |log| && Observes(q, host, ip))
               || (Survives(log, host, ip, i) && !Observes(q, host, ip)
                   && (q.host == host ==> q.at - log[i].at <= ENTRY_TTL)))
  {
    hide Observes;
    var more := log + [q];
    assert more[|log|] == q;
    if 0 <= i < |log| {
      assert more[i] == log[i];
      if Survives(more, host, ip, i) {
        forall j | i < j < |log|
          ensures !Observes(log[j], host, ip) && (log[j].host == host ==> log[j].at - log[i].at <= ENTRY_TTL)
        {
          assert more[j] == log[j];
        }
      }
    }
  }

  /** What one more merge does to a recorded address. */
  lemma KnownOneMore(log: seq<Query>, q: Query, host: string, ip: string)
    ensures var before, after := Known(Replay(log), host), Known(Replay(log + [q]), host);
      && (q.host != host ==> after == before)
      && (q.host == host && Observes(q, host, ip) ==> ip in after && after[ip] == q.at)
      && (q.host == host && !Observes(q, host, ip) ==>
            (ip in after <==> ip in before && q.at - before[ip] <= ENTRY_TTL)
                && (ip in after ==> after[ip] == before[ip]))
  {
    hide Replay;
    ReplayAppend(log, q);
  }

  /** For every interleaving: an address is recorded exactly when its last observation survives, and
      then under that observation's start time. */
  lemma {:induction false} RecordedIff(log: seq<Query>, host: string, ip: string)
    ensures ip in Known(Replay(log), host) <==> exists i :: Survives(log, host, ip, i)
    ensures forall i :: Survives(log, host, ip, i) ==>
        ip in Known(Replay(log), host) && Known(Replay(log), host)[ip] == log[i].at
  {
    if log == [] {
      NothingRecorded(host, ip);
    } else {
      hide Survives, Replay, Known, Observes;
      var n := |log| - 1;
      var before, q := log[..n], log[n];
      assert log == before + [q];
      RecordedIff(before, host, ip);
      KnownOneMore(before, q, host, ip);
      forall i ensures Survives(log, host, ip, i) <==>
                         (|| (i == n && Observes(q, host, ip))
                          || (Survives(before, host, ip, i) && !Observes(q, host, ip)
                              && (q.host == host ==> q.at - before[i].at <= ENTRY_TTL))) {
        SurvivesOneMore(before, q, host, ip, i);
        SurvivorsInside(before, host, ip, i);
      }
      ObservesItsHost(q, host, ip);
      if Observes(q, host, ip) {
        assert Survives(log, host, ip, n);
      } else if i :| Survives(before, host, ip, i) {
        SurvivorsInside(before, host, ip, i);
        assert Survives(log, host, ip, i) <==> (q.host == host ==> q.at - before[i].at <= ENTRY_TTL);
      }
      forall i | Survives(log, host, ip, i)
        ensures ip in Known(Replay(log), host) && Known(Replay(log), host)[ip] == log[i].at
      {
        SurvivorsInside(before, host, ip, i);
      }
    }
  }

  lemma NothingRecorded(host: string, ip: string)
    ensures ip !in Known(Replay([]), host) && forall i :: !Survives([], host, ip, i)
  {
  }

  lemma SurvivorsInside(log: seq<Query>, host: string, ip: string, i: int)
    ensures Survives(log, host, ip, i) ==> 0 <= i < |log|
  {
  }

  lemma ObservesItsHost(q: Query, host: string, ip: string)
    ensures Observes(q, host, ip) ==> q.host == host
  {
  }

  // ---------- exactness ----------

  /** In nanoseconds. */
  const MINUTE: int := 60_000_000_000
  const DAY: int := 86_400_000_000_000

  ghost predicate SeenWithin(log: seq<Query>, host: string, ip: string, now: int, window: int) {
    exists i :: 0 <= i < |log| && Observes(log[i], host, ip) && now - log[i].at <= window
  }

  /** A refresh takes at most `d`, so it is merged at most `d` late. */
  ghost predicate Skew(log: seq<Query>, host: string, d: int) {
    forall i, j :: 0 <= i < j < |log| && log[i].host == host && log[j].host == host ==> log[j].at >= log[i].at - d
  }

  lemma {:induction false} LastObservation(log: seq<Query>, host: string, ip: string, i: int) returns (k: int)
    requires 0 <= i < |log| && Observes(log[i], host, ip)
    ensures i <= k < |log| && Observes(log[k], host, ip) && forall j :: k < j < |log| ==> !Observes(log[j], host, ip)
    decreases |log| - i
  {
    if j :| i < j < |log| && Observes(log[j], host, ip) {
      k := LastObservation(log, host, ip, j);
    } else {
      k := i;
    }
  }

  /** With refreshes that may overlap for up to `d`: what is answered was seen within the day, and
      what was seen within the day less twice the overlap is answered. */
  lemma AnswersTrackObservations(log: seq<Query>, host: string, ip: string, now: int, d: nat)
    requires Skew(log, host, d)
    requires forall j :: 0 <= j < |log| && log[j].host == host ==> log[j].at <= now + d
    ensures ip in Answering(Known(Replay(log), host), now) ==> SeenWithin(log, host, ip, now, DAY)
    ensures SeenWithin(log, host, ip, now, DAY - 2 * d) ==> ip in Answering(Known(Replay(log), host), now)
  {
    hide Replay, Known;
    RecordedIff(log, host, ip);
    if SeenWithin(log, host, ip, now, ENTRY_TTL - 2 * d) {
      var i :| 0 <= i < |log| && Observes(log[i], host, ip) && now - log[i].at <= ENTRY_TTL - 2 * d;
      var k := LastObservation(log, host, ip, i);
      assert log[k].at >= log[i].at - d;
      assert Survives(log, host, ip, k);
    }
  }

  /** Calls one at a time, at times that do not run backwards: exactly the addresses seen in some
      successful query of the last day, whatever was pruned on the way. */
  lemma SerialAnswersAreExact(log: seq<Query>, host: string, ip: string, now: int)
    requires Skew(log, host, 0)
    requires forall j :: 0 <= j < |log| && log[j].host == host ==> log[j].at <= now
    ensures ip in Answering(Known(Replay(log), host), now) <==> SeenWithin(log, host, ip, now, DAY)
  {
    AnswersTrackObservations(log, host, ip, now, 0);
  }

  /** Overlap does cost exactness: of two overlapping refreshes the one that began first can be merged
      last and set the address's time back. */
  lemma OverlapLosesAnAddress()
    ensures var log := [Query("sip.example.net", 10, 0, Some(["192.0.2.1"])),
                        Query("sip.example.net", 0, 0, Some(["192.0.2.1"]))];
      && Honest(log)
      && SeenWithin(log, "sip.example.net", "192.0.2.1", DAY + 5, DAY)
      && "192.0.2.1" !in Answering(Known(Replay(log), "sip.example.net"), DAY + 5)
  {
    var host, ip := "sip.example.net", "192.0.2.1";
    var log := [Query(host, 10, 0, Some([ip])), Query(host, 0, 0, Some([ip]))];
    assert Observes(log[0], host, ip) && Observes(log[1], host, ip);
    assert Survives(log, host, ip, 1);
    RecordedIff(log, host, ip);
    assert Replay(log[..0]) == map[];
    assert SeenWithin(log, host, ip, ENTRY_TTL + 5, ENTRY_TTL);
  }

  // ---------- how often DNS is asked ----------

  /** The last merge of a hostname sets the time its next refresh is measured from. */
  lemma {:induction false} LastMerge(log: seq<Query>, host: string) returns (k: int)
    ensures host in Replay(log) <==> exists i :: 0 <= i < |log| && log[i].host == host
    ensures host in Replay(log) ==>
              0 <= k < |log| && log[k].host == host && Replay(log)[host].lastQueried == log[k].at
              && forall j :: k < j < |log| ==> log[j].host != host
  {
    k := -1;
    if log != [] {
      var n := |log| - 1;
      var before := log[..n];
      k := LastMerge(before, host);
      if log[n].host == host {
        k := n;
      } else {
        assert forall i :: 0 <= i < n ==> before[i] == log[i];
      }
    }
  }

  /** A query that starts after another one was merged starts at least a minute (less the overlap)
      after it. With serial calls this is a full minute between any two queries of a hostname. */
  lemma QueriesAreSpaced(log: seq<Query>, host: string, i: int, j: int, d: nat)
    requires Honest(log) && Skew(log, host, d)
    requires 0 <= i < |log| && 0 <= j < |log| && log[i].host == host && log[j].host == host
    requires i < log[j].seen
    ensures log[j].at - log[i].at >= MINUTE - d
  {
    hide Replay;
    var past := log[..log[j].seen];
    var k := LastMerge(past, host);
    assert past[i] == log[i];
    assert host in Replay(past);
    assert past[k] == log[k];
    assert i <= k;
  }

  /** When the cache lets a query through: no merge of the hostname before it looked, or the last one a minute old. */
  lemma QueryMayStartIff(log: seq<Query>, host: string, at: int)
    ensures !Hit(Replay(log), host, at) <==>
              forall k :: 0 <= k < |log| && log[k].host == host && (forall j :: k < j < |log| ==> log[j].host != host)
                ==> at - log[k].at >= MINUTE
  {
    hide Replay;
    var k := LastMerge(log, host);
  }

  /** One query of a hostname at `i`, another one at `j` that started `gap` later and had seen `seen` merges. */
  function CloseQueries(host: string, i: nat, j: nat, seen: nat, gap: int): seq<Query> {
    seq(j + 1, m => if m == j then Query(host, gap, seen, None)
        else Query(if m == i then host else host + "x", 0, 0, None))
  }

  predicate AreClose(log: seq<Query>, host: string, i: nat, j: nat, seen: nat, gap: int) {
    i < j < |log| && log[i].host == log[j].host == host && log[j].seen == seen && log[j].at - log[i].at == gap
  }

  /** Two queries of one hostname can start less than a minute apart, together even, exactly when the later one had not
      seen the earlier one merged: the spacing cannot be had for queries that overlap. */
  lemma CloseQueriesIff(host: string, i: nat, j: nat, seen: nat, gap: int)
    requires i < j && seen <= j && 0 <= gap < MINUTE
    ensures (exists log: seq<Query> :: Honest(log) && Skew(log, host, 0) && AreClose(log, host, i, j, seen, gap)) <==>
        seen <= i
  {
    if log: seq<Query> :| Honest(log) && Skew(log, host, 0) && AreClose(log, host, i, j, seen, gap) && i < seen {
      QueriesAreSpaced(log, host, i, j, 0);
    }
    if seen <= i {
      CloseIsHonest(host, i, j, seen, gap);
      assert AreClose(CloseQueries(host, i, j, seen, gap), host, i, j, seen, gap);
    }
  }

  lemma CloseIsHonest(host: string, i: nat, j: nat, seen: nat, gap: int)
    requires i < j && seen <= i && 0 <= gap
    ensures var log := CloseQueries(host, i, j, seen, gap); Honest(log) && Skew(log, host, 0)
  {
    hide Replay;
    var log := CloseQueries(host, i, j, seen, gap);
    assert host + "x" != host by { assert |host + "x"| == |host| + 1; }
    forall m | 0 <= m < |log| ensures log[m].seen <= m && !Hit(Replay(log[..log[m].seen]), log[m].host, log[m].at) {
      var past := log[..log[m].seen];
      var k := LastMerge(past, log[m].host);
      forall p | 0 <= p < |past| ensures past[p].host != log[m].host {
        assert past[p] == log[p];
      }
    }
  }

  lemma SerialQueriesAreSpaced(log: seq<Query>, host: string, i: int, j: int)
    requires Honest(log) && Skew(log, host, 0)
    requires forall m :: 0 <= m < |log| ==> log[m].seen == m
    requires 0 <= i < j < |log| && log[i].host == host && log[j].host == host
    ensures log[j].at - log[i].at >= MINUTE
  {
    QueriesAreSpaced(log, host, i, j, 0);
  }
}
