/** Dial prefixes: the table is sorted once, longest prefix first, and matched by the first hit. */
module Prefixes {
  import opened Basics

  datatype CountryPrefix = CountryPrefix(prefix: string, iso: string)

  predicate LexLess(a: string, b: string) {
    if b == "" then false
    else if a == "" then true
    else if a[0] != b[0] then a[0] < b[0]
    else LexLess(a[1..], b[1..])
  }

  /** The sort order: longer prefixes first, then byte order. */
  predicate Precedes(p: CountryPrefix, q: CountryPrefix) {
    if |p.prefix| != |q.prefix| then |p.prefix| > |q.prefix| else LexLess(p.prefix, q.prefix)
  }

  /** What the sort guarantees; entries with one prefix may come in any order. */
  predicate Sorted(order: seq<CountryPrefix>) {
    forall i, j :: 0 <= i < j < |order| ==> !Precedes(order[j], order[i])
  }

  predicate SortOf(order: seq<CountryPrefix>, table: seq<CountryPrefix>) {
    Sorted(order) && multiset(order) == multiset(table)
  }

  predicate Matches(p: CountryPrefix, number: string) {
    p.prefix <= number
  }

  function TrimPlus(s: string): string {
    if s != "" && s[0] == '+' then s[1..] else s
  }

  /** The first entry in walking order that matches. */
  function FirstHit(order: seq<CountryPrefix>, number: string): Option<string> {
    if order == [] then None
    else if Matches(order[0], number) then Some(order[0].iso)
    else FirstHit(order[1..], number)
  }

  method MatchCountry(order: seq<CountryPrefix>, e164: string) returns (iso: Option<string>)
    ensures iso == FirstHit(order, TrimPlus(e164))
  {
    var number := TrimPlus(e164);
    var i := 0;
    while i < |order|
      invariant 0 <= i <= |order|
      invariant FirstHit(order, number) == FirstHit(order[i..], number)
    {
      if order[i].prefix <= number {
        return Some(order[i].iso);
      }
      i := i + 1;
    }
    return None;
  }

  // ---------- longest match ----------

  /** `p` is a longest entry of the table that matches. */
  ghost predicate Longest(table: seq<CountryPrefix>, number: string, p: CountryPrefix) {
    p in table && Matches(p, number) && forall q :: q in table && Matches(q, number) ==> |q.prefix| <= |p.prefix|
  }

  lemma {:induction false} FirstHitAt(order: seq<CountryPrefix>, number: string) returns (k: nat)
    ensures FirstHit(order, number).None? ==> forall p :: p in order ==> !Matches(p, number)
    ensures FirstHit(order, number).Some? ==>
              && k < |order| && Matches(order[k], number) && FirstHit(order, number).value == order[k].iso
              && (forall i :: 0 <= i < k ==> !Matches(order[i], number))
  {
    k := 0;
    if order != [] && !Matches(order[0], number) {
      var m := FirstHitAt(order[1..], number);
      assert forall p :: p in order <==> p == order[0] || p in order[1..];
      k := m + 1;
    }
  }

  lemma SamePrefix(p: CountryPrefix, q: CountryPrefix, number: string)
    requires Matches(p, number) && Matches(q, number) && |p.prefix| == |q.prefix|
    ensures p.prefix == q.prefix
  {
    assert p.prefix == number[..|p.prefix|];
  }

  /** The match is the country of a longest matching entry; it fails exactly when nothing matches. */
  lemma MatchIsLongestPrefix(table: seq<CountryPrefix>, order: seq<CountryPrefix>, number: string)
    requires SortOf(order, table)
    ensures FirstHit(order, number).None? <==> forall p :: p in table ==> !Matches(p, number)
    ensures FirstHit(order, number).Some? ==>
        exists p :: Longest(table, number, p) && p.iso == FirstHit(order, number).value
  {
    var k := FirstHitAt(order, number);
    SameMembers(order, table);
    if FirstHit(order, number).Some? {
      var p := order[k];
      assert p in order;
      forall q | q in order && Matches(q, number) ensures |q.prefix| <= |p.prefix| {
        var j :| 0 <= j < |order| && order[j] == q;
        if k < j {
          assert !Precedes(order[j], order[k]);
        }
      }
      assert Longest(table, number, p);
    }
  }

  lemma SameMembers(a: seq<CountryPrefix>, b: seq<CountryPrefix>)
    requires multiset(a) == multiset(b)
    ensures forall p :: p in a <==> p in b
  {
    forall p ensures p in a <==> p in b {
      assert p in a <==> p in multiset(a);
      assert p in b <==> p in multiset(b);
    }
  }

  // ---------- the table's own order ----------

  /** Entries that share a prefix name the same country. */
  ghost predicate Consistent(table: seq<CountryPrefix>) {
    forall p, q :: p in table && q in table && p.prefix == q.prefix ==> p.iso == q.iso
  }

  /** However the table is written and however ties are sorted, a consistent table gives one answer. */
  lemma OrderDoesNotMatter(table: seq<CountryPrefix>, order1: seq<CountryPrefix>, order2: seq<CountryPrefix>,
                           number: string)
    requires Consistent(table) && SortOf(order1, table) && SortOf(order2, table)
    ensures FirstHit(order1, number) == FirstHit(order2, number)
  {
    MatchIsLongestPrefix(table, order1, number);
    MatchIsLongestPrefix(table, order2, number);
    if FirstHit(order1, number).Some? {
      var p :| Longest(table, number, p) && p.iso == FirstHit(order1, number).value;
      if FirstHit(order2, number).Some? {
        var q :| Longest(table, number, q) && q.iso == FirstHit(order2, number).value;
        SamePrefix(p, q, number);
      }
    }
  }

  /** With a clash the answer does depend on how ties fall: another valid sort answers differently. */
  lemma ClashMakesOrderMatter(order: seq<CountryPrefix>, i: nat, j: nat) returns (other: seq<CountryPrefix>)
    requires Sorted(order) && i < j < |order| && order[i].prefix == order[j].prefix && order[i].iso != order[j].iso
    ensures SortOf(other, order) && FirstHit(other, order[i].prefix) != FirstHit(order, order[i].prefix)
  {
    var number := order[i].prefix;
    var k := FirstHitAt(order, number);
    assert order[i] in order && Matches(order[i], number);
    var m := if order[i].iso != order[k].iso then i else j;
    assert k <= i;
    if k < m {
      assert !Precedes(order[m], order[k]);
    }
    assert order[k].prefix == number[..|order[k].prefix|] == number;
    other := order[k := order[m]][m := order[k]];
    SwapTies(order, k, m);
    hide Precedes, LexLess;
    var l := FirstHitAt(other, number);
    assert other[k] in other && Matches(other[k], number);
    assert other[l].prefix == order[l].prefix;
  }

  lemma SwapTies(order: seq<CountryPrefix>, k: nat, m: nat)
    requires Sorted(order) && k < |order| && m < |order| && order[k].prefix == order[m].prefix
    ensures SortOf(order[k := order[m]][m := order[k]], order)
  {
    hide LexLess;
    var other := order[k := order[m]][m := order[k]];
    forall a, b | 0 <= a < b < |other| ensures !Precedes(other[b], other[a]) {
      assert other[a].prefix == order[a].prefix && other[b].prefix == order[b].prefix;
      assert !Precedes(order[b], order[a]);
    }
  }

  // ---------- the sort itself ----------

  lemma {:induction false} LexTotal(a: string, b: string)
    ensures a == b || LexLess(a, b) || LexLess(b, a)
    ensures !(LexLess(a, b) && LexLess(b, a)) && !LexLess(a, a)
  {
    if a != "" && b != "" {
      assert a == [a[0]] + a[1..] && b == [b[0]] + b[1..];
      LexTotal(a[1..], b[1..]);
      LexTotal(a[1..], a[1..]);
    } else if a != "" {
      LexTotal(a[1..], a[1..]);
    }
  }

  lemma PrecedesTotal(p: CountryPrefix, q: CountryPrefix)
    ensures p.prefix == q.prefix || Precedes(p, q) || Precedes(q, p)
    ensures !(Precedes(p, q) && Precedes(q, p))
  {
    LexTotal(p.prefix, q.prefix);
  }

  ghost predicate Distinct(table: seq<CountryPrefix>) {
    forall i, j :: 0 <= i < j < |table| ==> table[i].prefix != table[j].prefix
  }

  lemma SameHead(a: seq<CountryPrefix>, b: seq<CountryPrefix>)
    requires Distinct(b) && Sorted(a) && Sorted(b) && a != [] && b != []
    requires forall p :: p in a <==> p in b
    ensures a[0] == b[0]
  {
    hide Precedes;
    assert a[0] in a && b[0] in b;
    var i :| 0 <= i < |b| && b[i] == a[0];
    var j :| 0 <= j < |a| && a[j] == b[0];
    PrecedesTotal(b[i], b[0]);
    assert i > 0 ==> !Precedes(b[i], b[0]);
    assert j > 0 ==> !Precedes(a[j], a[0]);
  }

  lemma TailOf(a: seq<CountryPrefix>)
    requires a != []
    ensures multiset(a[1..]) == multiset(a) - multiset{a[0]}
  {
    assert a == [a[0]] + a[1..];
  }

  /** With distinct prefixes there is one sorted order, although the sort is not stable. */
  lemma {:induction false} SortIsUnique(a: seq<CountryPrefix>, b: seq<CountryPrefix>)
    requires Distinct(a) && Distinct(b) && Sorted(a) && SortOf(b, a)
    ensures a == b
  {
    hide Precedes;
    assert |multiset(a)| == |a| && |multiset(b)| == |b|;
    if a != [] {
      SameMembers(a, b);
      SameHead(a, b);
      TailOf(a);
      TailOf(b);
      SortIsUnique(a[1..], b[1..]);
      assert a == [a[0]] + a[1..] && b == [b[0]] + b[1..];
    }
  }

  // ---------- the comparison is a strict weak order, so every table can be sorted ----------

  lemma {:induction false} LexWeak(a: string, b: string, c: string)
    requires !LexLess(b, a) && !LexLess(c, b)
    ensures !LexLess(c, a)
  {
    if a != "" && b != "" && c != "" && a[0] == b[0] == c[0] {
      LexWeak(a[1..], b[1..], c[1..]);
    }
  }

  lemma PrecedesWeak(p: CountryPrefix, q: CountryPrefix, r: CountryPrefix)
    requires !Precedes(q, p) && !Precedes(r, q)
    ensures !Precedes(r, p)
  {
    if |p.prefix| == |q.prefix| == |r.prefix| {
      LexWeak(p.prefix, q.prefix, r.prefix);
    }
  }

  lemma {:induction false} Inserted(order: seq<CountryPrefix>, p: CountryPrefix) returns (more: seq<CountryPrefix>)
    requires Sorted(order)
    ensures SortOf(more, order + [p])
  {
    hide Precedes;
    if order == [] || !Precedes(p, order[|order| - 1]) {
      more := order + [p];
      forall i | 0 <= i < |order| ensures !Precedes(p, order[i]) {
        if i < |order| - 1 {
          PrecedesWeak(order[i], order[|order| - 1], p);
        }
      }
    } else {
      var last := order[|order| - 1];
      var head := order[..|order| - 1];
      assert order == head + [last];
      var front := Inserted(head, p);
      more := front + [last];
      SameMembers(front, head + [p]);
      PrecedesTotal(p, last);
      forall i | 0 <= i < |front| ensures !Precedes(last, front[i]) {
        assert front[i] in front;
        if front[i] != p {
          assert front[i] in head;
          var j :| 0 <= j < |head| && head[j] == front[i];
          assert order[j] == head[j];
        }
      }
    }
  }

  lemma {:induction false} EveryTableSorts(table: seq<CountryPrefix>) returns (order: seq<CountryPrefix>)
    ensures SortOf(order, table)
  {
    if table == [] {
      order := [];
    } else {
      var n := |table| - 1;
      var before := EveryTableSorts(table[..n]);
      order := Inserted(before, table[n]);
      assert table == table[..n] + [table[n]];
    }
  }
}
