/** Small vocabulary shared by the modules: optional values, statuses, finite sums. */
module Basics {

  datatype Option<+T> = None | Some(value: T)

  datatype DidStatus = Available | Assigned | Reserved | Retired

  datatype OrderStatus = Active | KycPending | Quarantined | Suspended | Cancelled

  function AsSet<T>(xs: seq<T>): set<T> {
    set x | x in xs
  }

  /** The sum of `m` over a finite set of its keys. */
  ghost function Sum<K>(m: map<K, int>, ids: set<K>): int
    requires ids <= m.Keys
    decreases |ids|
  {
    if ids == {} then 0
    else
      var x :| x in ids;
      m[x] + Sum(m, ids - {x})
  }

  lemma {:induction false} SumRemove<K>(m: map<K, int>, ids: set<K>, x: K)
    requires ids <= m.Keys && x in ids
    ensures Sum(m, ids) == m[x] + Sum(m, ids - {x})
    decreases |ids|
  {
    var y :| y in ids && Sum(m, ids) == m[y] + Sum(m, ids - {y});
    if y != x {
      SumRemove(m, ids - {y}, x);
      SumRemove(m, ids - {x}, y);
      assert ids - {y} - {x} == ids - {x} - {y};
    }
  }

  lemma {:induction false} SumBounds<K>(m: map<K, int>, ids: set<K>, top: int)
    requires ids <= m.Keys
    requires forall x :: x in ids ==> 0 <= m[x] <= top
    ensures 0 <= Sum(m, ids) <= |ids| * top
    decreases |ids|
  {
    if ids != {} {
      var x :| x in ids;
      SumRemove(m, ids, x);
      SumBounds(m, ids - {x}, top);
      assert |ids| * top == (|ids| - 1) * top + top;
    }
  }

  lemma {:induction false} SumAgrees<K>(m: map<K, int>, n: map<K, int>, ids: set<K>)
    requires ids <= m.Keys && ids <= n.Keys
    requires forall x :: x in ids ==> m[x] == n[x]
    ensures Sum(m, ids) == Sum(n, ids)
    decreases |ids|
  {
    if ids != {} {
      var x :| x in ids;
      SumRemove(m, ids, x);
      SumRemove(n, ids, x);
      SumAgrees(m, n, ids - {x});
    }
  }

  lemma MulMono(a: int, b: int, c: int)
    requires a <= b && 0 <= c
    ensures a * c <= b * c && c * a <= c * b
  {
    assert b * c - a * c == (b - a) * c;
  }

  lemma SomeMember<T>(s: set<T>) returns (x: T)
    requires s != {}
    ensures x in s
  {
    x :| x in s;
  }

  lemma SubsetSize<T>(a: set<T>, b: set<T>)
    requires a <= b
    ensures |a| <= |b|
  {
    if a != {} {
      var x :| x in a;
      SubsetSize(a - {x}, b - {x});
    }
  }
}
