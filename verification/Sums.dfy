/** Sums over the values of a finite map. */
module Sums {

  lemma HasMember(ids: set<int>)
    ensures ids == {} || exists k :: k in ids
  {
    if forall k :: k !in ids { assert ids == {}; }
  }

  ghost function SumOver(ids: set<int>, m: map<int, int>): int
    requires ids <= m.Keys
  {
    if ids == {} then 0
    else
      HasMember(ids);
      var k :| k in ids;
      m[k] + SumOver(ids - {k}, m)
  }

  ghost function Sum(m: map<int, int>): int { SumOver(m.Keys, m) }

  /** It does not matter which entry is taken first. */
  lemma {:induction false} Pick(ids: set<int>, m: map<int, int>, k: int)
    requires ids <= m.Keys && k in ids
    ensures SumOver(ids, m) == m[k] + SumOver(ids - {k}, m)
  {
    var j :| j in ids && SumOver(ids, m) == m[j] + SumOver(ids - {j}, m);
    if j != k {
      Pick(ids - {j}, m, k);
      Pick(ids - {k}, m, j);
      assert ids - {j} - {k} == ids - {k} - {j};
    }
  }

  lemma {:induction false} SumOverMono(a: set<int>, m: map<int, int>, b: set<int>, n: map<int, int>)
    requires a <= m.Keys && b <= n.Keys && a <= b
    requires (forall k :: k in b ==> n[k] >= 0) && (forall k :: k in a ==> m[k] <= n[k])
    ensures SumOver(a, m) <= SumOver(b, n)
    decreases b
  {
    if b != {} {
      HasMember(b);
      var k :| k in b;
      Pick(b, n, k);
      if k in a { Pick(a, m, k); }
      SumOverMono(a - {k}, m, b - {k}, n);
      if k !in a { assert a - {k} == a; }
    }
  }

  /** Fewer entries and smaller values give a smaller sum. */
  lemma SumMono(a: map<int, int>, b: map<int, int>)
    requires a.Keys <= b.Keys && (forall k :: k in b ==> b[k] >= 0)
    requires forall k :: k in a ==> a[k] <= b[k]
    ensures Sum(a) <= Sum(b)
  {
    SumOverMono(a.Keys, a, b.Keys, b);
  }

  lemma SumNonNegative(m: map<int, int>)
    requires forall k :: k in m ==> m[k] >= 0
    ensures Sum(m) >= 0
  {
    SumMono(map[], m);
    assert SumOver({}, map[]) == 0;
  }

  lemma {:induction false} SumOverCap(ids: set<int>, m: map<int, int>, cap: nat)
    requires ids <= m.Keys && forall k :: k in ids ==> m[k] <= cap
    ensures SumOver(ids, m) <= cap * |ids|
  {
    if ids != {} {
      HasMember(ids);
      var k :| k in ids;
      Pick(ids, m, k);
      SumOverCap(ids - {k}, m, cap);
      assert |ids| == |ids - {k}| + 1;
      assert cap * (|ids - {k}| + 1) == cap * |ids - {k}| + cap;
    }
  }

  lemma {:induction false} SumOverSame(ids: set<int>, m: map<int, int>, n: map<int, int>)
    requires ids <= m.Keys && ids <= n.Keys && forall k :: k in ids ==> m[k] == n[k]
    ensures SumOver(ids, m) == SumOver(ids, n)
  {
    if ids != {} {
      HasMember(ids);
      var k :| k in ids;
      Pick(ids, m, k);
      Pick(ids, n, k);
      SumOverSame(ids - {k}, m, n);
    }
  }

  function At(m: map<int, int>, k: int): int { if k in m then m[k] else 0 }

  /** Two maps that differ only at `k`, where a missing entry counts as 0. */
  lemma SumChange(m: map<int, int>, n: map<int, int>, k: int)
    requires m.Keys - {k} == n.Keys - {k} && forall j :: j in m && j in n && j != k ==> m[j] == n[j]
    ensures Sum(n) - Sum(m) == At(n, k) - At(m, k)
  {
    if k in m { Pick(m.Keys, m, k); } else { assert m.Keys - {k} == m.Keys; }
    if k in n { Pick(n.Keys, n, k); } else { assert n.Keys - {k} == n.Keys; }
    SumOverSame(m.Keys - {k}, m, n);
  }
}
