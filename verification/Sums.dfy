/** Sums over the keys of a finite map, independent of the order of the keys. */
module Sums {
  ghost function SumOver(ids: set<nat>, f: map<nat, int>): int
    requires ids <= f.Keys
    decreases |ids|
  {
    if ids == {} then 0
    else
      var id :| id in ids;
      f[id] + SumOver(ids - {id}, f)
  }

  ghost function Sum(f: map<nat, int>): int {
    SumOver(f.Keys, f)
  }

  lemma {:induction false} SumOverRemove(ids: set<nat>, f: map<nat, int>, x: nat)
    requires ids <= f.Keys && x in ids
    ensures SumOver(ids, f) == f[x] + SumOver(ids - {x}, f)
    decreases |ids|
  {
    var id :| id in ids && SumOver(ids, f) == f[id] + SumOver(ids - {id}, f);
    if id != x {
      SumOverRemove(ids - {id}, f, x);
      SumOverRemove(ids - {x}, f, id);
      assert ids - {id} - {x} == ids - {x} - {id};
    }
  }

  lemma {:induction false} SumOverSame(ids: set<nat>, f: map<nat, int>, g: map<nat, int>)
    requires ids <= f.Keys && ids <= g.Keys
    requires forall id :: id in ids ==> f[id] == g[id]
    ensures SumOver(ids, f) == SumOver(ids, g)
    decreases |ids|
  {
    if ids == {} {
    } else {
      var id :| id in ids;
      SumOverRemove(ids, f, id);
      SumOverRemove(ids, g, id);
      SumOverSame(ids - {id}, f, g);
    }
  }

  lemma SumUpdate(f: map<nat, int>, k: nat, v: int)
    ensures Sum(f[k := v]) == Sum(f) - (if k in f then f[k] else 0) + v
  {
    var g := f[k := v];
    SumOverRemove(g.Keys, g, k);
    assert g.Keys - {k} == f.Keys - {k};
    SumOverSame(f.Keys - {k}, f, g);
    if k in f {
      SumOverRemove(f.Keys, f, k);
    } else {
      assert f.Keys - {k} == f.Keys;
    }
  }

  lemma {:induction false} SumOverNonNegative(ids: set<nat>, f: map<nat, int>)
    requires ids <= f.Keys
    requires forall id :: id in ids ==> 0 <= f[id]
    ensures 0 <= SumOver(ids, f)
    ensures SumOver(ids, f) == 0 ==> forall id :: id in ids ==> f[id] == 0
    decreases |ids|
  {
    if ids == {} {
    } else {
      var id :| id in ids;
      SumOverRemove(ids, f, id);
      SumOverNonNegative(ids - {id}, f);
    }
  }

  lemma {:induction false} SumOverAtMost(ids: set<nat>, f: map<nat, int>, g: map<nat, int>)
    requires ids <= f.Keys && ids <= g.Keys
    requires forall id :: id in ids ==> g[id] <= f[id]
    ensures SumOver(ids, g) <= SumOver(ids, f)
    decreases |ids|
  {
    if ids == {} {
    } else {
      var id :| id in ids;
      SumOverRemove(ids, f, id);
      SumOverRemove(ids, g, id);
      SumOverAtMost(ids - {id}, f, g);
    }
  }

  /** No entry rises and each of the distinct entries `ids` falls: the sum falls by at least their number. */
  lemma {:induction false} SumFalls(f: map<nat, int>, g: map<nat, int>, ids: seq<nat>)
    requires f.Keys == g.Keys
    requires forall id :: id in f ==> g[id] <= f[id]
    requires forall i :: 0 <= i < |ids| ==> ids[i] in f && g[ids[i]] < f[ids[i]]
    requires forall i, j :: 0 <= i < j < |ids| ==> ids[i] != ids[j]
    ensures Sum(g) <= Sum(f) - |ids|
  {
    if ids == [] {
      SumOverAtMost(f.Keys, f, g);
    } else {
      var n := |ids| - 1;
      var h := f[ids[n] := g[ids[n]]];
      SumUpdate(f, ids[n], g[ids[n]]);
      SumFalls(h, g, ids[..n]);
    }
  }
}
