/** Sorting updates by use count (src/update.c) only reorders them. */
module Sorting {
  import opened Types
  import opened Tables

  ghost predicate Sorted(us: seq<Update>) {
    forall i, j :: 0 <= i <= j < |us| ==> us[i].count <= us[j].count
  }

  lemma {:induction false} InsertPermutes(us: seq<Update>, key: Update)
    ensures multiset(Insert(us, key)) == multiset(us) + multiset{key}
  {
    if us == [] || us[|us| - 1].count <= key.count {
    } else {
      var n := |us| - 1;
      assert us == us[..n] + [us[n]];
      InsertPermutes(us[..n], key);
    }
  }

  lemma {:induction false} InsertSorts(us: seq<Update>, key: Update)
    requires Sorted(us)
    ensures Sorted(Insert(us, key))
  {
    if us == [] || us[|us| - 1].count <= key.count {
    } else {
      var n := |us| - 1;
      InsertSorts(us[..n], key);
      InsertPermutes(us[..n], key);
      var r := Insert(us[..n], key);
      forall i | 0 <= i < |r| ensures r[i].count <= us[n].count {
        assert r[i] in multiset(us[..n]) + multiset{key};
      }
      hide Insert;
      SortedAppend(r, us[n]);
    }
  }

  lemma SortedAppend(us: seq<Update>, u: Update)
    requires Sorted(us) && forall i :: 0 <= i < |us| ==> us[i].count <= u.count
    ensures Sorted(us + [u])
  {
  }

  lemma {:induction false} SortCorrect(us: seq<Update>)
    ensures Sorted(SortByCount(us))
    ensures multiset(SortByCount(us)) == multiset(us)
    ensures |SortByCount(us)| == |us|
  {
    if us == [] {
    } else {
      var n := |us| - 1;
      assert us == us[..n] + [us[n]];
      SortCorrect(us[..n]);
      InsertSorts(SortByCount(us[..n]), us[n]);
      InsertPermutes(SortByCount(us[..n]), us[n]);
      assert |SortByCount(us)| == |multiset(SortByCount(us))|;
    }
  }

  lemma {:induction false} DistinctCounts<T>(xs: seq<T>, v: T)
    requires Distinct(xs)
    ensures multiset(xs)[v] <= 1
  {
    if xs == [] {
    } else {
      var n := |xs| - 1;
      assert xs == xs[..n] + [xs[n]];
      DistinctCounts(xs[..n], v);
    }
  }

  lemma TwiceCounts<T>(xs: seq<T>, i: nat, j: nat)
    requires i < j < |xs| && xs[i] == xs[j]
    ensures multiset(xs)[xs[i]] >= 2
  {
    assert xs == xs[..j] + [xs[j]] + xs[j + 1..];
    assert xs[..j][i] in multiset(xs[..j]);
  }

  /** Reordering updates that point to different members keeps them pointing to different members. */
  lemma DistinctTargets(us: seq<Update>, vs: seq<Update>)
    requires multiset(us) == multiset(vs)
    requires forall x, y :: 0 <= x < y < |us| ==> us[x].ref != us[y].ref
    ensures forall x, y :: 0 <= x < y < |vs| ==> vs[x].ref != vs[y].ref
  {
    forall x, y | 0 <= x < y < |vs| ensures vs[x].ref != vs[y].ref {
      assert vs[x] in multiset(us) && vs[y] in multiset(us);
      if vs[x] == vs[y] {
        TwiceCounts(vs, x, y);
        DistinctCounts(us, vs[x]);
      }
    }
  }

  // ----- equals stay in order -----

  /** The updates with this count, in order. */
  function OfCount(us: seq<Update>, c: nat): seq<Update> {
    if us == [] then [] else OfCount(us[..|us| - 1], c) + if us[|us| - 1].count == c then [us[|us| - 1]] else []
  }

  lemma OfCountNext(us: seq<Update>, u: Update, c: nat)
    ensures OfCount(us + [u], c) == OfCount(us, c) + if u.count == c then [u] else []
  {
    assert (us + [u])[..|us|] == us;
  }

  /** The key passes an update that has been used more often. */
  lemma PassingIsStable(us: seq<Update>, vs: seq<Update>, key: Update, passed: Update, c: nat)
    requires OfCount(vs, c) == OfCount(us + [key], c) && passed.count > key.count
    ensures OfCount(vs + [passed], c) == OfCount((us + [passed]) + [key], c)
  {
    hide OfCount;
    OfCountNext(vs, passed, c);
    OfCountNext(us, key, c);
    OfCountNext(us, passed, c);
    OfCountNext(us + [passed], key, c);
  }

  lemma {:induction false} InsertIsStable(us: seq<Update>, key: Update, c: nat)
    ensures OfCount(Insert(us, key), c) == OfCount(us + [key], c)
  {
    hide OfCount;
    if us == [] || us[|us| - 1].count <= key.count {
    } else {
      var n := |us| - 1;
      InsertIsStable(us[..n], key, c);
      assert us == us[..n] + [us[n]];
      PassingIsStable(us[..n], Insert(us[..n], key), key, us[n], c);
    }
  }

  lemma SortLast(us: seq<Update>)
    requires us != []
    ensures SortByCount(us) == Insert(SortByCount(us[..|us| - 1]), us[|us| - 1])
  {
    hide Insert;
  }

  /** Updates used equally often stay in the order they had: who has waited longest goes first. */
  lemma {:induction false} SortIsStable(us: seq<Update>, c: nat)
    ensures OfCount(SortByCount(us), c) == OfCount(us, c)
  {
    if us == [] {
    } else {
      hide Insert, OfCount, SortByCount;
      var n := |us| - 1;
      var vs := SortByCount(us[..n]);
      SortIsStable(us[..n], c);
      SortLast(us);
      assert us == us[..n] + [us[n]];
      InsertIsStable(vs, us[n], c);
      OfCountNext(vs, us[n], c);
      OfCountNext(us[..n], us[n], c);
    }
  }
}
