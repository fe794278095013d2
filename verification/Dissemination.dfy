/**
 * Gossip is fair: as long as the set of updates stands still, every named update is told again
 * after a bounded number of messages, and the use counts stay close together (src/update.c).
 */
module Dissemination {
  import opened Types
  import opened Tables
  import opened Invariant
  import opened Sorting

  /** How many more messages u, used c times, may have to let pass for the update v. */
  function Lead(s: State, v: Update, c: nat): nat {
    if Blank(s, v.ref) || v.count > c then 0 else c - v.count + 1
  }

  function Weight(s: State, us: seq<Update>, c: nat): nat {
    if us == [] then 0 else Weight(s, us[..|us| - 1], c) + Lead(s, us[|us| - 1], c)
  }

  ghost predicate OneBlank(s: State, us: seq<Update>) {
    forall i, j :: 0 <= i < j < |us| ==> !Blank(s, us[i].ref) || !Blank(s, us[j].ref)
  }

  /** In a consistent node at most the seed is blank. */
  lemma OnlySeedBlank(s: State, k: Knowledge)
    requires Core(s, k)
    ensures OneBlank(s, s.updates)
  {
    hide SeedOk, SelfListed, PingsOk, OutboxOk;
    forall i, j | 0 <= i < j < |s.updates| ensures !Blank(s, s.updates[i].ref) || !Blank(s, s.updates[j].ref) {
      assert RefOk(s.updates[i].ref, s.mc, |s.confirmed|) && RefOk(s.updates[j].ref, s.mc, |s.confirmed|);
    }
  }

  // ----- sorting keeps the weight -----

  lemma WeightNext(s: State, us: seq<Update>, v: Update, c: nat)
    ensures Weight(s, us + [v], c) == Weight(s, us, c) + Lead(s, v, c)
  {
    assert (us + [v])[..|us|] == us;
  }

  lemma {:induction false} InsertWeighs(s: State, us: seq<Update>, key: Update, c: nat)
    ensures Weight(s, Insert(us, key), c) == Weight(s, us, c) + Lead(s, key, c)
  {
    hide Lead;
    WeightNext(s, us, key, c);
    if us == [] || us[|us| - 1].count <= key.count {
    } else {
      var n := |us| - 1;
      InsertWeighs(s, us[..n], key, c);
      WeightNext(s, Insert(us[..n], key), us[n], c);
    }
  }

  lemma {:induction false} SortWeighs(s: State, us: seq<Update>, c: nat)
    ensures Weight(s, SortByCount(us), c) == Weight(s, us, c)
  {
    hide Lead;
    if us == [] {
    } else {
      var n := |us| - 1;
      SortWeighs(s, us[..n], c);
      InsertWeighs(s, SortByCount(us[..n]), us[n], c);
    }
  }

  // ----- one retrieval -----

  lemma UsedNext(s: State, us: seq<Update>, k: nat)
    requires us != []
    ensures Used(s, us, k)[..|us| - 1] == Used(s, us[..|us| - 1], k)
  {
  }

  /** Using updates that are used no more than c times brings the weight down, if one of them has a name. */
  lemma {:induction false} UsesLighten(s: State, us: seq<Update>, k: nat, c: nat)
    requires k <= |us| && forall i :: 0 <= i < k ==> us[i].count <= c
    ensures Weight(s, Used(s, us, k), c) <= Weight(s, us, c)
    ensures (exists i :: 0 <= i < k && !Blank(s, us[i].ref)) ==> Weight(s, Used(s, us, k), c) < Weight(s, us, c)
  {
    hide Used, Blank;
    if us == [] {
    } else {
      var n := |us| - 1;
      UsedNext(s, us, k);
      if k <= n {
        UsesLighten(s, us[..n], k, c);
      } else {
        UsedShort(s, us[..n], k);
        UsesLighten(s, us[..n], n, c);
      }
    }
  }

  lemma UsedShort(s: State, us: seq<Update>, k: nat)
    requires k >= |us|
    ensures Used(s, us, k) == Used(s, us, |us|)
  {
    hide Used;
  }

  lemma {:induction false} ChosenAreListed(s: State, us: seq<Update>, x: nat)
    requires x < |us| && !Blank(s, us[x].ref)
    ensures us[x].ref in Choose(s, us)
  {
    hide Blank;
    var n := |us| - 1;
    if x >= n {
    } else {
      ChosenAreListed(s, us[..n], x);
    }
  }

  function Limit(cfg: Config, us: seq<Update>): nat {
    if cfg.perMessage < |us| then cfg.perMessage else |us|
  }

  /**
   * A retrieval that passes over the named update x makes the others catch up with it: the
   * weight against its use count goes down, and the count itself stays.
   */
  lemma PassedOver(cfg: Config, s: State, x: nat) returns (y: nat)
    requires x < |s.updates| && !Blank(s, s.updates[x].ref) && OneBlank(s, s.updates) && cfg.perMessage >= 2
    requires s.updates[x].ref !in UpdatesRetrieve(cfg, s).1
    requires forall i, j :: 0 <= i < j < |s.updates| ==> s.updates[i].ref != s.updates[j].ref
    ensures var t := UpdatesRetrieve(cfg, s).0;
      && y < |t.updates| && t.updates[y] == s.updates[x]
      && Weight(s, t.updates, s.updates[x].count) < Weight(s, s.updates, s.updates[x].count)
  {
    hide Weight, Used, SortByCount, Choose, Blank;
    var us, u := SortByCount(s.updates), s.updates[x];
    SortCorrect(s.updates);
    SortWeighs(s, s.updates, u.count);
    var k := Limit(cfg, us);
    assert u in multiset(us);
    y :| 0 <= y < |us| && us[y] == u;
    if y < k {
      ChosenAreListed(s, us[..k], y);
    }
    assert k <= y && k >= 2;
    assert !Blank(s, us[0].ref) || !Blank(s, us[1].ref) by { BlankMoves(s, s.updates, us, 0, 1); }
    UsesLighten(s, us, k, u.count);
  }

  lemma BlankMoves(s: State, us: seq<Update>, vs: seq<Update>, a: nat, b: nat)
    requires OneBlank(s, us) && multiset(us) == multiset(vs) && a < b < |vs|
    requires forall i, j :: 0 <= i < j < |us| ==> us[i].ref != us[j].ref
    ensures !Blank(s, vs[a].ref) || !Blank(s, vs[b].ref)
  {
    hide Blank;
    DistinctTargets(us, vs);
    assert vs[a] in multiset(us) && vs[b] in multiset(us);
    var i :| 0 <= i < |us| && us[i] == vs[a];
    var j :| 0 <= j < |us| && us[j] == vs[b];
  }

  // ----- a gossip message always has something to tell -----

  /** We are listed, so there is an update with a name. */
  lemma SomebodyNamed(s: State, k: Knowledge)
    requires Core(s, k)
    ensures s.updates != []
    ensures |s.updates| == 1 ==> !Blank(s, s.updates[0].ref)
  {
    hide SeedOk, PingsOk, OutboxOk;
    if |s.updates| == 1 {
      assert RefOk(s.updates[0].ref, s.mc, |s.confirmed|);
    }
  }

  /** With room for two updates in a message, the blank seed alone cannot fill it. */
  lemma GossipHasNews(env: Env, s: State, k: Knowledge)
    requires Core(s, k) && env.cfg.perMessage >= 2
    ensures UpdatesRetrieve(env.cfg, s).1 != []
  {
    hide UniqueUuids, SlotsOk, SeedOk, SelfListed, PingsOk, OutboxOk, SortByCount, Blank, Choose;
    var us := SortByCount(s.updates);
    SortCorrect(s.updates);
    SomebodyNamed(s, k);
    OnlySeedBlank(s, k);
    var n := Limit(env.cfg, us);
    var x := 0;
    if |us| == 1 {
      assert us[0] in multiset(s.updates);
    } else {
      BlankMoves(s, s.updates, us, 0, 1);
      x := if Blank(s, us[0].ref) then 1 else 0;
    }
    assert x < n && !Blank(s, us[..n][x].ref);
    ChosenAreListed(s, us[..n], x);
  }

  lemma {:induction false} FewAreChosen(s: State, us: seq<Update>)
    ensures |Choose(s, us)| <= |us|
  {
    if us == [] {
    } else {
      FewAreChosen(s, us[..|us| - 1]);
    }
  }

  // ----- many retrievals -----

  /** The node after n messages in a row. */
  function Retrievals(cfg: Config, s: State, n: nat): (r: State)
    ensures r == s.(updates := r.updates)
    decreases n
  {
    if n == 0 then s else Retrievals(cfg, UpdatesRetrieve(cfg, s).0, n - 1)
  }

  /** Retrieval reorders the updates and raises counts; the members they point at stay the same. */
  lemma RetrievalKeepsTargets(cfg: Config, s: State)
    requires forall i, j :: 0 <= i < j < |s.updates| ==> s.updates[i].ref != s.updates[j].ref
    requires OneBlank(s, s.updates)
    ensures var t := UpdatesRetrieve(cfg, s).0;
      && (forall i, j :: 0 <= i < j < |t.updates| ==> t.updates[i].ref != t.updates[j].ref)
      && OneBlank(t, t.updates)
  {
    hide Used, SortByCount, Blank;
    var us := SortByCount(s.updates);
    SortCorrect(s.updates);
    DistinctTargets(s.updates, us);
    var t := UpdatesRetrieve(cfg, s).0;
    forall r ensures Blank(t, r) == Blank(s, r) { SameBlank(s, t, r); }
    forall i, j | 0 <= i < j < |t.updates| ensures !Blank(t, t.updates[i].ref) || !Blank(t, t.updates[j].ref) {
      BlankMoves(s, s.updates, us, i, j);
    }
  }

  lemma SameBlank(s: State, t: State, r: Ref)
    requires t == s.(updates := t.updates)
    ensures Blank(t, r) == Blank(s, r)
  {
  }

  lemma {:induction false} SameWeight(s: State, t: State, us: seq<Update>, c: nat)
    requires t == s.(updates := t.updates)
    ensures Weight(t, us, c) == Weight(s, us, c)
  {
    if us == [] {
    } else {
      SameWeight(s, t, us[..|us| - 1], c);
    }
  }

  lemma {:induction false} OwnWeight(s: State, us: seq<Update>, x: nat)
    requires x < |us| && !Blank(s, us[x].ref)
    ensures Weight(s, us, us[x].count) >= 1
  {
    hide Blank;
    var n := |us| - 1;
    if x >= n {
    } else {
      OwnWeight(s, us[..n], x);
    }
  }

  /**
   * No starvation: the named update x is told by one of the next Weight messages. The bound is
   * one for x itself plus, for every other named update v, what x is ahead of v in uses, plus one.
   */
  lemma {:induction false} ToldSoon(cfg: Config, s: State, x: nat) returns (n: nat)
    requires x < |s.updates| && !Blank(s, s.updates[x].ref) && OneBlank(s, s.updates) && cfg.perMessage >= 2
    requires forall i, j :: 0 <= i < j < |s.updates| ==> s.updates[i].ref != s.updates[j].ref
    ensures n < Weight(s, s.updates, s.updates[x].count)
    ensures s.updates[x].ref in UpdatesRetrieve(cfg, Retrievals(cfg, s, n)).1
    decreases Weight(s, s.updates, s.updates[x].count)
  {
    hide Weight, UpdatesRetrieve, Blank, OneBlank;
    OwnWeight(s, s.updates, x);
    if s.updates[x].ref in UpdatesRetrieve(cfg, s).1 {
      n := 0;
    } else {
      var y := PassedOver(cfg, s, x);
      RetrievalKeepsTargets(cfg, s);
      var t := UpdatesRetrieve(cfg, s).0;
      SameWeight(s, t, t.updates, s.updates[x].count);
      SameBlank(s, t, t.updates[y].ref);
      n := ToldSoon(cfg, t, y);
      n := n + 1;
    }
  }

  // ----- evenness -----

  ghost predicate GapAtMost(s: State, us: seq<Update>, g: nat) {
    forall i, j :: 0 <= i < |us| && 0 <= j < |us| && !Blank(s, us[i].ref) && !Blank(s, us[j].ref) ==>
      us[i].count <= us[j].count + g
  }

  lemma GapMoves(s: State, us: seq<Update>, vs: seq<Update>, g: nat)
    requires GapAtMost(s, us, g) && multiset(us) == multiset(vs)
    ensures GapAtMost(s, vs, g)
  {
    hide Blank;
    forall i, j | 0 <= i < |vs| && 0 <= j < |vs| && !Blank(s, vs[i].ref) && !Blank(s, vs[j].ref)
      ensures vs[i].count <= vs[j].count + g
    {
      assert vs[i] in multiset(us) && vs[j] in multiset(us);
      var a :| 0 <= a < |us| && us[a] == vs[i];
      var b :| 0 <= b < |us| && us[b] == vs[j];
    }
  }

  /** The use counts of named updates never drift further apart than they are, or than one. */
  lemma GapNeverGrows(cfg: Config, s: State, g: nat)
    requires GapAtMost(s, s.updates, g) && g >= 1
    ensures GapAtMost(s, UpdatesRetrieve(cfg, s).0.updates, g)
  {
    hide Used, SortByCount, Blank;
    var us := SortByCount(s.updates);
    SortCorrect(s.updates);
    GapMoves(s, s.updates, us, g);
  }

  // ----- what a gossip message tells -----

  /** Somebody is told of and its count has gone up by one, or it is not and its count is as it was. */
  ghost predicate CountedFor(told: seq<Ref>, us: seq<Update>, u: Update) {
    exists y :: 0 <= y < |us| && us[y] == u.(count := if u.ref in told then u.count + 1 else u.count)
  }

  /** x is told of although it has been told of more often than y, who has a name and is not told of. */
  predicate Overlooked(s: State, told: seq<Ref>, x: Update, y: Update) {
    x.ref in told && y.ref !in told && !Blank(s, y.ref) && x.count > y.count
  }

  /** r is told of and has a name and an update. */
  ghost predicate RightlyTold(s: State, r: Ref) {
    !Blank(s, r) && exists x :: 0 <= x < |s.updates| && s.updates[x].ref == r
  }

  /**
   * A retrieval tells of named members only; nobody is overlooked for somebody who has been told of more often; and the
   * use counts go up by one for exactly those told of.
   */
  lemma RetrievalTells(cfg: Config, s: State)
    requires forall i, j :: 0 <= i < j < |s.updates| ==> s.updates[i].ref != s.updates[j].ref
    ensures var (t, told) := UpdatesRetrieve(cfg, s);
      && (forall x, y :: 0 <= x < |s.updates| && 0 <= y < |s.updates| ==>
            !Overlooked(s, told, s.updates[x], s.updates[y]))
      && (forall x :: 0 <= x < |s.updates| ==> CountedFor(told, t.updates, s.updates[x]))
      && (forall z :: 0 <= z < |told| ==> RightlyTold(s, told[z]))
      && |t.updates| == |s.updates| && |told| <= cfg.perMessage
  {
    hide Weight, SortByCount, Choose, Blank, Used;
    var us, told := SortByCount(s.updates), UpdatesRetrieve(cfg, s).1;
    SortCorrect(s.updates);
    DistinctTargets(s.updates, us);
    var k := Limit(cfg, us);
    FewAreChosen(s, us[..k]);
    forall x | 0 <= x < |s.updates| ensures CountedFor(told, Used(s, us, k), s.updates[x]) {
      var a := PlaceOf(s.updates, us, x);
      ToldIffEarly(s, us, k, a);
      var u := s.updates[x];
      assert Used(s, us, k)[a] == u.(count := if u.ref in told then u.count + 1 else u.count);
    }
    forall x, y | 0 <= x < |s.updates| && 0 <= y < |s.updates|
      ensures !Overlooked(s, told, s.updates[x], s.updates[y])
    {
      var a := PlaceOf(s.updates, us, x);
      var b := PlaceOf(s.updates, us, y);
      ToldIffEarly(s, us, k, a);
      ToldIffEarly(s, us, k, b);
    }
    forall z | 0 <= z < |told| ensures RightlyTold(s, told[z]) {
      var a :| 0 <= a < |us[..k]| && told[z] == us[..k][a].ref;
      assert us[a] in multiset(s.updates);
    }
  }

  lemma PlaceOf(us: seq<Update>, vs: seq<Update>, x: nat) returns (y: nat)
    requires x < |us| && multiset(vs) == multiset(us)
    ensures y < |vs| && vs[y] == us[x]
  {
    assert us[x] in multiset(vs);
    y :| 0 <= y < |vs| && vs[y] == us[x];
  }

  lemma ToldIffEarly(s: State, us: seq<Update>, k: nat, a: nat)
    requires a < |us| && k <= |us| && forall i, j :: 0 <= i < j < |us| ==> us[i].ref != us[j].ref
    ensures us[a].ref in Choose(s, us[..k]) <==> a < k && !Blank(s, us[a].ref)
  {
    hide Blank, Choose;
    if a < k && !Blank(s, us[a].ref) { ChosenAreListed(s, us[..k], a); }
    if us[a].ref in Choose(s, us[..k]) {
      var z :| 0 <= z < |Choose(s, us[..k])| && Choose(s, us[..k])[z] == us[a].ref;
      var i :| 0 <= i < |us[..k]| && Choose(s, us[..k])[z] == us[..k][i].ref;
    }
  }

  lemma {:induction false} ChosenFill(s: State, us: seq<Update>)
    requires forall i, j :: 0 <= i < j < |us| ==> us[i].ref != us[j].ref
    requires OneBlank(s, us)
    ensures Distinct(Choose(s, us)) && |us| - 1 <= |Choose(s, us)|
    ensures (forall i :: 0 <= i < |us| ==> !Blank(s, us[i].ref)) ==> |Choose(s, us)| == |us|
  {
    hide Blank;
    if us == [] {
    } else {
      var n := |us| - 1;
      ChosenFill(s, us[..n]);
      if Blank(s, us[n].ref) {
        forall i | 0 <= i < n ensures !Blank(s, us[..n][i].ref) { assert us[..n][i] == us[i]; }
      } else {
        forall z | 0 <= z < |Choose(s, us[..n])| ensures Choose(s, us[..n])[z] != us[n].ref {
          var i :| 0 <= i < |us[..n]| && Choose(s, us[..n])[z] == us[..n][i].ref;
        }
      }
    }
  }

  lemma OneBlankMoves(s: State, us: seq<Update>, vs: seq<Update>, k: nat)
    requires OneBlank(s, us) && multiset(us) == multiset(vs) && k <= |vs|
    requires forall i, j :: 0 <= i < j < |us| ==> us[i].ref != us[j].ref
    ensures OneBlank(s, vs[..k])
  {
    hide Blank;
    forall i, j | 0 <= i < j < k ensures !Blank(s, vs[..k][i].ref) || !Blank(s, vs[..k][j].ref) {
      BlankMoves(s, us, vs, i, j);
    }
  }

  /**
   * A gossip message is filled: it tells as many different members as fit, or of all there are, but for the blank seed
   * at most; what it says of each is what the node has stored, and it says so in the node's own name.
   */
  lemma GossipSays(cfg: Config, s: State, kind: Kind)
    requires OneBlank(s, s.updates)
    requires forall i, j :: 0 <= i < j < |s.updates| ==> s.updates[i].ref != s.updates[j].ref
    ensures var told, m := UpdatesRetrieve(cfg, s).1, Gossip(cfg, s, kind).1;
      && Distinct(told) && Limit(cfg, s.updates) - 1 <= |told| <= Limit(cfg, s.updates)
      && m.kind == kind && m.sender == s.self && |m.updates| == |told|
      && forall z :: 0 <= z < |told| ==> m.updates[z] == Deref(s, told[z]).entry
  {
    hide Blank, SortByCount, Choose, Used;
    var us := SortByCount(s.updates);
    SortCorrect(s.updates);
    DistinctTargets(s.updates, us);
    var k := Limit(cfg, us);
    OneBlankMoves(s, s.updates, us, k);
    ChosenFill(s, us[..k]);
    FewAreChosen(s, us[..k]);
  }
}
