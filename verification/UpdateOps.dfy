/** The gossip updates in place (src/update.c) and the messages built from them (src/message.c). */
module UpdateOps {
  import opened Types
  import opened Tables
  import opened Sorting
  import opened Invariant
  import opened Node

  /** `added` is false where the array is full; there the guard of the code lets one write beyond it. */
  method UpdateAdd(ms: Microswim, r: Ref) returns (added: bool)
    requires ms.Fits()
    modifies ms`updateCount, ms.updates
    ensures ms.Fits() && ms.Value() == Tables.UpdateAdd(ms.env.cfg, old(ms.Value()), r)
    ensures added <==> old(ms.updateCount) < ms.updates.Length
  {
    if ms.updateCount == ms.updates.Length {
      return false;
    }
    ms.updates[ms.updateCount] := Update(r, 0);
    ms.updateCount := ms.updateCount + 1;
    return true;
  }

  /** The first update whose member carries this uuid. */
  method UpdateFind(ms: Microswim, u: Uuid) returns (r: Option<nat>)
    requires ms.Fits() && ms.Pointing()
    ensures r.Some? ==>
      && r.value < ms.updateCount
      && ms.Target(ms.updates[r.value].ref).entry.uuid == u
      && forall x :: 0 <= x < r.value ==> ms.Target(ms.updates[x].ref).entry.uuid != u
    ensures r.None? ==> forall x :: 0 <= x < ms.updateCount ==> ms.Target(ms.updates[x].ref).entry.uuid != u
  {
    var i := 0;
    while i < ms.updateCount
      invariant i <= ms.updateCount
      invariant forall x :: 0 <= x < i ==> ms.Target(ms.updates[x].ref).entry.uuid != u
    {
      if ms.Target(ms.updates[i].ref).entry.uuid == u {
        return Some(i);
      }
      i := i + 1;
    }
    return None;
  }

  // ----- sorting -----

  /** Inserting key may leave the entries from j on behind it. */
  ghost predicate Splits(us: seq<Update>, j: nat, key: Update) {
    j <= |us| && Insert(us, key) == Insert(us[..j], key) + us[j..]
  }

  lemma SplitsAtEnd(us: seq<Update>, key: Update)
    ensures Splits(us, |us|, key)
  {
    assert us[..|us|] == us && us[|us|..] == [];
  }

  lemma SplitsEarlier(us: seq<Update>, j: nat, key: Update)
    requires Splits(us, j, key) && j > 0 && us[j - 1].count > key.count
    ensures Splits(us, j - 1, key)
  {
    assert us[..j][..j - 1] == us[..j - 1];
    assert us[j - 1..] == [us[j - 1]] + us[j..];
  }

  lemma InsertStops(us: seq<Update>, j: nat, key: Update)
    requires j <= |us| && (j == 0 || us[j - 1].count <= key.count)
    ensures Insert(us[..j], key) == us[..j] + [key]
  {
  }

  /** While entry i is inserted: those between j and i have moved one place up, the others are untouched. */
  ghost predicate Parted(xs: seq<Update>, was: seq<Update>, j: nat, i: nat) {
    && j <= i < |was| == |xs|
    && (forall p :: 0 <= p < |was| && (p < j || p > i) ==> xs[p] == was[p])
    && (forall p :: j < p <= i ==> xs[p] == was[p - 1])
  }

  lemma PartedAtEnd(was: seq<Update>, i: nat)
    requires i < |was|
    ensures Parted(was, was, i, i)
  {
  }

  lemma PartedBefore(xs: seq<Update>, was: seq<Update>, j: nat, i: nat)
    requires Parted(xs, was, j, i) && j > 0
    ensures xs[j - 1] == was[j - 1] && Parted(xs[j := xs[j - 1]], was, j - 1, i)
  {
  }

  lemma PartedFilled(xs: seq<Update>, was: seq<Update>, j: nat, i: nat, key: Update)
    requires Parted(xs, was, j, i) && Splits(was[..i], j, key) && (j == 0 || was[j - 1].count <= key.count)
    ensures xs[j := key] == Insert(was[..i], key) + was[i + 1..]
  {
    hide Insert;
    InsertStops(was[..i], j, key);
    assert was[..i][..j] == was[..j] && was[..i][j..] == was[j..i];
    assert xs[j := key] == ((was[..j] + [key]) + was[j..i]) + was[i + 1..];
  }

  /** Insert entry i into the sorted entries before it. */
  method InsertAt(a: array<Update>, i: nat)
    requires i < a.Length
    modifies a
    ensures a[..] == Insert(old(a[..i]), old(a[i])) + old(a[i + 1..])
  {
    hide Insert, Splits, Parted;
    ghost var was := a[..];
    var key := a[i];
    var j := i;
    assert was[..i] == a[..i] && was[i + 1..] == a[i + 1..];
    SplitsAtEnd(was[..i], key);
    PartedAtEnd(was, i);
    while j > 0 && a[j - 1].count > key.count
      invariant 0 <= j <= i && Splits(was[..i], j, key) && Parted(a[..], was, j, i)
    {
      ghost var xs := a[..];
      PartedBefore(xs, was, j, i);
      SplitsEarlier(was[..i], j, key);
      a[j] := a[j - 1];
      assert a[..] == xs[j := xs[j - 1]];
      j := j - 1;
    }
    ghost var xs := a[..];
    if j > 0 { PartedBefore(xs, was, j, i); }
    PartedFilled(xs, was, j, i, key);
    a[j] := key;
    assert a[..] == xs[j := key];
  }

  method SortUpdates(ms: Microswim)
    requires ms.Fits()
    modifies ms.updates
    ensures ms.Fits()
    ensures ms.Value() == old(ms.Value()).(updates := SortByCount(old(ms.Value()).updates))
  {
    hide Insert, SortByCount;
    ghost var us := ms.updates[..ms.updateCount];
    SortNone();
    if ms.updateCount == 0 { return; }
    var i := 1;
    SortOne(us[0]);
    assert us[..1] == [us[0]] && ms.updates[..1] == [us[0]];
    while i < ms.updateCount
      invariant 1 <= i <= ms.updateCount
      invariant ms.updates[..i] == SortByCount(us[..i])
      invariant forall p :: i <= p < ms.updateCount ==> ms.updates[p] == us[p]
    {
      SortNext(us, i);
      InsertAt(ms.updates, i);
      i := i + 1;
    }
    assert us[..i] == us;
  }

  lemma SortNone()
    ensures SortByCount([]) == []
  {
  }

  lemma SortOne(u: Update)
    ensures SortByCount([u]) == [u]
  {
    assert SortByCount([u][..0]) == [];
  }

  lemma SortNext(us: seq<Update>, i: nat)
    requires i < |us|
    ensures SortByCount(us[..i + 1]) == Insert(SortByCount(us[..i]), us[i])
  {
    assert us[..i + 1][..i] == us[..i];
  }

  // ----- choosing what to tell -----

  lemma ChooseNext(s: State, us: seq<Update>, j: nat)
    requires j < |us|
    ensures Choose(s, us[..j + 1]) ==
      if Blank(s, us[j].ref) then Choose(s, us[..j]) else Choose(s, us[..j]) + [us[j].ref]
  {
    assert us[..j + 1][..j] == us[..j];
  }

  lemma ChooseNothing(s: State)
    ensures Choose(s, []) == []
  {
  }

  lemma UsedNothing(s: State, us: seq<Update>)
    ensures Used(s, us, 0) == us
  {
    hide Used;
  }

  lemma UsedNext(s: State, us: seq<Update>, j: nat)
    requires j < |us|
    ensures Used(s, us, j)[j] == us[j]
    ensures Used(s, us, j + 1) ==
      if Blank(s, us[j].ref) then Used(s, us, j) else Used(s, us, j)[j := us[j].(count := us[j].count + 1)]
  {
    hide Used, Blank;
  }

  lemma BlankMeans(s: State, r: Ref)
    ensures Blank(s, r) <==> Deref(s, r).entry.uuid == BLANK
  {
  }

  lemma BlankAlike(s: State, t: State, r: Ref)
    requires t == s.(updates := t.updates)
    ensures Blank(t, r) == Blank(s, r)
  {
  }

  method IsBlank(ms: Microswim, r: Ref) returns (blank: bool)
    requires ms.Fits() && RefOk(r, ms.memberCount, ms.confirmedCount)
    ensures blank == Blank(ms.Value(), r)
  {
    hide Blank, RefOk;
    RefOkInRange(ms, r);
    ms.TargetIsDeref(r);
    BlankMeans(ms.Value(), r);
    blank := ms.Target(r).entry.uuid == BLANK;
  }

  lemma RefOkInRange(ms: Microswim, r: Ref)
    requires ms.Fits() && RefOk(r, ms.memberCount, ms.confirmedCount)
    ensures ms.InRange(r)
  {
  }

  method CountUse(ms: Microswim, j: nat)
    requires ms.Fits() && j < ms.updateCount
    modifies ms.updates
    ensures ms.Fits()
    ensures var s := old(ms.Value());
      ms.Value() == s.(updates := s.updates[j := s.updates[j].(count := s.updates[j].count + 1)])
  {
    ghost var us := ms.updates[..ms.updateCount];
    ms.updates[j] := ms.updates[j].(count := ms.updates[j].count + 1);
    assert ms.updates[..ms.updateCount] == us[j := ms.updates[j]];
  }

  /** One round of the counting loop: update j is chosen and its use counted, unless it is blank. */
  method ChooseOne(ms: Microswim, chosen: seq<Ref>, j: nat, ghost s: State, ghost us: seq<Update>)
    returns (more: seq<Ref>)
    requires ms.Fits() && j < ms.updateCount == |us| && RefOk(us[j].ref, ms.memberCount, ms.confirmedCount)
    requires ms.Value() == s.(updates := Used(s, us, j)) && chosen == Choose(s, us[..j])
    modifies ms.updates
    ensures ms.Fits()
    ensures ms.Value() == s.(updates := Used(s, us, j + 1)) && more == Choose(s, us[..j + 1])
  {
    hide Choose, Used, Blank, RefOk;
    ChooseNext(s, us, j);
    UsedNext(s, us, j);
    assert ms.updates[j] == ms.Value().updates[j];
    BlankAlike(s, ms.Value(), us[j].ref);
    more := chosen;
    var blank := IsBlank(ms, ms.updates[j].ref);
    if !blank {
      more := chosen + [ms.updates[j].ref];
      CountUse(ms, j);
    }
  }

  /** The counting loop, over updates already sorted. */
  method CountUses(ms: Microswim) returns (chosen: seq<Ref>)
    requires ms.Fits() && Followed(ms.Value().updates, ms.memberCount, ms.confirmedCount)
    modifies ms.updates
    ensures ms.Fits()
    ensures var s, us := old(ms.Value()), old(ms.Value()).updates;
      var k := if ms.env.cfg.perMessage < |us| then ms.env.cfg.perMessage else |us|;
      ms.Value() == s.(updates := Used(s, us, k)) && chosen == Choose(s, us[..k])
  {
    hide Choose, Used, Blank;
    ghost var s := ms.Value();
    ghost var us := s.updates;
    chosen := [];
    var j := 0;
    ChooseNothing(s);
    UsedNothing(s, us);
    assert us[..0] == [];
    while j < ms.updateCount && j < ms.env.cfg.perMessage
      invariant j <= ms.updateCount && j <= ms.env.cfg.perMessage
      invariant ms.Value() == s.(updates := Used(s, us, j)) && chosen == Choose(s, us[..j])
    {
      chosen := ChooseOne(ms, chosen, j, s, us);
      j := j + 1;
    }
  }

  lemma SortedFollowed(us: seq<Update>, mc: nat, cc: nat)
    requires Followed(us, mc, cc)
    ensures Followed(SortByCount(us), mc, cc)
  {
    hide SortByCount, RefOk;
    var vs := SortByCount(us);
    SortCorrect(us);
    DistinctTargets(us, vs);
    forall x | 0 <= x < |vs| ensures RefOk(vs[x].ref, mc, cc) {
      assert vs[x] in multiset(us);
    }
  }

  /** Counting uses leaves the pointers alone, and what is chosen is followed. */
  lemma ChosenAreFollowed(s: State, us: seq<Update>, k: nat, mc: nat, cc: nat)
    requires Followed(us, mc, cc) && k <= |us|
    ensures Followed(Used(s, us, k), mc, cc)
    ensures forall x :: 0 <= x < |Choose(s, us[..k])| ==> RefOk(Choose(s, us[..k])[x], mc, cc)
  {
    hide RefOk, Blank;
  }

  /** Count a use of each non-blank update among the least used and return their members. */
  method UpdatesRetrieve(ms: Microswim) returns (chosen: seq<Ref>)
    requires ms.Fits() && Followed(ms.Value().updates, ms.memberCount, ms.confirmedCount)
    modifies ms.updates
    ensures ms.Fits() && Followed(ms.Value().updates, ms.memberCount, ms.confirmedCount)
    ensures (ms.Value(), chosen) == Tables.UpdatesRetrieve(ms.env.cfg, old(ms.Value()))
    ensures forall x :: 0 <= x < |chosen| ==> RefOk(chosen[x], ms.memberCount, ms.confirmedCount)
  {
    hide SortByCount, Used, Choose, Followed, RefOk;
    ghost var s := ms.Value();
    SortedFollowed(s.updates, s.mc, |s.confirmed|);
    SortUpdates(ms);
    ghost var us := ms.Value().updates;
    ghost var k := if ms.env.cfg.perMessage < |us| then ms.env.cfg.perMessage else |us|;
    SameBlanks(s, ms.Value(), ms.env.cfg.perMessage);
    ChosenAreFollowed(s, us, k, s.mc, |s.confirmed|);
    chosen := CountUses(ms);
  }

  lemma SameBlanks(s: State, t: State, k: nat)
    requires t == s.(updates := t.updates)
    ensures Used(t, t.updates, if k < |t.updates| then k else |t.updates|)
         == Used(s, t.updates, if k < |t.updates| then k else |t.updates|)
    ensures Choose(t, t.updates[..if k < |t.updates| then k else |t.updates|])
         == Choose(s, t.updates[..if k < |t.updates| then k else |t.updates|])
  {
    ChooseSame(s, t, t.updates[..if k < |t.updates| then k else |t.updates|]);
    assert forall x :: 0 <= x < |t.updates| ==> Blank(t, t.updates[x].ref) == Blank(s, t.updates[x].ref);
  }

  lemma {:induction false} ChooseSame(s: State, t: State, us: seq<Update>)
    requires t == s.(updates := t.updates)
    ensures Choose(t, us) == Choose(s, us)
  {
    if us == [] {
    } else {
      ChooseSame(s, t, us[..|us| - 1]);
    }
  }

  method MessageConstruct(ms: Microswim, kind: Kind, chosen: seq<Ref>) returns (m: Message)
    requires ms.Fits()
    requires forall x :: 0 <= x < |chosen| ==> RefOk(chosen[x], ms.memberCount, ms.confirmedCount)
    ensures m == Message(kind, ms.self, Entries(ms.Value(), chosen))
  {
    var es := [];
    var i := 0;
    while i < |chosen|
      invariant i <= |chosen| && |es| == i
      invariant forall x :: 0 <= x < i ==> es[x] == Deref(ms.Value(), chosen[x]).entry
    {
      ms.TargetIsDeref(chosen[i]);
      es := es + [ms.Target(chosen[i]).entry];
      i := i + 1;
    }
    assert es == Entries(ms.Value(), chosen);
    m := Message(kind, ms.self, es);
  }

  /** Retrieve the least used updates and wrap them in a message, as every sender of gossip does. */
  method GossipMessage(ms: Microswim, kind: Kind) returns (m: Message)
    requires ms.Fits() && Followed(ms.Value().updates, ms.memberCount, ms.confirmedCount)
    modifies ms.updates
    ensures ms.Fits()
    ensures (ms.Value(), m) == Gossip(ms.env.cfg, old(ms.Value()), kind)
  {
    hide Tables.UpdatesRetrieve, Entries;
    var chosen := UpdatesRetrieve(ms);
    m := MessageConstruct(ms, kind, chosen);
  }
}
