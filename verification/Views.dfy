/**
 * What a node believes about another one, read off its arrays, and the order of such beliefs:
 * confirmed beats everything, then the higher incarnation, then suspicion over life.
 */
module Views {
  import opened Types
  import opened Seqs
  import opened Tables
  import opened Protocol
  import opened Invariant

  datatype View = Unknown | Living(incarnation: nat) | Doubted(incarnation: nat) | Dead

  function Word(e: Entry): View {
    match e.status
    case Alive => Living(e.incarnation)
    case Suspect => Doubted(e.incarnation)
    case Confirmed => Dead
  }

  /** What a node believes about u. */
  function ViewOf(s: State, u: Uuid): View {
    var i := First(Lives(s), HasUuid(u));
    if i.Some? then Word(s.members[i.value].entry)
    else if ConfirmedFind(s, u).Some? then Dead
    else Unknown
  }

  predicate Below(a: View, b: View) {
    match (a, b)
    case (Unknown, _) => true
    case (_, Dead) => true
    case (Living(i), Living(j)) => i <= j
    case (Living(i), Doubted(j)) => i <= j
    case (Doubted(i), Living(j)) => i < j
    case (Doubted(i), Doubted(j)) => i <= j
    case _ => false
  }

  function Join(a: View, b: View): View {
    if Below(a, b) then b else a
  }

  lemma BelowIsTotalOrder(a: View, b: View, c: View)
    ensures Below(a, a)
    ensures Below(a, b) || Below(b, a)
    ensures Below(a, b) && Below(b, a) ==> a == b
    ensures Below(a, b) && Below(b, c) ==> Below(a, c)
  {
  }

  // ----- reading a view off the arrays -----

  lemma SeenLive(s: State, i: nat)
    requires UniqueUuids(s.members, s.mc, s.confirmed) && i < s.mc
    ensures ViewOf(s, s.members[i].entry.uuid) == Word(s.members[i].entry)
  {
    var u := s.members[i].entry.uuid;
    FirstIs(Lives(s), HasUuid(u), i);
  }

  lemma SeenConfirmed(s: State, j: nat)
    requires UniqueUuids(s.members, s.mc, s.confirmed) && j < |s.confirmed|
    ensures ViewOf(s, s.confirmed[j].entry.uuid) == Dead
  {
    var u := s.confirmed[j].entry.uuid;
    FirstNone(Lives(s), HasUuid(u));
    FirstIs(s.confirmed, HasUuid(u), j);
  }

  lemma SeenNowhere(s: State, u: Uuid)
    requires forall i :: 0 <= i < s.mc ==> s.members[i].entry.uuid != u
    requires forall j :: 0 <= j < |s.confirmed| ==> s.confirmed[j].entry.uuid != u
    ensures ViewOf(s, u) == Unknown
  {
    FirstNone(Lives(s), HasUuid(u));
    FirstNone(s.confirmed, HasUuid(u));
  }

  /** Some live member has this entry. */
  ghost predicate Lists(s: State, e: Entry) {
    exists i :: 0 <= i < s.mc && s.members[i].entry == e
  }

  ghost predicate Buries(s: State, u: Uuid) {
    exists j :: 0 <= j < |s.confirmed| && s.confirmed[j].entry.uuid == u
  }

  /** Two nodes that list u in the same way view it in the same way. */
  ghost predicate ListedAlike(s: State, t: State, u: Uuid) {
    && (forall e: Entry :: e.uuid == u ==> (Lists(s, e) <==> Lists(t, e)))
    && (Buries(s, u) <==> Buries(t, u))
  }

  lemma ListedAlikeViewedAlike(s: State, t: State, u: Uuid)
    requires UniqueUuids(s.members, s.mc, s.confirmed) && UniqueUuids(t.members, t.mc, t.confirmed)
    requires ListedAlike(s, t, u)
    ensures ViewOf(s, u) == ViewOf(t, u)
  {
    hide ViewOf, UniqueUuids;
    if i :| 0 <= i < s.mc && s.members[i].entry.uuid == u {
      assert Lists(s, s.members[i].entry);
      var j :| 0 <= j < t.mc && t.members[j].entry == s.members[i].entry;
      SeenLive(s, i);
      SeenLive(t, j);
    } else if j :| 0 <= j < |s.confirmed| && s.confirmed[j].entry.uuid == u {
      assert Buries(s, u);
      var p :| 0 <= p < |t.confirmed| && t.confirmed[p].entry.uuid == u;
      SeenConfirmed(s, j);
      SeenConfirmed(t, p);
    } else {
      forall i | 0 <= i < t.mc ensures t.members[i].entry.uuid != u { assert Lists(t, t.members[i].entry); }
      SeenNowhere(s, u);
      SeenNowhere(t, u);
    }
  }

  // ----- what one operation does to a view -----

  /** Only the slot of another node changes: this view does not. */
  lemma OtherSlot(s: State, t: State, i: nat, u: Uuid)
    requires UniqueUuids(s.members, s.mc, s.confirmed) && UniqueUuids(t.members, t.mc, t.confirmed)
    requires i < s.mc == t.mc && |t.members| == |s.members| && t.confirmed == s.confirmed
    requires forall j :: 0 <= j < s.mc && j != i ==> t.members[j].entry == s.members[j].entry
    requires s.members[i].entry.uuid != u && t.members[i].entry.uuid != u
    ensures ViewOf(t, u) == ViewOf(s, u)
  {
    ListedAlikeViewedAlike(s, t, u);
  }

  /** What a confirmation of slot i leaves in the arrays. */
  lemma ConfirmShape(env: Env, s: State, i: nat)
    requires i < s.mc
    ensures var t := Confirm(env, s, i);
      && t.mc == s.mc - 1
      && |t.members| == |s.members|
      && (forall j :: 0 <= j < t.mc ==> t.members[j] == s.members[if j < i then j else j + 1])
      && |t.confirmed| == |s.confirmed| + 1
      && t.confirmed[..|s.confirmed|] == s.confirmed
      && t.confirmed[|s.confirmed|].entry == s.members[i].entry.(status := Confirmed)
  {
    hide RebaseAll, Retrieve, MaxPos;
  }

  lemma AfterConfirm(env: Env, s: State, i: nat, u: Uuid)
    requires UniqueUuids(s.members, s.mc, s.confirmed) && i < s.mc
    requires var t := Confirm(env, s, i); UniqueUuids(t.members, t.mc, t.confirmed)
    ensures ViewOf(Confirm(env, s, i), u) == if u == s.members[i].entry.uuid then Dead else ViewOf(s, u)
  {
    hide Confirm, ViewOf, UniqueUuids;
    var t := Confirm(env, s, i);
    ConfirmShape(env, s, i);
    if u == s.members[i].entry.uuid {
      SeenConfirmed(t, |s.confirmed|);
    } else {
      forall j | 0 <= j < s.mc && s.members[j].entry.uuid == u
        ensures exists p :: 0 <= p < t.mc && t.members[p].entry == s.members[j].entry
      {
        assert t.members[if j < i then j else j - 1].entry == s.members[j].entry;
      }
      assert forall j :: 0 <= j < |s.confirmed| ==> t.confirmed[j] == s.confirmed[j];
      ListedAlikeViewedAlike(s, t, u);
    }
  }

  lemma LiveGrows(env: Env, s: State, e: Entry)
    requires s.mc < |s.members|
    ensures var t := AddLive(env, s, e);
      t.mc == s.mc + 1 && t.members == s.members[s.mc := Member(e, Deadline(env, s))] && t.confirmed == s.confirmed
  {
  }
}
