/** The tables of pings (src/ping.c) and of indirect pings (src/ping_req.c) in place. */
module PingOps {
  import opened Types
  import opened Seqs
  import opened Tables
  import opened Invariant
  import opened Node
  import opened ArrayOps

  method PingFind(ms: Microswim, u: Uuid) returns (r: Option<nat>)
    requires ms.Fits() && PingsOk(ms.self.uuid, ms.members[..], ms.memberCount, ms.Value().pings)
    ensures r == Tables.PingFind(ms.Value(), u)
  {
    ghost var s := ms.Value();
    var i := 0;
    while i < ms.pingCount
      invariant i <= ms.pingCount
      invariant forall x :: 0 <= x < i ==> !Targets(s, u)(s.pings[x])
    {
      assert PingOk(s.self.uuid, s.members, s.mc, s.pings[i]);
      if ms.members[ms.pings[i].slot].entry.uuid == u {
        FirstIs(s.pings, Targets(s, u), i);
        return Some(i);
      }
      i := i + 1;
    }
    FirstNone(s.pings, Targets(s, u));
    return None;
  }

  method PingRemove(ms: Microswim, ping: nat)
    requires ms.Fits() && ping < ms.pingCount
    modifies ms`pingCount, ms.pings
    ensures ms.Fits()
    ensures ms.Value() == old(ms.Value()).(pings := RemoveAt(old(ms.Value()).pings, ping))
  {
    ghost var ps := ms.pings[..ms.pingCount];
    CloseGap(ms.pings, ping, ms.pingCount);
    ms.pingCount := ms.pingCount - 1;
    assert ms.pings[..ms.pingCount] == RemoveAt(ps, ping);
  }

  /** Find a ping by uuid and remove it, as most operations on a member do first. */
  method DropPing(ms: Microswim, u: Uuid)
    requires ms.Fits() && PingsOk(ms.self.uuid, ms.members[..], ms.memberCount, ms.Value().pings)
    modifies ms`pingCount, ms.pings
    ensures ms.Fits() && ms.Value() == Tables.DropPing(old(ms.Value()), u)
  {
    var ping := PingFind(ms, u);
    if ping.Some? {
      PingRemove(ms, ping.value);
    }
  }

  /** Two clock readings and the write behind the last ping. */
  method Append(ms: Microswim, member: nat)
    requires ms.Fits() && ms.pingCount < ms.pings.Length
    modifies ms`pingCount, ms`ticks, ms.pings
    ensures ms.Fits()
    ensures var s, cfg := old(ms.Value()), ms.env.cfg;
      var p := Ping(member, Now(ms.env, s) + cfg.pingReqMs, ms.env.clock(s.ticks + 1) + cfg.protocolMs, false);
      ms.Value() == s.(pings := s.pings + [p], ticks := s.ticks + 2)
  {
    ghost var ps := ms.Value().pings;
    var now := ms.Milliseconds();
    var later := ms.Milliseconds();
    ms.pings[ms.pingCount] := Ping(member, now + ms.env.cfg.pingReqMs, later + ms.env.cfg.protocolMs, false);
    ms.pingCount := ms.pingCount + 1;
    assert ms.pings[..ms.pingCount] == ps + [ms.pings[ms.pingCount - 1]];
  }

  /** `inRange` is false where the guard, which lets one ping too many through, lets the code write beyond the array. */
  method PingAdd(ms: Microswim, member: nat) returns (inRange: bool)
    requires ms.Fits() && PingsOk(ms.self.uuid, ms.members[..], ms.memberCount, ms.Value().pings)
    requires member < ms.members.Length
    modifies ms`pingCount, ms`ticks, ms.pings
    ensures ms.Fits() && ms.Value() == Tables.PingAdd(ms.env, old(ms.Value()), member)
    ensures |Tables.DropPing(old(ms.Value()), ms.members[member].entry.uuid).pings| < ms.pings.Length ==> inRange
  {
    hide Tables.DropPing;
    var u := ms.members[member].entry.uuid;
    DropPing(ms, u);
    if u != BLANK {
      if ms.pingCount > ms.env.cfg.maxPings {
        return true;
      }
      if ms.pingCount == ms.pings.Length {
        return false;
      }
      Append(ms, member);
    }
    return true;
  }

  // ----- indirect pings -----

  method PingReqFind(ms: Microswim, source: Uuid, target: Uuid) returns (r: Option<nat>)
    requires ms.Fits() && PingReqsOk(ms.members.Length, ms.Value().pingReqs)
    ensures r == First(ms.Value().pingReqs, Links(ms.Value(), source, target))
  {
    ghost var s := ms.Value();
    var i := 0;
    while i < ms.pingReqCount
      invariant i <= ms.pingReqCount
      invariant forall x :: 0 <= x < i ==> !Links(s, source, target)(s.pingReqs[x])
    {
      assert s.pingReqs[i] == ms.pingReqs[i];
      if ms.members[ms.pingReqs[i].source].entry.uuid == source &&
         ms.members[ms.pingReqs[i].target].entry.uuid == target {
        FirstIs(s.pingReqs, Links(s, source, target), i);
        return Some(i);
      }
      i := i + 1;
    }
    FirstNone(s.pingReqs, Links(s, source, target));
    return None;
  }

  method PingReqRemove(ms: Microswim, ping: nat)
    requires ms.Fits() && ping < ms.pingReqCount
    modifies ms`pingReqCount, ms.pingReqs
    ensures ms.Fits()
    ensures ms.Value() == old(ms.Value()).(pingReqs := RemoveAt(old(ms.Value()).pingReqs, ping))
  {
    ghost var ps := ms.pingReqs[..ms.pingReqCount];
    CloseGap(ms.pingReqs, ping, ms.pingReqCount);
    ms.pingReqCount := ms.pingReqCount - 1;
    assert ms.pingReqs[..ms.pingReqCount] == RemoveAt(ps, ping);
  }

  method DropPingReq(ms: Microswim, source: Uuid, target: Uuid)
    requires ms.Fits() && PingReqsOk(ms.members.Length, ms.Value().pingReqs)
    modifies ms`pingReqCount, ms.pingReqs
    ensures ms.Fits() && ms.Value() == Tables.DropPingReq(old(ms.Value()), source, target)
  {
    var ping := PingReqFind(ms, source, target);
    if ping.Some? {
      PingReqRemove(ms, ping.value);
    }
  }

  method PingReqAdd(ms: Microswim, source: nat, target: nat)
    requires ms.Fits() && PingReqsOk(ms.members.Length, ms.Value().pingReqs)
    requires source < ms.members.Length && target < ms.members.Length
    modifies ms`pingReqCount, ms`ticks, ms.pingReqs
    ensures ms.Fits() && ms.Value() == Tables.PingReqAdd(ms.env, old(ms.Value()), source, target)
  {
    hide Tables.DropPingReq;
    var su, tu := ms.members[source].entry.uuid, ms.members[target].entry.uuid;
    DropPingReq(ms, su, tu);
    ghost var ps := ms.Value().pingReqs;
    if su != BLANK && tu != BLANK {
      if ms.pingReqCount < ms.env.cfg.maxPings {
        var now := ms.Milliseconds();
        ms.pingReqs[ms.pingReqCount] := PingReq(target, source, now + ms.env.cfg.protocolMs);
        ms.pingReqCount := ms.pingReqCount + 1;
        assert ms.pingReqs[..ms.pingReqCount] == ps + [ms.pingReqs[ms.pingReqCount - 1]];
      }
    }
  }

  method PingReqsCheck(ms: Microswim)
    requires ms.Fits()
    modifies ms`pingReqCount, ms`ticks, ms.pingReqs
    ensures ms.Fits() && ms.Value() == PingReqsFrom(ms.env, old(ms.Value()), 0)
  {
    hide PingReqsFrom;
    var i := 0;
    while i < ms.pingReqCount
      invariant ms.Fits()
      invariant PingReqsFrom(ms.env, ms.Value(), i) == PingReqsFrom(ms.env, old(ms.Value()), 0)
      decreases ms.pingReqCount - i
    {
      SweepStep(ms.env, ms.Value(), i);
      var now := ms.Milliseconds();
      if ms.pingReqs[i].timeout < now {
        PingReqRemove(ms, i);
      }
      i := i + 1;
    }
    SweepEnd(ms.env, ms.Value(), i);
  }

  lemma SweepEnd(env: Env, s: State, i: nat)
    requires i >= |s.pingReqs|
    ensures PingReqsFrom(env, s, i) == s
  {
  }

  lemma SweepStep(env: Env, s: State, i: nat)
    requires i < |s.pingReqs|
    ensures var t := s.(ticks := s.ticks + 1);
      PingReqsFrom(env, s, i) == PingReqsFrom(env,
        if s.pingReqs[i].timeout < env.clock(s.ticks) then t.(pingReqs := RemoveAt(s.pingReqs, i)) else t, i + 1)
  {
  }
}
