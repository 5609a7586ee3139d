/** The advisory safety analysis of billowRotate (billowRotate.py:38-92): a list of
    warnings about what a rotation of the service would put at risk. It only reads the
    snapshot, so calling it again on the same service gives the same list. */
module Safety {
  import opened Wrappers
  import opened Services
  import opened Snapshots

  /** The five kinds of warning, each naming the group it is about. */
  datatype Warning =
    | NoInstances(group: string)
    | ReducedRedundancy(group: string, zone: string)
    | TemporaryOutage(group: string)
    | DeadEnd(group: string, zone: string)
    | SecondaryIp(group: string, instanceId: string, ip: string)

  // ---------------------------------------------------------------------------
  // The zone-count dict (billowRotate.py:55-59)

  /** The keys of the zone-count dict in insertion order: each zone once, where it first
      appears among the members. */
  function Zones(ms: seq<Member>): seq<string>
    decreases |ms|
  {
    if ms == [] then []
    else
      var z := Zones(ms[..|ms| - 1]);
      if ms[|ms| - 1].zone in z then z else z + [ms[|ms| - 1].zone]
  }

  /** The value the zone-count dict holds for a zone. */
  function Count(ms: seq<Member>, zone: string): nat
    decreases |ms|
  {
    if ms == [] then 0
    else Count(ms[..|ms| - 1], zone) + (if ms[|ms| - 1].zone == zone then 1 else 0)
  }

  /** Some member is in the zone. */
  predicate Present(ms: seq<Member>, zone: string)
  {
    exists i :: 0 <= i < |ms| && ms[i].zone == zone
  }

  /** Each zone is a key once, the keys are exactly the members' zones, and a zone's count
      is positive exactly when it is a key. */
  lemma {:induction false} ZonesSpec(ms: seq<Member>)
    ensures NoDup(Zones(ms))
    ensures forall z :: z in Zones(ms) <==> Count(ms, z) > 0
    ensures forall z :: Count(ms, z) > 0 <==> Present(ms, z)
    decreases |ms|
  {
    if ms != [] {
      var init := ms[..|ms| - 1];
      var last := ms[|ms| - 1];
      ZonesSpec(init);
      assert forall i :: 0 <= i < |init| ==> init[i] == ms[i];
      forall z ensures Present(ms, z) <==> Present(init, z) || last.zone == z {
        if Present(ms, z) {
          var i :| 0 <= i < |ms| && ms[i].zone == z;
          if i < |init| {
            assert init[i].zone == z;
          }
        }
        if Present(init, z) {
          var i :| 0 <= i < |init| && init[i].zone == z;
          assert ms[i].zone == z;
        }
      }
    }
  }

  /** The loop that builds the zone-count dict: its keys in order and its values. */
  method ZoneCounts(ms: seq<Member>) returns (order: seq<string>, counts: map<string, nat>)
    ensures order == Zones(ms)
    ensures forall z :: z in counts <==> z in order
    ensures forall z :: z in counts ==> counts[z] == Count(ms, z)
  {
    order := [];
    counts := map[];
    for i := 0 to |ms|
      invariant order == Zones(ms[..i])
      invariant forall z :: z in counts <==> z in order
      invariant forall z :: z in counts ==> counts[z] == Count(ms[..i], z)
    {
      assert ms[..i + 1][..i] == ms[..i];
      ZonesSpec(ms[..i]);
      var z := ms[i].zone;
      if z !in counts {
        order := order + [z];
        counts := counts[z := 0];
      }
      counts := counts[z := counts[z] + 1];
    }
    assert ms[..|ms|] == ms;
  }

  // ---------------------------------------------------------------------------
  // Checks 2, 4 and 5, one list each

  /** Check 2: each zone, in key order, holding at most two of the group's instances. */
  function Reduced(group: string, order: seq<string>, ms: seq<Member>): seq<Warning>
    decreases |order|
  {
    if order == [] then []
    else (if Count(ms, order[0]) <= 2 then [ReducedRedundancy(group, order[0])] else [])
         + Reduced(group, order[1..], ms)
  }

  /** Check 4 for one balancer's zones: a zone that is a key and holds at most one
      instance. */
  function ZoneDeadEnds(group: string, zones: seq<string>, ms: seq<Member>): seq<Warning>
    decreases |zones|
  {
    if zones == [] then []
    else (if zones[0] in Zones(ms) && Count(ms, zones[0]) <= 1 then [DeadEnd(group, zones[0])] else [])
         + ZoneDeadEnds(group, zones[1..], ms)
  }

  /** Check 4: every balancer without cross-zone balancing. */
  function DeadEnds(group: string, bs: seq<BalancerSnap>, ms: seq<Member>): seq<Warning>
    decreases |bs|
  {
    if bs == [] then []
    else (if !bs[0].crossZone then ZoneDeadEnds(group, bs[0].zones, ms) else [])
         + DeadEnds(group, bs[1..], ms)
  }

  /** Check 5 for one instance: an interface listing private addresses while the group
      spans more than one subnet, reported with the first address listed. */
  function IfaceWarnings(group: string, subnets: seq<string>, id: string, ifs: seq<NetIf>): seq<Warning>
    decreases |ifs|
  {
    if ifs == [] then []
    else (if |subnets| > 1 && ifs[0].privateIps.Some? && |ifs[0].privateIps.value| > 0
          then [SecondaryIp(group, id, ifs[0].privateIps.value[0])] else [])
         + IfaceWarnings(group, subnets, id, ifs[1..])
  }

  /** Check 5 over the group's instances. */
  function Secondaries(group: string, subnets: seq<string>, ms: seq<Member>): seq<Warning>
    decreases |ms|
  {
    if ms == [] then []
    else IfaceWarnings(group, subnets, ms[0].id, ms[0].interfaces) + Secondaries(group, subnets, ms[1..])
  }

  /** One group's warnings, checks 1 to 5 in order. */
  function GroupWarnings(g: GroupSnap, bs: seq<BalancerSnap>): seq<Warning>
  {
    (if |g.members| == 0 then [NoInstances(g.name)] else [])
    + Reduced(g.name, Zones(g.members), g.members)
    + (if g.curSize == 1 && g.maxSize == 1 then [TemporaryOutage(g.name)] else [])
    + DeadEnds(g.name, bs, g.members)
    + Secondaries(g.name, g.subnets, g.members)
  }

  /** The warnings of every group of the service, group by group. */
  function Warnings(view: ServiceView): seq<Warning>
  {
    AllGroups(view.groups, view.balancers)
  }

  function AllGroups(gs: seq<GroupSnap>, bs: seq<BalancerSnap>): seq<Warning>
    decreases |gs|
  {
    if gs == [] then [] else GroupWarnings(gs[0], bs) + AllGroups(gs[1..], bs)
  }

  // ---------------------------------------------------------------------------
  // What each check reports

  lemma {:induction false} ReducedSpec(group: string, order: seq<string>, ms: seq<Member>)
    ensures forall w :: w in Reduced(group, order, ms) <==>
              w.ReducedRedundancy? && w.group == group && w.zone in order && Count(ms, w.zone) <= 2
    decreases |order|
  {
    if order != [] {
      ReducedSpec(group, order[1..], ms);
      assert forall z :: z in order <==> z == order[0] || z in order[1..] by {
        assert order == [order[0]] + order[1..];
      }
    }
  }

  lemma {:induction false} ZoneDeadEndsSpec(group: string, zones: seq<string>, ms: seq<Member>)
    ensures forall w :: w in ZoneDeadEnds(group, zones, ms) <==>
              w.DeadEnd? && w.group == group && w.zone in zones && w.zone in Zones(ms) && Count(ms, w.zone) <= 1
    decreases |zones|
  {
    if zones != [] {
      ZoneDeadEndsSpec(group, zones[1..], ms);
      assert forall z :: z in zones <==> z == zones[0] || z in zones[1..] by {
        assert zones == [zones[0]] + zones[1..];
      }
    }
  }

  /** Some balancer without cross-zone balancing covers the zone. */
  predicate ZonedBalancer(bs: seq<BalancerSnap>, zone: string)
  {
    exists k :: 0 <= k < |bs| && !bs[k].crossZone && zone in bs[k].zones
  }

  lemma {:induction false} DeadEndsSpec(group: string, bs: seq<BalancerSnap>, ms: seq<Member>)
    ensures forall w :: w in DeadEnds(group, bs, ms) <==>
              w.DeadEnd? && w.group == group && ZonedBalancer(bs, w.zone) && w.zone in Zones(ms) && Count(ms, w.zone) <= 1
    decreases |bs|
  {
    if bs != [] {
      DeadEndsSpec(group, bs[1..], ms);
      ZoneDeadEndsSpec(group, bs[0].zones, ms);
      forall z ensures ZonedBalancer(bs, z) <==> (!bs[0].crossZone && z in bs[0].zones) || ZonedBalancer(bs[1..], z) {
        if ZonedBalancer(bs, z) {
          var k :| 0 <= k < |bs| && !bs[k].crossZone && z in bs[k].zones;
          if k > 0 {
            assert bs[1..][k - 1] == bs[k];
          }
        }
        if ZonedBalancer(bs[1..], z) {
          var k :| 0 <= k < |bs[1..]| && !bs[1..][k].crossZone && z in bs[1..][k].zones;
          assert bs[1..][k] == bs[k + 1];
        }
      }
    }
  }

  /** An interface of the instance lists a private address first. */
  predicate ListsFirst(ifs: seq<NetIf>, ip: string)
  {
    exists j :: 0 <= j < |ifs| && ifs[j].privateIps.Some? && |ifs[j].privateIps.value| > 0
                && ifs[j].privateIps.value[0] == ip
  }

  lemma {:induction false} IfaceWarningsSpec(group: string, subnets: seq<string>, id: string, ifs: seq<NetIf>)
    ensures forall w :: w in IfaceWarnings(group, subnets, id, ifs) <==>
              w.SecondaryIp? && w.group == group && w.instanceId == id && |subnets| > 1 && ListsFirst(ifs, w.ip)
    decreases |ifs|
  {
    if ifs != [] {
      IfaceWarningsSpec(group, subnets, id, ifs[1..]);
      forall ip ensures ListsFirst(ifs, ip) <==>
          (ifs[0].privateIps.Some? && |ifs[0].privateIps.value| > 0 && ifs[0].privateIps.value[0] == ip)
          || ListsFirst(ifs[1..], ip) {
        if ListsFirst(ifs, ip) {
          var j :| 0 <= j < |ifs| && ifs[j].privateIps.Some? && |ifs[j].privateIps.value| > 0
                   && ifs[j].privateIps.value[0] == ip;
          if j > 0 {
            assert ifs[1..][j - 1] == ifs[j];
          }
        }
        if ListsFirst(ifs[1..], ip) {
          var j :| 0 <= j < |ifs[1..]| && ifs[1..][j].privateIps.Some? && |ifs[1..][j].privateIps.value| > 0
                   && ifs[1..][j].privateIps.value[0] == ip;
          assert ifs[1..][j] == ifs[j + 1];
        }
      }
    }
  }

  /** Some instance with that id has an interface listing the address first. */
  predicate HasSecondary(ms: seq<Member>, id: string, ip: string)
  {
    exists i :: 0 <= i < |ms| && ms[i].id == id && ListsFirst(ms[i].interfaces, ip)
  }

  lemma {:induction false} SecondariesSpec(group: string, subnets: seq<string>, ms: seq<Member>)
    ensures forall w :: w in Secondaries(group, subnets, ms) <==>
              w.SecondaryIp? && w.group == group && |subnets| > 1 && HasSecondary(ms, w.instanceId, w.ip)
    decreases |ms|
  {
    if ms != [] {
      SecondariesSpec(group, subnets, ms[1..]);
      IfaceWarningsSpec(group, subnets, ms[0].id, ms[0].interfaces);
      forall id, ip ensures HasSecondary(ms, id, ip) <==>
          (ms[0].id == id && ListsFirst(ms[0].interfaces, ip)) || HasSecondary(ms[1..], id, ip) {
        if HasSecondary(ms, id, ip) {
          var i :| 0 <= i < |ms| && ms[i].id == id && ListsFirst(ms[i].interfaces, ip);
          if i > 0 {
            assert ms[1..][i - 1] == ms[i];
          }
        }
        if HasSecondary(ms[1..], id, ip) {
          var i :| 0 <= i < |ms[1..]| && ms[1..][i].id == id && ListsFirst(ms[1..][i].interfaces, ip);
          assert ms[1..][i] == ms[i + 1];
        }
      }
    }
  }

  /** A warning of a group comes from one of its five checks. */
  lemma GroupParts(g: GroupSnap, bs: seq<BalancerSnap>, w: Warning)
    ensures w in GroupWarnings(g, bs) <==>
              (w == NoInstances(g.name) && |g.members| == 0)
              || w in Reduced(g.name, Zones(g.members), g.members)
              || (w == TemporaryOutage(g.name) && g.curSize == 1 && g.maxSize == 1)
              || w in DeadEnds(g.name, bs, g.members)
              || w in Secondaries(g.name, g.subnets, g.members)
  {
  }

  /** Check 1 reports exactly a group without instances. */
  lemma GroupNoInstances(g: GroupSnap, bs: seq<BalancerSnap>, name: string)
    ensures NoInstances(name) in GroupWarnings(g, bs) <==> name == g.name && |g.members| == 0
  {
    GroupParts(g, bs, NoInstances(name));
    ReducedSpec(g.name, Zones(g.members), g.members);
    DeadEndsSpec(g.name, bs, g.members);
    SecondariesSpec(g.name, g.subnets, g.members);
  }

  /** Check 2 reports exactly each zone holding one or two of the group's instances. */
  lemma GroupReduced(g: GroupSnap, bs: seq<BalancerSnap>, name: string, zone: string)
    ensures ReducedRedundancy(name, zone) in GroupWarnings(g, bs) <==> name == g.name && 1 <= Count(g.members, zone) <= 2
  {
    GroupParts(g, bs, ReducedRedundancy(name, zone));
    ZonesSpec(g.members);
    ReducedSpec(g.name, Zones(g.members), g.members);
    DeadEndsSpec(g.name, bs, g.members);
    SecondariesSpec(g.name, g.subnets, g.members);
  }

  /** Check 3 reports exactly a group whose current and maximum size are both 1. */
  lemma GroupOutage(g: GroupSnap, bs: seq<BalancerSnap>, name: string)
    ensures TemporaryOutage(name) in GroupWarnings(g, bs) <==> name == g.name && g.curSize == 1 && g.maxSize == 1
  {
    GroupParts(g, bs, TemporaryOutage(name));
    ReducedSpec(g.name, Zones(g.members), g.members);
    DeadEndsSpec(g.name, bs, g.members);
    SecondariesSpec(g.name, g.subnets, g.members);
  }

  /** Check 4 reports exactly a zone holding a single instance of the group that a balancer
      without cross-zone balancing covers. */
  lemma GroupDeadEnd(g: GroupSnap, bs: seq<BalancerSnap>, name: string, zone: string)
    ensures DeadEnd(name, zone) in GroupWarnings(g, bs) <==> name == g.name && Count(g.members, zone) == 1 && ZonedBalancer(bs, zone)
  {
    GroupParts(g, bs, DeadEnd(name, zone));
    ZonesSpec(g.members);
    ReducedSpec(g.name, Zones(g.members), g.members);
    DeadEndsSpec(g.name, bs, g.members);
    SecondariesSpec(g.name, g.subnets, g.members);
  }

  /** Check 5 reports exactly an instance interface listing private addresses, with the
      first one, when the group spans more than one subnet. */
  lemma GroupSecondary(g: GroupSnap, bs: seq<BalancerSnap>, name: string, id: string, ip: string)
    ensures SecondaryIp(name, id, ip) in GroupWarnings(g, bs) <==> name == g.name && |g.subnets| > 1 && HasSecondary(g.members, id, ip)
  {
    GroupParts(g, bs, SecondaryIp(name, id, ip));
    ReducedSpec(g.name, Zones(g.members), g.members);
    DeadEndsSpec(g.name, bs, g.members);
    SecondariesSpec(g.name, g.subnets, g.members);
  }

  /** Each zone is reported for reduced redundancy at most once per group. */
  lemma {:induction false} ReducedOnce(group: string, order: seq<string>, ms: seq<Member>, zone: string)
    requires NoDup(order)
    ensures multiset(Reduced(group, order, ms))[ReducedRedundancy(group, zone)] <= 1
    decreases |order|
  {
    if order != [] {
      assert NoDup(order[1..]) by {
        forall i, j | 0 <= i < j < |order[1..]| ensures order[1..][i] != order[1..][j] {
          assert order[1..][i] == order[i + 1] && order[1..][j] == order[j + 1];
        }
      }
      ReducedOnce(group, order[1..], ms, zone);
      if order[0] == zone {
        ReducedSpec(group, order[1..], ms);
        assert zone !in order[1..] by {
          forall j | 0 <= j < |order[1..]| ensures order[1..][j] != zone {
            assert order[1..][j] == order[j + 1];
          }
        }
        assert ReducedRedundancy(group, zone) !in Reduced(group, order[1..], ms);
      }
    }
  }

  /** The service's warnings are its groups' warnings. */
  lemma {:induction false} AllGroupsSpec(gs: seq<GroupSnap>, bs: seq<BalancerSnap>, w: Warning)
    ensures w in AllGroups(gs, bs) <==> exists k :: 0 <= k < |gs| && w in GroupWarnings(gs[k], bs)
    decreases |gs|
  {
    if gs != [] {
      AllGroupsSpec(gs[1..], bs, w);
      if w in AllGroups(gs[1..], bs) {
        var k :| 0 <= k < |gs[1..]| && w in GroupWarnings(gs[1..][k], bs);
        assert gs[1..][k] == gs[k + 1];
      }
      if exists k :: 0 <= k < |gs| && w in GroupWarnings(gs[k], bs) {
        var k :| 0 <= k < |gs| && w in GroupWarnings(gs[k], bs);
        if k > 0 {
          assert gs[1..][k - 1] == gs[k];
        }
      }
    }
  }

  // ---------------------------------------------------------------------------
  // The loops of safety

  lemma ReducedStep(group: string, order: seq<string>, ms: seq<Member>, k: nat)
    requires k < |order|
    ensures Reduced(group, order[k..], ms)
            == (if Count(ms, order[k]) <= 2 then [ReducedRedundancy(group, order[k])] else []) + Reduced(group, order[k + 1..], ms)
  {
    assert order[k..][1..] == order[k + 1..];
  }

  lemma ZoneDeadEndsStep(group: string, zones: seq<string>, ms: seq<Member>, k: nat)
    requires k < |zones|
    ensures ZoneDeadEnds(group, zones[k..], ms)
            == (if zones[k] in Zones(ms) && Count(ms, zones[k]) <= 1 then [DeadEnd(group, zones[k])] else [])
               + ZoneDeadEnds(group, zones[k + 1..], ms)
  {
    assert zones[k..][1..] == zones[k + 1..];
  }

  lemma DeadEndsStep(group: string, bs: seq<BalancerSnap>, ms: seq<Member>, k: nat)
    requires k < |bs|
    ensures DeadEnds(group, bs[k..], ms)
            == (if !bs[k].crossZone then ZoneDeadEnds(group, bs[k].zones, ms) else []) + DeadEnds(group, bs[k + 1..], ms)
  {
    assert bs[k..][1..] == bs[k + 1..];
  }

  lemma IfaceWarningsStep(group: string, subnets: seq<string>, id: string, ifs: seq<NetIf>, k: nat)
    requires k < |ifs|
    ensures IfaceWarnings(group, subnets, id, ifs[k..])
            == (if |subnets| > 1 && ifs[k].privateIps.Some? && |ifs[k].privateIps.value| > 0
                then [SecondaryIp(group, id, ifs[k].privateIps.value[0])] else [])
               + IfaceWarnings(group, subnets, id, ifs[k + 1..])
  {
    assert ifs[k..][1..] == ifs[k + 1..];
  }

  lemma SecondariesStep(group: string, subnets: seq<string>, ms: seq<Member>, k: nat)
    requires k < |ms|
    ensures Secondaries(group, subnets, ms[k..])
            == IfaceWarnings(group, subnets, ms[k].id, ms[k].interfaces) + Secondaries(group, subnets, ms[k + 1..])
  {
    assert ms[k..][1..] == ms[k + 1..];
  }

  lemma AllGroupsStep(gs: seq<GroupSnap>, bs: seq<BalancerSnap>, k: nat)
    requires k < |gs|
    ensures AllGroups(gs[k..], bs) == GroupWarnings(gs[k], bs) + AllGroups(gs[k + 1..], bs)
  {
    assert gs[k..][1..] == gs[k + 1..];
  }

  method ReducedLoop(group: string, order: seq<string>, counts: map<string, nat>, ms: seq<Member>)
      returns (ws: seq<Warning>)
    requires forall z :: z in order ==> z in counts && counts[z] == Count(ms, z)
    ensures ws == Reduced(group, order, ms)
  {
    ws := [];
    for k := 0 to |order|
      invariant ws + Reduced(group, order[k..], ms) == Reduced(group, order, ms)
    {
      ReducedStep(group, order, ms, k);
      var one: seq<Warning> := if counts[order[k]] <= 2 then [ReducedRedundancy(group, order[k])] else [];
      AppendAssoc(ws, one, Reduced(group, order[k + 1..], ms));
      ws := ws + one;
    }
    assert order[|order|..] == [];
  }

  method ZoneLoop(group: string, zones: seq<string>, order: seq<string>, counts: map<string, nat>, ms: seq<Member>)
      returns (ws: seq<Warning>)
    requires order == Zones(ms)
    requires forall z :: z in counts <==> z in order
    requires forall z :: z in counts ==> counts[z] == Count(ms, z)
    ensures ws == ZoneDeadEnds(group, zones, ms)
  {
    ws := [];
    for k := 0 to |zones|
      invariant ws + ZoneDeadEnds(group, zones[k..], ms) == ZoneDeadEnds(group, zones, ms)
    {
      ZoneDeadEndsStep(group, zones, ms, k);
      var one: seq<Warning> := if zones[k] in counts && counts[zones[k]] <= 1 then [DeadEnd(group, zones[k])] else [];
      AppendAssoc(ws, one, ZoneDeadEnds(group, zones[k + 1..], ms));
      ws := ws + one;
    }
    assert zones[|zones|..] == [];
  }

  method DeadEndLoop(group: string, bs: seq<BalancerSnap>, order: seq<string>, counts: map<string, nat>, ms: seq<Member>)
      returns (ws: seq<Warning>)
    requires order == Zones(ms)
    requires forall z :: z in counts <==> z in order
    requires forall z :: z in counts ==> counts[z] == Count(ms, z)
    ensures ws == DeadEnds(group, bs, ms)
  {
    ws := [];
    for k := 0 to |bs|
      invariant ws + DeadEnds(group, bs[k..], ms) == DeadEnds(group, bs, ms)
    {
      DeadEndsStep(group, bs, ms, k);
      var more: seq<Warning> := [];
      if !bs[k].crossZone {
        more := ZoneLoop(group, bs[k].zones, order, counts, ms);
      }
      AppendAssoc(ws, more, DeadEnds(group, bs[k + 1..], ms));
      ws := ws + more;
    }
    assert bs[|bs|..] == [];
  }

  method IfaceLoop(group: string, subnets: seq<string>, id: string, ifs: seq<NetIf>) returns (ws: seq<Warning>)
    ensures ws == IfaceWarnings(group, subnets, id, ifs)
  {
    ws := [];
    for k := 0 to |ifs|
      invariant ws + IfaceWarnings(group, subnets, id, ifs[k..]) == IfaceWarnings(group, subnets, id, ifs)
    {
      IfaceWarningsStep(group, subnets, id, ifs, k);
      var one: seq<Warning> := if |subnets| > 1 && ifs[k].privateIps.Some? && |ifs[k].privateIps.value| > 0
                               then [SecondaryIp(group, id, ifs[k].privateIps.value[0])] else [];
      AppendAssoc(ws, one, IfaceWarnings(group, subnets, id, ifs[k + 1..]));
      ws := ws + one;
    }
    assert ifs[|ifs|..] == [];
  }

  method SecondaryLoop(group: string, subnets: seq<string>, ms: seq<Member>) returns (ws: seq<Warning>)
    ensures ws == Secondaries(group, subnets, ms)
  {
    ws := [];
    for k := 0 to |ms|
      invariant ws + Secondaries(group, subnets, ms[k..]) == Secondaries(group, subnets, ms)
    {
      SecondariesStep(group, subnets, ms, k);
      var more := IfaceLoop(group, subnets, ms[k].id, ms[k].interfaces);
      AppendAssoc(ws, more, Secondaries(group, subnets, ms[k + 1..]));
      ws := ws + more;
    }
    assert ms[|ms|..] == [];
  }

  /** The body of safety's group loop. */
  method CheckGroup(g: GroupSnap, bs: seq<BalancerSnap>) returns (ws: seq<Warning>)
    ensures ws == GroupWarnings(g, bs)
  {
    ws := [];
    if |g.members| == 0 {
      ws := ws + [NoInstances(g.name)];
    }
    var order, counts := ZoneCounts(g.members);
    var reduced := ReducedLoop(g.name, order, counts, g.members);
    ws := ws + reduced;
    if g.curSize == 1 && g.maxSize == 1 {
      ws := ws + [TemporaryOutage(g.name)];
    }
    var deadEnds := DeadEndLoop(g.name, bs, order, counts, g.members);
    ws := ws + deadEnds;
    var secondaries := SecondaryLoop(g.name, g.subnets, g.members);
    ws := ws + secondaries;
  }

  /** safety: the warnings of every group, in group order. */
  method CheckService(view: ServiceView) returns (warnings: seq<Warning>)
    ensures warnings == Warnings(view)
  {
    warnings := [];
    var gs := view.groups;
    for k := 0 to |gs|
      invariant warnings + AllGroups(gs[k..], view.balancers) == AllGroups(gs, view.balancers)
    {
      AllGroupsStep(gs, view.balancers, k);
      var ws := CheckGroup(gs[k], view.balancers);
      AppendAssoc(warnings, ws, AllGroups(gs[k + 1..], view.balancers));
      warnings := warnings + ws;
    }
    assert gs[|gs|..] == [];
  }
}
