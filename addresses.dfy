/** The addresses a rotation carries over from the old instance to the new one
    (billowRotate.py:934-1061): the elastic IPs and the secondary private IPs, putting them
    back, and the repair pass for secondary IPs that could not be put back. The provider's
    answers are parameters. */
module Addresses {
  import opened Wrappers
  import opened Snapshots
  import opened Util

  /** An elastic IP as the provider describes it. */
  datatype ElasticIp = ElasticIp(publicIp: string, privateIp: string, instanceId: string, allocationId: string,
                                 associationId: string, interfaceId: string)

  /** A secondary private IP of an interface. */
  datatype SecondaryIp = SecondaryIp(ip: string, instanceId: string, interfaceId: string)

  // ---------------------------------------------------------------------------
  // get_elasticips (billowRotate.py:934-966)

  /** The public addresses of the interfaces owned by an account rather than by 'amazon',
      in interface order. An interface without an owner is skipped. */
  function OwnedPublicIps(ifs: seq<NetIf>): seq<string>
    decreases |ifs|
  {
    if ifs == [] then []
    else (if ifs[0].owner.Some? && ifs[0].owner.value != "amazon" then [ifs[0].publicIp] else [])
         + OwnedPublicIps(ifs[1..])
  }

  lemma {:induction false} OwnedPublicIpsSpec(ifs: seq<NetIf>)
    ensures |OwnedPublicIps(ifs)| <= |ifs|
    ensures OwnedPublicIps(ifs) == [] <==> forall j :: 0 <= j < |ifs| ==> !(ifs[j].owner.Some? && ifs[j].owner.value != "amazon")
    ensures forall a :: a in OwnedPublicIps(ifs) <==>
              exists j :: 0 <= j < |ifs| && ifs[j].owner.Some? && ifs[j].owner.value != "amazon" && ifs[j].publicIp == a
    decreases |ifs|
  {
    if ifs != [] {
      OwnedPublicIpsSpec(ifs[1..]);
      assert forall j :: 1 <= j < |ifs| ==> ifs[1..][j - 1] == ifs[j];
    }
  }

  /** The address list get_elasticips asks the provider about, or None when it asks
      nothing: no group or no instance with that id, or no account-owned interface. */
  function ElasticQuery(view: ServiceView, id: string): Option<seq<string>>
  {
    match FindInstance(view.groups, id)
    case None => None
    case Some((g, i)) =>
      var addrs := OwnedPublicIps(view.groups[g].members[i].interfaces);
      if addrs == [] then None else Some(addrs)
  }

  /** The elastic IPs of the instance: what the provider answers about the query, or []
      when no query is made. */
  function ElasticIps(view: ServiceView, id: string, lookup: seq<string> -> seq<ElasticIp>): seq<ElasticIp>
  {
    match ElasticQuery(view, id)
    case None => []
    case Some(addrs) => lookup(addrs)
  }

  /** The query holds only account-owned public addresses of the instance, and there is a
      query exactly when the instance has one. */
  lemma ElasticQuerySpec(view: ServiceView, id: string)
    ensures ElasticQuery(view, id).Some? <==>
              FindInstance(view.groups, id).Some?
              && var (g, i) := FindInstance(view.groups, id).value;
                 exists j :: 0 <= j < |view.groups[g].members[i].interfaces|
                             && view.groups[g].members[i].interfaces[j].owner.Some?
                             && view.groups[g].members[i].interfaces[j].owner.value != "amazon"
    ensures ElasticQuery(view, id).Some? ==>
              var (g, i) := FindInstance(view.groups, id).value;
              var ifs := view.groups[g].members[i].interfaces;
              ElasticQuery(view, id).value != []
              && forall a :: a in ElasticQuery(view, id).value <==>
                   exists j :: 0 <= j < |ifs| && ifs[j].owner.Some? && ifs[j].owner.value != "amazon" && ifs[j].publicIp == a
  {
    match FindInstance(view.groups, id)
    case None =>
    case Some((g, i)) =>
      var ifs := view.groups[g].members[i].interfaces;
      OwnedPublicIpsSpec(ifs);
      if exists j :: 0 <= j < |ifs| && ifs[j].owner.Some? && ifs[j].owner.value != "amazon" {
        var j :| 0 <= j < |ifs| && ifs[j].owner.Some? && ifs[j].owner.value != "amazon";
        assert ifs[j].publicIp in OwnedPublicIps(ifs);
        assert ElasticQuery(view, id).Some?;
      }
  }

  /** get_elasticips' loop over the interfaces. */
  method OwnedLoop(ifs: seq<NetIf>) returns (addrs: seq<string>)
    ensures addrs == OwnedPublicIps(ifs)
  {
    addrs := [];
    for j := 0 to |ifs|
      invariant addrs + OwnedPublicIps(ifs[j..]) == OwnedPublicIps(ifs)
    {
      OwnedStep(ifs, j);
      if ifs[j].owner.Some? && ifs[j].owner.value != "amazon" {
        AppendAssoc(addrs, [ifs[j].publicIp], OwnedPublicIps(ifs[j + 1..]));
        addrs := addrs + [ifs[j].publicIp];
      }
    }
    assert ifs[|ifs|..] == [];
  }

  /** The loop's step: interface j's address, when owned, comes before the rest. */
  lemma OwnedStep(ifs: seq<NetIf>, j: nat)
    requires j < |ifs|
    ensures OwnedPublicIps(ifs[j..])
            == (if ifs[j].owner.Some? && ifs[j].owner.value != "amazon" then [ifs[j].publicIp] else [])
               + OwnedPublicIps(ifs[j + 1..])
  {
    assert ifs[j..][1..] == ifs[j + 1..];
  }

  /** get_elasticips, with the query it sends the provider. */
  method GetElasticIps(view: ServiceView, id: string, lookup: seq<string> -> seq<ElasticIp>)
      returns (ips: seq<ElasticIp>, query: Option<seq<string>>)
    ensures query == ElasticQuery(view, id)
    ensures ips == ElasticIps(view, id, lookup)
  {
    var found := FindInstance(view.groups, id);
    if found.None? {
      return [], None;
    }
    var (g, i) := found.value;
    var addrs := OwnedLoop(view.groups[g].members[i].interfaces);
    if addrs == [] {
      return [], None;
    }
    ips := [];
    var answer := lookup(addrs);
    for k := 0 to |answer|
      invariant ips == answer[..k]
    {
      var a := answer[k];
      ips := ips + [ElasticIp(a.publicIp, a.privateIp, a.instanceId, a.allocationId, a.associationId, a.interfaceId)];
    }
    assert answer[..|answer|] == answer;
    query := Some(addrs);
  }

  // ---------------------------------------------------------------------------
  // get_secondaryips (billowRotate.py:987-1008)

  /** One interface's listed private addresses other than its primary one. */
  function IfaceSecondaries(instanceId: string, n: NetIf): seq<SecondaryIp>
  {
    match n.privateIps
    case None => []
    case Some(ips) => Others(instanceId, n, ips)
  }

  function Others(instanceId: string, n: NetIf, ips: seq<string>): seq<SecondaryIp>
    decreases |ips|
  {
    if ips == [] then []
    else (if ips[0] != n.privateIp then [SecondaryIp(ips[0], instanceId, n.id)] else []) + Others(instanceId, n, ips[1..])
  }

  /** Every interface's secondaries, in interface order. */
  function AllSecondaries(instanceId: string, ifs: seq<NetIf>): seq<SecondaryIp>
    decreases |ifs|
  {
    if ifs == [] then [] else IfaceSecondaries(instanceId, ifs[0]) + AllSecondaries(instanceId, ifs[1..])
  }

  /** The secondary private IPs of the instance, or [] when no group or instance has the
      id. */
  function SecondaryIps(view: ServiceView, id: string): seq<SecondaryIp>
  {
    match FindInstance(view.groups, id)
    case None => []
    case Some((g, i)) => AllSecondaries(view.groups[g].members[i].id, view.groups[g].members[i].interfaces)
  }

  lemma {:induction false} OthersSpec(instanceId: string, n: NetIf, ips: seq<string>)
    ensures forall s :: s in Others(instanceId, n, ips) <==>
              s.ip in ips && s.ip != n.privateIp && s.instanceId == instanceId && s.interfaceId == n.id
    ensures |Others(instanceId, n, ips)| == |ips| - multiset(ips)[n.privateIp]
    decreases |ips|
  {
    if ips != [] {
      OthersSpec(instanceId, n, ips[1..]);
      assert ips == [ips[0]] + ips[1..];
      assert multiset(ips) == multiset([ips[0]]) + multiset(ips[1..]);
    }
  }

  /** An interface lists the address without it being that interface's primary one. */
  predicate Secondary(ifs: seq<NetIf>, s: SecondaryIp)
  {
    exists j :: 0 <= j < |ifs| && ifs[j].privateIps.Some? && s.ip in ifs[j].privateIps.value
                && s.ip != ifs[j].privateIp && s.interfaceId == ifs[j].id
  }

  /** The secondaries are exactly the listed addresses that differ from their interface's
      primary, each with its interface and the instance. */
  lemma {:induction false} AllSecondariesSpec(instanceId: string, ifs: seq<NetIf>)
    ensures forall s :: s in AllSecondaries(instanceId, ifs) <==> s.instanceId == instanceId && Secondary(ifs, s)
    decreases |ifs|
  {
    if ifs != [] {
      AllSecondariesSpec(instanceId, ifs[1..]);
      if ifs[0].privateIps.Some? {
        OthersSpec(instanceId, ifs[0], ifs[0].privateIps.value);
      }
      forall s ensures Secondary(ifs, s) <==>
          (ifs[0].privateIps.Some? && s.ip in ifs[0].privateIps.value && s.ip != ifs[0].privateIp && s.interfaceId == ifs[0].id)
          || Secondary(ifs[1..], s) {
        if Secondary(ifs, s) {
          var j :| 0 <= j < |ifs| && ifs[j].privateIps.Some? && s.ip in ifs[j].privateIps.value
                   && s.ip != ifs[j].privateIp && s.interfaceId == ifs[j].id;
          if j > 0 {
            assert ifs[1..][j - 1] == ifs[j];
          }
        }
        if Secondary(ifs[1..], s) {
          var j :| 0 <= j < |ifs[1..]| && ifs[1..][j].privateIps.Some? && s.ip in ifs[1..][j].privateIps.value
                   && s.ip != ifs[1..][j].privateIp && s.interfaceId == ifs[1..][j].id;
          assert ifs[1..][j] == ifs[j + 1];
        }
      }
    }
  }

  /** get_secondaryips returns every private address of an interface but its primary, and
      nothing when the instance is not found. */
  lemma SecondaryIpsSpec(view: ServiceView, id: string)
    ensures FindInstance(view.groups, id).None? ==> SecondaryIps(view, id) == []
    ensures FindInstance(view.groups, id).Some? ==>
              var (g, i) := FindInstance(view.groups, id).value;
              forall s :: s in SecondaryIps(view, id) <==> s.instanceId == id && Secondary(view.groups[g].members[i].interfaces, s)
  {
    match FindInstance(view.groups, id)
    case None =>
    case Some((g, i)) =>
      AllSecondariesSpec(view.groups[g].members[i].id, view.groups[g].members[i].interfaces);
  }

  method OthersLoop(instanceId: string, n: NetIf, ips: seq<string>) returns (out: seq<SecondaryIp>)
    ensures out == Others(instanceId, n, ips)
  {
    out := [];
    for k := 0 to |ips|
      invariant out + Others(instanceId, n, ips[k..]) == Others(instanceId, n, ips)
    {
      OthersStep(instanceId, n, ips, k);
      var one: seq<SecondaryIp> := if ips[k] != n.privateIp then [SecondaryIp(ips[k], instanceId, n.id)] else [];
      AppendAssoc(out, one, Others(instanceId, n, ips[k + 1..]));
      out := out + one;
    }
    assert ips[|ips|..] == [];
  }

  lemma OthersStep(instanceId: string, n: NetIf, ips: seq<string>, k: nat)
    requires k < |ips|
    ensures Others(instanceId, n, ips[k..])
            == (if ips[k] != n.privateIp then [SecondaryIp(ips[k], instanceId, n.id)] else []) + Others(instanceId, n, ips[k + 1..])
  {
    assert ips[k..][1..] == ips[k + 1..];
  }

  lemma AllSecondariesStep(instanceId: string, ifs: seq<NetIf>, j: nat)
    requires j < |ifs|
    ensures AllSecondaries(instanceId, ifs[j..]) == IfaceSecondaries(instanceId, ifs[j]) + AllSecondaries(instanceId, ifs[j + 1..])
  {
    assert ifs[j..][1..] == ifs[j + 1..];
  }

  /** get_secondaryips. */
  method GetSecondaryIps(view: ServiceView, id: string) returns (addrs: seq<SecondaryIp>)
    ensures addrs == SecondaryIps(view, id)
  {
    var found := FindInstance(view.groups, id);
    if found.None? {
      return [];
    }
    var (g, i) := found.value;
    var m := view.groups[g].members[i];
    addrs := InterfacesLoop(m.id, m.interfaces);
  }

  /** The loop over the instance's interfaces. */
  method InterfacesLoop(instanceId: string, ifs: seq<NetIf>) returns (addrs: seq<SecondaryIp>)
    ensures addrs == AllSecondaries(instanceId, ifs)
  {
    addrs := [];
    for j := 0 to |ifs|
      invariant addrs + AllSecondaries(instanceId, ifs[j..]) == AllSecondaries(instanceId, ifs)
    {
      AllSecondariesStep(instanceId, ifs, j);
      var n := ifs[j];
      var more: seq<SecondaryIp> := [];
      if n.privateIps.Some? {
        more := OthersLoop(instanceId, n, n.privateIps.value);
      }
      AppendAssoc(addrs, more, AllSecondaries(instanceId, ifs[j + 1..]));
      addrs := addrs + more;
    }
    assert ifs[|ifs|..] == [];
  }

  // ---------------------------------------------------------------------------
  // put_elasticip, put_secondaryip (billowRotate.py:968-985, 1010-1042)

  /** A provider call's answer: a value, or a provider error with its code. */
  datatype Reply = Answer(ok: bool) | Error(code: string)

  /** put_elasticip: the instance must be found and have an interface; the provider
      associates the allocation with its first interface. */
  function PutElasticIp(view: ServiceView, associate: (string, string, string) -> bool, id: string, allocation: string): bool
  {
    match FindInstance(view.groups, id)
    case None => false
    case Some((g, i)) =>
      var ifs := view.groups[g].members[i].interfaces;
      ifs != [] && associate(allocation, id, ifs[0].id)
  }

  /** put_secondaryip: an empty address is refused before anything else; then the instance
      must be found and have an interface, and the provider is asked to assign the address
      to its first interface. An InvalidParameterValue error is logged and taken as a
      refusal; any other provider error propagates. */
  function PutSecondaryIp(view: ServiceView, assign: (string, string) -> Reply, id: string, ip: string): Reply
  {
    if ip == "" then Answer(false)
    else match FindInstance(view.groups, id)
      case None => Answer(false)
      case Some((g, i)) =>
        var ifs := view.groups[g].members[i].interfaces;
        if ifs == [] then Answer(false)
        else match assign(ifs[0].id, ip)
          case Answer(ok) => Answer(ok)
          case Error(code) => if code == "InvalidParameterValue" then Answer(false) else Error(code)
  }

  /** The provider took the address. */
  predicate Taken(view: ServiceView, assign: (string, string) -> Reply, id: string, ip: string)
  {
    PutSecondaryIp(view, assign, id, ip) == Answer(true)
  }

  /** The first interface of the instance the lookups find, when it has one. */
  function FirstInterface(view: ServiceView, id: string): Option<string>
  {
    match FindInstance(view.groups, id)
    case None => None
    case Some((g, i)) =>
      var ifs := view.groups[g].members[i].interfaces;
      if ifs == [] then None else Some(ifs[0].id)
  }

  /** A put on an instance no group holds, or of an empty secondary address, is refused
      without asking the provider. An elastic put that succeeds went to the first
      interface of the instance the lookups found. A secondary put that is not a refusal
      answers what the provider answered for that interface; the one provider error it
      turns into a refusal is InvalidParameterValue, and every other error propagates. */
  lemma PutAddressSpec(view: ServiceView, associate: (string, string, string) -> bool, assign: (string, string) -> Reply,
                       id: string, allocation: string, ip: string)
    ensures FindGroup(view.groups, id).None? ==>
              !PutElasticIp(view, associate, id, allocation) && PutSecondaryIp(view, assign, id, ip) == Answer(false)
    ensures ip == "" ==> PutSecondaryIp(view, assign, id, ip) == Answer(false)
    ensures PutElasticIp(view, associate, id, allocation) ==>
              FirstInterface(view, id).Some? && associate(allocation, id, FirstInterface(view, id).value)
    ensures PutSecondaryIp(view, assign, id, ip) != Answer(false) ==>
              ip != "" && FirstInterface(view, id).Some?
              && PutSecondaryIp(view, assign, id, ip) == assign(FirstInterface(view, id).value, ip)
    ensures ip != "" && FirstInterface(view, id).Some? && assign(FirstInterface(view, id).value, ip).Error? ==>
              (PutSecondaryIp(view, assign, id, ip).Error?
               <==> assign(FirstInterface(view, id).value, ip).code != "InvalidParameterValue")
    ensures PutSecondaryIp(view, assign, id, ip).Error? ==> PutSecondaryIp(view, assign, id, ip).code != "InvalidParameterValue"
  {
  }

  // ---------------------------------------------------------------------------
  // finalize_secondaryip (billowRotate.py:1044-1061)

  /** An interface with no listed private addresses. It only triggers a repair attempt:
      the put itself goes to the instance's first interface, as every put_secondaryip does. */
  predicate Free(n: NetIf)
  {
    n.privateIps.None? || |n.privateIps.value| == 0
  }

  function FreeIn(id: string, ifs: seq<NetIf>): seq<string>
    decreases |ifs|
  {
    if ifs == [] then [] else (if Free(ifs[0]) then [id] else []) + FreeIn(id, ifs[1..])
  }

  function MemberSlots(ms: seq<Member>): seq<string>
    decreases |ms|
  {
    if ms == [] then [] else FreeIn(ms[0].id, ms[0].interfaces) + MemberSlots(ms[1..])
  }

  function GroupSlots(gs: seq<GroupSnap>): seq<string>
    decreases |gs|
  {
    if gs == [] then [] else MemberSlots(gs[0].members) + GroupSlots(gs[1..])
  }

  /** The repair slots in the order the pass visits them: for each free interface of each
      instance of each group, the instance's id (the put then goes to that instance's
      first interface). */
  function Slots(view: ServiceView): seq<string>
  {
    GroupSlots(view.groups)
  }

  /** Where the repair pass stands: the failed addresses left, and the code of the provider
      error that ended the pass, if one did. */
  datatype Repaired = Repaired(left: seq<string>, raised: Option<string>)

  /** One free interface: failed addresses are put, in order, on the instance's first
      interface; the first one the provider takes is removed from the list, and a provider
      error ends the pass with the list as it was. */
  function RepairSlot(view: ServiceView, assign: (string, string) -> Reply, failures: seq<string>, id: string): Repaired
    decreases |failures|
  {
    if failures == [] then Repaired([], None)
    else match PutSecondaryIp(view, assign, id, failures[0])
      case Error(code) => Repaired(failures, Some(code))
      case Answer(ok) =>
        if ok then Repaired(failures[1..], None)
        else
          var rest := RepairSlot(view, assign, failures[1..], id);
          Repaired([failures[0]] + rest.left, rest.raised)
  }

  /** The failed addresses left after trying each slot in turn, unless a provider error
      ended the pass first. */
  function Repair(view: ServiceView, assign: (string, string) -> Reply, failures: seq<string>, slots: seq<string>): Repaired
    decreases |slots|
  {
    if slots == [] then Repaired(failures, None)
    else
      var r := RepairSlot(view, assign, failures, slots[0]);
      if r.raised.Some? then r else Repair(view, assign, r.left, slots[1..])
  }

  /** The pass goes on over more slots unless it has already raised. */
  function RepairOn(view: ServiceView, assign: (string, string) -> Reply, r: Repaired, slots: seq<string>): Repaired
  {
    if r.raised.Some? then r else Repair(view, assign, r.left, slots)
  }

  /** A slot removes at most one address, and only one the provider took; if the provider
      takes none, the list is unchanged. */
  lemma {:induction false} RepairSlotSpec(view: ServiceView, assign: (string, string) -> Reply, failures: seq<string>, id: string)
    ensures multiset(RepairSlot(view, assign, failures, id).left) <= multiset(failures)
    ensures |failures| - 1 <= |RepairSlot(view, assign, failures, id).left| <= |failures|
    ensures forall p :: p in failures && p !in RepairSlot(view, assign, failures, id).left ==> Taken(view, assign, id, p)
    ensures (forall p :: p in failures ==> !Taken(view, assign, id, p)) ==> RepairSlot(view, assign, failures, id).left == failures
    decreases |failures|
  {
    if failures != [] {
      var p, tail := failures[0], failures[1..];
      assert failures == [p] + tail;
      var put := PutSecondaryIp(view, assign, id, p);
      if put.Answer? && !put.ok {
        RepairSlotSpec(view, assign, tail, id);
        var rest := RepairSlot(view, assign, tail, id);
        assert RepairSlot(view, assign, failures, id).left == [p] + rest.left;
        assert multiset(failures) == multiset([p]) + multiset(tail);
        assert multiset([p] + rest.left) == multiset([p]) + multiset(rest.left);
      } else if put.Answer? {
        assert RepairSlot(view, assign, failures, id).left == tail;
        assert p in failures && Taken(view, assign, id, p);
        assert multiset(failures) == multiset([p]) + multiset(tail);
      } else {
        assert RepairSlot(view, assign, failures, id).left == failures;
      }
    }
  }

  /** A slot that raises leaves the list as it was, and the error comes from a put of one
      of its addresses; without such an error the slot does not raise. */
  lemma {:induction false} RepairSlotRaises(view: ServiceView, assign: (string, string) -> Reply, failures: seq<string>, id: string)
    ensures RepairSlot(view, assign, failures, id).raised.Some? ==>
              RepairSlot(view, assign, failures, id).left == failures && failures != []
              && exists p :: p in failures && PutSecondaryIp(view, assign, id, p) == Error(RepairSlot(view, assign, failures, id).raised.value)
    ensures (forall p :: p in failures ==> !PutSecondaryIp(view, assign, id, p).Error?) ==> RepairSlot(view, assign, failures, id).raised.None?
    decreases |failures|
  {
    if failures != [] {
      var p, tail := failures[0], failures[1..];
      var put := PutSecondaryIp(view, assign, id, p);
      if put.Answer? && !put.ok {
        RepairSlotRaises(view, assign, tail, id);
        var rest := RepairSlot(view, assign, tail, id);
        assert RepairSlot(view, assign, failures, id) == Repaired([p] + rest.left, rest.raised);
        if rest.raised.Some? {
          var x :| x in tail && PutSecondaryIp(view, assign, id, x) == Error(rest.raised.value);
          assert x in failures;
          assert [p] + tail == failures;
        }
      }
    }
  }

  /** The repair pass keeps a sub-multiset of the failed addresses, losing at most one per
      slot; an address it drops was taken by the provider for some slot; and if the
      provider takes nothing, every failed address remains. */
  lemma {:induction false} RepairSpec(view: ServiceView, assign: (string, string) -> Reply, failures: seq<string>, slots: seq<string>)
    ensures multiset(Repair(view, assign, failures, slots).left) <= multiset(failures)
    ensures |failures| - |slots| <= |Repair(view, assign, failures, slots).left| <= |failures|
    ensures forall p :: p in failures && p !in Repair(view, assign, failures, slots).left ==>
              exists k :: 0 <= k < |slots| && Taken(view, assign, slots[k], p)
    ensures (forall k, p :: 0 <= k < |slots| && p in failures ==> !Taken(view, assign, slots[k], p)) ==>
              Repair(view, assign, failures, slots).left == failures
    decreases |slots|
  {
    if slots != [] {
      var next := RepairSlot(view, assign, failures, slots[0]);
      RepairSlotSpec(view, assign, failures, slots[0]);
      if next.raised.None? {
        RepairSpec(view, assign, next.left, slots[1..]);
        RepairNext(view, assign, failures, slots, next);
      }
    }
  }

  /** RepairSpec's step when the first slot does not raise. */
  lemma RepairNext(view: ServiceView, assign: (string, string) -> Reply, failures: seq<string>, slots: seq<string>, next: Repaired)
    requires slots != [] && next == RepairSlot(view, assign, failures, slots[0]) && next.raised.None?
    requires multiset(next.left) <= multiset(failures) && |failures| - 1 <= |next.left| <= |failures|
    requires forall p :: p in failures && p !in next.left ==> Taken(view, assign, slots[0], p)
    requires (forall p :: p in failures ==> !Taken(view, assign, slots[0], p)) ==> next.left == failures
    requires var r := Repair(view, assign, next.left, slots[1..]);
             multiset(r.left) <= multiset(next.left)
             && |next.left| - |slots[1..]| <= |r.left| <= |next.left|
             && (forall p :: p in next.left && p !in r.left ==> exists k :: 0 <= k < |slots[1..]| && Taken(view, assign, slots[1..][k], p))
             && ((forall k, p :: 0 <= k < |slots[1..]| && p in next.left ==> !Taken(view, assign, slots[1..][k], p)) ==> r.left == next.left)
    ensures var r := Repair(view, assign, failures, slots);
            multiset(r.left) <= multiset(failures)
            && |failures| - |slots| <= |r.left| <= |failures|
            && (forall p :: p in failures && p !in r.left ==> exists k :: 0 <= k < |slots| && Taken(view, assign, slots[k], p))
            && ((forall k, p :: 0 <= k < |slots| && p in failures ==> !Taken(view, assign, slots[k], p)) ==> r.left == failures)
  {
    var rest := slots[1..];
    var r := Repair(view, assign, next.left, rest);
    assert Repair(view, assign, failures, slots) == r;
    TakenShift(view, assign, slots, failures, next.left, r.left);
    if forall k, p :: 0 <= k < |slots| && p in failures ==> !Taken(view, assign, slots[k], p) {
      assert next.left == failures;
      forall k, p | 0 <= k < |rest| && p in next.left ensures !Taken(view, assign, rest[k], p) {
        assert rest[k] == slots[k + 1];
      }
    }
  }

  /** An address dropped by the first slot or by the later ones was taken by some slot. */
  lemma TakenShift(view: ServiceView, assign: (string, string) -> Reply, slots: seq<string>, failures: seq<string>,
                   mid: seq<string>, left: seq<string>)
    requires slots != []
    requires forall p :: p in failures && p !in mid ==> Taken(view, assign, slots[0], p)
    requires forall p :: p in mid && p !in left ==> exists k :: 0 <= k < |slots[1..]| && Taken(view, assign, slots[1..][k], p)
    ensures forall p :: p in failures && p !in left ==> exists k :: 0 <= k < |slots| && Taken(view, assign, slots[k], p)
  {
    var rest := slots[1..];
    forall p | p in failures && p !in left
      ensures exists k :: 0 <= k < |slots| && Taken(view, assign, slots[k], p)
    {
      if p !in mid {
        assert Taken(view, assign, slots[0], p);
      } else {
        var k :| 0 <= k < |rest| && Taken(view, assign, rest[k], p);
        assert rest[k] == slots[k + 1];
      }
    }
  }

  /** A provider error ends the pass with addresses still left, and comes from a put of a
      failed address on one of the slots. */
  lemma {:induction false} RepairRaises(view: ServiceView, assign: (string, string) -> Reply, failures: seq<string>, slots: seq<string>)
    ensures Repair(view, assign, failures, slots).raised.Some? ==>
              Repair(view, assign, failures, slots).left != []
              && exists k, p :: 0 <= k < |slots| && p in failures
                                && PutSecondaryIp(view, assign, slots[k], p) == Error(Repair(view, assign, failures, slots).raised.value)
    decreases |slots|
  {
    if slots != [] {
      var next := RepairSlot(view, assign, failures, slots[0]);
      var rest := slots[1..];
      RepairSlotRaises(view, assign, failures, slots[0]);
      if next.raised.Some? {
        var p :| p in failures && PutSecondaryIp(view, assign, slots[0], p) == Error(next.raised.value);
        assert PutSecondaryIp(view, assign, slots[0], p) == Error(next.raised.value);
      } else {
        RepairRaises(view, assign, next.left, rest);
        var r := Repair(view, assign, next.left, rest);
        assert Repair(view, assign, failures, slots) == r;
        if r.raised.Some? {
          var k, p :| 0 <= k < |rest| && p in next.left && PutSecondaryIp(view, assign, rest[k], p) == Error(r.raised.value);
          LeftIn(view, assign, failures, slots[0], p);
          assert rest[k] == slots[k + 1];
        }
      }
    }
  }

  /** An address a slot leaves was one of the failed ones. */
  lemma LeftIn(view: ServiceView, assign: (string, string) -> Reply, failures: seq<string>, id: string, p: string)
    requires p in RepairSlot(view, assign, failures, id).left
    ensures p in failures
  {
    RepairSlotSpec(view, assign, failures, id);
    assert multiset(RepairSlot(view, assign, failures, id).left)[p] > 0;
  }

  /** Without a provider error on any put of a failed address, the pass does not raise. */
  lemma {:induction false} RepairQuiet(view: ServiceView, assign: (string, string) -> Reply, failures: seq<string>, slots: seq<string>)
    requires forall k, p :: 0 <= k < |slots| && p in failures ==> !PutSecondaryIp(view, assign, slots[k], p).Error?
    ensures Repair(view, assign, failures, slots).raised.None?
    decreases |slots|
  {
    if slots != [] {
      var next := RepairSlot(view, assign, failures, slots[0]);
      var rest := slots[1..];
      assert forall p :: p in failures ==> !PutSecondaryIp(view, assign, slots[0], p).Error?;
      RepairSlotRaises(view, assign, failures, slots[0]);
      forall k, p | 0 <= k < |rest| && p in next.left ensures !PutSecondaryIp(view, assign, rest[k], p).Error? {
        LeftIn(view, assign, failures, slots[0], p);
        assert rest[k] == slots[k + 1];
      }
      RepairQuiet(view, assign, next.left, rest);
    }
  }

  /** The pass over an empty failure list does nothing. */
  lemma {:induction false} RepairNothing(view: ServiceView, assign: (string, string) -> Reply, slots: seq<string>)
    ensures Repair(view, assign, [], slots) == Repaired([], None)
    decreases |slots|
  {
    if slots != [] {
      RepairNothing(view, assign, slots[1..]);
    }
  }

  /** Trying the addresses in order and removing the first one taken is RepairSlot: an
      earlier copy of the address taken would have been taken first. */
  lemma {:induction false} RemoveTaken(view: ServiceView, assign: (string, string) -> Reply, failures: seq<string>, id: string, k: nat)
    requires k < |failures|
    requires forall j :: 0 <= j < k ==> PutSecondaryIp(view, assign, id, failures[j]) == Answer(false)
    requires Taken(view, assign, id, failures[k])
    ensures RepairSlot(view, assign, failures, id) == Repaired(RemoveFirst(failures, failures[k]), None)
    decreases k
  {
    if k > 0 {
      assert failures[0] != failures[k];
      assert forall j :: 0 <= j < k - 1 ==> failures[1..][j] == failures[j + 1];
      RemoveTaken(view, assign, failures[1..], id, k - 1);
      RefusedHead(view, assign, failures, id);
    }
  }

  /** Trying the addresses in order up to one whose put raises is RepairSlot raising that
      error with the list unchanged. */
  lemma {:induction false} RaisedAt(view: ServiceView, assign: (string, string) -> Reply, failures: seq<string>, id: string, k: nat)
    requires k < |failures|
    requires forall j :: 0 <= j < k ==> PutSecondaryIp(view, assign, id, failures[j]) == Answer(false)
    requires PutSecondaryIp(view, assign, id, failures[k]).Error?
    ensures RepairSlot(view, assign, failures, id) == Repaired(failures, Some(PutSecondaryIp(view, assign, id, failures[k]).code))
    decreases k
  {
    if k > 0 {
      var tail := failures[1..];
      assert forall j :: 0 <= j < k - 1 ==> tail[j] == failures[j + 1];
      assert tail[k - 1] == failures[k];
      RaisedAt(view, assign, tail, id, k - 1);
      RefusedHead(view, assign, failures, id);
      assert [failures[0]] + tail == failures;
    }
  }

  /** A refused first address stays in front of what the rest of the slot leaves. */
  lemma RefusedHead(view: ServiceView, assign: (string, string) -> Reply, failures: seq<string>, id: string)
    requires failures != [] && PutSecondaryIp(view, assign, id, failures[0]) == Answer(false)
    ensures var rest := RepairSlot(view, assign, failures[1..], id);
            RepairSlot(view, assign, failures, id) == Repaired([failures[0]] + rest.left, rest.raised)
  {
  }

  /** Trying no address that is taken, and none whose put raises, leaves the list as it
      was. */
  lemma {:induction false} NoneTaken(view: ServiceView, assign: (string, string) -> Reply, failures: seq<string>, id: string)
    requires forall j :: 0 <= j < |failures| ==> PutSecondaryIp(view, assign, id, failures[j]) == Answer(false)
    ensures RepairSlot(view, assign, failures, id) == Repaired(failures, None)
    decreases |failures|
  {
    if failures != [] {
      assert forall j :: 0 <= j < |failures[1..]| ==> failures[1..][j] == failures[j + 1];
      NoneTaken(view, assign, failures[1..], id);
      RefusedHead(view, assign, failures, id);
      assert [failures[0]] + failures[1..] == failures;
    }
  }

  /** Repairing over a concatenation of slots is two repairs in a row, the second only
      when the first did not raise. */
  lemma {:induction false} RepairAppend(view: ServiceView, assign: (string, string) -> Reply, failures: seq<string>, a: seq<string>, b: seq<string>)
    ensures Repair(view, assign, failures, a + b) == RepairOn(view, assign, Repair(view, assign, failures, a), b)
    decreases |a|
  {
    if a != [] {
      assert (a + b)[0] == a[0] && (a + b)[1..] == a[1..] + b;
      var r := RepairSlot(view, assign, failures, a[0]);
      if r.raised.None? {
        RepairAppend(view, assign, r.left, a[1..], b);
      }
    } else {
      assert a + b == b;
    }
  }
}
