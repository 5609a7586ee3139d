/** The records the rotation engine reads: snapshots of the service's groups, their
    instances and the service's balancers, and the lookups billowRotate uses on them. A group
    member is compared with an instance id the way billowInstance's string equality does
    ('id' or 'id:region'); the group-level settings, sizes and subnets are attributes of
    the record. These records are the interface billowRotate expects of its groups and
    balancers; billowGroup's `instances` property yields plain dicts instead. */
module Snapshots {
  import opened Wrappers
  import opened Instances

  /** A network interface as the instance lists it. A dict key that may be absent is an
      Option: 'owner' and 'private_ip_addresses'. */
  datatype NetIf = NetIf(id: string, owner: Option<string>, publicIp: string, privateIp: string,
                         privateIps: Option<seq<string>>)

  /** A group instance: its id and zone, the group axis (health and lifecycle state), the
      compute state and the interfaces. */
  datatype Member = Member(id: string, zone: string, groupHealth: string, groupState: string,
                           instanceState: string, interfaces: seq<NetIf>)

  /** The group settings billowRotate consults: 'rotate', 'urlterminate', 'urlstatus'. */
  datatype Settings = Settings(rotate: Option<bool>, urlTerminate: Option<string>, urlStatus: Option<string>)

  datatype GroupSnap = GroupSnap(name: string, region: string, members: seq<Member>, curSize: int, maxSize: int,
                                 subnets: seq<string>, loadBalancers: seq<string>, settings: Settings)

  /** A balancer instance: its id and balancer state. */
  datatype Registration = Registration(id: string, balancerState: string)

  /** A balancer: its name, whether cross-zone balancing is enabled, its zones and its
      instances. */
  datatype BalancerSnap = BalancerSnap(name: string, crossZone: bool, zones: seq<string>, members: seq<Registration>)

  datatype ServiceView = ServiceView(groups: seq<GroupSnap>, balancers: seq<BalancerSnap>)

  /** `instance_id in g.instances` */
  predicate InGroup(g: GroupSnap, instanceId: string)
  {
    exists i :: 0 <= i < |g.members| && QualifiedMatch(g.members[i].id, g.region, instanceId)
  }

  /** find_group_by_instance: the position of the first group holding the instance
      (billowRotate.py:145-149). */
  function FindGroup(groups: seq<GroupSnap>, instanceId: string): (r: Option<nat>)
    ensures r.Some? ==> r.value < |groups| && InGroup(groups[r.value], instanceId)
                        && forall k :: 0 <= k < r.value ==> !InGroup(groups[k], instanceId)
    ensures r.None? ==> forall k :: 0 <= k < |groups| ==> !InGroup(groups[k], instanceId)
    decreases |groups|
  {
    if groups == [] then None
    else if InGroup(groups[0], instanceId) then Some(0)
    else
      var rest := FindGroup(groups[1..], instanceId);
      assert forall k :: 1 <= k < |groups| ==> groups[1..][k - 1] == groups[k];
      if rest.Some? then Some(rest.value + 1) else None
  }

  /** find_balancer: the first balancer of that name (billowRotate.py:151-155). */
  function FindBalancer(balancers: seq<BalancerSnap>, name: string): (r: Option<nat>)
    ensures r.Some? ==> r.value < |balancers| && balancers[r.value].name == name
                        && forall k :: 0 <= k < r.value ==> balancers[k].name != name
    ensures r.None? ==> forall k :: 0 <= k < |balancers| ==> balancers[k].name != name
    decreases |balancers|
  {
    if balancers == [] then None
    else if balancers[0].name == name then Some(0)
    else
      var rest := FindBalancer(balancers[1..], name);
      assert forall k :: 1 <= k < |balancers| ==> balancers[1..][k - 1] == balancers[k];
      if rest.Some? then Some(rest.value + 1) else None
  }

  /** find_balancer_instance and find_group_instance: the index of the first record whose
      id is the instance id (billowRotate.py:157-167). */
  function FindById<T>(records: seq<T>, id: T -> string, instanceId: string): (r: Option<nat>)
    ensures r.Some? ==> r.value < |records| && id(records[r.value]) == instanceId
                        && forall k :: 0 <= k < r.value ==> id(records[k]) != instanceId
    ensures r.None? ==> forall k :: 0 <= k < |records| ==> id(records[k]) != instanceId
    decreases |records|
  {
    if records == [] then None
    else if id(records[0]) == instanceId then Some(0)
    else
      var rest := FindById(records[1..], id, instanceId);
      assert forall k :: 1 <= k < |records| ==> records[1..][k - 1] == records[k];
      if rest.Some? then Some(rest.value + 1) else None
  }

  function MemberId(m: Member): string
  {
    m.id
  }

  function RegistrationId(r: Registration): string
  {
    r.id
  }

  /** The group member an instance id names: the instance in the first group holding it. */
  function FindInstance(groups: seq<GroupSnap>, instanceId: string): (r: Option<(nat, nat)>)
    ensures r.Some? ==> r.value.0 < |groups| && r.value.1 < |groups[r.value.0].members|
                        && groups[r.value.0].members[r.value.1].id == instanceId
  {
    match FindGroup(groups, instanceId)
    case None => None
    case Some(g) =>
      match FindById(groups[g].members, MemberId, instanceId)
      case None => None
      case Some(i) => Some((g, i))
  }
}
