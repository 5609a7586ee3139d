/** billowInstance: one compute instance as seen from three sides: its autoscaling group,
    the compute service and its load balancers. Each push_* method merges one provider
    record into the fields of its axis and leaves the others alone. */
module Instances {
  import opened Wrappers
  import opened Text

  /** `'%s:%s' % (id, region) == other or id == other`: the string forms an instance
      (or a balancer) answers to (billowInstance.py:86-89). */
  predicate QualifiedMatch(id: string, region: string, other: string)
  {
    id + ":" + region == other || id == other
  }

  /** Both forms name the object, and when the id holds no ':' every form starts with the
      id: its first ':'-piece is the id. */
  lemma QualifiedMatchForms(id: string, region: string, other: string)
    ensures QualifiedMatch(id, region, id) && QualifiedMatch(id, region, id + ":" + region)
    ensures ':' !in id && QualifiedMatch(id, region, other) ==> Split(other, ':')[0] == id
  {
    if ':' !in id && QualifiedMatch(id, region, other) {
      SplitPrefix(id, other);
    }
  }

  /** Splitting a string that starts with a ':'-free prefix followed by ':' or nothing
      gives that prefix first. */
  lemma {:induction false} SplitPrefix(id: string, other: string)
    requires ':' !in id
    requires other == id || (|other| > |id| && other[..|id|] == id && other[|id|] == ':')
    ensures Split(other, ':')[0] == id
    decreases |id|
  {
    if id == [] {
      if other != [] {
        assert other[0] == ':';
      }
    } else {
      assert other[1..] == id[1..] || (other[1..][..|id| - 1] == id[1..] && other[1..][|id| - 1] == ':');
      assert ':' !in id[1..];
      SplitPrefix(id[1..], other[1..]);
      assert other[0] == id[0];
      assert id == [id[0]] + id[1..];
    }
  }

  /** boto.ec2.autoscale.Instance, the group's view of an instance. */
  datatype GroupMember = GroupMember(healthStatus: string, lifecycleState: string,
                                     launchConfigName: string, availabilityZone: string)

  /** boto.ec2.instance.Instance, the compute service's view (the fields billow copies). */
  datatype ComputeInstance = ComputeInstance(
    architecture: string, ebsOptimized: bool,
    publicDnsName: Option<string>, privateDnsName: Option<string>,
    imageId: string, instanceType: string,
    ipAddress: Option<string>, privateIpAddress: Option<string>,
    keyName: Option<string>, launchTime: string,
    state: string, stateCode: int,
    subnetId: Option<string>, virtualizationType: string, vpcId: Option<string>,
    instanceProfile: Option<map<string, string>>,
    tags: map<string, string>,
    groupIds: seq<string>)

  /** boto.ec2.elb.instancestate.InstanceState, a balancer's view. */
  datatype BalancerMember = BalancerMember(state: string, reasonCode: Option<string>)

  /** One half of boto.ec2.instancestatus.InstanceStatus: a status and its details dict. */
  datatype StatusPart = StatusPart(status: string, details: map<string, string>)

  datatype ProviderEvent = ProviderEvent(code: string, description: string, notBefore: string, notAfter: string)

  /** boto.ec2.instancestatus.InstanceStatus; an absent events list is the empty one. */
  datatype InstanceStatus = InstanceStatus(systemStatus: StatusPart, instanceStatus: StatusPart,
                                           events: seq<ProviderEvent>)

  /** The dict billow keeps per status event. */
  datatype Event = Event(code: string, description: string, notBefore: string, notAfter: string)

  function EventOf(e: ProviderEvent): Event
  {
    Event(e.code, e.description, e.notBefore, e.notAfter)
  }

  /** Object equality: same id and same region (billowInstance.py:90-91). */
  predicate SameInstance(a: Instance, b: Instance)
    reads a, b
  {
    a.id == b.id && a.region == b.region
  }

  class Instance {
    const id: string
    const region: string

    // Group
    var groupHealth: Option<string>
    var groupState: Option<string>
    var groupConfig: Option<string>
    var zone: Option<string>

    // Instance
    var architecture: Option<string>
    var instanceType: Option<string>
    var imageId: Option<string>
    var keyName: Option<string>
    var instanceState: Option<string>
    var instanceStateCode: Option<int>
    var launchTime: Option<string>
    var virtualizationType: Option<string>
    var instanceProfile: Option<string>
    var tags: map<string, string>
    var groups: seq<string>

    // Network
    var publicDnsName: Option<string>
    var privateDnsName: Option<string>
    var publicIpAddress: Option<string>
    var privateIpAddress: Option<string>
    var subnetId: Option<string>
    var vpcId: Option<string>
    var ebsOptimized: Option<bool>

    // Balancer
    var balancerState: Option<string>
    var balancerReason: Option<string>

    // Status
    var hardwareStatus: Option<string>
    var hardwareReachability: Option<string>
    var instanceStatus: Option<string>
    var instanceReachability: Option<string>
    var statusEvents: Option<seq<Event>>

    /** A new instance knows only its id and region; every state of the three axes is
        unset (billowInstance.py:18-66). */
    constructor (instanceId: string, region: string)
      ensures id == instanceId && this.region == region
      ensures groupHealth == None && groupState == None && groupConfig == None && zone == None
      ensures instanceState == None && instanceStateCode == None && balancerState == None && balancerReason == None
      ensures architecture == None && instanceType == None && imageId == None && keyName == None
      ensures launchTime == None && virtualizationType == None && instanceProfile == None
      ensures tags == map[] && groups == []
      ensures publicDnsName == None && privateDnsName == None && publicIpAddress == None
      ensures privateIpAddress == None && subnetId == None && vpcId == None && ebsOptimized == None
      ensures hardwareStatus == None && hardwareReachability == None
      ensures instanceStatus == None && instanceReachability == None && statusEvents == None
    {
      id := instanceId;
      this.region := region;
      groupHealth, groupState, groupConfig, zone := None, None, None, None;
      architecture, instanceType, imageId, keyName := None, None, None, None;
      instanceState, instanceStateCode, launchTime, virtualizationType := None, None, None, None;
      instanceProfile := None;
      tags, groups := map[], [];
      publicDnsName, privateDnsName, publicIpAddress, privateIpAddress := None, None, None, None;
      subnetId, vpcId, ebsOptimized := None, None, None;
      balancerState, balancerReason := None, None;
      hardwareStatus, hardwareReachability, instanceStatus, instanceReachability := None, None, None, None;
      statusEvents := None;
    }

    /** String equality: 'id:region' or 'id' (billowInstance.py:86-89). */
    predicate MatchesName(other: string)
    {
      QualifiedMatch(id, region, other)
    }

    /** push_group_info: the group axis and the zone, nothing else (billowInstance.py:93-102). */
    method PushGroupInfo(m: GroupMember)
      modifies this`groupHealth, this`groupState, this`groupConfig, this`zone
      ensures groupHealth == Some(m.healthStatus) && groupState == Some(m.lifecycleState)
      ensures groupConfig == Some(m.launchConfigName) && zone == Some(m.availabilityZone)
    {
      groupHealth := Some(m.healthStatus);
      groupState := Some(m.lifecycleState);
      groupConfig := Some(m.launchConfigName);
      zone := Some(m.availabilityZone);
    }

    /** push_instance_info: the compute axis and the network fields, then the profile arn,
        the tags and the group ids (billowInstance.py:104-136). */
    method PushInstanceInfo(c: ComputeInstance)
      modifies this`architecture, this`ebsOptimized, this`publicDnsName, this`privateDnsName,
               this`imageId, this`instanceType, this`publicIpAddress, this`privateIpAddress,
               this`keyName, this`launchTime, this`instanceState, this`instanceStateCode,
               this`subnetId, this`virtualizationType, this`vpcId, this`instanceProfile,
               this`tags, this`groups
      ensures architecture == Some(c.architecture) && ebsOptimized == Some(c.ebsOptimized)
      ensures publicDnsName == c.publicDnsName && privateDnsName == c.privateDnsName
      ensures imageId == Some(c.imageId) && instanceType == Some(c.instanceType)
      ensures publicIpAddress == c.ipAddress && privateIpAddress == c.privateIpAddress
      ensures keyName == c.keyName && launchTime == Some(c.launchTime)
      ensures instanceState == Some(c.state) && instanceStateCode == Some(c.stateCode)
      ensures subnetId == c.subnetId && virtualizationType == Some(c.virtualizationType) && vpcId == c.vpcId
      ensures c.instanceProfile.Some? && "arn" in c.instanceProfile.value ==>
                instanceProfile == Some(c.instanceProfile.value["arn"])
      ensures !(c.instanceProfile.Some? && "arn" in c.instanceProfile.value) ==> instanceProfile == old(instanceProfile)
      ensures |c.tags| > 0 ==> tags == c.tags
      ensures |c.tags| == 0 ==> tags == old(tags)
      ensures groups == c.groupIds
    {
      CopyComputeFields(c);
      CopyNetworkFields(c);
      MergeProfileTagsGroups(c);
    }

    /** The compute fields push_instance_info copies unconditionally (billowInstance.py:110-124). */
    method CopyComputeFields(c: ComputeInstance)
      modifies this`architecture, this`ebsOptimized, this`imageId, this`instanceType,
               this`keyName, this`launchTime, this`instanceState, this`instanceStateCode,
               this`virtualizationType
      ensures architecture == Some(c.architecture) && ebsOptimized == Some(c.ebsOptimized)
      ensures imageId == Some(c.imageId) && instanceType == Some(c.instanceType)
      ensures keyName == c.keyName && launchTime == Some(c.launchTime)
      ensures instanceState == Some(c.state) && instanceStateCode == Some(c.stateCode)
      ensures virtualizationType == Some(c.virtualizationType)
    {
      architecture := Some(c.architecture);
      ebsOptimized := Some(c.ebsOptimized);
      imageId := Some(c.imageId);
      instanceType := Some(c.instanceType);
      keyName := c.keyName;
      launchTime := Some(c.launchTime);
      instanceState := Some(c.state);
      instanceStateCode := Some(c.stateCode);
      virtualizationType := Some(c.virtualizationType);
    }

    /** The network fields push_instance_info copies unconditionally (billowInstance.py:112-124). */
    method CopyNetworkFields(c: ComputeInstance)
      modifies this`publicDnsName, this`privateDnsName, this`publicIpAddress, this`privateIpAddress,
               this`subnetId, this`vpcId
      ensures publicDnsName == c.publicDnsName && privateDnsName == c.privateDnsName
      ensures publicIpAddress == c.ipAddress && privateIpAddress == c.privateIpAddress
      ensures subnetId == c.subnetId && vpcId == c.vpcId
    {
      publicDnsName := c.publicDnsName;
      privateDnsName := c.privateDnsName;
      publicIpAddress := c.ipAddress;
      privateIpAddress := c.privateIpAddress;
      subnetId := c.subnetId;
      vpcId := c.vpcId;
    }

    /** The conditional part of push_instance_info: the profile arn when the profile has one,
        the tags when the provider has some, and the group ids rebuilt in order
        (billowInstance.py:126-136). */
    method MergeProfileTagsGroups(c: ComputeInstance)
      modifies this`instanceProfile, this`tags, this`groups
      ensures c.instanceProfile.Some? && "arn" in c.instanceProfile.value ==>
                instanceProfile == Some(c.instanceProfile.value["arn"])
      ensures !(c.instanceProfile.Some? && "arn" in c.instanceProfile.value) ==> instanceProfile == old(instanceProfile)
      ensures |c.tags| > 0 ==> tags == c.tags
      ensures |c.tags| == 0 ==> tags == old(tags)
      ensures groups == c.groupIds
    {
      if c.instanceProfile.Some? && |c.instanceProfile.value| > 0 && "arn" in c.instanceProfile.value {
        instanceProfile := Some(c.instanceProfile.value["arn"]);
      }
      if |c.tags| > 0 {
        tags := c.tags;
      }
      var ids := [];
      for k := 0 to |c.groupIds|
        invariant ids == c.groupIds[..k]
      {
        ids := ids + [c.groupIds[k]];
      }
      assert c.groupIds[..|c.groupIds|] == c.groupIds;
      groups := ids;
    }

    /** push_balancer_info: the balancer axis, nothing else (billowInstance.py:138-145). */
    method PushBalancerInfo(m: BalancerMember)
      modifies this`balancerState, this`balancerReason
      ensures balancerState == Some(m.state) && balancerReason == m.reasonCode
    {
      balancerState := Some(m.state);
      balancerReason := m.reasonCode;
    }

    /** push_status_info: the status fields and one event record per provider event, in
        order. A details dict without 'reachability' raises KeyError after the fields assigned
        before it (billowInstance.py:147-172). */
    method PushStatusInfo(s: InstanceStatus) returns (keyError: bool)
      modifies this`hardwareStatus, this`hardwareReachability, this`instanceStatus,
               this`instanceReachability, this`statusEvents
      ensures keyError <==> "reachability" !in s.systemStatus.details || "reachability" !in s.instanceStatus.details
      ensures hardwareStatus == Some(s.systemStatus.status)
      ensures "reachability" in s.systemStatus.details ==>
                hardwareReachability == Some(s.systemStatus.details["reachability"])
                && instanceStatus == Some(s.instanceStatus.status)
      ensures !keyError ==> instanceReachability == Some(s.instanceStatus.details["reachability"])
      ensures !keyError ==> statusEvents.Some? && |statusEvents.value| == |s.events|
                            && forall i :: 0 <= i < |s.events| ==> statusEvents.value[i] == EventOf(s.events[i])
      ensures keyError ==> statusEvents == old(statusEvents) && instanceReachability == old(instanceReachability)
      ensures "reachability" !in s.systemStatus.details ==>
                hardwareReachability == old(hardwareReachability) && instanceStatus == old(instanceStatus)
    {
      hardwareStatus := Some(s.systemStatus.status);
      if "reachability" !in s.systemStatus.details {
        return true;
      }
      hardwareReachability := Some(s.systemStatus.details["reachability"]);
      instanceStatus := Some(s.instanceStatus.status);
      if "reachability" !in s.instanceStatus.details {
        return true;
      }
      instanceReachability := Some(s.instanceStatus.details["reachability"]);
      var events := [];
      for k := 0 to |s.events|
        invariant |events| == k
        invariant forall i :: 0 <= i < k ==> events[i] == EventOf(s.events[i])
      {
        events := events + [EventOf(s.events[k])];
      }
      statusEvents := Some(events);
      return false;
    }
  }
}
