/** billowGroup: an autoscaling group, loaded lazily from the provider and cached in
    `rawgroup`. The provider's answer to get_groups(name) is a parameter, `fetched`. */
module Groups {
  import opened Wrappers
  import opened Text

  datatype Tag = Tag(key: string, value: string)

  /** One entry of boto's group instance list. */
  datatype RawMember = RawMember(instanceId: string, healthStatus: string, launchConfigName: string,
                                 lifecycleState: string, availabilityZone: string)

  /** boto.ec2.autoscale.group.AutoScalingGroup, the fields billow reads. */
  datatype RawGroup = RawGroup(
    name: string, availabilityZones: seq<string>, desiredCapacity: int,
    healthCheckPeriod: int, healthCheckType: string, launchConfigName: string,
    loadBalancers: seq<string>, minSize: int, maxSize: int, placementGroup: Option<string>,
    vpcZoneIdentifier: string, tags: seq<Tag>, instances: seq<RawMember>)

  const TagService := "service"
  const TagEnviron := "env"
  const TagCluster := "cluster"

  /** The value the tag loop leaves for one key: the last tag with that key, else the
      value held before the loop. */
  function TagValue(tags: seq<Tag>, key: string, previous: Option<string>): Option<string>
    decreases |tags|
  {
    if tags == [] then previous
    else TagValue(tags[1..], key, if tags[0].key == key then Some(tags[0].value) else previous)
  }

  /** The tag loop keeps the last tag with the key, or the previous value when no tag
      has it: a later tag with the same key overwrites an earlier one. */
  lemma {:induction false} TagValueLast(tags: seq<Tag>, key: string, previous: Option<string>)
    ensures (forall i :: 0 <= i < |tags| ==> tags[i].key != key) ==> TagValue(tags, key, previous) == previous
    ensures forall i :: 0 <= i < |tags| && tags[i].key == key
                        && (forall j :: i < j < |tags| ==> tags[j].key != key) ==>
              TagValue(tags, key, previous) == Some(tags[i].value)
    decreases |tags|
  {
    if tags != [] {
      var next := if tags[0].key == key then Some(tags[0].value) else previous;
      TagValueLast(tags[1..], key, next);
      forall i | 0 <= i < |tags| && tags[i].key == key && (forall j :: i < j < |tags| ==> tags[j].key != key)
        ensures TagValue(tags, key, previous) == Some(tags[i].value)
      {
        if i > 0 {
          assert tags[1..][i - 1] == tags[i];
          forall j | i - 1 < j < |tags| - 1 ensures tags[1..][j].key != key {
            assert tags[1..][j] == tags[j + 1];
          }
        } else {
          forall j | 0 <= j < |tags| - 1 ensures tags[1..][j].key != key {
            assert tags[1..][j] == tags[j + 1];
          }
        }
      }
      if forall i :: 0 <= i < |tags| ==> tags[i].key != key {
        forall j | 0 <= j < |tags| - 1 ensures tags[1..][j].key != key {
          assert tags[1..][j] == tags[j + 1];
        }
      }
    }
  }

  /** subnets: vpc_zone_identifier split on ','; joining the list with ',' gives the
      identifier back (billowGroup.py:139-145). */
  function SubnetList(raw: RawGroup): (r: seq<string>)
    ensures |r| >= 1 && Join(r, ',') == raw.vpcZoneIdentifier
    ensures forall i :: 0 <= i < |r| ==> ',' !in r[i]
  {
    JoinSplit(raw.vpcZoneIdentifier, ',');
    Split(raw.vpcZoneIdentifier, ',')
  }

  /** tags: one single-entry dict per raw tag, in order (billowGroup.py:147-153). */
  function TagList(tags: seq<Tag>): (r: seq<map<string, string>>)
    ensures |r| == |tags|
    ensures forall i :: 0 <= i < |tags| ==> r[i].Keys == {tags[i].key} && r[i][tags[i].key] == tags[i].value
  {
    if tags == [] then []
    else
      var rest := TagList(tags[1..]);
      assert forall i :: 1 <= i < |tags| ==> tags[1..][i - 1] == tags[i];
      [map[tags[0].key := tags[0].value]] + rest
  }

  /** The dict billow builds per group instance. */
  datatype MemberDict = MemberDict(id: string, health: string, config: string, state: string, zone: string)

  function MemberOf(m: RawMember): MemberDict
  {
    MemberDict(m.instanceId, m.healthStatus, m.launchConfigName, m.lifecycleState, m.availabilityZone)
  }

  /** instances: one dict per group instance, in order (billowGroup.py:155-167). */
  function MemberList(members: seq<RawMember>): (r: seq<MemberDict>)
    ensures |r| == |members|
    ensures forall i :: 0 <= i < |members| ==> r[i].id == members[i].instanceId && r[i].state == members[i].lifecycleState
    ensures forall i :: 0 <= i < |members| ==> r[i] == MemberOf(members[i])
  {
    if members == [] then []
    else
      var rest := MemberList(members[1..]);
      assert forall i :: 1 <= i < |members| ==> members[1..][i - 1] == members[i];
      [MemberOf(members[0])] + rest
  }

  class Group {
    const group: string
    const region: string
    var rawgroup: Option<RawGroup>
    /** The tag attributes: None until a tag loop has set them. */
    var service: Option<string>
    var environ: Option<string>
    var cluster: Option<string>

    constructor (group: string, region: string)
      ensures this.group == group && this.region == region
      ensures rawgroup == None && service == None && environ == None && cluster == None
    {
      this.group := group;
      this.region := region;
      rawgroup := None;
      service, environ, cluster := None, None, None;
    }

    /** String equality compares the group name only (billowGroup.py:48-49). */
    predicate MatchesName(other: string)
    {
      group == other
    }

    /** _load: fetch only when nothing is cached and keep the answer only when it is exactly
        one group; then set the tag attributes from the cached group's tags. With nothing
        cached the tag loop raises (ok is false) and nothing changes
        (billowGroup.py:56-68). */
    method Load(fetched: seq<RawGroup>) returns (ok: bool)
      modifies this`rawgroup, this`service, this`environ, this`cluster
      ensures old(rawgroup).Some? ==> rawgroup == old(rawgroup)
      ensures old(rawgroup).None? ==> rawgroup == (if |fetched| == 1 then Some(fetched[0]) else None)
      ensures ok <==> rawgroup.Some?
      ensures ok ==> service == TagValue(rawgroup.value.tags, TagService, old(service))
                     && environ == TagValue(rawgroup.value.tags, TagEnviron, old(environ))
                     && cluster == TagValue(rawgroup.value.tags, TagCluster, old(cluster))
      ensures !ok ==> service == old(service) && environ == old(environ) && cluster == old(cluster)
    {
      if rawgroup.None? {
        if |fetched| == 1 {
          rawgroup := Some(fetched[0]);
        }
      }
      if rawgroup.None? {
        return false;
      }
      var tags := rawgroup.value.tags;
      for k := 0 to |tags|
        modifies this`service, this`environ, this`cluster
        invariant TagValue(tags[k..], TagService, service) == TagValue(tags, TagService, old(service))
        invariant TagValue(tags[k..], TagEnviron, environ) == TagValue(tags, TagEnviron, old(environ))
        invariant TagValue(tags[k..], TagCluster, cluster) == TagValue(tags, TagCluster, old(cluster))
      {
        assert tags[k..][1..] == tags[k + 1..];
        var t := tags[k];
        if t.key == TagService {
          service := Some(t.value);
        } else if t.key == TagEnviron {
          environ := Some(t.value);
        } else if t.key == TagCluster {
          cluster := Some(t.value);
        }
      }
      return true;
    }

    /** refresh: drop the cached group and load again (billowGroup.py:70-72). */
    method Refresh(fetched: seq<RawGroup>) returns (ok: bool)
      modifies this`rawgroup, this`service, this`environ, this`cluster
      ensures rawgroup == (if |fetched| == 1 then Some(fetched[0]) else None)
      ensures ok <==> |fetched| == 1
      ensures ok ==> service == TagValue(fetched[0].tags, TagService, old(service))
                     && environ == TagValue(fetched[0].tags, TagEnviron, old(environ))
                     && cluster == TagValue(fetched[0].tags, TagCluster, old(cluster))
    {
      rawgroup := None;
      ok := Load(fetched);
    }

    /** subnets after a load, None when the load raises. */
    method Subnets(fetched: seq<RawGroup>) returns (subnets: Option<seq<string>>)
      modifies this`rawgroup, this`service, this`environ, this`cluster
      ensures subnets.Some? <==> rawgroup.Some?
      ensures subnets.Some? ==> subnets.value == SubnetList(rawgroup.value)
    {
      var ok := Load(fetched);
      if !ok {
        return None;
      }
      var parts := Split(rawgroup.value.vpcZoneIdentifier, ',');
      var list := [];
      for k := 0 to |parts|
        invariant list == parts[..k]
      {
        list := list + [parts[k]];
      }
      assert parts[..|parts|] == parts;
      return Some(list);
    }

    /** tags after a load, None when the load raises. */
    method Tags(fetched: seq<RawGroup>) returns (tags: Option<seq<map<string, string>>>)
      modifies this`rawgroup, this`service, this`environ, this`cluster
      ensures tags.Some? <==> rawgroup.Some?
      ensures tags.Some? ==> tags.value == TagList(rawgroup.value.tags)
    {
      var ok := Load(fetched);
      if !ok {
        return None;
      }
      return Some(TagList(rawgroup.value.tags));
    }

    /** instances after a load, None when the load raises. */
    method Instances(fetched: seq<RawGroup>) returns (instances: Option<seq<MemberDict>>)
      modifies this`rawgroup, this`service, this`environ, this`cluster
      ensures instances.Some? <==> rawgroup.Some?
      ensures instances.Some? ==> instances.value == MemberList(rawgroup.value.instances)
    {
      var ok := Load(fetched);
      if !ok {
        return None;
      }
      return Some(MemberList(rawgroup.value.instances));
    }
  }

  /** Object equality: name, region and the three tag attributes (billowGroup.py:50-54). */
  predicate SameGroup(a: Group, b: Group)
    reads a, b
  {
    a.group == b.group && a.region == b.region
    && a.service == b.service && a.environ == b.environ && a.cluster == b.cluster
  }
}
