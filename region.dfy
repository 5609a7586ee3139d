/** billowRegion: the services of one region, found from the provider's autoscaling tags.
    The region keeps a dict from service tag value to service; the dict is `names` (its
    keys in insertion order) and `services` (its entries). A service is seen here
    through what the region sets on it; its groups through their names, which is what
    billowGroup's string equality compares. */
module Regions {
  import opened Wrappers
  import opened Services

  /** One record of the provider's tag listing. */
  datatype ResourceTag = ResourceTag(key: string, value: string, resourceId: string)

  /** What the region keeps of a service: the parsed name and region, the environ and the
      names of its groups, in order. */
  datatype ServiceRec = ServiceRec(service: string, region: string, environ: Option<string>, groups: seq<string>)

  const TagService := "service"
  const TagEnviron := "env"

  /** billowService(service, list(), region): no environ, no groups, and a 'svc:region'
      name overriding the region. */
  function NewService(name: string, region: string): (s: ServiceRec)
    ensures s.environ == None && s.groups == []
    ensures (s.service, s.region) == ParseName(name, region)
    ensures ':' !in name ==> s.service == name && s.region == region
  {
    var (service, at) := ParseName(name, region);
    ServiceRec(service, at, None, [])
  }

  /** The services dict as a value. */
  datatype Index = Index(names: seq<string>, services: map<string, ServiceRec>)

  /** The keys listed are exactly the entries, each once. */
  predicate Valid(ix: Index)
  {
    (forall n :: n in ix.services ==> n in ix.names) && (forall n :: n in ix.names ==> n in ix.services)
    && NoDup(ix.names)
  }

  // ---------------------------------------------------------------------------
  // add_service (billowRegion.py:45-62)

  /** The dict with an entry for the service, created when there was none. */
  function WithService(ix: Index, region: string, service: string): (r: Index)
    ensures service in r.services
  {
    if service in ix.services then ix
    else Index(ix.names + [service], ix.services[service := NewService(service, region)])
  }

  /** add_service: an entry per service name, and the group appended when it is given
      (truthy) and no group of that name is there yet. */
  function Added(ix: Index, region: string, service: string, group: Option<string>): Index
  {
    var ix1 := WithService(ix, region, service);
    var s := ix1.services[service];
    if Truthy(group) && group.value !in s.groups then
      Index(ix1.names, ix1.services[service := s.(groups := s.groups + [group.value])])
    else ix1
  }

  /** add_service keeps one entry per name: a known name is not added again, a new one is
      appended once, and every other entry is left as it was. */
  lemma AddedKeys(ix: Index, region: string, service: string, group: Option<string>)
    requires Valid(ix)
    ensures var r := Added(ix, region, service, group);
            Valid(r) && service in r.services
            && r.names == (if service in ix.services then ix.names else ix.names + [service])
            && (forall n :: n in ix.services && n != service ==> n in r.services && r.services[n] == ix.services[n])
  {
    if service !in ix.services {
      var names := ix.names + [service];
      forall i, j | 0 <= i < j < |names| ensures names[i] != names[j] {
        if j == |ix.names| {
          assert names[i] == ix.names[i];
        } else {
          assert names[i] == ix.names[i] && names[j] == ix.names[j];
        }
      }
    }
  }

  /** The service's groups after add_service: a known service keeps its groups and a new
      one starts with none; the group is appended exactly when it is truthy and absent, and
      the rest of the service is left as it was. */
  lemma AddedGroups(ix: Index, region: string, service: string, group: Option<string>)
    ensures var before := if service in ix.services then ix.services[service] else NewService(service, region);
            var after := Added(ix, region, service, group).services[service];
            after == before.(groups := after.groups)
            && after.groups == before.groups + (if Truthy(group) && group.value !in before.groups then [group.value] else [])
  {
  }

  /** add_service never puts the same group name twice in one service. */
  lemma AddedNoDupGroups(ix: Index, region: string, service: string, group: Option<string>)
    requires service in ix.services ==> NoDup(ix.services[service].groups)
    ensures NoDup(Added(ix, region, service, group).services[service].groups)
  {
    AddedGroups(ix, region, service, group);
    var before := if service in ix.services then ix.services[service] else NewService(service, region);
    var after := Added(ix, region, service, group).services[service];
    if Truthy(group) && group.value !in before.groups {
      forall i, j | 0 <= i < j < |after.groups| ensures after.groups[i] != after.groups[j] {
        assert after.groups[i] == before.groups[i];
        if j < |before.groups| {
          assert after.groups[j] == before.groups[j];
        }
      }
    }
  }

  // ---------------------------------------------------------------------------
  // update_group_environ (billowRegion.py:64-74)

  /** A service update_group_environ may set: one without a (truthy) environ that has the
      group. */
  predicate Eligible(services: map<string, ServiceRec>, n: string, group: string)
  {
    n in services && !Truthy(services[n].environ) && group in services[n].groups
  }

  /** The first eligible service, in the order the dict is walked. */
  function Target(names: seq<string>, services: map<string, ServiceRec>, group: string): (r: Option<string>)
    ensures r.Some? ==> r.value in names && Eligible(services, r.value, group)
  {
    if names == [] then None
    else if Eligible(services, names[0], group) then Some(names[0])
    else Target(names[1..], services, group)
  }

  /** The walk stops at the first eligible service: none before it is eligible, and when
      there is no target no service is. */
  lemma {:induction false} TargetFirst(names: seq<string>, services: map<string, ServiceRec>, group: string)
    ensures Target(names, services, group).None? <==> forall i :: 0 <= i < |names| ==> !Eligible(services, names[i], group)
    ensures Target(names, services, group).Some? ==>
              exists k :: 0 <= k < |names| && names[k] == Target(names, services, group).value
                          && forall i :: 0 <= i < k ==> !Eligible(services, names[i], group)
    decreases |names|
  {
    if names != [] {
      TargetFirst(names[1..], services, group);
      assert forall i :: 1 <= i < |names| ==> names[1..][i - 1] == names[i];
      if !Eligible(services, names[0], group) && Target(names, services, group).Some? {
        var k' :| 0 <= k' < |names[1..]| && names[1..][k'] == Target(names, services, group).value
                  && forall i :: 0 <= i < k' ==> !Eligible(services, names[1..][i], group);
        assert names[k' + 1] == Target(names, services, group).value;
        forall i | 0 <= i < k' + 1 ensures !Eligible(services, names[i], group) {
          if i > 0 {
            assert names[i] == names[1..][i - 1];
          }
        }
      }
      if Target(names, services, group).Some? && Eligible(services, names[0], group) {
        assert names[0] == Target(names, services, group).value;
      }
    }
  }

  /** The walk of update_group_environ over the dict: skip a service with an environ, and
      stop at the first whose groups hold the group. */
  method FindTarget(names: seq<string>, services: map<string, ServiceRec>, group: string) returns (r: Option<string>)
    requires forall n :: n in names ==> n in services
    ensures r == Target(names, services, group)
  {
    for k := 0 to |names|
      invariant Target(names[k..], services, group) == Target(names, services, group)
    {
      assert names[k..][1..] == names[k + 1..];
      var v := services[names[k]];
      if Truthy(v.environ) {
        continue;
      }
      var found := HasGroup(v.groups, group);
      if found {
        return Some(names[k]);
      }
    }
    assert names[|names|..] == [];
    return None;
  }

  /** The inner loop: whether the group is among the service's groups. */
  method HasGroup(gs: seq<string>, group: string) returns (found: bool)
    ensures found <==> group in gs
  {
    for j := 0 to |gs|
      invariant group !in gs[..j]
    {
      if gs[j] == group {
        return true;
      }
      assert gs[..j + 1] == gs[..j] + [gs[j]];
    }
    assert gs[..|gs|] == gs;
    return false;
  }

  /** update_group_environ: the environ set on the target, if any. */
  function UpdatedEnviron(ix: Index, group: string, environ: string): Index
  {
    match Target(ix.names, ix.services, group)
    case None => ix
    case Some(n) => Index(ix.names, ix.services[n := ix.services[n].(environ := Some(environ))])
  }

  /** update_group_environ changes one service at most, and only its environ: the keys do
      not change, a service that already had a truthy environ is never changed (the
      overwrite warning of the source cannot be reached), and when no service without an
      environ has the group nothing changes. */
  lemma UpdatedOnlyTarget(ix: Index, group: string, environ: string)
    ensures var r := UpdatedEnviron(ix, group, environ);
            r.names == ix.names && r.services.Keys == ix.services.Keys
            && (forall n :: n in ix.services && Truthy(ix.services[n].environ) ==> r.services[n] == ix.services[n])
            && (forall n :: n in ix.services ==> r.services[n].groups == ix.services[n].groups)
            && (forall n :: n in ix.services && Target(ix.names, ix.services, group) != Some(n) ==>
                  r.services[n] == ix.services[n])
            && (Target(ix.names, ix.services, group).Some? ==>
                  r.services[Target(ix.names, ix.services, group).value].environ == Some(environ))
  {
  }

  // ---------------------------------------------------------------------------
  // list_services (billowRegion.py:29-43)

  /** The first pass: add_service for every 'service' tag, in order. */
  function AddAll(ix: Index, region: string, tags: seq<ResourceTag>): Index
    decreases |tags|
  {
    if tags == [] then ix
    else
      var next := if tags[0].key == TagService then Added(ix, region, tags[0].value, Some(tags[0].resourceId)) else ix;
      AddAll(next, region, tags[1..])
  }

  /** The second pass: update_group_environ for every 'env' tag, in order. */
  function EnvironAll(ix: Index, tags: seq<ResourceTag>): Index
    decreases |tags|
  {
    if tags == [] then ix
    else
      var next := if tags[0].key == TagEnviron then UpdatedEnviron(ix, tags[0].resourceId, tags[0].value) else ix;
      EnvironAll(next, tags[1..])
  }

  /** The dict list_services leaves, starting from an empty one. */
  function Listed(region: string, tags: seq<ResourceTag>): Index
  {
    EnvironAll(AddAll(Index([], map[]), region, tags), tags)
  }

  /** services.values(): the entries in key order. */
  function Values(ix: Index): (r: seq<ServiceRec>)
    requires forall n :: n in ix.names ==> n in ix.services
    ensures |r| == |ix.names|
    ensures forall i :: 0 <= i < |r| ==> r[i] == ix.services[ix.names[i]]
  {
    seq(|ix.names|, i requires 0 <= i < |ix.names| => ix.services[ix.names[i]])
  }

  /** A tag of the first pass. */
  predicate ServiceTagged(tags: seq<ResourceTag>, n: string)
  {
    exists i :: 0 <= i < |tags| && tags[i].key == TagService && tags[i].value == n
  }

  /** The first pass keeps the dict valid, adds exactly the service names tagged, and leaves
      the rest of the dict's keys where they were. */
  lemma {:induction false} AddAllKeys(ix: Index, region: string, tags: seq<ResourceTag>)
    requires Valid(ix)
    ensures Valid(AddAll(ix, region, tags))
    ensures forall n :: n in AddAll(ix, region, tags).services <==> n in ix.services || ServiceTagged(tags, n)
    decreases |tags|
  {
    if tags != [] {
      var next := if tags[0].key == TagService then Added(ix, region, tags[0].value, Some(tags[0].resourceId)) else ix;
      if tags[0].key == TagService {
        AddedKeys(ix, region, tags[0].value, Some(tags[0].resourceId));
      }
      AddAllKeys(next, region, tags[1..]);
      ServiceTaggedStep(tags);
      assert forall n :: n in next.services <==> n in ix.services || (tags[0].key == TagService && tags[0].value == n);
    }
  }

  /** A name is tagged in a tag list exactly when the first tag names it or a later one does. */
  lemma ServiceTaggedStep(tags: seq<ResourceTag>)
    requires tags != []
    ensures forall n :: ServiceTagged(tags, n) <==> (tags[0].key == TagService && tags[0].value == n) || ServiceTagged(tags[1..], n)
  {
    forall n ensures ServiceTagged(tags, n) <==> (tags[0].key == TagService && tags[0].value == n) || ServiceTagged(tags[1..], n) {
      if ServiceTagged(tags, n) {
        var i :| 0 <= i < |tags| && tags[i].key == TagService && tags[i].value == n;
        if i > 0 {
          assert tags[1..][i - 1] == tags[i];
        }
      }
      if ServiceTagged(tags[1..], n) {
        var i :| 0 <= i < |tags[1..]| && tags[1..][i].key == TagService && tags[1..][i].value == n;
        assert tags[i + 1] == tags[1..][i];
      }
    }
  }

  /** A group already held by a service stays held through the first pass. */
  lemma {:induction false} AddAllKeepsGroups(ix: Index, region: string, tags: seq<ResourceTag>, n: string, g: string)
    requires n in ix.services && g in ix.services[n].groups
    ensures n in AddAll(ix, region, tags).services && g in AddAll(ix, region, tags).services[n].groups
    decreases |tags|
  {
    if tags != [] {
      var next := if tags[0].key == TagService then Added(ix, region, tags[0].value, Some(tags[0].resourceId)) else ix;
      if tags[0].key == TagService {
        var service := tags[0].value;
        AddedGroups(ix, region, service, Some(tags[0].resourceId));
        if service != n {
          assert next.services[n] == ix.services[n];
        }
      }
      AddAllKeepsGroups(next, region, tags[1..], n, g);
    }
  }

  /** Every tagged resource with a non-empty id is a group of its service after the first
      pass. */
  lemma {:induction false} AddAllAttaches(ix: Index, region: string, tags: seq<ResourceTag>, k: nat)
    requires k < |tags| && tags[k].key == TagService && tags[k].resourceId != ""
    ensures tags[k].value in AddAll(ix, region, tags).services
    ensures tags[k].resourceId in AddAll(ix, region, tags).services[tags[k].value].groups
    decreases |tags|
  {
    var next := if tags[0].key == TagService then Added(ix, region, tags[0].value, Some(tags[0].resourceId)) else ix;
    if k == 0 {
      AddedGroups(ix, region, tags[0].value, Some(tags[0].resourceId));
      AddAllKeepsGroups(next, region, tags[1..], tags[0].value, tags[0].resourceId);
    } else {
      assert tags[1..][k - 1] == tags[k];
      AddAllAttaches(next, region, tags[1..], k - 1);
    }
  }

  /** The second pass changes no key, no key order and no service's groups. */
  lemma {:induction false} EnvironAllKeeps(ix: Index, tags: seq<ResourceTag>)
    ensures EnvironAll(ix, tags).names == ix.names
    ensures EnvironAll(ix, tags).services.Keys == ix.services.Keys
    ensures forall n :: n in ix.services ==> EnvironAll(ix, tags).services[n].groups == ix.services[n].groups
    decreases |tags|
  {
    if tags != [] {
      var next := if tags[0].key == TagEnviron then UpdatedEnviron(ix, tags[0].resourceId, tags[0].value) else ix;
      if tags[0].key == TagEnviron {
        UpdatedOnlyTarget(ix, tags[0].resourceId, tags[0].value);
      }
      EnvironAllKeeps(next, tags[1..]);
    }
  }

  /** list_services: one service per distinct 'service' tag value, each key once, and every
      tagged resource attached as a group of its service. */
  lemma ListedServices(region: string, tags: seq<ResourceTag>)
    ensures Valid(Listed(region, tags))
    ensures forall n :: n in Listed(region, tags).services <==> ServiceTagged(tags, n)
    ensures forall k :: 0 <= k < |tags| && tags[k].key == TagService && tags[k].resourceId != "" ==>
              tags[k].value in Listed(region, tags).services
              && tags[k].resourceId in Listed(region, tags).services[tags[k].value].groups
  {
    var empty := Index([], map[]);
    AddAllKeys(empty, region, tags);
    EnvironAllKeeps(AddAll(empty, region, tags), tags);
    forall k | 0 <= k < |tags| && tags[k].key == TagService && tags[k].resourceId != ""
      ensures tags[k].value in Listed(region, tags).services
      ensures tags[k].resourceId in Listed(region, tags).services[tags[k].value].groups
    {
      AddAllAttaches(empty, region, tags, k);
    }
  }

  class Region {
    const region: string
    /** The keys of the services dict, in insertion order. */
    var names: seq<string>
    var services: map<string, ServiceRec>

    constructor (region: string)
      ensures this.region == region && names == [] && services == map[]
    {
      this.region := region;
      names := [];
      services := map[];
    }

    function State(): Index
      reads this`names, this`services
    {
      Index(names, services)
    }

    /** add_service (billowRegion.py:45-62). */
    method AddService(service: string, group: Option<string>)
      modifies this`names, this`services
      ensures State() == Added(old(State()), region, service, group)
    {
      if service !in services {
        names := names + [service];
        services := services[service := NewService(service, region)];
      }
      if Truthy(group) {
        var s := services[service];
        if group.value !in s.groups {
          services := services[service := s.(groups := s.groups + [group.value])];
        }
      }
    }

    /** update_group_environ: walk the services, skip those with an environ, and set the
        environ of the first one holding the group, then stop (billowRegion.py:64-74). */
    method UpdateGroupEnviron(group: string, environ: string)
      requires Valid(State())
      modifies this`services
      ensures State() == UpdatedEnviron(old(State()), group, environ)
    {
      var target := FindTarget(names, services, group);
      if target.Some? {
        var n := target.value;
        services := services[n := services[n].(environ := Some(environ))];
      }
    }

    /** list_services: reset the dict, run add_service over the 'service' tags and then
        update_group_environ over the 'env' tags, and return the dict's values
        (billowRegion.py:29-43). The tag listing is the provider's answer. */
    method ListServices(tags: seq<ResourceTag>) returns (values: seq<ServiceRec>)
      modifies this`names, this`services
      ensures Valid(State()) && State() == Listed(region, tags)
      ensures values == Values(State())
    {
      names, services := [], map[];
      ghost var empty := State();
      AddAllKeys(empty, region, tags);
      for k := 0 to |tags|
        invariant AddAll(State(), region, tags[k..]) == AddAll(empty, region, tags)
        invariant Valid(State())
      {
        assert tags[k..][1..] == tags[k + 1..];
        var t := tags[k];
        if t.key == TagService {
          AddedKeys(State(), region, t.value, Some(t.resourceId));
          AddService(t.value, Some(t.resourceId));
        }
      }
      assert tags[|tags|..] == [];
      ghost var added := State();
      for k := 0 to |tags|
        invariant EnvironAll(State(), tags[k..]) == EnvironAll(added, tags)
        invariant Valid(State())
      {
        assert tags[k..][1..] == tags[k + 1..];
        var t := tags[k];
        if t.key == TagEnviron {
          UpdatedOnlyTarget(State(), t.resourceId, t.value);
          UpdateGroupEnviron(t.resourceId, t.value);
        }
      }
      assert tags[|tags|..] == [];
      values := [];
      for k := 0 to |names|
        invariant values == Values(State())[..k]
      {
        values := values + [services[names[k]]];
      }
    }
  }
}
