/** billowBalancer: a load balancer fronting a group, with four lazily loaded caches
    (the balancer itself, its security groups, its attributes and its instance health).
    Each provider answer is a parameter of the operation that may fetch it. */
module Balancers {
  import opened Wrappers
  import opened Text
  import opened Instances

  /** The fields of boto's LoadBalancer that billow reads. */
  datatype RawElb = RawElb(name: string, securityGroups: seq<string>, availabilityZones: seq<string>)

  datatype SecGroup = SecGroup(id: string, name: string)

  /** The balancer attributes billow reads: cross-zone balancing and connection draining. */
  datatype Attrs = Attrs(crossZone: bool, drainingEnabled: bool, drainingTimeout: int)

  /** One record of the balancer's instance health list. */
  datatype Health = Health(instanceId: string, state: string, reasonCode: Option<string>)

  /** `instance_id in self.instances`: some health record's instance answers to the
      string, as 'id:region' or 'id'. */
  predicate Registered(health: seq<Health>, region: string, instanceId: string)
  {
    exists i :: 0 <= i < |health| && QualifiedMatch(health[i].instanceId, region, instanceId)
  }

  /** Every record's instance is registered under its id and under 'id:region'. */
  lemma RegisteredIds(health: seq<Health>, region: string, k: nat)
    requires k < |health|
    ensures Registered(health, region, health[k].instanceId)
    ensures Registered(health, region, health[k].instanceId + ":" + region)
  {
    assert QualifiedMatch(health[k].instanceId, region, health[k].instanceId);
  }

  /** A string without ':' that is no record's id is not registered. */
  lemma NotRegistered(health: seq<Health>, region: string, instanceId: string)
    requires ':' !in instanceId
    requires forall i :: 0 <= i < |health| ==> health[i].instanceId != instanceId
    ensures !Registered(health, region, instanceId)
  {
    forall i | 0 <= i < |health|
      ensures !QualifiedMatch(health[i].instanceId, region, instanceId)
    {
      var q := health[i].instanceId + ":" + region;
      assert q[|health[i].instanceId|] == ':';
      assert ':' in q;
    }
  }

  /** lb_certname: the text after the last '/' of a certificate ARN
      (billowBalancer.py:155-156). */
  function CertName(cert: string): (r: string)
    ensures '/' !in r
    ensures |r| <= |cert| && cert[|cert| - |r|..] == r
    ensures |r| == |cert| || cert[|cert| - |r| - 1] == '/'
  {
    LastPieceIsTail(cert, '/');
    LastPiece(cert, '/')
  }

  /** Where __init__ takes its elb, sec and vpc clients from: the parent's, or new ones
      for the region (billowBalancer.py:26-34). */
  datatype Backends = FromParent | ForRegion(region: string)

  /** What __init__ as written does about its clients: without a parent it calls
      `vpc.vpc(region)`, and the module imports no `vpc` (billowBalancer.py:1-7), so it
      raises NameError there. */
  datatype Built = Built(backends: Backends) | Raised(error: string)

  function BackendsAsWritten(hasParent: bool, region: string): (r: Built)
    ensures r.Raised? <==> !hasParent
    ensures r.Raised? ==> r.error == "NameError"
    ensures r.Built? ==> r.backends == FromParent
  {
    if hasParent then Built(FromParent) else Raised("NameError")
  }

  /** The clients as intended: the parent's when there is a parent, otherwise new ones for
      the balancer's own region. */
  function BackendsFor(hasParent: bool, region: string): (r: Backends)
    ensures r.FromParent? <==> hasParent
    ensures r.ForRegion? ==> r.region == region
  {
    if hasParent then FromParent else ForRegion(region)
  }

  /** The two agree wherever the source does not raise, and a balancer built without a
      parent is where the source raises and the intended one gets the region's clients. */
  lemma BackendsFinding(hasParent: bool, region: string)
    ensures BackendsAsWritten(hasParent, region).Built? ==> BackendsAsWritten(hasParent, region).backends == BackendsFor(hasParent, region)
    ensures BackendsAsWritten(false, region) == Raised("NameError")
    ensures BackendsFor(false, region) == ForRegion(region)
  {
  }

  class Balancer {
    /** The name given to the constructor (the private __name). */
    const givenName: string
    const region: string
    const backends: Backends
    var rawelb: Option<RawElb>
    var rawsgroups: Option<seq<SecGroup>>
    var rawattrs: Option<Attrs>
    var rawhealth: Option<seq<Health>>

    constructor (name: string, region: string, hasParent: bool)
      ensures givenName == name && this.region == region
      ensures backends == BackendsFor(hasParent, region)
      ensures rawelb == None && rawsgroups == None && rawattrs == None && rawhealth == None
    {
      givenName := name;
      this.region := region;
      backends := BackendsFor(hasParent, region);
      rawelb, rawsgroups, rawattrs, rawhealth := None, None, None, None;
    }

    /** The name property once loaded: the balancer's own name, else the given name. */
    function Name(): string
      reads this`rawelb
    {
      if rawelb.Some? then rawelb.value.name else givenName
    }

    /** String equality: 'name:region' or 'name' (billowBalancer.py:121-124). */
    predicate MatchesName(other: string)
      reads this`rawelb
    {
      QualifiedMatch(Name(), region, other)
    }

    /** __load: fetch when nothing is cached or a refresh is asked for, and keep the first
        answer; an empty answer leaves the cache as it was (billowBalancer.py:128-132). */
    method Load(refresh: bool, elbs: seq<RawElb>)
      modifies this`rawelb
      ensures (old(rawelb).None? || refresh) && elbs != [] ==> rawelb == Some(elbs[0])
      ensures !((old(rawelb).None? || refresh) && elbs != []) ==> rawelb == old(rawelb)
    {
      if rawelb.None? || refresh {
        if elbs != [] {
          rawelb := Some(elbs[0]);
        }
      }
    }

    /** name: load, then the loaded balancer's name or the given one
        (billowBalancer.py:170-176). */
    method LoadName(elbs: seq<RawElb>) returns (name: string)
      modifies this`rawelb
      ensures old(rawelb).None? && elbs != [] ==> rawelb == Some(elbs[0])
      ensures !(old(rawelb).None? && elbs != []) ==> rawelb == old(rawelb)
      ensures rawelb.Some? ==> name == rawelb.value.name
      ensures rawelb.None? ==> name == givenName
    {
      Load(false, elbs);
      if rawelb.Some? {
        name := rawelb.value.name;
      } else {
        name := givenName;
      }
    }

    /** __load_health: fetch the health list when none (or an empty one) is cached or a refresh
        is asked for (billowBalancer.py:144-147). */
    method LoadHealth(refresh: bool, elbs: seq<RawElb>, health: seq<Health>)
      modifies this`rawelb, this`rawhealth
      ensures (old(rawhealth).None? || old(rawhealth) == Some([]) || refresh) && old(rawelb).None? && elbs != [] ==>
                rawelb == Some(elbs[0])
      ensures !((old(rawhealth).None? || old(rawhealth) == Some([]) || refresh) && old(rawelb).None? && elbs != []) ==>
                rawelb == old(rawelb)
      ensures old(rawhealth).None? || old(rawhealth) == Some([]) || refresh ==> rawhealth == Some(health)
      ensures !(old(rawhealth).None? || old(rawhealth) == Some([]) || refresh) ==> rawhealth == old(rawhealth)
      ensures rawhealth.Some?
    {
      if rawhealth.None? || rawhealth.value == [] || refresh {
        Load(false, elbs);
        rawhealth := Some(health);
      }
    }

    /** refresh: reload all four caches. The security-group lookup reads the loaded
        balancer's groups, so with no balancer loaded it raises (ok is false) after the
        first reload (billowBalancer.py:134-153). */
    method Refresh(elbs: seq<RawElb>, sgroups: seq<string> -> seq<SecGroup>, attrs: Attrs, health: seq<Health>)
      returns (ok: bool)
      modifies this`rawelb, this`rawsgroups, this`rawattrs, this`rawhealth
      ensures elbs != [] ==> rawelb == Some(elbs[0])
      ensures elbs == [] ==> rawelb == old(rawelb)
      ensures ok <==> rawelb.Some?
      ensures ok ==> rawsgroups == Some(sgroups(rawelb.value.securityGroups))
                     && rawattrs == Some(attrs) && rawhealth == Some(health)
      ensures !ok ==> rawsgroups == old(rawsgroups) && rawattrs == old(rawattrs) && rawhealth == old(rawhealth)
    {
      Load(true, elbs);
      Load(false, elbs);
      if rawelb.None? {
        return false;
      }
      rawsgroups := Some(sgroups(rawelb.value.securityGroups));
      rawattrs := Some(attrs);
      rawhealth := Some(health);
      return true;
    }

    /** instances: one new instance per health record, in order, carrying the record's
        state and reason (billowBalancer.py:216-224). */
    method Instances(elbs: seq<RawElb>, health: seq<Health>) returns (insts: seq<Instance>)
      modifies this`rawelb, this`rawhealth
      ensures (old(rawhealth).None? || old(rawhealth) == Some([])) && old(rawelb).None? && elbs != [] ==>
                rawelb == Some(elbs[0])
      ensures !((old(rawhealth).None? || old(rawhealth) == Some([])) && old(rawelb).None? && elbs != []) ==>
                rawelb == old(rawelb)
      ensures old(rawhealth).None? || old(rawhealth) == Some([]) ==> rawhealth == Some(health)
      ensures !(old(rawhealth).None? || old(rawhealth) == Some([])) ==> rawhealth == old(rawhealth)
      ensures rawhealth.Some? && |insts| == |rawhealth.value|
      ensures forall i :: 0 <= i < |insts| ==> fresh(insts[i])
      ensures forall i :: 0 <= i < |insts| ==>
                insts[i].id == rawhealth.value[i].instanceId && insts[i].region == region
                && insts[i].balancerState == Some(rawhealth.value[i].state)
                && insts[i].balancerReason == rawhealth.value[i].reasonCode
    {
      LoadHealth(false, elbs, health);
      var records := rawhealth.value;
      insts := [];
      for k := 0 to |records|
        modifies {}
        invariant |insts| == k
        invariant forall i :: 0 <= i < k ==> fresh(insts[i])
        invariant forall i :: 0 <= i < k ==>
                    insts[i].id == records[i].instanceId && insts[i].region == region
                    && insts[i].balancerState == Some(records[i].state)
                    && insts[i].balancerReason == records[i].reasonCode
      {
        var h := records[k];
        var inst := new Instance(h.instanceId, region);
        inst.PushBalancerInfo(BalancerMember(h.state, h.reasonCode));
        insts := insts + [inst];
      }
    }

    /** deregister: False with no provider call when the instance is not in the health
        list; otherwise the provider is called and the answer is True whatever it returned
        (billowBalancer.py:226-233). */
    method Deregister(instanceId: string, elbs: seq<RawElb>, health: seq<Health>)
      returns (r: bool, providerCalled: bool)
      modifies this`rawelb, this`rawhealth
      ensures old(rawhealth).None? || old(rawhealth) == Some([]) ==> rawhealth == Some(health)
      ensures !(old(rawhealth).None? || old(rawhealth) == Some([])) ==> rawhealth == old(rawhealth)
      ensures rawhealth.Some?
      ensures providerCalled <==> Registered(rawhealth.value, region, instanceId)
      ensures r == providerCalled
    {
      var insts := Instances(elbs, health);
      var found := false;
      for k := 0 to |insts|
        invariant found <==> exists i :: 0 <= i < k && QualifiedMatch(rawhealth.value[i].instanceId, region, instanceId)
      {
        if insts[k].MatchesName(instanceId) {
          found := true;
        }
      }
      if !found {
        return false, false;
      }
      var name := LoadName(elbs);
      return true, true;
    }

    /** register: False with no provider call when the instance is already in the health
        list; otherwise the provider's answer (billowBalancer.py:235-240). */
    method Register(instanceId: string, elbs: seq<RawElb>, health: seq<Health>, providerResult: bool)
      returns (r: bool, providerCalled: bool)
      modifies this`rawelb, this`rawhealth
      ensures old(rawhealth).None? || old(rawhealth) == Some([]) ==> rawhealth == Some(health)
      ensures !(old(rawhealth).None? || old(rawhealth) == Some([])) ==> rawhealth == old(rawhealth)
      ensures rawhealth.Some?
      ensures providerCalled <==> !Registered(rawhealth.value, region, instanceId)
      ensures r == (providerCalled && providerResult)
    {
      var insts := Instances(elbs, health);
      var found := false;
      for k := 0 to |insts|
        invariant found <==> exists i :: 0 <= i < k && QualifiedMatch(rawhealth.value[i].instanceId, region, instanceId)
      {
        if insts[k].MatchesName(instanceId) {
          found := true;
        }
      }
      if found {
        return false, false;
      }
      var name := LoadName(elbs);
      return providerResult, true;
    }
  }

  /** Object equality: the two names as the name property gives them, and the regions
      (billowBalancer.py:125-126). */
  predicate SameBalancer(a: Balancer, b: Balancer)
    reads a`rawelb, b`rawelb
  {
    a.Name() == b.Name() && a.region == b.region
  }
}
