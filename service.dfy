/** billowService: a service is the set of autoscaling groups tagged with its name, in one
    environment and region. Groups are seen here through the attributes the service
    reads from them; provider answers are parameters. */
module Services {
  import opened Wrappers
  import opened Text
  import opened Balancers
  import opened Util

  /** What the service reads from one of its groups. */
  datatype GroupView = GroupView(name: string, environ: Option<string>, cluster: Option<string>,
                                 ami: Option<string>, securityGroups: seq<string>,
                                 loadBalancers: seq<string>)

  // ---------------------------------------------------------------------------
  // The constructor's name split (billowService.py:30-33)

  /** `service:region` names override the region given: the service is the text before
      the first ':' and the region the text between the first and any second ':'. */
  function ParseName(name: string, region: string): (r: (string, string))
    ensures ':' !in name ==> r == (name, region)
    ensures ':' !in r.0 && (':' in name ==> ':' !in r.1)
  {
    if ':' in name then
      SplitWithSep(name, ':');
      var parts := Split(name, ':');
      (parts[0], parts[1])
    else (name, region)
  }

  /** A name with ':' is the service, ':', the region, and then nothing or a further
      ':'-separated rest. */
  lemma ParseNameParts(name: string, region: string)
    requires ':' in name
    ensures var (s, r) := ParseName(name, region);
            |name| >= |s| + 1 + |r| && name[..|s| + 1 + |r|] == s + ":" + r
            && (|name| == |s| + 1 + |r| || name[|s| + 1 + |r|] == ':')
  {
    SplitWithSep(name, ':');
    JoinSplit(name, ':');
    var parts := Split(name, ':');
    var rest := Join(parts[1..], ':');
    assert name == parts[0] + [':'] + rest;
    if |parts| == 2 {
      assert rest == parts[1];
      assert name == parts[0] + ":" + parts[1];
    } else {
      assert parts[1..][1..] == parts[2..];
      assert rest == parts[1] + [':'] + Join(parts[2..], ':');
      assert name == (parts[0] + ":" + parts[1]) + [':'] + Join(parts[2..], ':');
    }
  }

  // ---------------------------------------------------------------------------
  // String forms (billowService.py:150-181)

  /** str(service): 'service-environ:region', with an unset environ shown as None. */
  function Display(service: string, environ: Option<string>, region: string): string
  {
    service + "-" + Show(environ) + ":" + region
  }

  /** The four string forms a service answers to: service-environ:region,
      service-environ, service:region and service. */
  predicate NameForms(service: string, environ: Option<string>, region: string, other: string)
  {
    || Display(service, environ, region) == other
    || service + "-" + Show(environ) == other
    || service + ":" + region == other
    || service == other
  }

  /** Each of the four forms is accepted, and with ':' and '-' kept out of the service
      name, every accepted string begins with exactly the service name. */
  lemma NameFormsAccepted(service: string, environ: Option<string>, region: string, other: string)
    ensures NameForms(service, environ, region, Display(service, environ, region))
    ensures NameForms(service, environ, region, service + "-" + Show(environ))
    ensures NameForms(service, environ, region, service + ":" + region)
    ensures NameForms(service, environ, region, service)
    ensures NameForms(service, environ, region, other) ==> |other| >= |service| && other[..|service|] == service
  {
    if NameForms(service, environ, region, other) {
      if Display(service, environ, region) == other {
        assert other == service + ("-" + Show(environ) + ":" + region);
      } else if service + "-" + Show(environ) == other {
      } else if service + ":" + region == other {
      }
    }
  }

  // ---------------------------------------------------------------------------
  // Environment pruning (billowService.py:207-220)

  /** The groups whose environ is the one given, in order. */
  function WithEnviron(groups: seq<GroupView>, environ: Option<string>): seq<GroupView>
  {
    if groups == [] then []
    else (if groups[0].environ == environ then [groups[0]] else []) + WithEnviron(groups[1..], environ)
  }

  /** Every kept group has the environ, and every group with it is kept. */
  lemma {:induction false} WithEnvironSpec(groups: seq<GroupView>, environ: Option<string>)
    ensures |WithEnviron(groups, environ)| <= |groups|
    ensures forall g :: g in WithEnviron(groups, environ) <==> g in groups && g.environ == environ
    decreases |groups|
  {
    if groups != [] {
      WithEnvironSpec(groups[1..], environ);
      assert forall g :: g in groups <==> g == groups[0] || g in groups[1..] by {
        assert groups == [groups[0]] + groups[1..];
      }
    }
  }

  /** The list after the first k groups of the copy were visited by the pruning loop. */
  function PruneShape(copy: seq<GroupView>, k: nat, environ: Option<string>): seq<GroupView>
    requires k <= |copy|
  {
    WithEnviron(copy[..k], environ) + copy[k..]
  }

  /** One pruning visit: a group of another environ is removed. */
  function PruneStep(gs: seq<GroupView>, g: GroupView, environ: Option<string>): seq<GroupView>
  {
    if g.environ != environ then RemoveFirst(gs, g) else gs
  }

  lemma PruneStepShape(copy: seq<GroupView>, k: nat, environ: Option<string>)
    requires k < |copy|
    ensures PruneStep(PruneShape(copy, k, environ), copy[k], environ) == PruneShape(copy, k + 1, environ)
  {
    var g := copy[k];
    var done := copy[..k];
    var rest := copy[k + 1..];
    var kept := WithEnviron(done, environ);
    assert copy[..k + 1] == done + [g];
    assert copy[k..] == [g] + rest;
    WithEnvironSnoc(done, g, environ);
    assert PruneShape(copy, k, environ) == kept + [g] + rest by {
      assert kept + ([g] + rest) == kept + [g] + rest;
    }
    if g.environ != environ {
      WithEnvironSpec(done, environ);
      assert g !in kept;
      RemoveFirstAt(kept, g, rest);
      assert PruneShape(copy, k + 1, environ) == kept + rest;
    } else {
      assert PruneShape(copy, k + 1, environ) == (kept + [g]) + rest;
    }
  }

  lemma {:induction false} WithEnvironSnoc(groups: seq<GroupView>, g: GroupView, environ: Option<string>)
    ensures WithEnviron(groups + [g], environ)
            == WithEnviron(groups, environ) + (if g.environ == environ then [g] else [])
    decreases |groups|
  {
    if groups == [] {
      assert [] + [g] == [g];
    } else {
      var h: seq<GroupView> := if groups[0].environ == environ then [groups[0]] else [];
      var t: seq<GroupView> := if g.environ == environ then [g] else [];
      assert (groups + [g])[0] == groups[0];
      assert (groups + [g])[1..] == groups[1..] + [g];
      assert WithEnviron(groups + [g], environ) == h + WithEnviron(groups[1..] + [g], environ);
      WithEnvironSnoc(groups[1..], g, environ);
      AppendAssoc(h, WithEnviron(groups[1..], environ), t);
    }
  }

  /** The environ _load_groups settles on: the one set, else the first group's. */
  function AdoptedEnviron(environ: Option<string>, groups: seq<GroupView>): (e: Option<string>)
    ensures Truthy(environ) ==> e == environ
    ensures !Truthy(environ) && groups != [] ==> e == groups[0].environ
    ensures !Truthy(environ) && groups == [] ==> e == environ
  {
    if !Truthy(environ) && groups != [] then groups[0].environ else environ
  }

  // ---------------------------------------------------------------------------
  // Common value of all groups (billowService.py:241-267)

  /** The scan of the cluster and ami loops from a running value `cur`: a falsy running
      value takes the next group's value, and a mismatch returns None at once. */
  function Common(vals: seq<Option<string>>, cur: Option<string>): Option<string>
    decreases |vals|
  {
    if vals == [] then cur
    else
      var c := if Truthy(cur) then cur else vals[0];
      if c != vals[0] then None else Common(vals[1..], c)
  }

  function CommonValue(vals: seq<Option<string>>): Option<string>
  {
    Common(vals, None)
  }

  /** Once a non-empty value is held, the scan returns it when every later value agrees and
      None otherwise. */
  lemma {:induction false} CommonHeld(vals: seq<Option<string>>, cur: Option<string>)
    requires Truthy(cur)
    ensures Common(vals, cur) == (if forall j :: 0 <= j < |vals| ==> vals[j] == cur then cur else None)
    decreases |vals|
  {
    if vals != [] {
      CommonHeld(vals[1..], cur);
      if vals[0] == cur {
        assert (forall j :: 0 <= j < |vals| ==> vals[j] == cur)
               <==> (forall j :: 0 <= j < |vals[1..]| ==> vals[1..][j] == cur) by {
          forall j | 1 <= j < |vals| ensures vals[j] == vals[1..][j - 1] {}
        }
      }
    }
  }

  /** Before the first non-empty value the scan only carries the latest empty one. */
  lemma {:induction false} CommonSkip(vals: seq<Option<string>>, cur: Option<string>, k: nat)
    requires !Truthy(cur) && k < |vals|
    requires forall j :: 0 <= j < k ==> !Truthy(vals[j])
    ensures Common(vals, cur) == Common(vals[k + 1..], vals[k])
    decreases k
  {
    if k > 0 {
      assert vals[1..][k - 1] == vals[k] && vals[1..][k..] == vals[k + 1..];
      CommonSkip(vals[1..], vals[0], k - 1);
    }
  }

  /** cluster and ami with a first non-empty value at k: that value when every later group
      agrees with it, None as soon as one does not. */
  lemma CommonValueFirstTruthy(vals: seq<Option<string>>, k: nat)
    requires k < |vals| && Truthy(vals[k])
    requires forall j :: 0 <= j < k ==> !Truthy(vals[j])
    ensures CommonValue(vals) == (if forall j :: k < j < |vals| ==> vals[j] == vals[k] then vals[k] else None)
  {
    CommonSkip(vals, None, k);
    var rest := vals[k + 1..];
    CommonHeld(rest, vals[k]);
    if forall j :: k < j < |vals| ==> vals[j] == vals[k] {
      forall j | 0 <= j < |rest| ensures rest[j] == vals[k] {
        assert rest[j] == vals[j + k + 1];
      }
    } else {
      var j :| k < j < |vals| && vals[j] != vals[k];
      assert rest[j - k - 1] == vals[j];
    }
  }

  /** With no non-empty value at all, the result is the last group's (empty) value, and
      None for no groups. */
  lemma CommonValueNoTruthy(vals: seq<Option<string>>)
    requires forall j :: 0 <= j < |vals| ==> !Truthy(vals[j])
    ensures CommonValue(vals) == (if vals == [] then None else vals[|vals| - 1])
  {
    if vals != [] {
      CommonSkip(vals, None, |vals| - 1);
      assert vals[|vals|..] == [];
    }
  }

  /** When every group holds the same value, that value is returned. */
  lemma CommonValueAgree(vals: seq<Option<string>>, v: Option<string>)
    requires vals != [] && forall j :: 0 <= j < |vals| ==> vals[j] == v
    ensures CommonValue(vals) == v
  {
    if Truthy(v) {
      CommonValueFirstTruthy(vals, 0);
    } else {
      CommonValueNoTruthy(vals);
    }
  }

  function Clusters(groups: seq<GroupView>): (r: seq<Option<string>>)
    ensures |r| == |groups| && forall i :: 0 <= i < |groups| ==> r[i] == groups[i].cluster
  {
    seq(|groups|, i requires 0 <= i < |groups| => groups[i].cluster)
  }

  function Amis(groups: seq<GroupView>): (r: seq<Option<string>>)
    ensures |r| == |groups| && forall i :: 0 <= i < |groups| ==> r[i] == groups[i].ami
  {
    seq(|groups|, i requires 0 <= i < |groups| => groups[i].ami)
  }

  // ---------------------------------------------------------------------------
  // Ordered unions (billowService.py:269-277, 316-321)

  predicate NoDup(xs: seq<string>)
  {
    forall i, j :: 0 <= i < j < |xs| ==> xs[i] != xs[j]
  }

  /** `acc.extend(x for x in xs if x not in acc)`: the generator sees the items already
      appended, so each new name is added once. */
  function AddNew(acc: seq<string>, xs: seq<string>): seq<string>
    decreases |xs|
  {
    if xs == [] then acc
    else AddNew(if xs[0] in acc then acc else acc + [xs[0]], xs[1..])
  }

  /** Adding keeps what was there in front, adds no duplicate, and holds exactly the
      names of both lists. */
  lemma {:induction false} AddNewProps(acc: seq<string>, xs: seq<string>)
    ensures |acc| <= |AddNew(acc, xs)| && AddNew(acc, xs)[..|acc|] == acc
    ensures NoDup(acc) ==> NoDup(AddNew(acc, xs))
    ensures forall x :: x in AddNew(acc, xs) <==> x in acc || x in xs
    decreases |xs|
  {
    if xs != [] {
      var next := if xs[0] in acc then acc else acc + [xs[0]];
      AddNewProps(next, xs[1..]);
      assert next[..|acc|] == acc;
      assert AddNew(acc, xs)[..|acc|] == AddNew(acc, xs)[..|next|][..|acc|];
      assert forall x :: x in xs <==> x == xs[0] || x in xs[1..] by {
        assert xs == [xs[0]] + xs[1..];
      }
    }
  }

  /** The union of several lists, one after another, into acc. */
  function UnionAll(acc: seq<string>, lists: seq<seq<string>>): seq<string>
    decreases |lists|
  {
    if lists == [] then acc else UnionAll(AddNew(acc, lists[0]), lists[1..])
  }

  /** The union has no duplicate, keeps acc in front, and holds exactly the names of acc
      and of the lists. */
  lemma {:induction false} UnionAllProps(acc: seq<string>, lists: seq<seq<string>>)
    ensures |acc| <= |UnionAll(acc, lists)| && UnionAll(acc, lists)[..|acc|] == acc
    ensures NoDup(acc) ==> NoDup(UnionAll(acc, lists))
    ensures forall x :: x in UnionAll(acc, lists) <==> x in acc || exists i :: 0 <= i < |lists| && x in lists[i]
    decreases |lists|
  {
    if lists != [] {
      var next := AddNew(acc, lists[0]);
      AddNewProps(acc, lists[0]);
      UnionAllProps(next, lists[1..]);
      assert UnionAll(acc, lists)[..|acc|] == UnionAll(acc, lists)[..|next|][..|acc|];
      forall x
        ensures x in UnionAll(acc, lists) <==> x in acc || exists i :: 0 <= i < |lists| && x in lists[i]
      {
        if x in UnionAll(acc, lists) && x !in acc && x !in lists[0] {
          var i :| 0 <= i < |lists[1..]| && x in lists[1..][i];
          assert x in lists[i + 1];
        }
        if exists i :: 0 <= i < |lists| && x in lists[i] {
          var i :| 0 <= i < |lists| && x in lists[i];
          if i > 0 {
            assert x in lists[1..][i - 1];
          }
        }
      }
    }
  }

  /** The union of the empty list with the given lists: no duplicates, exactly their names,
      and each list's new names after those of the lists before it. */
  lemma OrderedUnion(lists: seq<seq<string>>, k: nat)
    requires k <= |lists|
    ensures NoDup(UnionAll([], lists))
    ensures forall x :: x in UnionAll([], lists) <==> exists i :: 0 <= i < |lists| && x in lists[i]
    ensures |UnionAll([], lists[..k])| <= |UnionAll([], lists)|
            && UnionAll([], lists)[..|UnionAll([], lists[..k])|] == UnionAll([], lists[..k])
  {
    UnionAllProps([], lists);
    UnionSplit([], lists, k);
    UnionAllProps(UnionAll([], lists[..k]), lists[k..]);
  }

  lemma {:induction false} UnionSplit(acc: seq<string>, lists: seq<seq<string>>, k: nat)
    requires k <= |lists|
    ensures UnionAll(acc, lists) == UnionAll(UnionAll(acc, lists[..k]), lists[k..])
    decreases k
  {
    if k > 0 {
      assert lists[1..][..k - 1] == lists[1..k] && lists[1..][k - 1..] == lists[k..];
      UnionSplit(AddNew(acc, lists[0]), lists[1..], k - 1);
      assert lists[..k][1..] == lists[1..k];
    } else {
      assert lists[..0] == [] && lists[0..] == lists;
    }
  }

  /** One list per record, taken out by field, in order. */
  function Lists<T>(xs: seq<T>, field: T -> seq<string>): (r: seq<seq<string>>)
    ensures |r| == |xs| && forall i :: 0 <= i < |xs| ==> r[i] == field(xs[i])
  {
    seq(|xs|, i requires 0 <= i < |xs| => field(xs[i]))
  }

  function GroupBalancers(g: GroupView): seq<string> { g.loadBalancers }

  function GroupSecurityGroups(g: GroupView): seq<string> { g.securityGroups }

  function ElbSecurityGroups(e: RawElb): seq<string> { e.securityGroups }

  // ---------------------------------------------------------------------------
  // get_instance (billowService.py:326-331)

  /** The first group's answer to get_instance, or None. */
  function FirstFound<T>(groups: seq<GroupView>, instance: string, find: (GroupView, string) -> Option<T>): (r: Option<T>)
    ensures r.None? <==> forall i :: 0 <= i < |groups| ==> find(groups[i], instance).None?
    ensures r.Some? ==> exists k :: 0 <= k < |groups| && r == find(groups[k], instance)
                          && forall j :: 0 <= j < k ==> find(groups[j], instance).None?
  {
    if groups == [] then None
    else if find(groups[0], instance).Some? then find(groups[0], instance)
    else
      var r := FirstFound(groups[1..], instance, find);
      assert forall i :: 1 <= i < |groups| ==> groups[i] == groups[1..][i - 1];
      r
  }

  class Service {
    const service: string
    const givenRegion: string
    /** The parent region object's region, when the service has a parent. */
    const parentRegion: Option<string>
    var environ: Option<string>
    var groups: seq<GroupView>
    var rawelbs: Option<seq<RawElb>>

    /** billowService(name, groups, region, environ, parent): a 'service:region' name
        overrides the region (billowService.py:18-33). */
    constructor (name: string, groups: seq<GroupView>, region: string, environ: Option<string>, parentRegion: Option<string>)
      ensures (service, givenRegion) == ParseName(name, region)
      ensures this.groups == groups && this.environ == environ && this.parentRegion == parentRegion
      ensures rawelbs == None
    {
      var parsed := ParseName(name, region);
      service := parsed.0;
      givenRegion := parsed.1;
      this.parentRegion := parentRegion;
      this.environ := environ;
      this.groups := groups;
      rawelbs := None;
    }

    /** The region property: the parent's region when there is a parent. */
    function Region(): string
    {
      if parentRegion.Some? then parentRegion.value else givenRegion
    }

    /** String equality with the four name forms (billowService.py:170-178). */
    predicate MatchesName(other: string)
      reads this`environ
    {
      NameForms(service, environ, Region(), other)
    }

    /** _load_groups: adopt the first fetched group's environ when none is set, then keep
        only the groups of that environ, in order (billowService.py:190-220). */
    method LoadGroups(fetched: seq<GroupView>)
      modifies this`environ, this`groups
      ensures environ == AdoptedEnviron(old(environ), fetched)
      ensures groups == WithEnviron(fetched, environ)
    {
      var gs := fetched;
      if !(environ.Some? && environ.value != "") {
        if |gs| > 0 {
          environ := gs[0].environ;
        }
      }
      var copy := gs;
      assert copy[..0] == [] && copy[0..] == copy;
      for k := 0 to |copy|
        modifies {}
        invariant gs == PruneShape(copy, k, environ)
      {
        var g := copy[k];
        PruneStepShape(copy, k, environ);
        if g.environ != environ {
          gs := RemoveFirst(gs, g);
        }
      }
      assert copy[..|copy|] == copy && copy[|copy|..] == [];
      groups := gs;
    }

    /** _load_groups as written: `billowGroup(a.name, region=..., parent=self)` passes a
        `parent` keyword that billowGroup's constructor does not take (billowGroup.py:14),
        so the first fetched group raises TypeError before the service changes; with no
        group fetched, the environ stays as it was and no group is kept
        (billowService.py:190-220). */
    method LoadGroupsAsWritten(fetched: seq<GroupView>) returns (raised: Option<string>)
      modifies this`environ, this`groups
      ensures fetched != [] ==> raised == Some("TypeError") && environ == old(environ) && groups == old(groups)
      ensures fetched == [] ==> raised == None && environ == old(environ) && groups == []
    {
      for k := 0 to |fetched| {
        // `billowGroup(a.name, region=self.region, parent=self)`: an unexpected keyword
        return Some("TypeError");
      }
      groups := [];
      return None;
    }

    /** cluster: the common cluster of all groups (billowService.py:241-253). */
    method Cluster() returns (cluster: Option<string>)
      ensures cluster == CommonValue(Clusters(groups))
    {
      var vals := Clusters(groups);
      cluster := None;
      for k := 0 to |groups|
        invariant Common(vals[k..], cluster) == CommonValue(vals)
      {
        assert vals[k..][1..] == vals[k + 1..];
        var g := groups[k];
        if !(cluster.Some? && cluster.value != "") {
          cluster := g.cluster;
        }
        if cluster != g.cluster {
          return None;
        }
      }
      assert vals[|groups|..] == [];
    }

    /** ami: the common machine image of all groups (billowService.py:255-267). */
    method Ami() returns (ami: Option<string>)
      ensures ami == CommonValue(Amis(groups))
    {
      var vals := Amis(groups);
      ami := None;
      for k := 0 to |groups|
        invariant Common(vals[k..], ami) == CommonValue(vals)
      {
        assert vals[k..][1..] == vals[k + 1..];
        var g := groups[k];
        if !(ami.Some? && ami.value != "") {
          ami := g.ami;
        }
        if ami != g.ami {
          return None;
        }
      }
      assert vals[|groups|..] == [];
    }

    /** load_balancers: the ordered union of the groups' balancer names
        (billowService.py:316-321). */
    method LoadBalancers() returns (elbs: seq<string>)
      ensures elbs == UnionAll([], Lists(groups, GroupBalancers))
    {
      elbs := [];
      var lists := Lists(groups, GroupBalancers);
      for k := 0 to |groups|
        invariant UnionAll(elbs, lists[k..]) == UnionAll([], lists)
      {
        assert lists[k..][1..] == lists[k + 1..];
        elbs := Extend(elbs, groups[k].loadBalancers);
      }
      assert lists[|groups|..] == [];
    }

    /** __load_elbs: fetch the balancers of the service's balancer names when none (or an
        empty list) is cached; never query an empty list of names
        (billowService.py:226-232). */
    method LoadElbs(fetchElbs: seq<string> -> seq<RawElb>)
      modifies this`rawelbs
      ensures old(rawelbs).Some? && old(rawelbs).value != [] ==> rawelbs == old(rawelbs)
      ensures !(old(rawelbs).Some? && old(rawelbs).value != []) ==>
                var names := UnionAll([], Lists(groups, GroupBalancers));
                rawelbs == Some(if names != [] then fetchElbs(names) else [])
      ensures rawelbs.Some?
    {
      if rawelbs.None? || rawelbs.value == [] {
        var names := LoadBalancers();
        if names != [] {
          rawelbs := Some(fetchElbs(names));
        } else {
          rawelbs := Some([]);
        }
      }
    }

    /** security_groups: the groups' security groups, then those of the balancers, as one
        ordered union (billowService.py:269-277). */
    method SecurityGroups(fetchElbs: seq<string> -> seq<RawElb>) returns (sgroups: seq<string>)
      modifies this`rawelbs
      ensures old(rawelbs).Some? && old(rawelbs).value != [] ==> rawelbs == old(rawelbs)
      ensures !(old(rawelbs).Some? && old(rawelbs).value != []) ==>
                var names := UnionAll([], Lists(groups, GroupBalancers));
                rawelbs == Some(if names != [] then fetchElbs(names) else [])
      ensures rawelbs.Some? && sgroups == UnionAll([], Lists(groups, GroupSecurityGroups) + Lists(rawelbs.value, ElbSecurityGroups))
    {
      LoadElbs(fetchElbs);
      sgroups := GroupsThenElbs(groups, rawelbs.value);
    }

    /** get_instance: the first group's match, or None (billowService.py:326-331). */
    method GetInstance<T>(instance: string, find: (GroupView, string) -> Option<T>) returns (r: Option<T>)
      ensures r == FirstFound(groups, instance, find)
    {
      for k := 0 to |groups|
        invariant FirstFound(groups[k..], instance, find) == FirstFound(groups, instance, find)
      {
        assert groups[k..][1..] == groups[k + 1..];
        var i := find(groups[k], instance);
        if i.Some? {
          return i;
        }
      }
      assert groups[|groups|..] == [];
      return None;
    }

    /** get_instance as written: `g.get_instance` is not a method of billowGroup, so the
        first group raises AttributeError; with no groups the answer is None
        (billowService.py:326-331). */
    method GetInstanceAsWritten() returns (raised: Option<string>)
      ensures groups != [] <==> raised == Some("AttributeError")
      ensures groups == [] <==> raised == None
    {
      for k := 0 to |groups| {
        // `g.get_instance(instance)`: billowGroup defines no get_instance
        return Some("AttributeError");
      }
      return None;
    }
  }

  /** When one group is fetched, the corrected _load_groups adopts its environ and keeps
      it, where the source as written raises TypeError. */
  lemma LoadGroupsFinding(g: GroupView)
    ensures AdoptedEnviron(None, [g]) == g.environ
    ensures WithEnviron([g], AdoptedEnviron(None, [g])) == [g]
  {
    assert [g][1..] == [];
  }

  /** When the only group holds the instance, the corrected get_instance returns that
      group's match, where the source as written raises AttributeError. */
  lemma GetInstanceFinding<T>(g: GroupView, instance: string, find: (GroupView, string) -> Option<T>)
    requires find(g, instance).Some?
    ensures FirstFound([g], instance, find) == find(g, instance) && FirstFound([g], instance, find).Some?
  {
  }

  /** The two extend loops of security_groups: first over the groups, then over the
      balancers. */
  method GroupsThenElbs(groups: seq<GroupView>, elbs: seq<RawElb>) returns (sgroups: seq<string>)
    ensures sgroups == UnionAll([], Lists(groups, GroupSecurityGroups) + Lists(elbs, ElbSecurityGroups))
  {
    var first := Lists(groups, GroupSecurityGroups);
    var second := Lists(elbs, ElbSecurityGroups);
    sgroups := [];
    for k := 0 to |groups|
      invariant UnionAll(sgroups, first[k..]) == UnionAll([], first)
    {
      assert first[k..][1..] == first[k + 1..];
      sgroups := Extend(sgroups, groups[k].securityGroups);
    }
    assert first[|groups|..] == [];
    ghost var mid := sgroups;
    for k := 0 to |elbs|
      invariant UnionAll(sgroups, second[k..]) == UnionAll(mid, second)
    {
      assert second[k..][1..] == second[k + 1..];
      sgroups := Extend(sgroups, elbs[k].securityGroups);
    }
    assert second[|elbs|..] == [];
    UnionSplit([], first + second, |first|);
    assert (first + second)[..|first|] == first && (first + second)[|first|..] == second;
  }

  /** One `extend` with the generator: append each name not yet present, seeing the names
      appended so far. */
  method Extend(acc: seq<string>, xs: seq<string>) returns (r: seq<string>)
    ensures r == AddNew(acc, xs)
  {
    r := acc;
    for k := 0 to |xs|
      invariant AddNew(r, xs[k..]) == AddNew(acc, xs)
    {
      assert xs[k..][1..] == xs[k + 1..];
      if xs[k] !in r {
        r := r + [xs[k]];
      }
    }
    assert xs[|xs|..] == [];
  }

  /** Object equality: service, environ and region (billowService.py:179-181). */
  predicate SameService(a: Service, b: Service)
    reads a`environ, b`environ
  {
    a.service == b.service && a.environ == b.environ && a.Region() == b.Region()
  }
}
