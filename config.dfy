/** billowConfig: choosing a launch configuration for a service by name pattern, and
    the table of instance-store block devices per instance type. The provider's
    configuration lookup by pattern is a parameter, `lookup(pattern)`. */
module Configs {
  import opened Wrappers
  import opened Text
  import opened Naming

  datatype LaunchConfig = LaunchConfig(name: string, imageId: string, instanceType: string)

  function ConfigName(c: LaunchConfig): string
  {
    c.name
  }

  /** Number of instance-store block devices per instance type (billowConfig.py:16-54). */
  const BlockDevMap: map<string, nat> := map[
    "c1.medium" := 1, "c1.xlarge" := 1,
    "c3.2xlarge" := 2, "c3.4xlarge" := 2, "c3.8xlarge" := 2, "c3.large" := 2, "c3.xlarge" := 2,
    "cc2.8xlarge" := 4, "cg1.4xlarge" := 2, "cr1.8xlarge" := 2, "g2.2xlarge" := 1,
    "hi1.4xlarge" := 2,
    "i2.2xlarge" := 2, "i2.4xlarge" := 4, "i2.8xlarge" := 8, "i2.xlarge" := 1,
    "m1.large" := 2, "m1.medium" := 1, "m1.small" := 1, "m1.xlarge" := 4,
    "m2.2xlarge" := 1, "m2.4xlarge" := 2, "m2.xlarge" := 1,
    "m3.2xlarge" := 2, "m3.large" := 1, "m3.medium" := 1, "m3.xlarge" := 2,
    "t1.micro" := 0, "hs1.8xlarge" := 24,
    "c4.2xlarge" := 0, "c4.4xlarge" := 0, "c4.8xlarge" := 0, "c4.large" := 0, "c4.xlarge" := 0,
    "t2.medium" := 0, "t2.micro" := 0, "t2.small" := 0
  ]

  /** blockdevmap[instance_type], None for a type the table does not list. */
  function BlockDevices(instanceType: string): (n: Option<nat>)
    ensures n.Some? <==> instanceType in BlockDevMap
  {
    if instanceType in BlockDevMap then Some(BlockDevMap[instanceType]) else None
  }

  /** The c4 and t2 families have no instance store; hs1.8xlarge has 24 devices; a type
      the table does not list has no entry. */
  lemma BlockDevMapFacts()
    ensures BlockDevices("c4.large") == BlockDevices("c4.xlarge") == BlockDevices("c4.2xlarge") == Some(0)
    ensures BlockDevices("c4.4xlarge") == BlockDevices("c4.8xlarge") == Some(0)
    ensures BlockDevices("t2.micro") == BlockDevices("t2.small") == BlockDevices("t2.medium") == Some(0)
    ensures BlockDevices("hs1.8xlarge") == Some(24)
    ensures BlockDevices("t2.nano") == None
  {
  }

  /** The two dated patterns of search and list (billowConfig.py:80-83, 106-109). */
  function Patterns(service: string, environ: string): (ps: seq<string>)
    ensures |ps| == 2
  {
    [environ + "-" + service + "-\\d{14}", service + "-\\d{14}"]
  }

  function Sorted(configs: seq<LaunchConfig>): seq<LaunchConfig>
  {
    SortDesc(configs, ConfigName)
  }

  datatype SearchOutcome = Found(config: LaunchConfig) | NotFound | RaisedTypeError

  /** The plain service lookup that search falls back to. */
  function Fallback(service: string, lookup: string -> seq<LaunchConfig>): SearchOutcome
  {
    if lookup(service) == [] then NotFound else Found(lookup(service)[0])
  }

  /** search as written: a non-empty pattern lookup reaches `config[0]` with config None,
      which raises TypeError (billowConfig.py:85-90). */
  method SearchAsWritten(service: string, environ: string, lookup: string -> seq<LaunchConfig>)
    returns (r: SearchOutcome)
    ensures lookup(Patterns(service, environ)[0]) != [] ==> r == RaisedTypeError
    ensures lookup(Patterns(service, environ)[0]) == [] && lookup(Patterns(service, environ)[1]) != [] ==>
              r == RaisedTypeError
    ensures lookup(Patterns(service, environ)[0]) == [] && lookup(Patterns(service, environ)[1]) == [] ==>
              r == Fallback(service, lookup)
  {
    var formats := Patterns(service, environ);
    var k := 0;
    while k < |formats|
      invariant 0 <= k <= |formats|
      invariant forall j :: 0 <= j < k ==> lookup(formats[j]) == []
    {
      var config: Option<LaunchConfig> := None;
      var configs := lookup(formats[k]);
      if configs != [] {
        configs := SortDesc(configs, ConfigName);
        // `return config[0]`: config is still None here, so the subscript raises TypeError
        return RaisedTypeError;
      }
      k := k + 1;
    }
    var configs := lookup(service);
    if configs != [] {
      return Found(configs[0]);
    }
    return NotFound;
  }

  /** The evidently intended search: the first non-empty pattern lookup's newest
      configuration; the plain lookup only when both pattern lookups are empty. */
  method Search(service: string, environ: string, lookup: string -> seq<LaunchConfig>)
    returns (r: SearchOutcome)
    ensures r == SearchSpec(service, environ, lookup)
  {
    var formats := Patterns(service, environ);
    var k := 0;
    while k < |formats|
      invariant 0 <= k <= |formats|
      invariant forall j :: 0 <= j < k ==> lookup(formats[j]) == []
    {
      var configs := lookup(formats[k]);
      if configs != [] {
        configs := SortDesc(configs, ConfigName);
        return Found(configs[0]);
      }
      k := k + 1;
    }
    var configs := lookup(service);
    if configs != [] {
      return Found(configs[0]);
    }
    return NotFound;
  }

  function SearchSpec(service: string, environ: string, lookup: string -> seq<LaunchConfig>): SearchOutcome
  {
    var ps := Patterns(service, environ);
    if lookup(ps[0]) != [] then Found(Sorted(lookup(ps[0]))[0])
    else if lookup(ps[1]) != [] then Found(Sorted(lookup(ps[1]))[0])
    else Fallback(service, lookup)
  }

  /** The corrected search never raises; a pattern result is a configuration of that
      lookup with no newer name in it, and the plain lookup is used only when both
      pattern lookups are empty. */
  lemma SearchSpecChoice(service: string, environ: string, lookup: string -> seq<LaunchConfig>)
    ensures SearchSpec(service, environ, lookup) != RaisedTypeError
    ensures forall k :: (0 <= k < 2 && lookup(Patterns(service, environ)[k]) != []
              && (forall j :: 0 <= j < k ==> lookup(Patterns(service, environ)[j]) == [])) ==>
              var c := SearchSpec(service, environ, lookup).config;
              c in lookup(Patterns(service, environ)[k])
              && forall x :: x in lookup(Patterns(service, environ)[k]) ==> !Less(c.name, x.name)
    ensures lookup(Patterns(service, environ)[0]) == [] && lookup(Patterns(service, environ)[1]) == [] ==>
              SearchSpec(service, environ, lookup) == Fallback(service, lookup)
  {
    var ps := Patterns(service, environ);
    forall k | 0 <= k < 2 && lookup(ps[k]) != [] && (forall j :: 0 <= j < k ==> lookup(ps[j]) == [])
      ensures var c := SearchSpec(service, environ, lookup).config;
              c in lookup(ps[k]) && forall x :: x in lookup(ps[k]) ==> !Less(c.name, x.name)
    {
      NewestFirst(lookup(ps[k]));
    }
  }

  /** The head of a sorted non-empty lookup is one of its configurations, and none is newer. */
  lemma NewestFirst(configs: seq<LaunchConfig>)
    requires configs != []
    ensures Sorted(configs)[0] in configs
    ensures forall x :: x in configs ==> !Less(Sorted(configs)[0].name, x.name)
  {
    var s := Sorted(configs);
    SortDescSorted(configs, ConfigName);
    assert s[0] in multiset(s);
    forall x | x in configs
      ensures !Less(s[0].name, x.name)
    {
      assert x in multiset(s);
      var i :| 0 <= i < |s| && s[i] == x;
      if i > 0 {
        assert !Less(ConfigName(s[0]), ConfigName(s[i]));
      } else {
        LessIrreflexive(x.name);
      }
    }
  }

  /** When a pattern lookup is non-empty, the search as written raises where the corrected
      one returns that lookup's newest configuration. */
  lemma SearchFinding(c: LaunchConfig)
    ensures var lookup := (p: string) => [c];
            SearchSpec("web", "prod", lookup) == Found(c)
  {
    var lookup := (p: string) => [c];
    assert Sorted([c]) == [c];
  }

  /** list(service, environ): both dated lookups sorted descending, then the plain lookup as returned. */
  method List(service: string, environ: string, lookup: string -> seq<LaunchConfig>) returns (configlist: seq<LaunchConfig>)
    ensures configlist == ListPrefix(Patterns(service, environ), 2, lookup) + lookup(service)
  {
    var formats := Patterns(service, environ);
    configlist := [];
    for k := 0 to |formats|
      invariant configlist == ListPrefix(formats, k, lookup)
    {
      var configs := lookup(formats[k]);
      if configs != [] {
        configlist := configlist + SortDesc(configs, ConfigName);
      }
    }
    var configs := lookup(service);
    if configs != [] {
      configlist := configlist + configs;
    }
  }

  /** The sorted results of the first n patterns, concatenated. */
  function ListPrefix(ps: seq<string>, n: nat, lookup: string -> seq<LaunchConfig>): seq<LaunchConfig>
    requires n <= |ps|
  {
    if n == 0 then [] else ListPrefix(ps, n - 1, lookup) + Sorted(lookup(ps[n - 1]))
  }

  /** The list is the env-service-date block sorted descending, then the service-date
      block sorted descending, each holding exactly its lookup's configurations. */
  lemma ListBlocks(ps: seq<string>, lookup: string -> seq<LaunchConfig>)
    requires |ps| == 2
    ensures ListPrefix(ps, 2, lookup) == Sorted(lookup(ps[0])) + Sorted(lookup(ps[1]))
    ensures SortedDesc(Sorted(lookup(ps[0])), ConfigName) && SortedDesc(Sorted(lookup(ps[1])), ConfigName)
    ensures multiset(Sorted(lookup(ps[0]))) == multiset(lookup(ps[0]))
    ensures multiset(Sorted(lookup(ps[1]))) == multiset(lookup(ps[1]))
  {
    assert ListPrefix(ps, 1, lookup) == Sorted(lookup(ps[0]));
    SortDescSorted(lookup(ps[0]), ConfigName);
    SortDescSorted(lookup(ps[1]), ConfigName);
  }
}
