# billow rotation engine, modelled in Dafny

billow rotates the instances of an auto-scaled service on a cloud provider. A service is a
set of auto-scaling groups that share a `service` tag, fronted by load balancers. Rotating
the service replaces every instance, one at a time, in a chosen order:

- degraded instances first;
- then the healthy instances of each group, interleaved round-robin.

Each replacement notifies the instance through optional webhooks and releases its elastic
and secondary private IP addresses. It then chooses the order of the capacity steps:

- a group at its maximum size terminates the old instance first;
- any other group grows by one first and terminates the old instance last, with the size
  decremented.

Next it waits for the new instance and puts the addresses back on it. Finally it waits for
the new instance to register with every balancer and pass their health checks. The batch
counts failures, repairs the secondary addresses that could not be put back, and succeeds
only when nothing failed.

This project models that engine (`billow/billowRotate.py`). It also models the pieces the
engine relies on:

- `aws.wrap`, the backoff state machine;
- the group, balancer, instance, service and region resources;
- the DNS reverse index of `billowEndpoint`;
- the image and launch-configuration name selection;
- the region handling of `util.common_args`.

Each file holds one module:

| file | module | models |
|---|---|---|
| wrappers.dfy | Wrappers | `None` versus a value; Python truthiness of an optional string |
| text.dfy | Text | `str.split` on one character, `str.join`, the trailing-dot strip, string order |
| naming.dfy | Naming | `sorted(..., key=name, reverse=True)` and `find_by_name` |
| image.dfy | Images | `billowImage.search` and `list` |
| config.dfy | Configs | `billowConfig` block-device table, `search` and `list` |
| util.dfy | Util | `common_args` region precedence and comma expansion |
| aws.dfy | Aws | `aws.wrap` retry and backoff on `rate_limit_delay` |
| instance.dfy | Instances | `billowInstance` equality and its four `push_*` merges |
| group.dfy | Groups | `billowGroup` cache, tag parsing, subnets, tags, instances |
| balancer.dfy | Balancers | `billowBalancer` caches, name, register and deregister guards, `lb_certname` |
| service.dfy | Services | `billowService` name split, equality, environ pruning, common values, ordered unions |
| region.dfy | Regions | `billowRegion.list_services`, `add_service`, `update_group_environ` |
| endpoint.dfy | Endpoints | `billowEndpoint` reverse index, `find_destination`, `set_role`, `add_zone` |
| snapshots.dfy | Snapshots | the group, instance and balancer records the engine reads; its `find_*` lookups |
| ordering.dfy | Ordering | `roundrobin` and `order` |
| safety.dfy | Safety | the advisory `safety` analysis |
| waits.dfy | Waits | `wait_timeout` and the exit condition of each wait loop |
| addresses.dfy | Addresses | the elastic and secondary address lookups, the put-backs, `finalize_secondaryip` |
| rotator.dfy | Rotation | `terminate`, the webhook checks, `rotate_instance`, `rotate`, the rotator's state |

How the model stands in for the outside world:

- **Provider calls are inputs.** Each one is a value or a total function supplied to the
  operation, for example the answer to a terminate call or what a lookup returns.
- **Time is explicit.** A wait loop is a finite sequence of polls, each an elapsed time
  with the state that poll shows. A wait whose polls run out before it decides ends as
  `Pending`, and the rotation ends as `Waiting`.
- **The rotation's environment.** Everything a rotation observes is one `Env` record:
  - the service before the rotation and after the launch;
  - the webhook answers;
  - the provider answers;
  - the polls of each wait.

  The state that billowRotate changes in place is a `class Rotator`:
  - `instances`, the rotation order;
  - `failures`, the secondary IPs not put back.

Details of the source that the model keeps:

- `rotate` checks the batch's remaining time only before each instance. It hands every
  `rotate_instance` the whole timeout, not what is left (billowRotate.py:910-916).
- Inside `rotate_instance`, only the full launch wait and the final termination get the
  remaining budget. `wait_timeout` returns 0 once the budget is spent. A later wait reads
  that 0 as "no timeout", being falsy, so a spent budget disarms the wait rather than
  aborting it (billowRotate.py:882-897). `Waits.SpentBudgetDisarms` states it.
- The balancer health check's per-balancer time window
  (`health_timeout * health_threshold`) only selects log lines. It never fails the wait
  (billowRotate.py:386-391), so it is not part of the model.
- The repair pass tries the left-over addresses once for each interface whose
  `private_ip_addresses` is absent or empty (billowRotate.py:1049-1051). Such a free
  interface only triggers the attempt: `put_secondaryip` assigns to the instance's first
  interface (billowRotate.py:1031). The pass does not look for spare capacity.

## Model

| member | source | states |
|---|---|---|
| Text.JoinSplit | billow/billowGroup.py:140-146 | Joining the pieces of `s.split(sep)` with `sep` gives `s` back |
| Text.SplitPair | billow/billowService.py:30-33 | Splitting `a + sep + b`, where neither part holds `sep`, gives exactly `[a, b]` |
| Text.StripDotSpec | billow/billowEndpoint.py:87-93 | The strip removes exactly one trailing '.', and leaves a name without one unchanged |
| Text.LessTotal | billow/billowImage.py:50 | The string order the sorts use is total (with LessIrreflexive, LessTransitive, LessAsymmetric: a strict total order) |
| Naming.SortDesc | billow/billowImage.py:50 | `sorted(..., reverse=True)` returns a permutation of its input |
| Naming.SortDescSorted | billow/billowImage.py:50 | The sorted list is non-increasing by name |
| Naming.FindByName | billow/billowImage.py:24-30 | find_by_name: the first name equal to the wanted one, or that is the wanted one followed by '-' and 14 digits; None exactly when no name matches |
| Naming.FindRecord | billow/billowConfig.py:65-71 | find_by_name on records: a found record is the first matching one in the list; None exactly when none matches |
| Naming.FindSortedNewest | billow/billowImage.py:24-30 | find_by_name over the descending sort returns the newest match: no matching record has a greater name |
| Images.FirstMatch | billow/billowImage.py:46-54 | The three patterns are tried in order; None exactly when no pattern yields a match |
| Images.Search | billow/billowImage.py:32-61 | search: the first pattern match; failing that, the first image of the plain service lookup, or None |
| Images.SearchPatternResult | billow/billowImage.py:40-54 | A pattern result comes from the k-th pattern's lookup, matches its wanted name and is the newest matching image there (no matching image has a greater name), and no earlier pattern matched |
| Images.List | billow/billowImage.py:63-89 | list: the sorted blocks of the three patterns, then the plain lookup as returned |
| Images.ListPatternBlocks | billow/billowImage.py:78-82 | The pattern part of the list is the three sorted lookups in pattern order |
| Images.ListBlocksSorted | billow/billowImage.py:82 | Each pattern block is sorted by name descending and is a permutation of that lookup |
| Configs.BlockDevices | billow/billowConfig.py:16-54 | The table answers exactly for the instance types it lists |
| Configs.BlockDevMapFacts | billow/billowConfig.py:16-54 | The c4.* and t2.* types have 0 block devices and hs1.8xlarge has 24 |
| Configs.SearchAsWritten | billow/billowConfig.py:85-97 | search as written: a non-empty pattern lookup raises TypeError, since `config[0]` indexes None; only two empty lookups reach the plain lookup |
| Configs.Search | billow/billowConfig.py:73-97 | The corrected search returns what the reference SearchSpec gives |
| Configs.SearchSpecChoice | billow/billowConfig.py:85-97 | The corrected search never raises; it returns the greatest-named config of the first non-empty pattern; only two empty lookups fall back to the plain lookup's first |
| Configs.NewestFirst | billow/billowConfig.py:89 | The head of the descending sort is in the list and no name in the list is greater |
| Configs.SearchFinding | billow/billowConfig.py:90 | With one config under every pattern, the corrected search finds it (as written it raises) |
| Configs.List | billow/billowConfig.py:99-123 | list: the two sorted pattern blocks, then the plain lookup as returned |
| Configs.ListBlocks | billow/billowConfig.py:112-121 | The two blocks are each sorted descending and are permutations of their lookups |
| Util.ChooseRegion | billow/util.py:39-51 | --region if truthy, else the detected region if truthy, else us-east-1; never empty |
| Util.CommonArgs | billow/util.py:33-64 | The chosen region; and regions, or the chosen region alone when regions is unset or empty, with every comma entry expanded |
| Util.DefaultRegions | billow/util.py:57-60 | A single region without a comma is kept as the one-element regions list |
| Util.ExpandedIdempotent | billow/util.py:61-64 | After expansion no entry holds ',', and expanding again changes nothing |
| Util.NoCommaFixed | billow/util.py:61-64 | With no comma entries nothing is removed and nothing is appended |
| Util.ExpandedKeepsEntries | billow/util.py:61-64 | Entries without ',' come first in their order; every part of a comma entry appears in the appended parts |
| Aws.Backoff | billow/aws.py:66-91 | A retry happens exactly for Throttling or ServiceUnavailable with delay 0 (new delay 1) or below the maximum (doubled); each retry shrinks the termination measure |
| Aws.AfterSuccess | billow/aws.py:61-62 | A success halves a positive delay (integer division) and keeps 0 |
| Aws.SleepBefore | billow/aws.py:56-57 | An attempt sleeps the delay before calling only when the delay is positive |
| Aws.Client.constructor | billow/aws.py:15-17 | The client holds the delay and maximum delay it is given |
| Aws.Client.Wrap | billow/aws.py:46-91 | wrap: the outcome, the new rate_limit_delay and the sleeps equal the reference run Wrapped from attempt 1 |
| Aws.SuccessHalves | billow/aws.py:59-64 | A successful attempt returns the call's value and halves a positive delay |
| Aws.TransientFromZero | billow/aws.py:67-71 | A transient error at delay 0 retries with delay 1, sleeping nothing |
| Aws.TransientDoubles | billow/aws.py:72-75 | A transient error at 0 < delay < maximum sleeps the delay and retries with it doubled |
| Aws.TransientAtMax | billow/aws.py:76-77 | A transient error at or above the maximum re-raises, keeping the delay |
| Aws.ServiceUnavailableLikeThrottling | billow/aws.py:79-89 | ServiceUnavailable changes the delay and sleeps exactly as Throttling does |
| Aws.OtherErrorRaises | billow/aws.py:90-91 | Any other error code is re-raised at once, with the delay unchanged |
| Aws.SleepsPositive | billow/aws.py:56-57 | Every sleep taken is positive |
| Aws.WrappedOutcome | billow/aws.py:46-91 | wrap returns a value only from a successful attempt, and raises only a non-transient error or one at the maximum delay |
| Instances.QualifiedMatchForms | billow/billowInstance.py:86-89 | String equality accepts 'id' and 'id:region'; for an id without ':' a match has the id before its first ':' |
| Instances.Instance.constructor | billow/billowInstance.py:18-66 | A new instance has only its id and region; the group, compute and balancer states and every other field are unset |
| Instances.Instance.PushGroupInfo | billow/billowInstance.py:93-102 | Writes group health, group state, launch config and zone, and nothing else |
| Instances.Instance.PushInstanceInfo | billow/billowInstance.py:104-136 | Copies the compute and network fields; sets the profile from an 'arn' key only; replaces tags only when the provider's are non-empty; groups become the provider's group ids |
| Instances.Instance.CopyComputeFields | billow/billowInstance.py:110-124 | The compute fields are the provider's values, every other field unchanged |
| Instances.Instance.CopyNetworkFields | billow/billowInstance.py:112-124 | The network fields are the provider's values, every other field unchanged |
| Instances.Instance.MergeProfileTagsGroups | billow/billowInstance.py:126-136 | The profile is taken only when 'arn' is present; tags only when non-empty; groups always |
| Instances.Instance.PushBalancerInfo | billow/billowInstance.py:138-145 | Writes balancer state and reason, and nothing else |
| Instances.Instance.PushStatusInfo | billow/billowInstance.py:147-172 | The status fields are set in source order; a missing 'reachability' key raises and stops the merge there; otherwise the events are one record per provider event, in order |
| Groups.TagValueLast | billow/billowGroup.py:62-68 | A tag attribute takes the value of the last tag with its key, and keeps its value when no tag has the key |
| Groups.SubnetList | billow/billowGroup.py:139-146 | subnets: the pieces of vpc_zone_identifier split on ','; joined with ',' they give it back |
| Groups.TagList | billow/billowGroup.py:147-154 | tags: one single-entry dict per raw tag, in order |
| Groups.MemberList | billow/billowGroup.py:155-167 | instances: one dict per raw instance, in order, with its id and lifecycle state |
| Groups.Group.constructor | billow/billowGroup.py:14-27 | A new group has its name and region; nothing is cached and no tag attribute is set |
| Groups.Group.Load | billow/billowGroup.py:56-68 | Fetches only with nothing cached; caches only a single-group answer; then sets service, environ and cluster from the tags; without a cache nothing changes |
| Groups.Group.Refresh | billow/billowGroup.py:70-72 | The cache is dropped and loaded again from the answer |
| Groups.Group.Subnets | billow/billowGroup.py:139-146 | With a group loaded, its subnet list; otherwise none |
| Groups.Group.Tags | billow/billowGroup.py:147-154 | With a group loaded, its tag dicts; otherwise none |
| Groups.Group.Instances | billow/billowGroup.py:155-167 | With a group loaded, its instance dicts; otherwise none |
| Balancers.RegisteredIds | billow/billowBalancer.py:226-240 | Every id in the health list, bare or with ':region', counts as registered |
| Balancers.NotRegistered | billow/billowBalancer.py:226-240 | An id matching no health record is not registered |
| Balancers.CertName | billow/billowBalancer.py:155-156 | lb_certname: the suffix of the ARN after its last '/', holding no '/'; billowService.py:323-324 uses the same rule for the service |
| Balancers.Balancer.constructor | billow/billowBalancer.py:16-34 | A new balancer has its name and region, the parent's clients or new ones for its region, and all four caches empty |
| Balancers.BackendsAsWritten | billow/billowBalancer.py:26-34 | As written, `__init__` raises NameError exactly when there is no parent, and otherwise takes the parent's clients |
| Balancers.BackendsFor | billow/billowBalancer.py:26-34 | As intended, the parent's clients exactly when there is a parent, otherwise new ones for the balancer's region |
| Balancers.BackendsFinding | billow/billowBalancer.py:34 | The two agree wherever the source does not raise; without a parent the source raises where the intended constructor gets the region's clients |
| Balancers.Balancer.Load | billow/billowBalancer.py:128-132 | Fetches when nothing is cached or refresh is asked; keeps the first answer; an empty answer leaves the cache |
| Balancers.Balancer.LoadName | billow/billowBalancer.py:170-177 | name: the loaded balancer's name, falling back to the constructor's |
| Balancers.Balancer.LoadHealth | billow/billowBalancer.py:144-147 | Fetches health when none is cached, the cache is empty or refresh is asked; loads the balancer first |
| Balancers.Balancer.Refresh | billow/billowBalancer.py:149-153 | Reloads the balancer; with one loaded, the security groups, attributes and health are reloaded too |
| Balancers.Balancer.Instances | billow/billowBalancer.py:216-224 | One fresh instance per health record, in order, with that record's id, state and reason |
| Balancers.Balancer.Deregister | billow/billowBalancer.py:226-233 | The provider is called exactly when the id is registered, and the result is True exactly then |
| Balancers.Balancer.Register | billow/billowBalancer.py:235-240 | The provider is called exactly when the id is not registered; the result is the provider's answer, or False without a call |
| Services.ParseName | billow/billowService.py:30-33 | A name without ':' keeps the given region; with ':' the service is the text before the first ':' and the region the text after it |
| Services.ParseNameParts | billow/billowService.py:31-33 | With ':' the name starts with service + ':' + region, and anything after that is another ':' |
| Services.NameFormsAccepted | billow/billowService.py:162-178 | String equality accepts 'service-environ:region', 'service-environ', 'service:region' and 'service'; every accepted string starts with the service name |
| Services.WithEnvironSpec | billow/billowService.py:207-220 | Pruning keeps exactly the groups whose environ is the service's, and never adds one |
| Services.AdoptedEnviron | billow/billowService.py:207-212 | A set environ is kept; an unset one becomes the first group's environ |
| Services.CommonValueFirstTruthy | billow/billowService.py:241-253 | cluster: with a first non-empty value, the result is that value when every later value equals it, else None |
| Services.CommonValueNoTruthy | billow/billowService.py:241-253 | With no non-empty value, the result is the last value, or None for no groups |
| Services.CommonValueAgree | billow/billowService.py:241-267 | When every group has the same value, that value is the result |
| Services.AddNewProps | billow/billowService.py:269-277 | Extending with only new items keeps the list as a prefix, adds no duplicate, and holds exactly the old and new items |
| Services.UnionAllProps | billow/billowService.py:316-321 | The ordered union of lists keeps its start, has no duplicates and holds exactly the items of the lists |
| Services.OrderedUnion | billow/billowService.py:316-321 | From empty, the union has no duplicates, holds exactly the listed items, and grows with each list |
| Services.FirstFound | billow/billowService.py:326-331 | The first group's match; None exactly when no group matches |
| Services.Service.constructor | billow/billowService.py:18-49 | The service and region come from splitting the name; the other arguments are kept; nothing is cached |
| Services.Service.LoadGroups | billow/billowService.py:190-220 | _load_groups, corrected: the environ is adopted, and the groups are those fetched with that environ, in order |
| Services.Service.LoadGroupsAsWritten | billow/billowService.py:190-220 | _load_groups as written: any fetched group raises TypeError and leaves the service unchanged; with none fetched the environ stays and no group is kept |
| Services.LoadGroupsFinding | billow/billowService.py:203-204 | With one group fetched, the corrected load adopts its environ and keeps it, where the source raises |
| Services.Service.Cluster | billow/billowService.py:241-253 | cluster is the common value of the groups' clusters |
| Services.Service.Ami | billow/billowService.py:255-267 | ami is the common value of the groups' images |
| Services.Service.LoadBalancers | billow/billowService.py:316-321 | load_balancers is the ordered union of the groups' balancer lists |
| Services.Service.LoadElbs | billow/billowService.py:226-232 | The balancer records are fetched only when none, or an empty list, are cached |
| Services.Service.SecurityGroups | billow/billowService.py:269-277 | security_groups is the ordered union of the groups' then the balancers' security groups |
| Services.Service.GetInstance | billow/billowService.py:326-331 | get_instance, corrected: the first group's match, or None |
| Services.Service.GetInstanceAsWritten | billow/billowService.py:326-331 | get_instance as written raises AttributeError exactly when the service has a group, and otherwise answers None |
| Services.GetInstanceFinding | billow/billowService.py:328 | When the only group holds the instance, the corrected get_instance returns its match, where the source raises |
| Services.GroupsThenElbs | billow/billowService.py:269-277 | The union loop over groups then balancers gives the ordered union |
| Services.Extend | billow/billowService.py:272-277 | One extend with a filtered generator appends exactly the new items, deduplicated as it goes |
| Regions.NewService | billow/billowRegion.py:54-56 | A new service has no environ and no groups, and its name split as the service constructor does |
| Regions.AddedKeys | billow/billowRegion.py:45-62 | add_service keeps the index valid; the service exists after; the name list grows only for a new service; other services are unchanged |
| Regions.AddedGroups | billow/billowRegion.py:59-62 | A group is appended only when it is truthy and not already in the service |
| Regions.AddedNoDupGroups | billow/billowRegion.py:59-62 | Adding never makes a service hold the same group twice |
| Regions.TargetFirst | billow/billowRegion.py:64-74 | The target is the first service, in order, without an environ that holds the group; None exactly when there is none |
| Regions.UpdatedOnlyTarget | billow/billowRegion.py:64-74 | Only the target changes, and only its environ; a service with an environ is never changed |
| Regions.FindTarget | billow/billowRegion.py:64-74 | The walk over the dict, skipping services with an environ, finds Target |
| Regions.HasGroup | billow/billowRegion.py:68-69 | The inner loop finds the group exactly when the service's groups hold it |
| Regions.AddAllKeys | billow/billowRegion.py:29-36 | After the tag loop, the services are exactly those already present plus one per 'service' tag value |
| Regions.AddAllKeepsGroups | billow/billowRegion.py:29-36 | The tag loop never drops a group |
| Regions.AddAllAttaches | billow/billowRegion.py:33-36 | Each tagged resource id is a group of the service its tag names |
| Regions.EnvironAllKeeps | billow/billowRegion.py:38-43 | The environ pass changes no names, services or groups |
| Regions.ListedServices | billow/billowRegion.py:29-43 | list_services: a valid index with one service per distinct 'service' tag value, each holding its tagged groups |
| Regions.Region.constructor | billow/billowRegion.py:14-27 | A new region has no services |
| Regions.Region.AddService | billow/billowRegion.py:45-62 | The new state is Added of the old one |
| Regions.Region.UpdateGroupEnviron | billow/billowRegion.py:64-74 | The new state is UpdatedEnviron of the old one |
| Regions.Region.ListServices | billow/billowRegion.py:29-43 | The state is Listed of the tags, and the result is its services in order |
| Endpoints.ZonesOf | billow/billowEndpoint.py:17-31 | A single zone becomes a one-element list; a list is kept |
| Endpoints.AddNameSpec | billow/billowEndpoint.py:56-60 | Adding a name to a destination adds exactly that pair and keeps every list free of duplicates |
| Endpoints.AddDestsSpec | billow/billowEndpoint.py:51-60 | A CNAME adds its name under each of its resource records, and nothing else |
| Endpoints.IndexedSpec | billow/billowEndpoint.py:44-70 | One record adds a pair only when it is a CNAME, or an A record with an alias, with the trailing dots stripped |
| Endpoints.IndexedAllSpec | billow/billowEndpoint.py:42-70 | The index of a record list holds exactly the pairs its records point to, without duplicates |
| Endpoints.IndexedZonesSpec | billow/billowEndpoint.py:42-70 | The index over all zones holds exactly the pairs of their records, without duplicates |
| Endpoints.RoleOf | billow/billowEndpoint.py:34-40 | The role is given exactly for zones that have one |
| Endpoints.LookupSpec | billow/billowEndpoint.py:87-93 | find_destination strips one trailing '.', returns exactly the names pointing there, without duplicates, and [] for unknown names |
| Endpoints.WithZoneSpec | billow/billowEndpoint.py:72-85 | A zone is appended only when absent, and the list stays free of duplicates |
| Endpoints.RolesAfter | billow/billowEndpoint.py:72-85 | set_role records the role; add_zone drops it; other zones keep theirs |
| Endpoints.IndexRecords | billow/billowEndpoint.py:42-70 | The record loop computes IndexedAll |
| Endpoints.Endpoint.constructor | billow/billowEndpoint.py:17-31 | The zones as given, no roles, no records, an empty index |
| Endpoints.Endpoint.Load | billow/billowEndpoint.py:33-70 | __load fetches only when nothing is loaded, then indexes every zone's records |
| Endpoints.Endpoint.SetRole | billow/billowEndpoint.py:72-77 | The zone is added if absent, its role is set, and the records and index are cleared |
| Endpoints.Endpoint.AddZone | billow/billowEndpoint.py:79-85 | The zone is added if absent, its role is dropped, and the records and index are cleared |
| Endpoints.Endpoint.FindDestination | billow/billowEndpoint.py:87-93 | Loads if needed, then returns the lookup of the stripped name in the index |
| Snapshots.FindGroup | billow/billowRotate.py:145-149 | find_group_by_instance: the first group holding the instance; None exactly when none does |
| Snapshots.FindBalancer | billow/billowRotate.py:151-155 | find_balancer: the first balancer with that name; None exactly when none has it |
| Snapshots.FindById | billow/billowRotate.py:157-167 | find_balancer_instance and find_group_instance: the first record with the id; None exactly when none has it |
| Snapshots.FindInstance | billow/billowRotate.py:145-167 | A found instance is a member, with that id, of a group in the view |
| Ordering.RoundRobinExample | billow/billowRotate.py:94-106 | roundrobin('ABC', 'D', 'EF') is 'ADEBFC' |
| Ordering.RoundRobinPermutes | billow/billowRotate.py:94-106 | roundrobin's output is a permutation of the concatenated inputs |
| Ordering.RoundRobinKeepsOrder | billow/billowRotate.py:94-106 | The elements roundrobin takes from each input come out in that input's own order |
| Ordering.UnhealthyIds | billow/billowRotate.py:119-123 | The ids of the group instances whose health is not 'Healthy' |
| Ordering.OutOfServiceIds | billow/billowRotate.py:125-129 | The ids of the balancer instances whose state is not 'InService' |
| Ordering.HealthyIdsSpec | billow/billowRotate.py:131-137 | A group's list holds exactly its non-degraded instances in state 'InService' |
| Ordering.DegradedIds | billow/billowRotate.py:115-129 | The degraded list has no duplicates; it holds exactly the unhealthy and out-of-service ids, the groups' part first |
| Ordering.OrderDegradedFirst | billow/billowRotate.py:108-143 | order() starts with the degraded list; each degraded id appears exactly once; the rest is a permutation of the healthy lists, with no degraded id |
| Ordering.HealthyPart | billow/billowRotate.py:131-137 | There is one healthy list per group, each holding exactly that group's non-degraded 'InService' ids |
| Ordering.Interleave | billow/billowRotate.py:94-106 | The cycle loop computes RoundRobin |
| Ordering.CollectNew | billow/billowRotate.py:119-129 | The membership-guarded appends compute the ordered union |
| Ordering.UnhealthyOf | billow/billowRotate.py:121-123 | The loop computes UnhealthyIds |
| Ordering.OutOfServiceOf | billow/billowRotate.py:127-129 | The loop computes OutOfServiceIds |
| Ordering.HealthyOf | billow/billowRotate.py:133-137 | The loop computes HealthyIds |
| Ordering.UnhealthyPass | billow/billowRotate.py:119-123 | The group pass gives the ordered union of the unhealthy ids |
| Ordering.OutOfServicePass | billow/billowRotate.py:125-129 | The balancer pass continues that union with the out-of-service ids |
| Ordering.HealthyPass | billow/billowRotate.py:131-137 | The pass gives one healthy list per group |
| Safety.ZonesSpec | billow/billowRotate.py:55-59 | The zone dict's keys are exactly the zones with an instance, each once |
| Safety.ZoneCounts | billow/billowRotate.py:55-59 | The counting loop gives each zone its number of instances |
| Safety.ReducedSpec | billow/billowRotate.py:60-63 | A reduced-redundancy warning exactly for each zone of the group with at most 2 instances |
| Safety.DeadEndsSpec | billow/billowRotate.py:70-78 | A dead-end warning exactly for a zone of a balancer without cross-zone where the group has at most 1 instance |
| Safety.SecondariesSpec | billow/billowRotate.py:80-90 | A secondary-IP warning exactly for an interface with a non-empty private address list when the group has more than one subnet |
| Safety.GroupParts | billow/billowRotate.py:47-90 | A group's warnings are exactly the five kinds |
| Safety.GroupNoInstances | billow/billowRotate.py:50-52 | The no-instances warning appears exactly for a group without instances |
| Safety.GroupReduced | billow/billowRotate.py:54-63 | The reduced-redundancy warning for a zone appears exactly when it holds 1 or 2 instances |
| Safety.GroupOutage | billow/billowRotate.py:65-68 | The outage warning appears exactly when current and maximum sizes are both 1 |
| Safety.GroupDeadEnd | billow/billowRotate.py:70-78 | The dead-end warning for a zone appears exactly when it holds one instance and a balancer without cross-zone covers it |
| Safety.GroupSecondary | billow/billowRotate.py:80-90 | The secondary-IP warning appears exactly for a listed first private address on a multi-subnet group |
| Safety.ReducedOnce | billow/billowRotate.py:60-63 | Each zone is warned about at most once |
| Safety.AllGroupsSpec | billow/billowRotate.py:46-92 | The service's warnings are exactly those of its groups |
| Safety.CheckGroup | billow/billowRotate.py:47-90 | The loops over one group compute GroupWarnings |
| Safety.ReducedLoop | billow/billowRotate.py:60-63 | The zone loop computes Reduced from the counts |
| Safety.ZoneLoop | billow/billowRotate.py:74-78 | The loop over one balancer's zones computes its dead-end warnings from the counts |
| Safety.DeadEndLoop | billow/billowRotate.py:70-78 | The balancer loop computes DeadEnds |
| Safety.IfaceLoop | billow/billowRotate.py:82-90 | The interface loop of one instance computes its secondary-IP warnings |
| Safety.SecondaryLoop | billow/billowRotate.py:80-90 | The instance loop computes Secondaries |
| Safety.CheckService | billow/billowRotate.py:38-92 | safety computes Warnings of the view; it changes nothing, so repeated calls agree |
| Waits.WaitTimeout | billow/billowRotate.py:169-174 | The remaining budget is timeout minus elapsed, or 0 exactly when the budget is spent |
| Waits.SpentBudgetDisarms | billow/billowRotate.py:169-174 | A spent budget passed on is falsy, so the next wait has no timeout |
| Waits.FirstDecisionSpec | billow/billowRotate.py:190-238 | A wait's result is the first poll that decides, or pending when none does |
| Waits.TallyFull | billow/billowRotate.py:197-217 | The counter never exceeds the number of balancers, and reaches it exactly when every balancer counts |
| Waits.RegisteredDone | billow/billowRotate.py:176-240 | A poll of the registration wait succeeds exactly when the group is found and every balancer shows the instance 'InService' or 'OutOfService' |
| Waits.DeregisteredDone | billow/billowRotate.py:242-322 | A poll of the deregistration wait succeeds exactly when every balancer lacks the instance or shows it out of service or 'Unknown' |
| Waits.HealthyDone | billow/billowRotate.py:324-394 | A poll of the health wait succeeds exactly when every balancer shows the instance 'InService' |
| Waits.BalancerFails | billow/billowRotate.py:191-223 | A poll fails exactly when no group holds the instance, a balancer is missing, or it is not done and the timeout passed |
| Waits.BalancerWaitDone | billow/billowRotate.py:176-240 | A balancer wait succeeds only without a negative timeout, at the first poll where every balancer counts |
| Waits.AwaitBalancers | billow/billowRotate.py:176-394 | The polling loop computes BalancerWait |
| Waits.BalancerDone | billow/billowRotate.py:213-218 | A balancer poll decides success exactly when every balancer counts the instance |
| Waits.BalancerPoll | billow/billowRotate.py:197-223 | The counting of one poll computes BalancerDecision |
| Waits.TerminatedDone | billow/billowRotate.py:396-445 | The termination wait succeeds only with a group, and succeeds once the instance is gone or terminated; it fails only without a group or after the timeout |
| Waits.TerminatedWaitNoTimeout | billow/billowRotate.py:396-445 | Without a timeout the termination wait fails only when the group is lost |
| Waits.AwaitTerminated | billow/billowRotate.py:396-445 | The polling loop computes TerminatedWait |
| Waits.NewInServiceSpec | billow/billowRotate.py:472-498 | The candidates are the ids outside the earlier snapshot, not in a terminal state, in 'InService' |
| Waits.LaunchedDone | billow/billowRotate.py:472-501 | A launch poll succeeds exactly when at least count candidates are found, and returns exactly them |
| Waits.LaunchedWaitDone | billow/billowRotate.py:447-526 | A launch wait returns at least count new ids, none in the earlier snapshot, from the first poll with enough |
| Waits.AwaitLaunched | billow/billowRotate.py:447-526 | The polling loop computes LaunchedWait |
| Waits.LaunchedPoll | billow/billowRotate.py:472-501 | The scan of one poll computes LaunchedDecision |
| Waits.AwaitEach | billow/billowRotate.py:541-549 | The per-instance loop computes EachWait |
| Waits.EachWaitDone | billow/billowRotate.py:541-549 | The per-instance waits succeed exactly when each instance's wait succeeds |
| Waits.WaitLaunchDone | billow/billowRotate.py:528-552 | wait_launch returns new ids, none in the snapshot, each registered and healthy on every balancer |
| Waits.AwaitLaunch | billow/billowRotate.py:528-552 | The three waits in a row compute WaitLaunch |
| Addresses.OwnedPublicIpsSpec | billow/billowRotate.py:945-952 | The lookup list holds exactly the public IPs of interfaces with an owner other than 'amazon'; empty exactly when there are none |
| Addresses.OwnedLoop | billow/billowRotate.py:945-952 | The interface loop computes OwnedPublicIps |
| Addresses.ElasticQuerySpec | billow/billowRotate.py:934-954 | The provider is asked exactly when the instance is found with such an interface, and only for those public IPs |
| Addresses.GetElasticIps | billow/billowRotate.py:934-966 | get_elasticips: the provider query and the records computed by ElasticIps |
| Addresses.OthersSpec | billow/billowRotate.py:998-1006 | An interface contributes exactly its private IPs other than its primary, tagged with the instance and interface |
| Addresses.OthersLoop | billow/billowRotate.py:998-1006 | The address loop of one interface computes Others |
| Addresses.AllSecondariesSpec | billow/billowRotate.py:996-1008 | The records are exactly the secondary addresses of the interfaces |
| Addresses.SecondaryIpsSpec | billow/billowRotate.py:987-1008 | get_secondaryips: [] for an unknown instance, else exactly its secondary addresses |
| Addresses.GetSecondaryIps | billow/billowRotate.py:987-1008 | The loops compute SecondaryIps |
| Addresses.InterfacesLoop | billow/billowRotate.py:996-1008 | The interface loop computes AllSecondaries |
| Addresses.PutAddressSpec | billow/billowRotate.py:968-1042 | A put on an instance no group holds, or of an empty address, is refused without asking the provider. A successful elastic put went to the first interface of the found instance. A secondary put that is not a refusal gives the provider's answer for that interface. Of the provider errors, only InvalidParameterValue becomes a refusal; every other code propagates |
| Addresses.RepairSlotSpec | billow/billowRotate.py:1052-1058 | For one free interface, puts on the instance's first interface remove at most one address, and only one the provider took; if it takes none the list is unchanged |
| Addresses.RepairSlotRaises | billow/billowRotate.py:1052-1058 | A provider error during the puts for one free interface propagates with the list unchanged; it comes from the put of a listed address; without such an error nothing raises |
| Addresses.RepairSpec | billow/billowRotate.py:1044-1061 | The repair only removes addresses, at most one per free interface, and each one removed was taken by the provider for that instance's first interface |
| Addresses.RepairRaises | billow/billowRotate.py:1044-1061 | The repair raises only with a provider error from putting a failed address on the first interface of an instance with a free interface, and then addresses are still left |
| Addresses.RepairQuiet | billow/billowRotate.py:1044-1061 | Without a provider error on any put of a failed address, the repair does not raise |
| Addresses.RaisedAt | billow/billowRotate.py:1052-1058 | When every earlier address is refused and the next one meets a provider error, that error propagates with the list unchanged |
| Rotation.ParseUrlTarget | billow/billowRotate.py:662-671 | An accepted 'port:path' setting has a non-zero port, a path starting with '/', and is the port's text, ':' and the path |
| Rotation.UrlTargetAccepted | billow/billowRotate.py:662-671 | Every setting of a non-zero decimal port and a '/'-path is accepted with that port and path |
| Rotation.NotifySucceeds | billow/billowRotate.py:659-722 | With a setting, a webhook step succeeds only for a valid setting, an instance of the group, and a successful answer |
| Rotation.TerminateCalls | billow/billowRotate.py:623-657 | terminate calls the provider once exactly when a group holds the instance; succeeds only when the provider accepted; propagates only errors other than ValidationError and ScalingActivityInProgress; ignores the termination wait when not waiting |
| Rotation.TerminateStep | billow/billowRotate.py:623-657 | The method computes Terminate |
| Rotation.Disassociations | billow/billowRotate.py:822-828 | One disassociation per elastic IP, in order |
| Rotation.Unassignments | billow/billowRotate.py:830-837 | One unassignment per secondary IP, in order |
| Rotation.NothingBeforeCleared | billow/billowRotate.py:800-820 | No provider action before the checks pass; no group fails; rotate=false succeeds doing nothing; a refused notification ends the rotation with its answer |
| Rotation.ReleaseFirst | billow/billowRotate.py:822-855 | Once cleared, the addresses are released first and the capacity step follows |
| Rotation.TerminateBeforeLaunch | billow/billowRotate.py:839-847 | At maximum size: terminate without decrement right after the release; never increment; no other termination; the launch wait only after an accepted termination; the termination wait never used |
| Rotation.LaunchBeforeTerminate | billow/billowRotate.py:849-898 | Below maximum: increment right after the release; the only termination decrements, comes last, after a successful increment, launch wait and full launch wait |
| Rotation.PutBacksOnNewInstance | billow/billowRotate.py:857-879 | Every put goes to the first new instance the launch wait found, which was not in the old group |
| Rotation.FailedAreRefused | billow/billowRotate.py:875-879 | The remembered failures are the ones the secondary put-back loop on the launch wait's first new instance refused |
| Rotation.FailedSecondariesSpec | billow/billowRotate.py:875-879 | An address is remembered exactly when a put of it was attempted and refused |
| Rotation.PutElasticsSpec | billow/billowRotate.py:866-873 | The elastic IPs are put in order, one put each, and all of them when the step succeeds |
| Rotation.PutElasticsStops | billow/billowRotate.py:866-873 | The step succeeds exactly when all puts succeed, else stops right after the first refusal |
| Rotation.PutSecondariesSpec | billow/billowRotate.py:875-877 | The secondary IPs are put in order on the new instance, one put each; without a provider error every one is put |
| Rotation.PutSecondariesRaise | billow/billowRotate.py:875-879 | The loop raises exactly when some put raises, and then stops right after the first such put, with its error |
| Rotation.FinalizedSpec | billow/billowRotate.py:881-900 | The last stage adds at most the decrementing termination, only after a successful full launch wait below maximum size |
| Rotation.RestoredSpec | billow/billowRotate.py:864-900 | The put-back stages add only puts on the new instance, then at most the final termination as last action; the failures kept are the secondary loop's |
| Rotation.RelaunchedSpec | billow/billowRotate.py:857-900 | After the launch wait every action is a put on its first new instance, or the final termination last |
| Rotation.RelaunchedAtMax | billow/billowRotate.py:889-898 | At maximum size the later stages do not depend on the termination wait |
| Rotation.ReleaseAddresses | billow/billowRotate.py:822-837 | The two loops give the disassociations then the unassignments |
| Rotation.CapacityStep | billow/billowRotate.py:839-855 | The method computes Capacity |
| Rotation.PutElasticLoop | billow/billowRotate.py:866-873 | The loop computes PutElastics |
| Rotation.FinishStep | billow/billowRotate.py:881-900 | The method computes Finalized after the full launch wait |
| Rotation.RunFromErrors | billow/billowRotate.py:909-920 | The batch never forgets a failure or a stop |
| Rotation.RunFromClean | billow/billowRotate.py:909-920 | From a clean record, no failure and no stop exactly when every later rotation goes ahead and succeeds |
| Rotation.RunFromStops | billow/billowRotate.py:909-920 | The batch stops only on an abort, an exception or a wait that ran out |
| Rotation.RunFromFailures | billow/billowRotate.py:909-920 | Earlier failures stay in front; at most one error per rotation |
| Rotation.BatchSucceeds | billow/billowRotate.py:902-932 | rotate returns True exactly when every rotation went ahead and succeeded and no secondary IP is left after the repair |
| Rotation.FinishRaises | billow/billowRotate.py:923-925 | A raise from the repair pass carries a provider code other than InvalidParameterValue, from putting a left-over address on the first interface of an instance with a free interface, and leaves addresses over |
| Rotation.BatchAbortsAtOnce | billow/billowRotate.py:910-915 | With no time left before the first instance, rotate fails at once, with no repair |
| Rotation.Rotator.constructor | billow/billowRotate.py:17-26 | A new rotator has its service, no order and no failures |
| Rotation.Rotator.Order | billow/billowRotate.py:108-143 | order() sets and returns Ordering.Order of the service |
| Rotation.Rotator.SafetyCheck | billow/billowRotate.py:38-92 | safety() returns Safety.Warnings of the service |
| Rotation.Rotator.RotateInstance | billow/billowRotate.py:792-900 | rotate_instance: outcome, actions and the appended failures are Rotation's; earlier failures kept |
| Rotation.Rotator.Replace | billow/billowRotate.py:822-862 | The release, capacity and launch stages compute Released |
| Rotation.Rotator.PutBack | billow/billowRotate.py:864-900 | The put-back stages compute Restored |
| Rotation.Rotator.PutSecondaryLoop | billow/billowRotate.py:875-879 | The loop's puts, its appended failures and its propagated error are PutSecondaries |
| Rotation.Rotator.FinalizeSecondaryIp | billow/billowRotate.py:1044-1061 | finalize_secondaryip leaves Repair of the failures, one round of puts on the instance's first interface per free interface, and returns its provider error if it raised |
| Rotation.Rotator.RepairMembers | billow/billowRotate.py:1046-1048 | The instance loop, ending early once no failure is left, computes Repair |
| Rotation.Rotator.RepairInterfaces | billow/billowRotate.py:1049-1051 | Each free interface of the instance triggers one round of puts of the failures on the instance's first interface |
| Rotation.Rotator.RepairOne | billow/billowRotate.py:1052-1058 | The first accepted failure is removed and the loop stops there; a provider error stops it with the list unchanged |
| Rotation.Rotator.RunRotations | billow/billowRotate.py:908-920 | The instance loop, stopping on an exhausted clock, an exception or an unanswered wait, computes RunFrom from the old failures |
| Rotation.Rotator.Rotate | billow/billowRotate.py:902-932 | rotate: the order is Ordering.Order; the outcome and left-over failures are Batch's |

## Left out

- I/O is not modelled: sleeps, logging, the console logger, and the HTTP requests and JSON
  parsing of the webhooks. The webhook answers (`notifyAnswer`, `statusAnswer`) are
  inputs. So is the `hardfail_is_success` handling, and so are the provider's answers.
- The wall clock is not modelled. Each wait sees an explicit elapsed time per poll, and
  the batch sees `clock(k)` before its k-th rotation.
- Waits are modelled over finite poll sequences. A wait that has not decided when its
  polls run out ends as `Pending` (the rotation as `Waiting`), not as an endless loop.
- `launch`, `deregister` and `register` of billowRotate (billowRotate.py:554-621) are not
  called by `rotate_instance`. `launch` calls the misspelled `wait_lauch`. None of the
  three is modelled.
- The provider side of the group operations is abstract: settings, increment and
  terminate. The source's `billowGroup` defines no methods for them.
- Snapshots.FindGroup, Snapshots.FindInstance and the other Snapshots records follow the
  interface billowRotate expects, not what billowGroup and billowService provide. They give
  each group member a zone, an id and interfaces, and compare members with instance ids.
  `billowGroup.instances` returns plain dicts (billowGroup.py:155-167). With those,
  `i.zone` (billowRotate.py:56) raises AttributeError and `instance_id in g.instances`
  (billowRotate.py:147) is always false. Likewise `service.balancers` is never filled after
  `self.balancers = list()` (billowService.py:25), while the model's service view carries
  the balancers billowRotate reads.
- Waits.HealthyDone: the health window `health_timeout * health_threshold` and the
  connection-draining maximum feed only log lines, so they are not modelled.
- The service as it looks after each provider mutation is an input: `env.view` before a
  rotation, `env.after` after the launch, and the batch's final view. The model does not
  recompute it from the actions.
- Python 2 dict iteration order is modelled as insertion order. This covers the zone
  counts, the records by zone and the services by name.
- Python's `int()` is modelled on plain decimal literals with an optional sign.
  Surrounding whitespace, which `int()` also accepts, is not modelled.
- The provider errors of `terminate` and of `assign_private_ip_addresses` that the source
  does not inspect are carried as `Raised`. They stop the put-back loop, the rotation, the
  batch and the repair pass, as the exception escapes `rotate` in the source.
- Rotation.PutElasticsSpec and Addresses.PutAddressSpec: `associate_address` is a yes/no answer.
  Neither it nor `disassociate_address`, `unassign_private_ip_addresses` or `increment`
  models a provider error, which the source lets escape uncaught.
- Addresses.GetElasticIps answers from a total `get_addresses` lookup
  (billowRotate.py:953), and the waits take each poll's balancer and group views as given,
  standing for the `balancer.refresh()` and `group.refresh()` calls
  (billowRotate.py:207, 274, 352, 416, 469). An exception from any of these calls escapes
  `rotate` in the source; the model never raises there.
- billowCloud, the CLI, the provider gateway modules, `security_rules` and the
  `config`/`info`/`__repr__` renderings are not part of this model.
- `aws.instance_info` and `validate_version` are not part of this model.
- Floating-point times are modelled as integers.
- Naming.FindByName and Naming.FindRecord compare the name literally. The source puts the
  name into the regular expression `name-\d{14}` (billowImage.py:28, billowConfig.py:69).
  So a '.' in a name such as `ubuntu-14.04` matches any character there, and a name that is
  not a valid pattern, such as `a(`, raises `re.error`. Neither effect is modelled: names
  without regular-expression metacharacters are matched as the source matches them.
- Naming.FindRecord: the same literal comparison stands in for billowConfig's regular
  expression, with the same gap for metacharacters in the name (billowConfig.py:69).
- Groups.Group.MatchesName, Balancers.Balancer.MatchesName, Services.Service.MatchesName and
  Instances.Instance.MatchesName are predicates, and so are the `Same*` object equalities.
  Their properties are stated by the lemmas in their rows above.
- The group's `service`, `environ` and `cluster` properties recurse in the source when the
  tag is absent, through Python 2 attribute shadowing (billowGroup.py:74-87). The model keeps
  them as plain attributes, and `Groups.SameGroup` compares them directly.

## Findings

| source | as written | input that shows it | evidently intended | confidence | as-written member | corrected member |
|---|---|---|---|---|---|---|
| billow/billowConfig.py:85-90 | `search` returns `config[0]` where `config` is None, so any non-empty pattern lookup raises TypeError | service 'web', environ 'prod', and one launch configuration returned for every lookup | return the first of the sorted configurations, which has the greatest name | high (not executed) | Configs.SearchAsWritten | Configs.Search |
| billow/billowService.py:203-204 | `_load_groups` builds `billowGroup(a.name, region=self.region, parent=self)` and calls `g.push(a)`; billowGroup's constructor takes no `parent` and the class has no `push` (billowGroup.py:14), so it raises TypeError | a service whose tag lookup returns one group | a group object per fetched group, holding that group's data, pruned by environ | high (not executed) | Services.Service.LoadGroupsAsWritten | Services.Service.LoadGroups |
| billow/billowBalancer.py:34 | `__init__` without a parent calls `vpc.vpc(self.region)`, but the module never imports `vpc` (billowBalancer.py:1-7), so it raises NameError | a balancer built with only a name and a region | new elb, sec and vpc clients for the balancer's region | high (not executed) | Balancers.BackendsAsWritten | Balancers.BackendsFor |
| billow/billowService.py:328 | `get_instance` calls `g.get_instance`, which billowGroup does not define, so it raises AttributeError | a service with one group | the first group's instance with that id, or None | high (not executed) | Services.Service.GetInstanceAsWritten | Services.Service.GetInstance |
