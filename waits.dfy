/** The wait loops of billowRotate (billowRotate.py:169-552). Each loop polls the service
    until an exit condition holds: the model gives it the polls as a sequence, each with
    the snapshot it sees and the seconds elapsed since the wait began, and each poll's exit
    decision is a function of that poll. A wait whose polls all decide to go on is still
    waiting when they run out. */
module Waits {
  import opened Wrappers
  import opened Snapshots

  /** A poll's decision, or a wait's result: succeed with a value, fail, or poll again. */
  datatype Wait<T> = Done(value: T) | Fail | Pending

  /** What one poll sees, and when. */
  datatype Poll<S> = Poll(state: S, elapsed: int)

  // ---------------------------------------------------------------------------
  // Timeouts

  /** `if timeout:`: a timeout of None or 0 means no timeout. */
  predicate Active(timeout: Option<int>)
  {
    timeout.Some? && timeout.value != 0
  }

  /** The check every wait makes before its first poll. */
  predicate Expired(timeout: Option<int>)
  {
    Active(timeout) && timeout.value < 0
  }

  /** The check every wait makes after a poll that did not succeed. */
  predicate TimedOut(timeout: Option<int>, elapsed: int)
  {
    Active(timeout) && elapsed > timeout.value
  }

  /** wait_timeout: what is left of the budget, or 0 once it is spent
      (billowRotate.py:169-174). */
  function WaitTimeout(timeout: int, elapsed: int): (r: int)
    ensures r >= 0
    ensures r == 0 <==> elapsed >= timeout
    ensures r != 0 ==> r == timeout - elapsed
  {
    if timeout - elapsed <= 0 then 0 else timeout - elapsed
  }

  /** A spent budget is handed on as 0, which the next wait reads as no timeout at all. */
  lemma SpentBudgetDisarms(timeout: int, elapsed: int)
    requires elapsed >= timeout
    ensures !Active(Some(WaitTimeout(timeout, elapsed)))
    ensures forall e :: !TimedOut(Some(WaitTimeout(timeout, elapsed)), e)
  {
    assert WaitTimeout(timeout, elapsed) == 0;
  }

  // ---------------------------------------------------------------------------
  // The first decision of a sequence of polls

  /** The decision of the first poll that does not decide to go on. */
  function FirstDecision<T>(ds: seq<Wait<T>>): Wait<T>
    decreases |ds|
  {
    if ds == [] then Pending else if ds[0].Pending? then FirstDecision(ds[1..]) else ds[0]
  }

  lemma {:induction false} FirstDecisionSpec<T>(ds: seq<Wait<T>>)
    ensures FirstDecision(ds).Pending? <==> forall k :: 0 <= k < |ds| ==> ds[k].Pending?
    ensures !FirstDecision(ds).Pending? ==>
              exists k :: 0 <= k < |ds| && ds[k] == FirstDecision(ds) && forall j :: 0 <= j < k ==> ds[j].Pending?
    decreases |ds|
  {
    if ds != [] {
      FirstDecisionSpec(ds[1..]);
      assert forall k :: 1 <= k < |ds| ==> ds[1..][k - 1] == ds[k];
      if ds[0].Pending? && !FirstDecision(ds).Pending? {
        var k :| 0 <= k < |ds[1..]| && ds[1..][k] == FirstDecision(ds[1..]) && forall j :: 0 <= j < k ==> ds[1..][j].Pending?;
        assert ds[k + 1] == FirstDecision(ds);
        assert forall j :: 0 <= j < k + 1 ==> ds[j].Pending? by {
          forall j | 0 <= j < k + 1 ensures ds[j].Pending? {
            if j > 0 {
              assert ds[j] == ds[1..][j - 1];
            }
          }
        }
      }
    }
  }

  // ---------------------------------------------------------------------------
  // The balancer waits: registered, deregistered, healthy (billowRotate.py:176-394)

  /** How one balancer's record of the instance counts towards a balancer wait. */
  type Counts = (BalancerSnap, string) -> bool

  /** wait_elb_registered counts a balancer showing the instance 'InService' or
      'OutOfService'. */
  predicate Registered(b: BalancerSnap, id: string)
  {
    match FindById(b.members, RegistrationId, id)
    case None => false
    case Some(i) => b.members[i].balancerState == "InService" || b.members[i].balancerState == "OutOfService"
  }

  /** wait_elb_deregistered counts a balancer not listing the instance, or showing it out
      of service or unknown. Connection draining only changes what is logged. */
  predicate Deregistered(b: BalancerSnap, id: string)
  {
    match FindById(b.members, RegistrationId, id)
    case None => true
    case Some(i) =>
      b.members[i].balancerState == "OutOfService"
      || b.members[i].balancerState == "OutOfService: Instance is not currently registered with the LoadBalancer"
      || b.members[i].balancerState == "Unknown"
  }

  /** wait_elb_healthy counts a balancer showing the instance 'InService'. */
  predicate Healthy(b: BalancerSnap, id: string)
  {
    match FindById(b.members, RegistrationId, id)
    case None => false
    case Some(i) => b.members[i].balancerState == "InService"
  }

  /** The balancer of that name exists and counts the instance. */
  predicate Counted(bs: seq<BalancerSnap>, name: string, id: string, counts: Counts)
  {
    match FindBalancer(bs, name)
    case None => false
    case Some(b) => counts(bs[b], id)
  }

  /** Every balancer name resolves to a balancer. */
  predicate AllFound(bs: seq<BalancerSnap>, names: seq<string>)
  {
    forall k :: 0 <= k < |names| ==> FindBalancer(bs, names[k]).Some?
  }

  /** The poll's counter: the balancers, among the names, that count the instance. */
  function Tally(bs: seq<BalancerSnap>, names: seq<string>, id: string, counts: Counts): nat
    decreases |names|
  {
    if names == [] then 0
    else Tally(bs, names[..|names| - 1], id, counts) + (if Counted(bs, names[|names| - 1], id, counts) then 1 else 0)
  }

  /** The counter reaches the number of names exactly when every name counts. */
  lemma {:induction false} TallyFull(bs: seq<BalancerSnap>, names: seq<string>, id: string, counts: Counts)
    ensures Tally(bs, names, id, counts) <= |names|
    ensures Tally(bs, names, id, counts) == |names| <==> forall k :: 0 <= k < |names| ==> Counted(bs, names[k], id, counts)
    decreases |names|
  {
    if names != [] {
      var init := names[..|names| - 1];
      TallyFull(bs, init, id, counts);
      assert forall k :: 0 <= k < |init| ==> init[k] == names[k];
    }
  }

  /** One poll of a balancer wait: no group holding the instance, or a balancer name that
      resolves to nothing, fails; every balancer counting the instance succeeds; otherwise
      the wait fails once past its timeout and goes on before. */
  function BalancerDecision(view: ServiceView, id: string, timeout: Option<int>, elapsed: int, counts: Counts): Wait<()>
  {
    match FindGroup(view.groups, id)
    case None => Fail
    case Some(g) =>
      var names := view.groups[g].loadBalancers;
      if !AllFound(view.balancers, names) then Fail
      else if Tally(view.balancers, names, id, counts) == |names| then Done(())
      else if TimedOut(timeout, elapsed) then Fail
      else Pending
  }

  /** Every balancer of the instance's group counts it. */
  predicate AllCount(view: ServiceView, id: string, counts: Counts)
  {
    match FindGroup(view.groups, id)
    case None => false
    case Some(g) =>
      forall k :: 0 <= k < |view.groups[g].loadBalancers| ==> Counted(view.balancers, view.groups[g].loadBalancers[k], id, counts)
  }

  /** A poll succeeds exactly when every balancer of the instance's group counts it. */
  lemma BalancerDone(view: ServiceView, id: string, timeout: Option<int>, elapsed: int, counts: Counts)
    ensures BalancerDecision(view, id, timeout, elapsed, counts) == Done(()) <==> AllCount(view, id, counts)
  {
    var g := FindGroup(view.groups, id);
    if g.Some? {
      TallyFull(view.balancers, view.groups[g.value].loadBalancers, id, counts);
    }
  }

  /** wait_elb_registered succeeds on a poll exactly when every balancer of the group
      shows the instance 'InService' or 'OutOfService' (billowRotate.py:176-240). */
  lemma RegisteredDone(view: ServiceView, id: string, timeout: Option<int>, elapsed: int)
    ensures BalancerDecision(view, id, timeout, elapsed, Registered) == Done(()) <==>
            FindGroup(view.groups, id).Some?
            && var names := view.groups[FindGroup(view.groups, id).value].loadBalancers;
               forall k :: 0 <= k < |names| ==>
                 var b := FindBalancer(view.balancers, names[k]);
                 b.Some? && var r := FindById(view.balancers[b.value].members, RegistrationId, id);
                 r.Some? && (view.balancers[b.value].members[r.value].balancerState == "InService"
                             || view.balancers[b.value].members[r.value].balancerState == "OutOfService")
  {
    BalancerDone(view, id, timeout, elapsed, Registered);
  }

  /** wait_elb_deregistered succeeds on a poll exactly when no balancer of the group still
      has the instance in service (billowRotate.py:242-322). */
  lemma DeregisteredDone(view: ServiceView, id: string, timeout: Option<int>, elapsed: int)
    ensures BalancerDecision(view, id, timeout, elapsed, Deregistered) == Done(()) <==>
            FindGroup(view.groups, id).Some?
            && var names := view.groups[FindGroup(view.groups, id).value].loadBalancers;
               forall k :: 0 <= k < |names| ==>
                 var b := FindBalancer(view.balancers, names[k]);
                 b.Some? && Deregistered(view.balancers[b.value], id)
  {
    BalancerDone(view, id, timeout, elapsed, Deregistered);
  }

  /** wait_elb_healthy succeeds on a poll exactly when every balancer of the group shows
      the instance 'InService' (billowRotate.py:324-394). */
  lemma HealthyDone(view: ServiceView, id: string, timeout: Option<int>, elapsed: int)
    ensures BalancerDecision(view, id, timeout, elapsed, Healthy) == Done(()) <==>
            FindGroup(view.groups, id).Some?
            && var names := view.groups[FindGroup(view.groups, id).value].loadBalancers;
               forall k :: 0 <= k < |names| ==>
                 var b := FindBalancer(view.balancers, names[k]);
                 b.Some? && var r := FindById(view.balancers[b.value].members, RegistrationId, id);
                 r.Some? && view.balancers[b.value].members[r.value].balancerState == "InService"
  {
    BalancerDone(view, id, timeout, elapsed, Healthy);
  }

  /** A poll fails only when the group or a balancer is missing, or the timeout has
      passed; with no timeout it never fails on time. */
  lemma BalancerFails(view: ServiceView, id: string, timeout: Option<int>, elapsed: int, counts: Counts)
    ensures BalancerDecision(view, id, timeout, elapsed, counts) == Fail <==>
            match FindGroup(view.groups, id)
            case None => true
            case Some(g) =>
              !AllFound(view.balancers, view.groups[g].loadBalancers)
              || (!AllCount(view, id, counts) && TimedOut(timeout, elapsed))
  {
    BalancerDone(view, id, timeout, elapsed, counts);
  }

  /** One poll of a balancer wait, with its loop over the group's balancers. */
  method BalancerPoll(view: ServiceView, id: string, timeout: Option<int>, elapsed: int, counts: Counts)
      returns (d: Wait<()>)
    ensures d == BalancerDecision(view, id, timeout, elapsed, counts)
  {
    var g := FindGroup(view.groups, id);
    if g.None? {
      return Fail;
    }
    var names := view.groups[g.value].loadBalancers;
    var count := 0;
    for k := 0 to |names|
      invariant AllFound(view.balancers, names[..k])
      invariant count == Tally(view.balancers, names[..k], id, counts)
    {
      assert names[..k + 1][..k] == names[..k];
      var b := FindBalancer(view.balancers, names[k]);
      if b.None? {
        return Fail;
      }
      if counts(view.balancers[b.value], id) {
        count := count + 1;
      }
    }
    assert names[..|names|] == names;
    if count == |names| {
      return Done(());
    }
    if TimedOut(timeout, elapsed) {
      return Fail;
    }
    return Pending;
  }

  function BalancerDecisions(id: string, timeout: Option<int>, polls: seq<Poll<ServiceView>>, counts: Counts): (ds: seq<Wait<()>>)
    ensures |ds| == |polls|
    ensures forall k :: 0 <= k < |polls| ==> ds[k] == BalancerDecision(polls[k].state, id, timeout, polls[k].elapsed, counts)
  {
    seq(|polls|, k requires 0 <= k < |polls| => BalancerDecision(polls[k].state, id, timeout, polls[k].elapsed, counts))
  }

  /** A balancer wait: an expired timeout fails at once; otherwise the first poll that
      decides. */
  function BalancerWait(id: string, timeout: Option<int>, polls: seq<Poll<ServiceView>>, counts: Counts): Wait<()>
  {
    if Expired(timeout) then Fail else FirstDecision(BalancerDecisions(id, timeout, polls, counts))
  }

  /** A balancer wait succeeds only on a poll where every balancer counts the instance,
      after polls that all went on. */
  lemma BalancerWaitDone(id: string, timeout: Option<int>, polls: seq<Poll<ServiceView>>, counts: Counts)
    ensures BalancerWait(id, timeout, polls, counts).Done? ==>
              !Expired(timeout)
              && exists k :: 0 <= k < |polls| && AllCount(polls[k].state, id, counts)
                             && forall j :: 0 <= j < k ==> !AllCount(polls[j].state, id, counts)
  {
    var ds := BalancerDecisions(id, timeout, polls, counts);
    FirstDecisionSpec(ds);
    if BalancerWait(id, timeout, polls, counts).Done? {
      var k :| 0 <= k < |ds| && ds[k] == FirstDecision(ds) && forall j :: 0 <= j < k ==> ds[j].Pending?;
      BalancerDone(polls[k].state, id, timeout, polls[k].elapsed, counts);
      forall j | 0 <= j < k ensures !AllCount(polls[j].state, id, counts) {
        BalancerDone(polls[j].state, id, timeout, polls[j].elapsed, counts);
      }
    }
  }

  /** The polling loop of a balancer wait. */
  method AwaitBalancers(id: string, timeout: Option<int>, polls: seq<Poll<ServiceView>>, counts: Counts)
      returns (r: Wait<()>)
    ensures r == BalancerWait(id, timeout, polls, counts)
  {
    if Expired(timeout) {
      return Fail;
    }
    ghost var ds := BalancerDecisions(id, timeout, polls, counts);
    for k := 0 to |polls|
      invariant FirstDecision(ds[k..]) == FirstDecision(ds)
    {
      assert ds[k..][1..] == ds[k + 1..];
      var d := BalancerPoll(polls[k].state, id, timeout, polls[k].elapsed, counts);
      if !d.Pending? {
        return d;
      }
    }
    assert ds[|polls|..] == [];
    return Pending;
  }

  // ---------------------------------------------------------------------------
  // wait_group_terminated (billowRotate.py:396-445)

  /** One poll of wait_group_terminated: the groups the instance is looked up in, and the
      group found once refreshed. */
  datatype Refreshed = Refreshed(groups: seq<GroupSnap>, current: GroupSnap)

  /** No group holding the instance fails; the refreshed group no longer listing it, or
      listing it terminated, succeeds; otherwise the timeout decides. */
  function TerminatedDecision(r: Refreshed, id: string, timeout: Option<int>, elapsed: int): Wait<()>
  {
    if FindGroup(r.groups, id).None? then Fail
    else match FindById(r.current.members, MemberId, id)
      case None => Done(())
      case Some(i) =>
        if r.current.members[i].groupState == "Terminated" || r.current.members[i].instanceState == "terminated" then Done(())
        else if TimedOut(timeout, elapsed) then Fail
        else Pending
  }

  /** The instance is gone from the group, or shown terminated on either axis. */
  predicate Gone(g: GroupSnap, id: string)
  {
    forall i :: 0 <= i < |g.members| && g.members[i].id == id ==>
      g.members[i].groupState == "Terminated" || g.members[i].instanceState == "terminated"
  }

  /** A poll succeeds when the group is found and the first member with the id is gone;
      once every member with that id is gone it cannot go on. */
  lemma TerminatedDone(r: Refreshed, id: string, timeout: Option<int>, elapsed: int)
    ensures TerminatedDecision(r, id, timeout, elapsed) == Done(()) ==> FindGroup(r.groups, id).Some?
    ensures FindGroup(r.groups, id).Some? && Gone(r.current, id) ==> TerminatedDecision(r, id, timeout, elapsed) == Done(())
    ensures TerminatedDecision(r, id, timeout, elapsed) == Fail ==> FindGroup(r.groups, id).None? || TimedOut(timeout, elapsed)
  {
  }

  function TerminatedDecisions(id: string, timeout: Option<int>, polls: seq<Poll<Refreshed>>): (ds: seq<Wait<()>>)
    ensures |ds| == |polls|
    ensures forall k :: 0 <= k < |polls| ==> ds[k] == TerminatedDecision(polls[k].state, id, timeout, polls[k].elapsed)
  {
    seq(|polls|, k requires 0 <= k < |polls| => TerminatedDecision(polls[k].state, id, timeout, polls[k].elapsed))
  }

  function TerminatedWait(id: string, timeout: Option<int>, polls: seq<Poll<Refreshed>>): Wait<()>
  {
    if Expired(timeout) then Fail else FirstDecision(TerminatedDecisions(id, timeout, polls))
  }

  /** With no timeout, the wait fails only on a poll that finds no group. */
  lemma TerminatedWaitNoTimeout(id: string, timeout: Option<int>, polls: seq<Poll<Refreshed>>)
    requires !Active(timeout)
    ensures TerminatedWait(id, timeout, polls) == Fail ==>
              exists k :: 0 <= k < |polls| && FindGroup(polls[k].state.groups, id).None?
  {
    var ds := TerminatedDecisions(id, timeout, polls);
    FirstDecisionSpec(ds);
    if TerminatedWait(id, timeout, polls) == Fail {
      var k :| 0 <= k < |ds| && ds[k] == FirstDecision(ds) && forall j :: 0 <= j < k ==> ds[j].Pending?;
      TerminatedDone(polls[k].state, id, timeout, polls[k].elapsed);
    }
  }

  method AwaitTerminated(id: string, timeout: Option<int>, polls: seq<Poll<Refreshed>>) returns (r: Wait<()>)
    ensures r == TerminatedWait(id, timeout, polls)
  {
    if Expired(timeout) {
      return Fail;
    }
    ghost var ds := TerminatedDecisions(id, timeout, polls);
    for k := 0 to |polls|
      invariant FirstDecision(ds[k..]) == FirstDecision(ds)
    {
      assert ds[k..][1..] == ds[k + 1..];
      var d := TerminatedDecision(polls[k].state, id, timeout, polls[k].elapsed);
      if !d.Pending? {
        return d;
      }
    }
    assert ds[|polls|..] == [];
    return Pending;
  }

  // ---------------------------------------------------------------------------
  // wait_group_launched (billowRotate.py:447-526)

  /** The group lifecycle states in which a new instance is ignored. */
  predicate TerminalGroupState(s: string)
  {
    s == "Terminated" || s == "Terminating" || s == "Standby" || (|s| >= 12 && s[..12] == "Terminating:")
  }

  /** The compute states in which a new instance is ignored. */
  predicate TerminalComputeState(s: string)
  {
    s == "shutting-down" || s == "terminated" || s == "stopping" || s == "stopped"
  }

  /** A group member the launch wait accepts: not in the snapshot taken before the
      operation, in no terminal state, and 'InService'. */
  predicate Launched(prior: GroupSnap, m: Member)
  {
    !InGroup(prior, m.id) && !TerminalGroupState(m.groupState) && !TerminalComputeState(m.instanceState)
    && m.groupState == "InService"
  }

  /** The ids of the accepted members, in member order. */
  function NewInService(prior: GroupSnap, ms: seq<Member>): seq<string>
    decreases |ms|
  {
    if ms == [] then [] else (if Launched(prior, ms[0]) then [ms[0].id] else []) + NewInService(prior, ms[1..])
  }

  lemma {:induction false} NewInServiceSpec(prior: GroupSnap, ms: seq<Member>)
    ensures forall x :: x in NewInService(prior, ms) <==> exists i :: 0 <= i < |ms| && ms[i].id == x && Launched(prior, ms[i])
    ensures forall x :: x in NewInService(prior, ms) ==> !InGroup(prior, x)
    decreases |ms|
  {
    if ms != [] {
      NewInServiceSpec(prior, ms[1..]);
      assert forall i :: 1 <= i < |ms| ==> ms[1..][i - 1] == ms[i];
    }
  }

  /** One poll of wait_group_launched over the refreshed group: at least `count` accepted
      members succeed, with their ids. */
  function LaunchedDecision(g: GroupSnap, prior: GroupSnap, count: int, timeout: Option<int>, elapsed: int): Wait<seq<string>>
  {
    var ids := NewInService(prior, g.members);
    if |ids| >= count then Done(ids)
    else if TimedOut(timeout, elapsed) then Fail
    else Pending
  }

  /** A poll succeeds with exactly the accepted ids, at least `count` of them, none of them
      listed before the operation. */
  lemma LaunchedDone(g: GroupSnap, prior: GroupSnap, count: int, timeout: Option<int>, elapsed: int, ids: seq<string>)
    ensures LaunchedDecision(g, prior, count, timeout, elapsed) == Done(ids) <==>
              ids == NewInService(prior, g.members) && |ids| >= count
    ensures LaunchedDecision(g, prior, count, timeout, elapsed) == Done(ids) ==>
              |ids| >= count
              && (forall x :: x in ids ==> !InGroup(prior, x))
              && (forall x :: x in ids <==> exists i :: 0 <= i < |g.members| && g.members[i].id == x && Launched(prior, g.members[i]))
  {
    NewInServiceSpec(prior, g.members);
  }

  lemma NewInServiceStep(prior: GroupSnap, ms: seq<Member>, i: nat)
    requires i < |ms|
    ensures NewInService(prior, ms[i..]) == (if Launched(prior, ms[i]) then [ms[i].id] else []) + NewInService(prior, ms[i + 1..])
  {
    assert ms[i..][1..] == ms[i + 1..];
  }

  /** One poll of wait_group_launched, with its loop over the group's members. */
  method LaunchedPoll(g: GroupSnap, prior: GroupSnap, count: int, timeout: Option<int>, elapsed: int)
      returns (d: Wait<seq<string>>)
    ensures d == LaunchedDecision(g, prior, count, timeout, elapsed)
  {
    var healthy := [];
    var healthyCount := 0;
    var ms := g.members;
    for i := 0 to |ms|
      invariant healthy + NewInService(prior, ms[i..]) == NewInService(prior, ms)
      invariant healthyCount == |healthy|
    {
      NewInServiceStep(prior, ms, i);
      var m := ms[i];
      var one: seq<string> := [];
      if !InGroup(prior, m.id) {
        if !(TerminalGroupState(m.groupState) || TerminalComputeState(m.instanceState)) {
          if m.groupState == "InService" {
            healthyCount := healthyCount + 1;
            one := [m.id];
          }
        }
      }
      assert one == (if Launched(prior, m) then [m.id] else []);
      AppendAssoc(healthy, one, NewInService(prior, ms[i + 1..]));
      healthy := healthy + one;
    }
    assert ms[|ms|..] == [];
    assert healthy == NewInService(prior, ms);
    if healthyCount >= count {
      return Done(healthy);
    }
    if TimedOut(timeout, elapsed) {
      return Fail;
    }
    return Pending;
  }

  function LaunchedDecisions(prior: GroupSnap, count: int, timeout: Option<int>, polls: seq<Poll<GroupSnap>>): (ds: seq<Wait<seq<string>>>)
    ensures |ds| == |polls|
    ensures forall k :: 0 <= k < |polls| ==> ds[k] == LaunchedDecision(polls[k].state, prior, count, timeout, polls[k].elapsed)
  {
    seq(|polls|, k requires 0 <= k < |polls| => LaunchedDecision(polls[k].state, prior, count, timeout, polls[k].elapsed))
  }

  function LaunchedWait(prior: GroupSnap, count: int, timeout: Option<int>, polls: seq<Poll<GroupSnap>>): Wait<seq<string>>
  {
    if Expired(timeout) then Fail else FirstDecision(LaunchedDecisions(prior, count, timeout, polls))
  }

  /** The launch wait returns the accepted ids of the first poll with at least `count` of
      them. */
  lemma LaunchedWaitDone(prior: GroupSnap, count: int, timeout: Option<int>, polls: seq<Poll<GroupSnap>>)
    ensures LaunchedWait(prior, count, timeout, polls).Done? ==>
              var ids := LaunchedWait(prior, count, timeout, polls).value;
              |ids| >= count && (forall x :: x in ids ==> !InGroup(prior, x))
              && exists k :: 0 <= k < |polls| && ids == NewInService(prior, polls[k].state.members)
                             && forall j :: 0 <= j < k ==> |NewInService(prior, polls[j].state.members)| < count
  {
    var ds := LaunchedDecisions(prior, count, timeout, polls);
    FirstDecisionSpec(ds);
    if LaunchedWait(prior, count, timeout, polls).Done? {
      var ids := LaunchedWait(prior, count, timeout, polls).value;
      var k :| 0 <= k < |ds| && ds[k] == FirstDecision(ds) && forall j :: 0 <= j < k ==> ds[j].Pending?;
      LaunchedDone(polls[k].state, prior, count, timeout, polls[k].elapsed, ids);
    }
  }

  method AwaitLaunched(prior: GroupSnap, count: int, timeout: Option<int>, polls: seq<Poll<GroupSnap>>)
      returns (r: Wait<seq<string>>)
    ensures r == LaunchedWait(prior, count, timeout, polls)
  {
    if Expired(timeout) {
      return Fail;
    }
    ghost var ds := LaunchedDecisions(prior, count, timeout, polls);
    for k := 0 to |polls|
      invariant FirstDecision(ds[k..]) == FirstDecision(ds)
    {
      assert ds[k..][1..] == ds[k + 1..];
      var d := LaunchedPoll(polls[k].state, prior, count, timeout, polls[k].elapsed);
      if !d.Pending? {
        return d;
      }
    }
    assert ds[|polls|..] == [];
    return Pending;
  }

  // ---------------------------------------------------------------------------
  // wait_launch (billowRotate.py:528-552)

  /** The polls of a full launch wait: the group's, then each new instance's balancer
      polls for registration and for health. */
  datatype LaunchPolls = LaunchPolls(group: seq<Poll<GroupSnap>>,
                                     registered: string -> seq<Poll<ServiceView>>,
                                     healthy: string -> seq<Poll<ServiceView>>)

  /** One balancer wait per id, in order, stopping at the first that does not succeed. */
  function EachWait(ids: seq<string>, timeout: Option<int>, polls: string -> seq<Poll<ServiceView>>, counts: Counts): Wait<()>
    decreases |ids|
  {
    if ids == [] then Done(())
    else
      var r := BalancerWait(ids[0], timeout, polls(ids[0]), counts);
      if r.Done? then EachWait(ids[1..], timeout, polls, counts) else r
  }

  /** EachWait succeeds exactly when every id's wait succeeds. */
  lemma {:induction false} EachWaitDone(ids: seq<string>, timeout: Option<int>, polls: string -> seq<Poll<ServiceView>>, counts: Counts)
    ensures EachWait(ids, timeout, polls, counts).Done? <==>
              forall k :: 0 <= k < |ids| ==> BalancerWait(ids[k], timeout, polls(ids[k]), counts).Done?
    decreases |ids|
  {
    if ids != [] {
      EachWaitDone(ids[1..], timeout, polls, counts);
      assert forall k :: 1 <= k < |ids| ==> ids[1..][k - 1] == ids[k];
    }
  }

  /** wait_launch: the launch wait with count 1, then every new instance registered with
      its balancers, then every new instance healthy in them. */
  function WaitLaunch(prior: GroupSnap, timeout: Option<int>, p: LaunchPolls): Wait<seq<string>>
  {
    if Expired(timeout) then Fail
    else match LaunchedWait(prior, 1, timeout, p.group)
      case Fail => Fail
      case Pending => Pending
      case Done(ids) =>
        if ids == [] then Fail
        else match EachWait(ids, timeout, p.registered, Registered)
          case Fail => Fail
          case Pending => Pending
          case Done(_) =>
            match EachWait(ids, timeout, p.healthy, Healthy)
            case Fail => Fail
            case Pending => Pending
            case Done(_) => Done(ids)
  }

  /** A full launch wait succeeds with new ids only, each registered with and healthy in
      every balancer of its group. */
  lemma WaitLaunchDone(prior: GroupSnap, timeout: Option<int>, p: LaunchPolls)
    ensures WaitLaunch(prior, timeout, p).Done? ==>
              var ids := WaitLaunch(prior, timeout, p).value;
              |ids| >= 1 && (forall x :: x in ids ==> !InGroup(prior, x))
              && (forall k :: 0 <= k < |ids| ==> BalancerWait(ids[k], timeout, p.registered(ids[k]), Registered).Done?)
              && (forall k :: 0 <= k < |ids| ==> BalancerWait(ids[k], timeout, p.healthy(ids[k]), Healthy).Done?)
  {
    LaunchedWaitDone(prior, 1, timeout, p.group);
    if WaitLaunch(prior, timeout, p).Done? {
      var ids := LaunchedWait(prior, 1, timeout, p.group).value;
      EachWaitDone(ids, timeout, p.registered, Registered);
      EachWaitDone(ids, timeout, p.healthy, Healthy);
    }
  }

  /** The loop of balancer waits over the new ids. */
  method AwaitEach(ids: seq<string>, timeout: Option<int>, polls: string -> seq<Poll<ServiceView>>, counts: Counts)
      returns (r: Wait<()>)
    ensures r == EachWait(ids, timeout, polls, counts)
  {
    for k := 0 to |ids|
      invariant EachWait(ids[k..], timeout, polls, counts) == EachWait(ids, timeout, polls, counts)
    {
      assert ids[k..][1..] == ids[k + 1..];
      var one := AwaitBalancers(ids[k], timeout, polls(ids[k]), counts);
      if !one.Done? {
        return one;
      }
    }
    assert ids[|ids|..] == [];
    return Done(());
  }

  method AwaitLaunch(prior: GroupSnap, timeout: Option<int>, p: LaunchPolls) returns (r: Wait<seq<string>>)
    ensures r == WaitLaunch(prior, timeout, p)
  {
    if Expired(timeout) {
      return Fail;
    }
    var launched := AwaitLaunched(prior, 1, timeout, p.group);
    if launched.Fail? || launched.Pending? {
      return launched;
    }
    var ids := launched.value;
    if ids == [] {
      return Fail;
    }
    var registered := AwaitEach(ids, timeout, p.registered, Registered);
    if registered.Fail? {
      return Fail;
    }
    if registered.Pending? {
      return Pending;
    }
    var healthy := AwaitEach(ids, timeout, p.healthy, Healthy);
    if healthy.Fail? {
      return Fail;
    }
    if healthy.Pending? {
      return Pending;
    }
    return Done(ids);
  }
}
