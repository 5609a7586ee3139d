/** The rotation of billowRotate: replacing one instance of a group by a new one
    (rotate_instance, billowRotate.py:792-900), and the batch that rotates every instance of
    the service in order and counts the failures (rotate, billowRotate.py:902-932). The
    provider's mutations are recorded as actions in the order the rotation takes them; the
    provider's answers, the webhooks' answers, the polls of the waits and the elapsed times
    come from an environment. */
module Rotation {
  import opened Wrappers
  import opened Text
  import opened Snapshots
  import opened Ordering
  import Safety
  import opened Waits
  import opened Addresses
  import Util

  /** How a step of the rotation ends: a value, an exception that propagates with its
      error code, or a wait still polling when its polls run out. */
  datatype Outcome = Returned(ok: bool) | Raised(error: string) | Waiting

  /** The provider mutations of a rotation. The put steps are recorded when they are
      attempted. */
  datatype Action =
    | Disassociate(associationId: string)
    | Unassign(interfaceId: string, ip: string)
    | TerminateCall(instanceId: string, decrement: bool)
    | Increment
    | PutElastic(instanceId: string, allocationId: string)
    | PutSecondary(instanceId: string, ip: string)

  /** What one rotation sees of the outside. */
  datatype Env = Env(
    view: ServiceView,                            // the service as the rotation finds it
    notifyAnswer: Outcome,                        // the terminate webhook's answer
    statusAnswer: Outcome,                        // the status webhook wait's answer
    addresses: seq<string> -> seq<ElasticIp>,     // get_addresses
    increment: bool,                              // group.increment()
    terminate: (string, bool) -> Reply,           // group.terminate(id, decrement_capacity)
    launchPolls: seq<Poll<GroupSnap>>,            // the first launch wait
    after: ServiceView,                           // the service once the launch wait refreshed the group
    associate: (string, string, string) -> bool,  // associate_address(allocation, instance, interface)
    assign: (string, string) -> Reply,            // assign_private_ip_addresses(interface, ip)
    launchElapsed: int,                           // seconds elapsed before the full launch wait
    fullLaunch: LaunchPolls,                      // the polls of the full launch wait
    terminateElapsed: int,                        // seconds elapsed before the final terminate
    terminatedPolls: seq<Poll<Refreshed>>)        // the polls of the termination wait

  /** A rotation's result: how it ended, the provider mutations in order, and the secondary
      IPs that could not be put back. */
  datatype Plan = Plan(outcome: Outcome, actions: seq<Action>, failed: seq<string>)

  // ---------------------------------------------------------------------------
  // The webhook settings (billowRotate.py:659-671, 711-722)

  predicate Digits(s: string)
  {
    |s| > 0 && forall i :: 0 <= i < |s| ==> IsDigit(s[i])
  }

  function DigitsValue(s: string): int
    decreases |s|
  {
    if s == [] then 0 else DigitsValue(s[..|s| - 1]) * 10 + (s[|s| - 1] as int - '0' as int)
  }

  /** int(s) on a decimal literal with an optional sign; None where int raises. */
  function IntOf(s: string): Option<int>
  {
    if |s| > 0 && (s[0] == '-' || s[0] == '+') && Digits(s[1..]) then
      Some(if s[0] == '-' then -DigitsValue(s[1..]) else DigitsValue(s[1..]))
    else if Digits(s) then Some(DigitsValue(s))
    else None
  }

  /** A 'port:path' setting: refused, broken (the check itself raises), or a target. */
  datatype UrlSetting = Refused | Broken(error: string) | Target(port: int, path: string)

  /** Exactly two ':'-separated parts; int() of the port raises on a non-number; port 0 is
      refused before the path is read; reading the first character of an empty path
      raises; a path not starting with '/' is refused. */
  function ParseUrlSetting(setting: string): UrlSetting
  {
    var parts := Split(setting, ':');
    if |parts| != 2 then Refused
    else match IntOf(parts[0])
      case None => Broken("ValueError")
      case Some(port) =>
        if port == 0 then Refused
        else if parts[1] == "" then Broken("IndexError")
        else if parts[1][0] != '/' then Refused
        else Target(port, parts[1])
  }

  /** A target has a non-zero port and a path starting with '/', and the setting is the
      port's text, ':' and the path. */
  lemma ParseUrlTarget(setting: string)
    ensures ParseUrlSetting(setting).Target? ==>
              var t := ParseUrlSetting(setting);
              t.port != 0 && |t.path| > 0 && t.path[0] == '/' && ':' !in t.path
              && exists p :: setting == p + [':'] + t.path && IntOf(p) == Some(t.port)
  {
    var parts := Split(setting, ':');
    if ParseUrlSetting(setting).Target? {
      JoinSplit(setting, ':');
      assert Join(parts, ':') == parts[0] + [':'] + Join(parts[1..], ':');
      assert parts[1..] == [parts[1]];
      assert setting == parts[0] + [':'] + parts[1];
    }
  }

  /** Every well-formed setting is accepted with its port and path. */
  lemma UrlTargetAccepted(p: string, path: string)
    requires Digits(p) && DigitsValue(p) != 0
    requires ':' !in path && |path| > 0 && path[0] == '/'
    ensures ParseUrlSetting(p + [':'] + path) == Target(DigitsValue(p), path)
  {
    assert ':' !in p by {
      forall i | 0 <= i < |p| ensures p[i] != ':' {
        assert IsDigit(p[i]);
      }
    }
    SplitPair(p, path, ':');
  }

  /** notify_terminate: no setting succeeds at once; a refused setting, or no instance with
      the id, fails; otherwise the webhook answers. */
  function NotifyTerminate(group: GroupSnap, id: string, answer: Outcome): Outcome
  {
    match group.settings.urlTerminate
    case None => Returned(true)
    case Some(u) =>
      match ParseUrlSetting(u)
      case Refused => Returned(false)
      case Broken(e) => Raised(e)
      case Target(_, _) => if FindById(group.members, MemberId, id).None? then Returned(false) else answer
  }

  /** wait_notify: no setting succeeds at once; a refused setting fails; otherwise each
      poll first looks the instance up, failing when it is gone, and the status wait
      answers. */
  function WaitNotify(group: GroupSnap, id: string, answer: Outcome): Outcome
  {
    match group.settings.urlStatus
    case None => Returned(true)
    case Some(u) =>
      match ParseUrlSetting(u)
      case Refused => Returned(false)
      case Broken(e) => Raised(e)
      case Target(_, _) => if FindById(group.members, MemberId, id).None? then Returned(false) else answer
  }

  // ---------------------------------------------------------------------------
  // terminate (billowRotate.py:623-657)

  function WaitOutcome<T>(w: Wait<T>): Outcome
  {
    match w
    case Done(_) => Returned(true)
    case Fail => Returned(false)
    case Pending => Waiting
  }

  /** terminate: no group for the instance fails before any call; the provider's
      ValidationError and ScalingActivityInProgress fail, its other errors propagate; an
      accepted termination then waits for the instance to leave the group when asked to. */
  function Terminate(view: ServiceView, id: string, decrement: bool, wait: bool, timeout: Option<int>, env: Env): (Outcome, seq<Action>)
  {
    if FindGroup(view.groups, id).None? then (Returned(false), [])
    else
      var call := [TerminateCall(id, decrement)];
      match env.terminate(id, decrement)
      case Error(code) =>
        if code == "ValidationError" || code == "ScalingActivityInProgress" then (Returned(false), call)
        else (Raised(code), call)
      case Answer(ok) =>
        if !ok then (Returned(false), call)
        else if !wait then (Returned(true), call)
        else (WaitOutcome(TerminatedWait(id, timeout, env.terminatedPolls)), call)
  }

  method TerminateStep(view: ServiceView, id: string, decrement: bool, wait: bool, timeout: Option<int>, env: Env)
      returns (outcome: Outcome, actions: seq<Action>)
    ensures (outcome, actions) == Terminate(view, id, decrement, wait, timeout, env)
  {
    if FindGroup(view.groups, id).None? {
      return Returned(false), [];
    }
    actions := [TerminateCall(id, decrement)];
    var reply := env.terminate(id, decrement);
    if reply.Error? {
      if reply.code == "ValidationError" || reply.code == "ScalingActivityInProgress" {
        return Returned(false), actions;
      }
      return Raised(reply.code), actions;
    }
    if !reply.ok {
      return Returned(false), actions;
    }
    if !wait {
      return Returned(true), actions;
    }
    var w := AwaitTerminated(id, timeout, env.terminatedPolls);
    outcome := WaitOutcome(w);
  }

  // ---------------------------------------------------------------------------
  // rotate_instance (billowRotate.py:792-900), stage by stage

  function Disassociations(eips: seq<ElasticIp>): (acts: seq<Action>)
    ensures |acts| == |eips| && forall k :: 0 <= k < |eips| ==> acts[k] == Disassociate(eips[k].associationId)
  {
    seq(|eips|, k requires 0 <= k < |eips| => Disassociate(eips[k].associationId))
  }

  function Unassignments(pips: seq<SecondaryIp>): (acts: seq<Action>)
    ensures |acts| == |pips| && forall k :: 0 <= k < |pips| ==> acts[k] == Unassign(pips[k].interfaceId, pips[k].ip)
  {
    seq(|pips|, k requires 0 <= k < |pips| => Unassign(pips[k].interfaceId, pips[k].ip))
  }

  /** Putting the elastic IPs on the new instance, in order, stopping at the first that
      fails. */
  function PutElastics(view: ServiceView, associate: (string, string, string) -> bool, newId: string, eips: seq<ElasticIp>): (bool, seq<Action>)
    decreases |eips|
  {
    if eips == [] then (true, [])
    else
      var a := PutElastic(newId, eips[0].allocationId);
      if !PutElasticIp(view, associate, newId, eips[0].allocationId) then (false, [a])
      else
        var rest := PutElastics(view, associate, newId, eips[1..]);
        (rest.0, [a] + rest.1)
  }

  /** The secondary IP put-back so far: the puts attempted, the addresses the new instance
      refused, and the code of the provider error that ended the loop, if one did. */
  datatype Puts = Puts(acts: seq<Action>, failed: seq<string>, raised: Option<string>)

  /** Every secondary IP is put on the new instance in order; a refused one is remembered
      and the loop goes on; a provider error propagates and ends it. */
  function PutSecondaries(view: ServiceView, assign: (string, string) -> Reply, newId: string, pips: seq<SecondaryIp>): Puts
    decreases |pips|
  {
    if pips == [] then Puts([], [], None)
    else
      var a := PutSecondary(newId, pips[0].ip);
      match PutSecondaryIp(view, assign, newId, pips[0].ip)
      case Error(code) => Puts([a], [], Some(code))
      case Answer(ok) => After([a], if ok then [] else [pips[0].ip], PutSecondaries(view, assign, newId, pips[1..]))
  }

  /** A put-back result after earlier puts and refusals. */
  function After(acts: seq<Action>, failed: seq<string>, r: Puts): Puts
  {
    Puts(acts + r.acts, failed + r.failed, r.raised)
  }

  lemma AfterEmpty(r: Puts)
    ensures After([], [], r) == r
  {
    assert [] + r.acts == r.acts && [] + r.failed == r.failed;
  }

  lemma AfterAfter(a: seq<Action>, f: seq<string>, b: seq<Action>, g: seq<string>, r: Puts)
    ensures After(a, f, After(b, g, r)) == After(a + b, f + g, r)
  {
    AppendAssoc(a, b, r.acts);
    AppendAssoc(f, g, r.failed);
  }

  /** The put-back loop's step: one secondary IP at position k. */
  lemma SecondariesStep(view: ServiceView, assign: (string, string) -> Reply, newId: string, pips: seq<SecondaryIp>, k: nat)
    requires k < |pips|
    ensures var a := PutSecondary(newId, pips[k].ip);
            var put := PutSecondaryIp(view, assign, newId, pips[k].ip);
            PutSecondaries(view, assign, newId, pips[k..])
            == if put.Error? then Puts([a], [], Some(put.code))
               else After([a], if put.ok then [] else [pips[k].ip], PutSecondaries(view, assign, newId, pips[k + 1..]))
  {
    assert pips[k..][0] == pips[k] && pips[k..][1..] == pips[k + 1..];
  }

  /** With a setting, a notification succeeds only for a well-formed setting on an
      instance of the group whose webhook succeeded. */
  lemma NotifySucceeds(group: GroupSnap, id: string, answer: Outcome, status: Outcome)
    ensures group.settings.urlTerminate.Some? && NotifyTerminate(group, id, answer) == Returned(true) ==>
              answer == Returned(true) && FindById(group.members, MemberId, id).Some?
              && ParseUrlSetting(group.settings.urlTerminate.value).Target?
    ensures group.settings.urlStatus.Some? && WaitNotify(group, id, status) == Returned(true) ==>
              status == Returned(true) && FindById(group.members, MemberId, id).Some?
              && ParseUrlSetting(group.settings.urlStatus.value).Target?
  {
  }

  /** terminate calls the provider once when the instance has a group and never
      otherwise; it succeeds only when the provider accepted; only errors other than the
      two it expects propagate; and without waiting it does not look at the termination
      wait. */
  lemma TerminateCalls(view: ServiceView, id: string, decrement: bool, wait: bool, timeout: Option<int>, env: Env, polls: seq<Poll<Refreshed>>)
    ensures var (o, acts) := Terminate(view, id, decrement, wait, timeout, env);
            acts == (if FindGroup(view.groups, id).Some? then [TerminateCall(id, decrement)] else [])
            && (FindGroup(view.groups, id).None? ==> o == Returned(false))
            && (o == Returned(true) ==> env.terminate(id, decrement) == Answer(true))
            && (o.Raised? ==>
                  env.terminate(id, decrement) == Error(o.error)
                  && o.error != "ValidationError" && o.error != "ScalingActivityInProgress")
    ensures !wait ==> Terminate(view, id, decrement, wait, timeout, env.(terminatedPolls := polls)) == Terminate(view, id, decrement, wait, timeout, env)
  {
  }

  /** Terminate before launch when the group is at its maximum size (terminate without
      waiting); otherwise grow the group by one. */
  function Capacity(group: GroupSnap, id: string, env: Env): (Outcome, seq<Action>)
  {
    if group.curSize == group.maxSize then Terminate(env.view, id, false, false, None, env)
    else (Returned(env.increment), [Increment])
  }

  /** A later wait's timeout: what is left of the rotation's, when it has one. */
  function Remaining(timeout: Option<int>, elapsed: int): Option<int>
  {
    if Active(timeout) then Some(WaitTimeout(timeout.value, elapsed)) else timeout
  }

  /** The group of the instance, when one holds it. */
  function GroupOf(view: ServiceView, id: string): Option<GroupSnap>
  {
    match FindGroup(view.groups, id)
    case None => None
    case Some(g) => Some(view.groups[g])
  }

  /** rotate_instance, stage by stage. */
  function Rotation(id: string, timeout: Option<int>, env: Env): Plan
  {
    match GroupOf(env.view, id)
    case None => Plan(Returned(false), [], [])
    case Some(group) =>
      if group.settings.rotate == Some(false) then Plan(Returned(true), [], [])
      else Notified(group, id, timeout, env)
  }

  /** The two webhooks, then the addresses of the old instance. */
  function Notified(group: GroupSnap, id: string, timeout: Option<int>, env: Env): Plan
  {
    var n := NotifyTerminate(group, id, env.notifyAnswer);
    if n != Returned(true) then Plan(n, [], [])
    else
      var w := WaitNotify(group, id, env.statusAnswer);
      if w != Returned(true) then Plan(w, [], [])
      else Released(group, id, timeout, env, ElasticIps(env.view, id, env.addresses), SecondaryIps(env.view, id))
  }

  /** The addresses released, then the capacity step, then the wait for a new instance. */
  function Released(group: GroupSnap, id: string, timeout: Option<int>, env: Env, eips: seq<ElasticIp>, pips: seq<SecondaryIp>): Plan
  {
    var (c, cacts) := Capacity(group, id, env);
    var acts := Disassociations(eips) + Unassignments(pips) + cacts;
    if c != Returned(true) then Plan(c, acts, [])
    else Relaunched(group, id, timeout, env, pips, acts, eips, LaunchedWait(group, 1, timeout, env.launchPolls))
  }

  /** The first new instance the launch wait reports takes the addresses. */
  function Relaunched(group: GroupSnap, id: string, timeout: Option<int>, env: Env, pips: seq<SecondaryIp>, acts: seq<Action>,
                      eips: seq<ElasticIp>, launched: Wait<seq<string>>): Plan
  {
    match launched
    case Fail => Plan(Returned(false), acts, [])
    case Pending => Plan(Waiting, acts, [])
    case Done(ids) =>
      if ids == [] then Plan(Returned(false), acts, [])
      else Restored(group, id, timeout, env, pips, acts, eips, ids[0])
  }

  /** The elastic IPs, then the secondary IPs, then the full launch wait. */
  function Restored(group: GroupSnap, id: string, timeout: Option<int>, env: Env, pips: seq<SecondaryIp>, acts: seq<Action>,
                    eips: seq<ElasticIp>, newId: string): Plan
  {
    var (ok, pacts) := PutElastics(env.after, env.associate, newId, eips);
    if !ok then Plan(Returned(false), acts + pacts, [])
    else
      var s := PutSecondaries(env.after, env.assign, newId, pips);
      if s.raised.Some? then Plan(Raised(s.raised.value), acts + pacts + s.acts, s.failed)
      else Finalized(group, id, timeout, env, acts + pacts + s.acts, s.failed,
                     WaitLaunch(group, Remaining(timeout, env.launchElapsed), env.fullLaunch))
  }

  /** After the full launch wait, the old instance is terminated when it was not already. */
  function Finalized(group: GroupSnap, id: string, timeout: Option<int>, env: Env, acts: seq<Action>, failed: seq<string>,
                     full: Wait<seq<string>>): Plan
  {
    match full
    case Fail => Plan(Returned(false), acts, failed)
    case Pending => Plan(Waiting, acts, failed)
    case Done(_) =>
      if group.curSize == group.maxSize then Plan(Returned(true), acts, failed)
      else
        var (t, tacts) := Terminate(env.after, id, true, true, Remaining(timeout, env.terminateElapsed), env);
        Plan(t, acts + tacts, failed)
  }

  // ---------------------------------------------------------------------------
  // What each stage promises

  /** The last stage adds at most the termination of the old instance, with the size
      decremented, and only after the full launch wait succeeded below maximum size. */
  lemma FinalizedSpec(group: GroupSnap, id: string, timeout: Option<int>, env: Env, acts: seq<Action>, failed: seq<string>,
                      full: Wait<seq<string>>)
    ensures var p := Finalized(group, id, timeout, env, acts, failed, full);
            acts <= p.actions && p.failed == failed && |p.actions| <= |acts| + 1
            && (|p.actions| > |acts| ==> p.actions[|acts|] == TerminateCall(id, true) && full.Done? && group.curSize != group.maxSize)
            && (p.outcome == Returned(true) ==> full.Done?)
  {
    TerminateCalls(env.after, id, true, true, Remaining(timeout, env.terminateElapsed), env, []);
  }

  /** A put or a termination is what the restoring stages add. */
  predicate PutOn(a: Action, newId: string)
  {
    (a.PutElastic? || a.PutSecondary?) && a.instanceId == newId
  }

  predicate FinalTermination(group: GroupSnap, id: string, timeout: Option<int>, env: Env, a: Action)
  {
    a == TerminateCall(id, true) && group.curSize != group.maxSize
    && WaitLaunch(group, Remaining(timeout, env.launchElapsed), env.fullLaunch).Done?
  }

  /** Putting the addresses back adds puts on the new instance, then at most the final
      termination, as the very last action; its left-over secondary IPs are those the new
      instance refused, and a provider error of a secondary put propagates. */
  lemma RestoredSpec(group: GroupSnap, id: string, timeout: Option<int>, env: Env, pips: seq<SecondaryIp>, acts: seq<Action>,
                     eips: seq<ElasticIp>, newId: string)
    ensures var p := Restored(group, id, timeout, env, pips, acts, eips, newId);
            acts <= p.actions
            && (forall k :: |acts| <= k < |p.actions| ==>
                  PutOn(p.actions[k], newId)
                  || (k == |p.actions| - 1 && FinalTermination(group, id, timeout, env, p.actions[k])))
            && (p.failed == [] || p.failed == PutSecondaries(env.after, env.assign, newId, pips).failed)
  {
    var (ok, pacts) := PutElastics(env.after, env.associate, newId, eips);
    PutElasticsSpec(env.after, env.associate, newId, eips);
    AppendPuts(acts, pacts, newId);
    if ok {
      var s := PutSecondaries(env.after, env.assign, newId, pips);
      var more := acts + pacts + s.acts;
      PutSecondariesSpec(env.after, env.assign, newId, pips);
      assert forall k :: 0 <= k < |s.acts| ==> PutOn(s.acts[k], newId);
      AppendPuts(acts + pacts, s.acts, newId);
      if s.raised.Some? {
        assert Restored(group, id, timeout, env, pips, acts, eips, newId) == Plan(Raised(s.raised.value), more, s.failed);
      } else {
        var full := WaitLaunch(group, Remaining(timeout, env.launchElapsed), env.fullLaunch);
        assert Restored(group, id, timeout, env, pips, acts, eips, newId) == Finalized(group, id, timeout, env, more, s.failed, full);
        FinalizedAfterPuts(group, id, timeout, env, acts, more, s.failed, newId);
      }
    } else {
      assert Restored(group, id, timeout, env, pips, acts, eips, newId) == Plan(Returned(false), acts + pacts, []);
    }
  }

  /** The full launch wait's stage after the puts adds at most the final termination, as
      the last action. */
  lemma FinalizedAfterPuts(group: GroupSnap, id: string, timeout: Option<int>, env: Env, acts: seq<Action>, more: seq<Action>,
                           failed: seq<string>, newId: string)
    requires acts <= more
    requires forall k :: |acts| <= k < |more| ==> PutOn(more[k], newId)
    ensures var p := Finalized(group, id, timeout, env, more, failed, WaitLaunch(group, Remaining(timeout, env.launchElapsed), env.fullLaunch));
            acts <= p.actions && p.failed == failed
            && forall k :: |acts| <= k < |p.actions| ==>
                 PutOn(p.actions[k], newId) || (k == |p.actions| - 1 && FinalTermination(group, id, timeout, env, p.actions[k]))
  {
    var full := WaitLaunch(group, Remaining(timeout, env.launchElapsed), env.fullLaunch);
    FinalizedSpec(group, id, timeout, env, more, failed, full);
    var p := Finalized(group, id, timeout, env, more, failed, full);
    forall k | |acts| <= k < |p.actions|
      ensures PutOn(p.actions[k], newId) || (k == |p.actions| - 1 && FinalTermination(group, id, timeout, env, p.actions[k]))
    {
      if k < |more| {
        assert p.actions[k] == more[k];
      }
    }
  }

  /** Appending puts on the new instance keeps every appended action a put on it. */
  lemma AppendPuts(acts: seq<Action>, puts: seq<Action>, newId: string)
    requires forall k :: 0 <= k < |puts| ==> PutOn(puts[k], newId)
    ensures forall k :: |acts| <= k < |acts + puts| ==> PutOn((acts + puts)[k], newId)
  {
    forall k | |acts| <= k < |acts + puts| ensures PutOn((acts + puts)[k], newId) {
      assert (acts + puts)[k] == puts[k - |acts|];
    }
  }

  /** After the launch wait, every later action is a put on the first new instance it
      reported, or the final termination as the very last action; the left-over secondary
      IPs are those that instance refused. */
  lemma RelaunchedSpec(group: GroupSnap, id: string, timeout: Option<int>, env: Env, pips: seq<SecondaryIp>, acts: seq<Action>,
                       eips: seq<ElasticIp>, launched: Wait<seq<string>>)
    ensures var p := Relaunched(group, id, timeout, env, pips, acts, eips, launched);
            acts <= p.actions
            && (forall k :: |acts| <= k < |p.actions| ==>
                  launched.Done? && launched.value != []
                  && (PutOn(p.actions[k], launched.value[0])
                      || (k == |p.actions| - 1 && FinalTermination(group, id, timeout, env, p.actions[k]))))
            && (p.failed != [] ==>
                  launched.Done? && launched.value != []
                  && p.failed == PutSecondaries(env.after, env.assign, launched.value[0], pips).failed)
  {
    if launched.Done? && launched.value != [] {
      RestoredSpec(group, id, timeout, env, pips, acts, eips, launched.value[0]);
    }
  }

  /** At maximum size the stages after the capacity step never terminate, and do not look
      at the termination wait. */
  lemma RelaunchedAtMax(group: GroupSnap, id: string, timeout: Option<int>, env: Env, pips: seq<SecondaryIp>, acts: seq<Action>,
                        eips: seq<ElasticIp>, launched: Wait<seq<string>>, polls: seq<Poll<Refreshed>>)
    requires group.curSize == group.maxSize
    ensures Relaunched(group, id, timeout, env.(terminatedPolls := polls), pips, acts, eips, launched)
            == Relaunched(group, id, timeout, env, pips, acts, eips, launched)
  {
    if launched.Done? && launched.value != [] {
      var newId := launched.value[0];
      var env' := env.(terminatedPolls := polls);
      assert Restored(group, id, timeout, env', pips, acts, eips, newId) == Restored(group, id, timeout, env, pips, acts, eips, newId);
    }
  }

  // ---------------------------------------------------------------------------
  // What a rotation promises

  /** The rotation goes past its checks: the group is found, rotation is not switched
      off, and both webhooks agreed. */
  predicate Cleared(id: string, env: Env)
  {
    GroupOf(env.view, id).Some?
    && GroupOf(env.view, id).value.settings.rotate != Some(false)
    && NotifyTerminate(GroupOf(env.view, id).value, id, env.notifyAnswer) == Returned(true)
    && WaitNotify(GroupOf(env.view, id).value, id, env.statusAnswer) == Returned(true)
  }

  /** Nothing is touched before the checks pass: no group fails, a group with rotation
      switched off succeeds at once, a refused notification ends the rotation with its
      answer. */
  lemma NothingBeforeCleared(id: string, timeout: Option<int>, env: Env)
    ensures !Cleared(id, env) ==> Rotation(id, timeout, env).actions == [] && Rotation(id, timeout, env).failed == []
    ensures GroupOf(env.view, id).None? ==> Rotation(id, timeout, env).outcome == Returned(false)
    ensures GroupOf(env.view, id).Some? && GroupOf(env.view, id).value.settings.rotate == Some(false) ==>
              Rotation(id, timeout, env) == Plan(Returned(true), [], [])
    ensures GroupOf(env.view, id).Some? && GroupOf(env.view, id).value.settings.rotate != Some(false)
            && NotifyTerminate(GroupOf(env.view, id).value, id, env.notifyAnswer) != Returned(true) ==>
              Rotation(id, timeout, env).outcome == NotifyTerminate(GroupOf(env.view, id).value, id, env.notifyAnswer)
  {
  }

  /** The addresses the old instance gives up, in the order they are released. */
  function Release(env: Env, id: string): seq<Action>
  {
    Disassociations(ElasticIps(env.view, id, env.addresses)) + Unassignments(SecondaryIps(env.view, id))
  }

  /** A cleared rotation is its capacity step after the release of the addresses. */
  lemma ClearedStages(id: string, timeout: Option<int>, env: Env)
    requires Cleared(id, env)
    ensures var group := GroupOf(env.view, id).value;
            Rotation(id, timeout, env) == Released(group, id, timeout, env, ElasticIps(env.view, id, env.addresses), SecondaryIps(env.view, id))
  {
  }

  /** Once cleared, the old instance's addresses are released before anything else, and
      the capacity step comes right after them. */
  lemma ReleaseFirst(id: string, timeout: Option<int>, env: Env)
    requires Cleared(id, env)
    ensures var group := GroupOf(env.view, id).value;
            var acts := Rotation(id, timeout, env).actions;
            Release(env, id) + Capacity(group, id, env).1 <= acts
  {
    var group := GroupOf(env.view, id).value;
    var eips := ElasticIps(env.view, id, env.addresses);
    var pips := SecondaryIps(env.view, id);
    ClearedStages(id, timeout, env);
    var (c, cacts) := Capacity(group, id, env);
    var acts := Disassociations(eips) + Unassignments(pips) + cacts;
    RelaunchedSpec(group, id, timeout, env, pips, acts, eips, LaunchedWait(group, 1, timeout, env.launchPolls));
  }

  /** Terminate before launch: at maximum size the old instance is terminated, without
      decrementing the size, right after its addresses are released; the group is never
      grown; no other termination follows; a new instance is waited for only once the
      provider accepted the termination; and the termination wait is never used. */
  lemma TerminateBeforeLaunch(id: string, timeout: Option<int>, env: Env, polls: seq<Poll<Refreshed>>)
    requires Cleared(id, env)
    requires GroupOf(env.view, id).value.curSize == GroupOf(env.view, id).value.maxSize
    ensures var acts := Rotation(id, timeout, env).actions;
            |acts| > |Release(env, id)| && acts[|Release(env, id)|] == TerminateCall(id, false)
            && Increment !in acts
            && forall a :: a in acts && a.TerminateCall? ==> a == TerminateCall(id, false)
    ensures Rotation(id, timeout, env).actions != Release(env, id) + [TerminateCall(id, false)] ==>
              env.terminate(id, false) == Answer(true)
    ensures Rotation(id, timeout, env.(terminatedPolls := polls)) == Rotation(id, timeout, env)
  {
    AtMaxActions(id, timeout, env);
    AtMaxGate(id, timeout, env);
    AtMaxIgnoresTerminated(id, timeout, env, polls);
  }

  /** At maximum size the first action after the release terminates without decrement,
      and no other capacity action follows. */
  lemma AtMaxActions(id: string, timeout: Option<int>, env: Env)
    requires Cleared(id, env)
    requires GroupOf(env.view, id).value.curSize == GroupOf(env.view, id).value.maxSize
    ensures var acts := Rotation(id, timeout, env).actions;
            |acts| > |Release(env, id)| && acts[|Release(env, id)|] == TerminateCall(id, false)
            && Increment !in acts
            && forall a :: a in acts && a.TerminateCall? ==> a == TerminateCall(id, false)
  {
    AtMaxTail(id, timeout, env);
    ReleaseKinds(env, id);
    TerminateOnly(Release(env, id), id, Rotation(id, timeout, env).actions);
  }

  /** At maximum size the actions are the release, the termination, then only puts. */
  lemma AtMaxTail(id: string, timeout: Option<int>, env: Env)
    requires Cleared(id, env)
    requires GroupOf(env.view, id).value.curSize == GroupOf(env.view, id).value.maxSize
    ensures var all := Rotation(id, timeout, env).actions;
            Release(env, id) + [TerminateCall(id, false)] <= all
            && forall k :: |Release(env, id)| < k < |all| ==> all[k].PutElastic? || all[k].PutSecondary?
  {
    var group := GroupOf(env.view, id).value;
    var eips := ElasticIps(env.view, id, env.addresses);
    var pips := SecondaryIps(env.view, id);
    ClearedStages(id, timeout, env);
    TerminateCalls(env.view, id, false, false, None, env, []);
    var acts := Release(env, id) + Capacity(group, id, env).1;
    RelaunchedSpec(group, id, timeout, env, pips, acts, eips, LaunchedWait(group, 1, timeout, env.launchPolls));
  }

  /** The release only disassociates and unassigns. */
  lemma ReleaseKinds(env: Env, id: string)
    ensures forall k :: 0 <= k < |Release(env, id)| ==> Release(env, id)[k].Disassociate? || Release(env, id)[k].Unassign?
  {
    ReleaseOnly(Disassociations(ElasticIps(env.view, id, env.addresses)), Unassignments(SecondaryIps(env.view, id)));
  }

  lemma ReleaseOnly(ds: seq<Action>, us: seq<Action>)
    requires forall k :: 0 <= k < |ds| ==> ds[k].Disassociate?
    requires forall k :: 0 <= k < |us| ==> us[k].Unassign?
    ensures forall k :: 0 <= k < |ds + us| ==> (ds + us)[k].Disassociate? || (ds + us)[k].Unassign?
  {
  }

  /** A release, one termination keeping the size, then puts: no growth and no other
      termination. */
  lemma TerminateOnly(release: seq<Action>, id: string, all: seq<Action>)
    requires forall k :: 0 <= k < |release| ==> release[k].Disassociate? || release[k].Unassign?
    requires release + [TerminateCall(id, false)] <= all
    requires forall k :: |release| < k < |all| ==> all[k].PutElastic? || all[k].PutSecondary?
    ensures |all| > |release| && all[|release|] == TerminateCall(id, false)
    ensures Increment !in all
    ensures forall a :: a in all && a.TerminateCall? ==> a == TerminateCall(id, false)
  {
    assert all[|release|] == (release + [TerminateCall(id, false)])[|release|];
    forall a | a in all ensures a != Increment && (a.TerminateCall? ==> a == TerminateCall(id, false)) {
      var k :| 0 <= k < |all| && all[k] == a;
      if k < |release| {
        assert all[k] == (release + [TerminateCall(id, false)])[k];
      }
    }
  }

  /** At maximum size a new instance is waited for only after the provider accepted the
      termination. */
  lemma AtMaxGate(id: string, timeout: Option<int>, env: Env)
    requires Cleared(id, env)
    requires GroupOf(env.view, id).value.curSize == GroupOf(env.view, id).value.maxSize
    ensures Rotation(id, timeout, env).actions != Release(env, id) + [TerminateCall(id, false)] ==>
              env.terminate(id, false) == Answer(true)
  {
    var group := GroupOf(env.view, id).value;
    ClearedStages(id, timeout, env);
    TerminateCalls(env.view, id, false, false, None, env, []);
  }

  /** At maximum size the rotation never looks at the termination wait. */
  lemma AtMaxIgnoresTerminated(id: string, timeout: Option<int>, env: Env, polls: seq<Poll<Refreshed>>)
    requires Cleared(id, env)
    requires GroupOf(env.view, id).value.curSize == GroupOf(env.view, id).value.maxSize
    ensures Rotation(id, timeout, env.(terminatedPolls := polls)) == Rotation(id, timeout, env)
  {
    var group := GroupOf(env.view, id).value;
    var env' := env.(terminatedPolls := polls);
    var eips := ElasticIps(env.view, id, env.addresses);
    var pips := SecondaryIps(env.view, id);
    ClearedStages(id, timeout, env);
    assert Cleared(id, env');
    ClearedStages(id, timeout, env');
    TerminateCalls(env.view, id, false, false, None, env, polls);
    var acts := Disassociations(eips) + Unassignments(pips) + Capacity(group, id, env).1;
    RelaunchedAtMax(group, id, timeout, env, pips, acts, eips, LaunchedWait(group, 1, timeout, env.launchPolls), polls);
  }

  /** Launch before terminate: below maximum size the group is grown right after the
      addresses are released; no termination keeps the size; and the old instance is
      terminated, with the size decremented, only as the last action, after the group
      grew and the full launch wait saw the new instance registered and healthy. */
  lemma LaunchBeforeTerminate(id: string, timeout: Option<int>, env: Env)
    requires Cleared(id, env)
    requires GroupOf(env.view, id).value.curSize != GroupOf(env.view, id).value.maxSize
    ensures var acts := Rotation(id, timeout, env).actions;
            |acts| > |Release(env, id)| && acts[|Release(env, id)|] == Increment
    ensures var group := GroupOf(env.view, id).value;
            var acts := Rotation(id, timeout, env).actions;
            forall k :: 0 <= k < |acts| && acts[k].TerminateCall? ==>
              acts[k] == TerminateCall(id, true) && k == |acts| - 1 && env.increment
              && LaunchedWait(group, 1, timeout, env.launchPolls).Done?
              && WaitLaunch(group, Remaining(timeout, env.launchElapsed), env.fullLaunch).Done?
  {
    var group := GroupOf(env.view, id).value;
    var release := Release(env, id);
    var all := Rotation(id, timeout, env).actions;
    BelowMaxTail(id, timeout, env);
    ReleaseKinds(env, id);
    assert all[|release|] == (release + [Increment])[|release|];
    forall k | 0 <= k < |all| && all[k].TerminateCall?
      ensures all[k] == TerminateCall(id, true) && k == |all| - 1 && env.increment
              && LaunchedWait(group, 1, timeout, env.launchPolls).Done?
              && WaitLaunch(group, Remaining(timeout, env.launchElapsed), env.fullLaunch).Done?
    {
      assert k > |release|;
    }
  }

  /** Below maximum size the actions are the release and the increment, then, only once
      the group grew and the launch wait found an instance, puts and possibly the final
      termination as the last action. */
  lemma BelowMaxTail(id: string, timeout: Option<int>, env: Env)
    requires Cleared(id, env)
    requires GroupOf(env.view, id).value.curSize != GroupOf(env.view, id).value.maxSize
    ensures var group := GroupOf(env.view, id).value;
            var all := Rotation(id, timeout, env).actions;
            var launched := LaunchedWait(group, 1, timeout, env.launchPolls);
            Release(env, id) + [Increment] <= all
            && (|all| > |Release(env, id)| + 1 ==> env.increment && launched.Done?)
            && forall k :: |Release(env, id)| < k < |all| ==>
                 all[k].PutElastic? || all[k].PutSecondary? || (k == |all| - 1 && FinalTermination(group, id, timeout, env, all[k]))
  {
    var group := GroupOf(env.view, id).value;
    var eips := ElasticIps(env.view, id, env.addresses);
    var pips := SecondaryIps(env.view, id);
    var acts := Release(env, id) + [Increment];
    var all := Rotation(id, timeout, env).actions;
    ClearedStages(id, timeout, env);
    if env.increment {
      var launched := LaunchedWait(group, 1, timeout, env.launchPolls);
      assert all == Relaunched(group, id, timeout, env, pips, acts, eips, launched).actions;
      RelaunchedSpec(group, id, timeout, env, pips, acts, eips, launched);
    } else {
      assert all == acts;
    }
  }

  /** After the release and the capacity step, every put is on the first instance the
      launch wait reported. */
  lemma ReleasedPuts(group: GroupSnap, id: string, timeout: Option<int>, env: Env, eips: seq<ElasticIp>, pips: seq<SecondaryIp>)
    ensures var launched := LaunchedWait(group, 1, timeout, env.launchPolls);
            var acts := Released(group, id, timeout, env, eips, pips).actions;
            forall k :: 0 <= k < |acts| && (acts[k].PutElastic? || acts[k].PutSecondary?) ==>
              launched.Done? && launched.value != [] && acts[k].instanceId == launched.value[0]
  {
    var (c, cacts) := Capacity(group, id, env);
    TerminateCalls(env.view, id, false, false, None, env, []);
    var acts := Disassociations(eips) + Unassignments(pips) + cacts;
    assert forall k :: 0 <= k < |acts| ==> !(acts[k].PutElastic? || acts[k].PutSecondary?);
    RelaunchedSpec(group, id, timeout, env, pips, acts, eips, LaunchedWait(group, 1, timeout, env.launchPolls));
  }

  /** The addresses are put back on the new instance only: the first the launch wait
      found outside the old group. */
  lemma PutBacksOnNewInstance(id: string, timeout: Option<int>, env: Env)
    requires Cleared(id, env)
    ensures var group := GroupOf(env.view, id).value;
            var launched := LaunchedWait(group, 1, timeout, env.launchPolls);
            var acts := Rotation(id, timeout, env).actions;
            forall k :: 0 <= k < |acts| && (acts[k].PutElastic? || acts[k].PutSecondary?) ==>
              launched.Done? && launched.value != [] && acts[k].instanceId == launched.value[0]
              && !InGroup(group, acts[k].instanceId)
  {
    var group := GroupOf(env.view, id).value;
    ClearedStages(id, timeout, env);
    ReleasedPuts(group, id, timeout, env, ElasticIps(env.view, id, env.addresses), SecondaryIps(env.view, id));
    LaunchedWaitDone(group, 1, timeout, env.launchPolls);
    var launched := LaunchedWait(group, 1, timeout, env.launchPolls);
    if launched.Done? && launched.value != [] {
      assert launched.value[0] in launched.value;
    }
  }

  /** The secondary IPs a rotation could not put back are the old instance's that the
      first new instance refused. */
  lemma FailedAreRefused(id: string, timeout: Option<int>, env: Env)
    ensures var p := Rotation(id, timeout, env);
            p.failed != [] ==>
              Cleared(id, env)
              && var group := GroupOf(env.view, id).value;
                 var launched := LaunchedWait(group, 1, timeout, env.launchPolls);
                 launched.Done? && launched.value != []
                 && p.failed == PutSecondaries(env.after, env.assign, launched.value[0], SecondaryIps(env.view, id)).failed
  {
    if Cleared(id, env) {
      var group := GroupOf(env.view, id).value;
      var eips := ElasticIps(env.view, id, env.addresses);
      var pips := SecondaryIps(env.view, id);
      ClearedStages(id, timeout, env);
      var (c, cacts) := Capacity(group, id, env);
      var acts := Disassociations(eips) + Unassignments(pips) + cacts;
      RelaunchedSpec(group, id, timeout, env, pips, acts, eips, LaunchedWait(group, 1, timeout, env.launchPolls));
    }
  }

  /** The secondary IPs left over are exactly those the new instance refused, in order of
      the puts attempted. */
  lemma {:induction false} FailedSecondariesSpec(view: ServiceView, assign: (string, string) -> Reply, newId: string, pips: seq<SecondaryIp>)
    ensures |PutSecondaries(view, assign, newId, pips).failed| <= |PutSecondaries(view, assign, newId, pips).acts| <= |pips|
    ensures forall ip :: ip in PutSecondaries(view, assign, newId, pips).failed <==>
              exists k :: 0 <= k < |PutSecondaries(view, assign, newId, pips).acts|
                          && pips[k].ip == ip && PutSecondaryIp(view, assign, newId, ip) == Answer(false)
    decreases |pips|
  {
    if pips != [] {
      var tail := pips[1..];
      var a := PutSecondary(newId, pips[0].ip);
      var put := PutSecondaryIp(view, assign, newId, pips[0].ip);
      if put.Answer? {
        var rest := PutSecondaries(view, assign, newId, tail);
        FailedSecondariesSpec(view, assign, newId, tail);
        var refused := if put.ok then [] else [pips[0].ip];
        var s := PutSecondaries(view, assign, newId, pips);
        assert s == Puts([a] + rest.acts, refused + rest.failed, rest.raised);
        forall ip ensures ip in s.failed <==>
                          exists k :: 0 <= k < |s.acts| && pips[k].ip == ip && PutSecondaryIp(view, assign, newId, ip) == Answer(false)
        {
          if ip in s.failed {
            if ip in rest.failed {
              var k :| 0 <= k < |rest.acts| && tail[k].ip == ip && PutSecondaryIp(view, assign, newId, ip) == Answer(false);
              assert pips[k + 1] == tail[k];
            } else {
              assert ip == pips[0].ip;
            }
          }
          if exists k :: 0 <= k < |s.acts| && pips[k].ip == ip && PutSecondaryIp(view, assign, newId, ip) == Answer(false) {
            var k :| 0 <= k < |s.acts| && pips[k].ip == ip && PutSecondaryIp(view, assign, newId, ip) == Answer(false);
            if k > 0 {
              assert tail[k - 1] == pips[k];
            }
          }
        }
      }
    }
  }

  /** The elastic IPs are put back in order on the new instance, one put each; when the
      step succeeds every one was put. */
  lemma {:induction false} PutElasticsSpec(view: ServiceView, associate: (string, string, string) -> bool, newId: string, eips: seq<ElasticIp>)
    ensures |PutElastics(view, associate, newId, eips).1| <= |eips|
    ensures forall k :: 0 <= k < |PutElastics(view, associate, newId, eips).1| ==>
              PutElastics(view, associate, newId, eips).1[k] == PutElastic(newId, eips[k].allocationId)
    ensures PutElastics(view, associate, newId, eips).0 ==> |PutElastics(view, associate, newId, eips).1| == |eips|
    decreases |eips|
  {
    if eips != [] {
      var first := PutElastic(newId, eips[0].allocationId);
      if PutElasticIp(view, associate, newId, eips[0].allocationId) {
        var tail := eips[1..];
        var (rok, racts) := PutElastics(view, associate, newId, tail);
        PutElasticsSpec(view, associate, newId, tail);
        var acts := [first] + racts;
        assert PutElastics(view, associate, newId, eips) == (rok, acts);
        forall k | 0 <= k < |acts| ensures acts[k] == PutElastic(newId, eips[k].allocationId) {
          if k > 0 {
            assert acts[k] == racts[k - 1] && tail[k - 1] == eips[k];
          }
        }
      } else {
        assert PutElastics(view, associate, newId, eips) == (false, [first]);
      }
    }
  }

  /** The step succeeds exactly when every put succeeds; otherwise it stops right after
      the first put that failed. */
  lemma {:induction false} PutElasticsStops(view: ServiceView, associate: (string, string, string) -> bool, newId: string, eips: seq<ElasticIp>)
    ensures PutElastics(view, associate, newId, eips).0 <==>
              forall k :: 0 <= k < |eips| ==> PutElasticIp(view, associate, newId, eips[k].allocationId)
    ensures var (ok, acts) := PutElastics(view, associate, newId, eips);
            !ok ==>
              0 < |acts| <= |eips| && !PutElasticIp(view, associate, newId, eips[|acts| - 1].allocationId)
              && forall k :: 0 <= k < |acts| - 1 ==> PutElasticIp(view, associate, newId, eips[k].allocationId)
    decreases |eips|
  {
    if eips != [] {
      var first := PutElastic(newId, eips[0].allocationId);
      if PutElasticIp(view, associate, newId, eips[0].allocationId) {
        var tail := eips[1..];
        var (rok, racts) := PutElastics(view, associate, newId, tail);
        PutElasticsStops(view, associate, newId, tail);
        var acts := [first] + racts;
        assert PutElastics(view, associate, newId, eips) == (rok, acts);
        if rok {
          forall k | 0 <= k < |eips| ensures PutElasticIp(view, associate, newId, eips[k].allocationId) {
            if k > 0 {
              assert tail[k - 1] == eips[k];
            }
          }
        } else {
          var j := |racts| - 1;
          assert tail[j] == eips[|acts| - 1];
          forall k | 0 <= k < |acts| - 1 ensures PutElasticIp(view, associate, newId, eips[k].allocationId) {
            if k > 0 {
              assert tail[k - 1] == eips[k];
            }
          }
        }
      } else {
        assert PutElastics(view, associate, newId, eips) == (false, [first]);
      }
    }
  }

  /** The secondary IPs are put in order on the new instance, one put each; without a
      provider error every one is put. */
  lemma {:induction false} PutSecondariesSpec(view: ServiceView, assign: (string, string) -> Reply, newId: string, pips: seq<SecondaryIp>)
    ensures |PutSecondaries(view, assign, newId, pips).acts| <= |pips|
    ensures forall k :: 0 <= k < |PutSecondaries(view, assign, newId, pips).acts| ==>
              PutSecondaries(view, assign, newId, pips).acts[k] == PutSecondary(newId, pips[k].ip)
    ensures PutSecondaries(view, assign, newId, pips).raised.None? ==> |PutSecondaries(view, assign, newId, pips).acts| == |pips|
    decreases |pips|
  {
    if pips != [] {
      var tail := pips[1..];
      var a := PutSecondary(newId, pips[0].ip);
      var put := PutSecondaryIp(view, assign, newId, pips[0].ip);
      if put.Answer? {
        var rest := PutSecondaries(view, assign, newId, tail);
        PutSecondariesSpec(view, assign, newId, tail);
        var s := PutSecondaries(view, assign, newId, pips);
        assert s.acts == [a] + rest.acts && s.raised == rest.raised;
        forall k | 0 <= k < |s.acts| ensures s.acts[k] == PutSecondary(newId, pips[k].ip) {
          if k > 0 {
            assert s.acts[k] == rest.acts[k - 1] && tail[k - 1] == pips[k];
          }
        }
      } else {
        assert PutSecondaries(view, assign, newId, pips) == Puts([a], [], Some(put.code));
      }
    }
  }

  /** The loop raises exactly when some put raises, and then it stops right after the
      first put that raised, with that put's error. */
  lemma {:induction false} PutSecondariesRaise(view: ServiceView, assign: (string, string) -> Reply, newId: string, pips: seq<SecondaryIp>)
    ensures PutSecondaries(view, assign, newId, pips).raised.None? <==>
              forall k :: 0 <= k < |pips| ==> !PutSecondaryIp(view, assign, newId, pips[k].ip).Error?
    ensures var s := PutSecondaries(view, assign, newId, pips);
            s.raised.Some? ==>
              0 < |s.acts| <= |pips| && PutSecondaryIp(view, assign, newId, pips[|s.acts| - 1].ip) == Error(s.raised.value)
              && forall k :: 0 <= k < |s.acts| - 1 ==> !PutSecondaryIp(view, assign, newId, pips[k].ip).Error?
    decreases |pips|
  {
    if pips != [] {
      var tail := pips[1..];
      var a := PutSecondary(newId, pips[0].ip);
      var put := PutSecondaryIp(view, assign, newId, pips[0].ip);
      if put.Answer? {
        var rest := PutSecondaries(view, assign, newId, tail);
        PutSecondariesRaise(view, assign, newId, tail);
        var s := PutSecondaries(view, assign, newId, pips);
        assert s.acts == [a] + rest.acts && s.raised == rest.raised;
        if rest.raised.None? {
          forall k | 0 <= k < |pips| ensures !PutSecondaryIp(view, assign, newId, pips[k].ip).Error? {
            if k > 0 {
              assert pips[k] == tail[k - 1];
            }
          }
        } else {
          var j := |rest.acts| - 1;
          assert pips[j + 1] == tail[j];
          forall k | 0 <= k < |s.acts| - 1 ensures !PutSecondaryIp(view, assign, newId, pips[k].ip).Error? {
            if k > 0 {
              assert pips[k] == tail[k - 1];
            }
          }
        }
      } else {
        assert PutSecondaries(view, assign, newId, pips) == Puts([a], [], Some(put.code));
      }
    }
  }

  // ---------------------------------------------------------------------------
  // The loops of rotate_instance

  /** The disassociation and unassignment loops. */
  method ReleaseAddresses(eips: seq<ElasticIp>, pips: seq<SecondaryIp>) returns (acts: seq<Action>)
    ensures acts == Disassociations(eips) + Unassignments(pips)
  {
    acts := [];
    for k := 0 to |eips|
      invariant acts == Disassociations(eips[..k])
    {
      acts := acts + [Disassociate(eips[k].associationId)];
    }
    assert eips[..|eips|] == eips;
    ghost var first := acts;
    for k := 0 to |pips|
      invariant acts == first + Unassignments(pips[..k])
    {
      acts := acts + [Unassign(pips[k].interfaceId, pips[k].ip)];
    }
    assert pips[..|pips|] == pips;
  }

  method CapacityStep(group: GroupSnap, id: string, env: Env) returns (outcome: Outcome, acts: seq<Action>)
    ensures (outcome, acts) == Capacity(group, id, env)
  {
    if group.curSize == group.maxSize {
      outcome, acts := TerminateStep(env.view, id, false, false, None, env);
    } else {
      outcome, acts := Returned(env.increment), [Increment];
    }
  }

  /** The put-back loop of the elastic IPs, which returns at the first failure. */
  method PutElasticLoop(view: ServiceView, associate: (string, string, string) -> bool, newId: string, eips: seq<ElasticIp>)
      returns (ok: bool, acts: seq<Action>)
    ensures (ok, acts) == PutElastics(view, associate, newId, eips)
  {
    acts := [];
    var k := 0;
    assert eips[0..] == eips;
    ThenEmpty(PutElastics(view, associate, newId, eips));
    while k < |eips|
      invariant k <= |eips|
      invariant PutElastics(view, associate, newId, eips) == Then(acts, PutElastics(view, associate, newId, eips[k..]))
    {
      var a := PutElastic(newId, eips[k].allocationId);
      var put := PutElasticIp(view, associate, newId, eips[k].allocationId);
      PutElasticsUnfold(view, associate, newId, eips[k..]);
      assert eips[k..][0] == eips[k] && eips[k..][1..] == eips[k + 1..];
      ghost var rest := PutElastics(view, associate, newId, eips[k + 1..]);
      ThenThen(acts, [a], rest);
      acts := acts + [a];
      if !put {
        return false, acts;
      }
      k := k + 1;
    }
    assert eips[|eips|..] == [];
    assert PutElastics(view, associate, newId, eips[k..]) == (true, []);
    assert acts + [] == acts;
    return true, acts;
  }

  /** A put-back result after earlier successful puts. */
  function Then(acts: seq<Action>, r: (bool, seq<Action>)): (bool, seq<Action>)
  {
    (r.0, acts + r.1)
  }

  lemma ThenEmpty(r: (bool, seq<Action>))
    ensures Then([], r) == r
  {
    assert [] + r.1 == r.1;
  }

  lemma ThenThen(a: seq<Action>, b: seq<Action>, r: (bool, seq<Action>))
    ensures Then(a, Then(b, r)) == Then(a + b, r)
  {
    assert a + (b + r.1) == a + b + r.1;
  }

  lemma PutElasticsUnfold(view: ServiceView, associate: (string, string, string) -> bool, newId: string, eips: seq<ElasticIp>)
    requires eips != []
    ensures var a := PutElastic(newId, eips[0].allocationId);
            PutElastics(view, associate, newId, eips)
            == if PutElasticIp(view, associate, newId, eips[0].allocationId)
               then Then([a], PutElastics(view, associate, newId, eips[1..])) else (false, [a])
  {
  }

  /** The full launch wait, then the final termination. */
  method FinishStep(group: GroupSnap, id: string, timeout: Option<int>, env: Env, acts: seq<Action>, ghost failed: seq<string>)
      returns (outcome: Outcome, actions: seq<Action>)
    ensures Plan(outcome, actions, failed)
            == Finalized(group, id, timeout, env, acts, failed, WaitLaunch(group, Remaining(timeout, env.launchElapsed), env.fullLaunch))
  {
    var full := AwaitLaunch(group, Remaining(timeout, env.launchElapsed), env.fullLaunch);
    actions := acts;
    if full.Fail? {
      return Returned(false), actions;
    }
    if full.Pending? {
      return Waiting, actions;
    }
    if group.curSize == group.maxSize {
      return Returned(true), actions;
    }
    var tacts;
    outcome, tacts := TerminateStep(env.after, id, true, true, Remaining(timeout, env.terminateElapsed), env);
    actions := actions + tacts;
  }

  // ---------------------------------------------------------------------------
  // rotate (billowRotate.py:902-932)

  /** The batch so far: rotations that failed, the secondary IPs not put back, and the
      outcome that stopped the batch, if any. */
  datatype Progress = Progress(errors: nat, failures: seq<string>, stop: Option<Outcome>)

  /** No time left on the batch's clock before the k-th rotation. */
  predicate Aborts(timeout: Option<int>, clock: nat -> int, k: nat)
  {
    Active(timeout) && WaitTimeout(timeout.value, clock(k)) == 0
  }

  /** One rotation's effect on the batch: a failure counts, an exception or a wait whose
      polls ran out stops the batch. */
  function Step(p: Progress, plan: Plan): Progress
  {
    Progress(p.errors + (if plan.outcome == Returned(false) then 1 else 0),
             p.failures + plan.failed,
             if plan.outcome.Raised? || plan.outcome.Waiting? then Some(plan.outcome) else None)
  }

  /** What rotating the k-th instance gives, for each k and instance id. */
  type Rotations = (nat, string) -> Plan

  /** rotate_instance with the batch's whole timeout, in the k-th rotation's environment. */
  function RotationsOf(timeout: Option<int>, envs: nat -> Env): Rotations
  {
    (k: nat, id: string) => Rotation(id, timeout, envs(k))
  }

  /** Rotating ids[k..]. */
  function RunFrom(ids: seq<string>, k: nat, timeout: Option<int>, rotations: Rotations, clock: nat -> int, p: Progress): Progress
    decreases |ids| - k
  {
    if k >= |ids| || p.stop.Some? then p
    else if Aborts(timeout, clock, k) then p.(stop := Some(Returned(false)))
    else RunFrom(ids, k + 1, timeout, rotations, clock, Step(p, rotations(k, ids[k])))
  }

  /** The end of rotate: a batch that ran to the end tries to repair the left-over
      secondary IPs and succeeds when nothing failed and nothing is left; a provider
      error of the repair propagates. */
  function Finish(p: Progress, finalView: ServiceView, assign: (string, string) -> Reply): (Outcome, seq<string>)
  {
    if p.stop.Some? then (p.stop.value, p.failures)
    else
      var r := if p.failures == [] then Repaired([], None) else Repair(finalView, assign, p.failures, Slots(finalView));
      if r.raised.Some? then (Raised(r.raised.value), r.left)
      else (Returned(p.errors + |r.left| == 0), r.left)
  }

  /** rotate over the ids: its outcome and the secondary IPs left over. */
  function Batch(ids: seq<string>, timeout: Option<int>, envs: nat -> Env, clock: nat -> int, failures: seq<string>,
                 finalView: ServiceView, assign: (string, string) -> Reply): (Outcome, seq<string>)
  {
    Finish(RunFrom(ids, 0, timeout, RotationsOf(timeout, envs), clock, Progress(0, failures, None)), finalView, assign)
  }

  /** The k-th rotation goes ahead and succeeds. */
  predicate Rotates(ids: seq<string>, timeout: Option<int>, rotations: Rotations, clock: nat -> int, k: nat)
    requires k < |ids|
  {
    !Aborts(timeout, clock, k) && rotations(k, ids[k]).outcome == Returned(true)
  }

  /** A run never forgets a failure or a stop. */
  lemma {:induction false} RunFromErrors(ids: seq<string>, k: nat, timeout: Option<int>, rotations: Rotations, clock: nat -> int, p: Progress)
    ensures var r := RunFrom(ids, k, timeout, rotations, clock, p);
            r.errors >= p.errors && (p.stop.Some? ==> r == p) && (r.stop.None? ==> p.stop.None?)
    decreases |ids| - k
  {
    if k < |ids| && p.stop.None? && !Aborts(timeout, clock, k) {
      RunFromErrors(ids, k + 1, timeout, rotations, clock, Step(p, rotations(k, ids[k])));
    }
  }

  /** A run from a clean record keeps it exactly when every remaining rotation goes ahead
      and succeeds. */
  lemma {:induction false} RunFromClean(ids: seq<string>, k: nat, timeout: Option<int>, rotations: Rotations, clock: nat -> int, failures: seq<string>)
    requires k <= |ids|
    ensures var r := RunFrom(ids, k, timeout, rotations, clock, Progress(0, failures, None));
            r.stop.None? && r.errors == 0 <==> forall j :: k <= j < |ids| ==> Rotates(ids, timeout, rotations, clock, j)
    decreases |ids| - k
  {
    if k < |ids| {
      if Aborts(timeout, clock, k) {
        assert !Rotates(ids, timeout, rotations, clock, k);
      } else {
        var plan := rotations(k, ids[k]);
        var q := Step(Progress(0, failures, None), plan);
        if plan.outcome == Returned(true) {
          assert q == Progress(0, failures + plan.failed, None);
          RunFromClean(ids, k + 1, timeout, rotations, clock, failures + plan.failed);
        } else {
          RunFromErrors(ids, k + 1, timeout, rotations, clock, q);
          assert !Rotates(ids, timeout, rotations, clock, k);
        }
      }
    }
  }

  /** A stop is an abort, an exception or a wait that ran out: never a success. */
  lemma {:induction false} RunFromStops(ids: seq<string>, k: nat, timeout: Option<int>, rotations: Rotations, clock: nat -> int, p: Progress)
    requires p.stop.None?
    ensures var r := RunFrom(ids, k, timeout, rotations, clock, p);
            r.stop.Some? ==> r.stop.value == Returned(false) || r.stop.value.Raised? || r.stop.value.Waiting?
    decreases |ids| - k
  {
    if k < |ids| && !Aborts(timeout, clock, k) {
      var q := Step(p, rotations(k, ids[k]));
      if q.stop.None? {
        RunFromStops(ids, k + 1, timeout, rotations, clock, q);
      }
    }
  }

  /** rotate succeeds exactly when every rotation went ahead and succeeded and no
      secondary IP is left over after the repair pass. */
  lemma BatchSucceeds(ids: seq<string>, timeout: Option<int>, envs: nat -> Env, clock: nat -> int, failures: seq<string>,
                      finalView: ServiceView, assign: (string, string) -> Reply)
    ensures var (outcome, left) := Batch(ids, timeout, envs, clock, failures, finalView, assign);
            outcome == Returned(true) <==>
              (forall j :: 0 <= j < |ids| ==> Rotates(ids, timeout, RotationsOf(timeout, envs), clock, j)) && left == []
  {
    var rotations := RotationsOf(timeout, envs);
    RunFromClean(ids, 0, timeout, rotations, clock, failures);
    RunFromStops(ids, 0, timeout, rotations, clock, Progress(0, failures, None));
    var r := RunFrom(ids, 0, timeout, rotations, clock, Progress(0, failures, None));
    if r.stop.None? && r.failures != [] {
      RepairRaises(finalView, assign, r.failures, Slots(finalView));
    }
  }

  /** rotate raises out of the repair pass only with a provider error other than
      InvalidParameterValue, from a put of a left-over address on the first interface of
      an instance that has a free interface. */
  lemma FinishRaises(p: Progress, finalView: ServiceView, assign: (string, string) -> Reply)
    requires p.stop.None?
    ensures var (outcome, left) := Finish(p, finalView, assign);
            outcome.Raised? ==>
              outcome.error != "InvalidParameterValue" && left != []
              && exists k, x :: 0 <= k < |Slots(finalView)| && x in p.failures
                                && PutSecondaryIp(finalView, assign, Slots(finalView)[k], x) == Error(outcome.error)
  {
    if p.failures != [] {
      var slots := Slots(finalView);
      RepairRaises(finalView, assign, p.failures, slots);
      var r := Repair(finalView, assign, p.failures, slots);
      if r.raised.Some? {
        var k, x :| 0 <= k < |slots| && x in p.failures && PutSecondaryIp(finalView, assign, slots[k], x) == Error(r.raised.value);
        PutAddressSpec(finalView, (a: string, b: string, c: string) => false, assign, slots[k], "", x);
      }
    }
  }

  /** With no time left before the first rotation, rotate fails at once: nothing is rotated
      and no repair is tried. */
  lemma BatchAbortsAtOnce(ids: seq<string>, timeout: Option<int>, envs: nat -> Env, clock: nat -> int, failures: seq<string>,
                          finalView: ServiceView, assign: (string, string) -> Reply)
    requires |ids| > 0 && Aborts(timeout, clock, 0)
    ensures Batch(ids, timeout, envs, clock, failures, finalView, assign) == (Returned(false), failures)
  {
  }

  /** The batch keeps the earlier left-over secondary IPs in front of its own, and counts
      at most one failure per rotation. */
  lemma {:induction false} RunFromFailures(ids: seq<string>, k: nat, timeout: Option<int>, rotations: Rotations, clock: nat -> int, p: Progress)
    requires k <= |ids|
    ensures p.failures <= RunFrom(ids, k, timeout, rotations, clock, p).failures
    ensures RunFrom(ids, k, timeout, rotations, clock, p).errors <= p.errors + (|ids| - k)
    decreases |ids| - k
  {
    if k < |ids| && p.stop.None? && !Aborts(timeout, clock, k) {
      var q := Step(p, rotations(k, ids[k]));
      RunFromFailures(ids, k + 1, timeout, rotations, clock, q);
    }
  }

  // ---------------------------------------------------------------------------
  // The rotator's state

  /** A rotator of one service: its rotation order and the secondary IPs that rotations
      could not put back. */
  class Rotator {
    const service: ServiceView
    var instances: seq<string>
    var failures: seq<string>

    constructor(service: ServiceView)
      ensures this.service == service && instances == [] && failures == []
    {
      this.service := service;
      instances := [];
      failures := [];
    }

    /** order: the degraded instances first, then the groups' healthy ones interleaved. */
    method Order() returns (ids: seq<string>)
      modifies this`instances
      ensures ids == Ordering.Order(service) && instances == ids
    {
      var unhealthy := UnhealthyPass(service.groups);
      var degraded := OutOfServicePass(service.balancers, unhealthy);
      UnionAllAppend([], UnhealthyLists(service.groups), OutOfServiceLists(service.balancers));
      assert degraded == Degraded(service);
      var lists := HealthyPass(service.groups, degraded);
      var healthy := Interleave(lists);
      instances := degraded + healthy;
      ids := instances;
    }

    /** safety: the warnings about the service's redundancy. */
    method SafetyCheck() returns (warnings: seq<Safety.Warning>)
      ensures warnings == Safety.Warnings(service)
    {
      warnings := Safety.CheckService(service);
    }

    /** rotate_instance: the secondary IPs the new instance refuses are remembered. */
    method RotateInstance(id: string, timeout: Option<int>, env: Env) returns (outcome: Outcome, actions: seq<Action>)
      modifies this`failures
      ensures old(failures) <= failures
      ensures Plan(outcome, actions, failures[|old(failures)|..]) == Rotation(id, timeout, env)
    {
      var found := FindGroup(env.view.groups, id);
      if found.None? {
        return Returned(false), [];
      }
      var group := env.view.groups[found.value];
      if group.settings.rotate == Some(false) {
        return Returned(true), [];
      }
      var notified := NotifyTerminate(group, id, env.notifyAnswer);
      if notified != Returned(true) {
        return notified, [];
      }
      var status := WaitNotify(group, id, env.statusAnswer);
      if status != Returned(true) {
        return status, [];
      }
      var eips, _ := GetElasticIps(env.view, id, env.addresses);
      var pips := GetSecondaryIps(env.view, id);
      assert Rotation(id, timeout, env) == Released(group, id, timeout, env, eips, pips);
      outcome, actions := Replace(group, id, timeout, env, eips, pips);
    }

    /** The release of the addresses, the capacity step and the launch wait. */
    method Replace(group: GroupSnap, id: string, timeout: Option<int>, env: Env, eips: seq<ElasticIp>, pips: seq<SecondaryIp>)
        returns (outcome: Outcome, actions: seq<Action>)
      modifies this`failures
      ensures old(failures) <= failures
      ensures Plan(outcome, actions, failures[|old(failures)|..]) == Released(group, id, timeout, env, eips, pips)
    {
      actions := ReleaseAddresses(eips, pips);
      var capacity, cacts := CapacityStep(group, id, env);
      actions := actions + cacts;
      if capacity != Returned(true) {
        assert failures[|old(failures)|..] == [];
        return capacity, actions;
      }
      var launched := AwaitLaunched(group, 1, timeout, env.launchPolls);
      if launched.Fail? || (launched.Done? && launched.value == []) {
        assert failures[|old(failures)|..] == [];
        return Returned(false), actions;
      }
      if launched.Pending? {
        assert failures[|old(failures)|..] == [];
        return Waiting, actions;
      }
      outcome, actions := PutBack(group, id, timeout, env, pips, actions, eips, launched.value[0]);
    }

    /** The put-backs on the new instance: the elastic IPs, stopping at the first refused,
        then every secondary IP, remembering those refused; then the last stage. */
    method PutBack(group: GroupSnap, id: string, timeout: Option<int>, env: Env, pips: seq<SecondaryIp>, acts: seq<Action>,
                   eips: seq<ElasticIp>, newId: string) returns (outcome: Outcome, actions: seq<Action>)
      modifies this`failures
      ensures old(failures) <= failures
      ensures Plan(outcome, actions, failures[|old(failures)|..]) == Restored(group, id, timeout, env, pips, acts, eips, newId)
    {
      var ok, pacts := PutElasticLoop(env.after, env.associate, newId, eips);
      actions := acts + pacts;
      if !ok {
        assert failures[|old(failures)|..] == [];
        return Returned(false), actions;
      }
      var sacts, raised := PutSecondaryLoop(env.after, env.assign, newId, pips);
      ghost var failed := failures[|old(failures)|..];
      if raised.Some? {
        return Raised(raised.value), actions + sacts;
      }
      outcome, actions := FinishStep(group, id, timeout, env, actions + sacts, failed);
    }

    /** The secondary IP loop: every address is tried in order and those refused are
        remembered, until a provider error propagates out of it. */
    method PutSecondaryLoop(view: ServiceView, assign: (string, string) -> Reply, newId: string, pips: seq<SecondaryIp>)
        returns (acts: seq<Action>, raised: Option<string>)
      modifies this`failures
      ensures old(failures) <= failures
      ensures Puts(acts, failures[|old(failures)|..], raised) == PutSecondaries(view, assign, newId, pips)
    {
      acts := [];
      ghost var failed: seq<string> := [];
      assert pips[0..] == pips;
      AfterEmpty(PutSecondaries(view, assign, newId, pips));
      for k := 0 to |pips|
        invariant failures == old(failures) + failed
        invariant After(acts, failed, PutSecondaries(view, assign, newId, pips[k..])) == PutSecondaries(view, assign, newId, pips)
      {
        SecondariesStep(view, assign, newId, pips, k);
        var a := PutSecondary(newId, pips[k].ip);
        var put := PutSecondaryIp(view, assign, newId, pips[k].ip);
        if put.Error? {
          assert failed + [] == failed;
          assert failures[|old(failures)|..] == failed;
          return acts + [a], Some(put.code);
        }
        var refused: seq<string> := if put.ok then [] else [pips[k].ip];
        AfterAfter(acts, failed, [a], refused, PutSecondaries(view, assign, newId, pips[k + 1..]));
        AppendAssoc(old(failures), failed, refused);
        acts := acts + [a];
        failed := failed + refused;
        failures := failures + refused;
      }
      assert pips[|pips|..] == [];
      assert acts + [] == acts && failed + [] == failed;
      assert failures[|old(failures)|..] == failed;
      raised := None;
    }

    /** finalize_secondaryip: for each free interface of each instance, the left-over
        addresses are put on the instance's first interface until the provider accepts one;
        the pass ends early once nothing is left, and a provider error propagates out of it. */
    method FinalizeSecondaryIp(view: ServiceView, assign: (string, string) -> Reply) returns (raised: Option<string>)
      modifies this`failures
      ensures Repaired(failures, raised) == Repair(view, assign, old(failures), Slots(view))
    {
      var gs := view.groups;
      for g := 0 to |gs|
        invariant Repair(view, assign, failures, GroupSlots(gs[g..])) == Repair(view, assign, old(failures), GroupSlots(gs))
      {
        assert gs[g..][1..] == gs[g + 1..];
        RepairAppend(view, assign, failures, MemberSlots(gs[g].members), GroupSlots(gs[g + 1..]));
        raised := RepairMembers(view, assign, gs[g].members);
        if raised.Some? {
          return;
        }
      }
      assert gs[|gs|..] == [];
      raised := None;
    }

    /** The instances of one group. */
    method RepairMembers(view: ServiceView, assign: (string, string) -> Reply, ms: seq<Member>) returns (raised: Option<string>)
      modifies this`failures
      ensures Repaired(failures, raised) == Repair(view, assign, old(failures), MemberSlots(ms))
    {
      for i := 0 to |ms|
        invariant Repair(view, assign, failures, MemberSlots(ms[i..])) == Repair(view, assign, old(failures), MemberSlots(ms))
      {
        assert ms[i..][1..] == ms[i + 1..];
        if failures == [] {
          RepairNothing(view, assign, MemberSlots(ms[i..]));
          return None;
        }
        RepairAppend(view, assign, failures, FreeIn(ms[i].id, ms[i].interfaces), MemberSlots(ms[i + 1..]));
        raised := RepairInterfaces(view, assign, ms[i].id, ms[i].interfaces);
        if raised.Some? {
          return;
        }
      }
      assert ms[|ms|..] == [];
      raised := None;
    }

    /** The interfaces of one instance: each free one triggers one round of puts on the
        instance's first interface. */
    method RepairInterfaces(view: ServiceView, assign: (string, string) -> Reply, id: string, ifs: seq<NetIf>)
        returns (raised: Option<string>)
      modifies this`failures
      ensures Repaired(failures, raised) == Repair(view, assign, old(failures), FreeIn(id, ifs))
    {
      for j := 0 to |ifs|
        invariant Repair(view, assign, failures, FreeIn(id, ifs[j..])) == Repair(view, assign, old(failures), FreeIn(id, ifs))
      {
        assert ifs[j..][0] == ifs[j] && ifs[j..][1..] == ifs[j + 1..];
        if Free(ifs[j]) {
          var rest := FreeIn(id, ifs[j + 1..]);
          assert FreeIn(id, ifs[j..]) == [id] + rest;
          assert ([id] + rest)[0] == id && ([id] + rest)[1..] == rest;
          raised := RepairOne(view, assign, id);
          if raised.Some? {
            return;
          }
        } else {
          assert FreeIn(id, ifs[j..]) == FreeIn(id, ifs[j + 1..]);
        }
      }
      assert ifs[|ifs|..] == [];
      raised := None;
    }

    /** One free interface: put the addresses in order on the instance's first interface
        and remove the first accepted; a provider error propagates with the list as it was. */
    method RepairOne(view: ServiceView, assign: (string, string) -> Reply, id: string) returns (raised: Option<string>)
      modifies this`failures
      ensures Repaired(failures, raised) == RepairSlot(view, assign, old(failures), id)
    {
      for k := 0 to |failures|
        invariant forall j :: 0 <= j < k ==> PutSecondaryIp(view, assign, id, failures[j]) == Answer(false)
      {
        var put := PutSecondaryIp(view, assign, id, failures[k]);
        if put.Error? {
          RaisedAt(view, assign, failures, id, k);
          return Some(put.code);
        }
        if put.ok {
          RemoveTaken(view, assign, failures, id, k);
          failures := Util.RemoveFirst(failures, failures[k]);
          return None;
        }
      }
      NoneTaken(view, assign, failures, id);
      raised := None;
    }

    /** rotate: the instances in rotation order, each with the whole timeout, aborting
        once the batch's clock runs out; then the repair pass over the left-over secondary
        IPs, which count as failures. */
    method Rotate(timeout: Option<int>, envs: nat -> Env, clock: nat -> int, finalView: ServiceView,
                  assign: (string, string) -> Reply) returns (outcome: Outcome)
      modifies this
      ensures instances == Ordering.Order(service)
      ensures (outcome, failures) == Batch(instances, timeout, envs, clock, old(failures), finalView, assign)
    {
      var ids := Order();
      var errors, stop := RunRotations(ids, timeout, envs, clock);
      if stop.Some? {
        return stop.value;
      }
      if failures != [] {
        var raised := FinalizeSecondaryIp(finalView, assign);
        if raised.Some? {
          return Raised(raised.value);
        }
      }
      outcome := Returned(errors + |failures| == 0);
    }

    /** rotate's loop over the order: each instance is rotated unless the clock ran out;
        a failure is counted, an exception or a wait without an answer ends the loop. */
    method RunRotations(ids: seq<string>, timeout: Option<int>, envs: nat -> Env, clock: nat -> int)
        returns (errors: nat, stop: Option<Outcome>)
      modifies this`failures
      ensures Progress(errors, failures, stop) == RunFrom(ids, 0, timeout, RotationsOf(timeout, envs), clock, Progress(0, old(failures), None))
    {
      ghost var rotations := RotationsOf(timeout, envs);
      ghost var whole := RunFrom(ids, 0, timeout, rotations, clock, Progress(0, failures, None));
      errors := 0;
      for k := 0 to |ids|
        invariant RunFrom(ids, k, timeout, rotations, clock, Progress(errors, failures, None)) == whole
      {
        if Aborts(timeout, clock, k) {
          return errors, Some(Returned(false));
        }
        ghost var start := Progress(errors, failures, None);
        var rotated, _ := RotateInstance(ids[k], timeout, envs(k));
        ghost var plan := Rotation(ids[k], timeout, envs(k));
        assert rotations(k, ids[k]) == plan;
        assert failures == start.failures + plan.failed;
        if rotated.Raised? || rotated.Waiting? {
          assert RunFrom(ids, k + 1, timeout, rotations, clock, Step(start, plan)) == Step(start, plan);
          return errors, Some(rotated);
        }
        if rotated == Returned(false) {
          errors := errors + 1;
        }
        assert Progress(errors, failures, None) == Step(start, plan);
      }
      stop := None;
    }
  }
}
