/** aws.wrap: the retry loop with rate-limit backoff around one provider call.
    The call is a function from the attempt number (1, 2, ...) to its reply, and the
    sleeps are returned as a trace instead of being slept. */
module Aws {
  import opened Wrappers

  /** What one attempt of the provider call gives: a value or a BotoServerError code. */
  datatype Reply<T> = Value(v: T) | ServerError(code: string)

  /** What wrap gives its caller: the call's value, or the re-raised error code. */
  datatype Outcome<T> = Returned(v: T) | Raised(code: string)

  /** The two error codes that are retried. */
  predicate Transient(code: string)
  {
    code == "Throttling" || code == "ServiceUnavailable"
  }

  /** How far a delay is below the maximum. */
  function Room(delay: nat, maxDelay: nat): nat
  {
    if delay >= maxDelay then 0 else maxDelay - delay
  }

  /** Decreases on each retry: 0 goes to 1, and a delay below the maximum doubles. */
  function Measure(delay: nat, maxDelay: nat): nat
  {
    if delay == 0 then Room(1, maxDelay) + 1 else Room(delay, maxDelay)
  }

  /** The delay after a failed attempt with the given error code, or None when the error
      is re-raised (aws.py:66-91). */
  function Backoff(delay: nat, maxDelay: nat, code: string): (r: Option<nat>)
    ensures r.Some? <==> Transient(code) && (delay == 0 || delay < maxDelay)
    ensures r.Some? && delay == 0 ==> r.value == 1
    ensures r.Some? && delay > 0 ==> r.value == 2 * delay
    ensures r.Some? ==> Measure(r.value, maxDelay) < Measure(delay, maxDelay)
  {
    if !Transient(code) then None
    else if delay == 0 then Some(1)
    else if delay < maxDelay then Some(delay * 2)
    else None
  }

  /** The delay after a successful attempt: halved (integer division) when positive. */
  function AfterSuccess(delay: nat): (d: nat)
    ensures delay > 0 ==> d == delay / 2
    ensures delay == 0 ==> d == 0
  {
    if delay > 0 then delay / 2 else delay
  }

  /** The sleep taken before an attempt: only when the delay is positive. */
  function SleepBefore(delay: nat): (s: seq<nat>)
    ensures delay > 0 ==> s == [delay]
    ensures delay == 0 ==> s == []
  {
    if delay > 0 then [delay] else []
  }

  datatype Run<T> = Run(outcome: Outcome<T>, delay: nat, sleeps: seq<nat>)

  /** The sleeps of earlier attempts put in front of a run. */
  function After<T>(before: seq<nat>, r: Run<T>): Run<T>
  {
    Run(r.outcome, r.delay, before + r.sleeps)
  }

  /** wrap from attempt `attempt` on with the current delay: the outcome, the final delay
      and the sleeps taken. */
  function Wrapped<T>(delay: nat, maxDelay: nat, call: nat -> Reply<T>, attempt: nat): Run<T>
    decreases Measure(delay, maxDelay)
  {
    match call(attempt)
    case Value(v) => Run(Returned(v), AfterSuccess(delay), SleepBefore(delay))
    case ServerError(code) =>
      match Backoff(delay, maxDelay, code)
      case None => Run(Raised(code), delay, SleepBefore(delay))
      case Some(d) => After(SleepBefore(delay), Wrapped(d, maxDelay, call, attempt + 1))
  }

  class Client {
    var rateLimitDelay: nat
    var rateLimitMaxDelay: nat

    /** aws(delay=0, maxdelay=16) holds the two values given. */
    constructor (delay: nat, maxDelay: nat)
      ensures rateLimitDelay == delay && rateLimitMaxDelay == maxDelay
    {
      rateLimitDelay := delay;
      rateLimitMaxDelay := maxDelay;
    }

    /** wrap(awsfunc): attempt the call until it returns or its error is re-raised,
        backing off on Throttling and ServiceUnavailable (aws.py:46-91). */
    method Wrap<T>(call: nat -> Reply<T>) returns (outcome: Outcome<T>, sleeps: seq<nat>)
      modifies this`rateLimitDelay
      ensures Run(outcome, rateLimitDelay, sleeps) == Wrapped(old(rateLimitDelay), rateLimitMaxDelay, call, 1)
    {
      var attempts := 0;
      sleeps := [];
      assert After([], Wrapped(rateLimitDelay, rateLimitMaxDelay, call, 1)) == Wrapped(rateLimitDelay, rateLimitMaxDelay, call, 1);
      while true
        invariant After(sleeps, Wrapped(rateLimitDelay, rateLimitMaxDelay, call, attempts + 1))
                  == Wrapped(old(rateLimitDelay), rateLimitMaxDelay, call, 1)
        decreases Measure(rateLimitDelay, rateLimitMaxDelay)
      {
        attempts := attempts + 1;
        ghost var before := sleeps;
        ghost var delay := rateLimitDelay;
        if rateLimitDelay > 0 {
          sleeps := sleeps + [rateLimitDelay];
        }
        assert sleeps == before + SleepBefore(delay);
        var reply := call(attempts);
        match reply
        case Value(v) =>
          if rateLimitDelay > 0 {
            rateLimitDelay := rateLimitDelay / 2;
          }
          return Returned(v), sleeps;
        case ServerError(code) =>
          if (code == "Throttling" || code == "ServiceUnavailable") && rateLimitDelay == 0 {
            rateLimitDelay := 1;
          } else if (code == "Throttling" || code == "ServiceUnavailable") && rateLimitDelay < rateLimitMaxDelay {
            rateLimitDelay := rateLimitDelay * 2;
          } else {
            return Raised(code), sleeps;
          }
          AfterAfter(before, SleepBefore(delay), Wrapped(rateLimitDelay, rateLimitMaxDelay, call, attempts + 1));
      }
    }
  }

  lemma AfterAfter<T>(a: seq<nat>, b: seq<nat>, r: Run<T>)
    ensures After(a, After(b, r)) == After(a + b, r)
  {
    assert a + (b + r.sleeps) == a + b + r.sleeps;
  }

  /** A successful attempt halves a positive delay; the wrapper slept before it only
      when the delay was positive (aws.py:56-64). */
  lemma SuccessHalves<T>(delay: nat, maxDelay: nat, call: nat -> Reply<T>, attempt: nat)
    requires call(attempt).Value?
    ensures Wrapped(delay, maxDelay, call, attempt).outcome == Returned(call(attempt).v)
    ensures delay > 0 ==> Wrapped(delay, maxDelay, call, attempt).delay == delay / 2
                          && Wrapped(delay, maxDelay, call, attempt).sleeps == [delay]
    ensures delay == 0 ==> Wrapped(delay, maxDelay, call, attempt).delay == 0
                           && Wrapped(delay, maxDelay, call, attempt).sleeps == []
  {
  }

  /** A Throttling or ServiceUnavailable error with no delay sets the delay to 1 and
      retries with the next attempt, having slept nothing (aws.py:67-71, 80-84). */
  lemma TransientFromZero<T>(maxDelay: nat, call: nat -> Reply<T>, attempt: nat)
    requires call(attempt).ServerError? && Transient(call(attempt).code)
    ensures Wrapped(0, maxDelay, call, attempt) == Wrapped(1, maxDelay, call, attempt + 1)
  {
    var rest := Wrapped(1, maxDelay, call, attempt + 1);
    assert [] + rest.sleeps == rest.sleeps;
  }

  /** Below the maximum, such an error doubles the delay and retries after sleeping the
      old delay (aws.py:72-75, 85-87). */
  lemma TransientDoubles<T>(delay: nat, maxDelay: nat, call: nat -> Reply<T>, attempt: nat)
    requires call(attempt).ServerError? && Transient(call(attempt).code)
    requires 0 < delay < maxDelay
    ensures Wrapped(delay, maxDelay, call, attempt) == After([delay], Wrapped(2 * delay, maxDelay, call, attempt + 1))
  {
  }

  /** At or above the maximum the error is re-raised and the delay kept (aws.py:76-77, 88-89). */
  lemma TransientAtMax<T>(delay: nat, maxDelay: nat, call: nat -> Reply<T>, attempt: nat)
    requires call(attempt).ServerError? && Transient(call(attempt).code)
    requires delay > 0 && delay >= maxDelay
    ensures Wrapped(delay, maxDelay, call, attempt) == Run(Raised(call(attempt).code), delay, [delay])
  {
  }

  /** ServiceUnavailable follows exactly the delay rules of Throttling. */
  lemma ServiceUnavailableLikeThrottling<T>(delay: nat, maxDelay: nat, call: nat -> Reply<T>, other: nat -> Reply<T>, attempt: nat)
    requires call(attempt) == ServerError("ServiceUnavailable") && other(attempt) == ServerError("Throttling")
    requires forall k :: k != attempt ==> call(k) == other(k)
    ensures Wrapped(delay, maxDelay, call, attempt).delay == Wrapped(delay, maxDelay, other, attempt).delay
    ensures Wrapped(delay, maxDelay, call, attempt).sleeps == Wrapped(delay, maxDelay, other, attempt).sleeps
    ensures Wrapped(delay, maxDelay, call, attempt).outcome.Returned?
            == Wrapped(delay, maxDelay, other, attempt).outcome.Returned?
  {
    match Backoff(delay, maxDelay, "Throttling")
    case None =>
    case Some(d) => SameAfter(d, maxDelay, call, other, attempt + 1);
  }

  /** Two calls that agree from an attempt on give the same run from there. */
  lemma {:induction false} SameAfter<T>(delay: nat, maxDelay: nat, call: nat -> Reply<T>, other: nat -> Reply<T>, attempt: nat)
    requires forall k :: k >= attempt ==> call(k) == other(k)
    ensures Wrapped(delay, maxDelay, call, attempt) == Wrapped(delay, maxDelay, other, attempt)
    decreases Measure(delay, maxDelay)
  {
    assert call(attempt) == other(attempt);
    match call(attempt)
    case Value(_) =>
    case ServerError(code) =>
      match Backoff(delay, maxDelay, code)
      case None =>
      case Some(d) => SameAfter(d, maxDelay, call, other, attempt + 1);
  }

  /** Any other error code is re-raised on that attempt with the delay unchanged
      (aws.py:90-91). */
  lemma OtherErrorRaises<T>(delay: nat, maxDelay: nat, call: nat -> Reply<T>, attempt: nat)
    requires call(attempt).ServerError? && !Transient(call(attempt).code)
    ensures Wrapped(delay, maxDelay, call, attempt) == Run(Raised(call(attempt).code), delay, SleepBefore(delay))
  {
  }

  /** Every sleep is of a positive delay, and there is at most one per attempt made. */
  lemma {:induction false} SleepsPositive<T>(delay: nat, maxDelay: nat, call: nat -> Reply<T>, attempt: nat)
    ensures forall i :: 0 <= i < |Wrapped(delay, maxDelay, call, attempt).sleeps| ==>
              Wrapped(delay, maxDelay, call, attempt).sleeps[i] > 0
    decreases Measure(delay, maxDelay)
  {
    match call(attempt)
    case Value(_) =>
    case ServerError(code) =>
      match Backoff(delay, maxDelay, code)
      case None =>
      case Some(d) =>
        SleepsPositive(d, maxDelay, call, attempt + 1);
        var rest := Wrapped(d, maxDelay, call, attempt + 1);
        var all := SleepBefore(delay) + rest.sleeps;
        forall i | 0 <= i < |all| ensures all[i] > 0 {
          if i >= |SleepBefore(delay)| {
            assert all[i] == rest.sleeps[i - |SleepBefore(delay)|];
          }
        }
  }

  /** A returned value is the reply of some attempt from `attempt` on; a re-raised
      Throttling or ServiceUnavailable error leaves a positive delay at or above the
      maximum. */
  lemma {:induction false} WrappedOutcome<T>(delay: nat, maxDelay: nat, call: nat -> Reply<T>, attempt: nat)
    ensures var r := Wrapped(delay, maxDelay, call, attempt);
            r.outcome.Returned? ==> exists k :: k >= attempt && call(k) == Value(r.outcome.v)
    ensures var r := Wrapped(delay, maxDelay, call, attempt);
            r.outcome.Raised? && Transient(r.outcome.code) ==> r.delay > 0 && r.delay >= maxDelay
    decreases Measure(delay, maxDelay)
  {
    match call(attempt)
    case Value(_) =>
    case ServerError(code) =>
      match Backoff(delay, maxDelay, code)
      case None =>
      case Some(d) => WrappedOutcome(d, maxDelay, call, attempt + 1);
  }
}
