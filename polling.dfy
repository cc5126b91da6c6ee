/** The shape both status pollers share: a bounded number of attempts, one
    sleep and one status query per attempt, and a classification of each
    attempt's observation as "keep polling" or "stop with this outcome".
    The network is the sequence of observations, one per attempt. */
module Polling {
  import opened Wrappers

  datatype Verdict<R> = Continue | Stop(outcome: R)

  /** How a poll ended: a terminal outcome, or None when every attempt was
      used up, and the number of status queries issued. */
  datatype Run<R> = Run(outcome: Option<R>, attempts: nat)

  /** The poll from attempt index k (0-based) on, with `max` attempts in all. */
  function PollFrom<O, R>(obs: seq<O>, classify: O -> Verdict<R>, k: nat, max: nat): Run<R>
    requires k <= max <= |obs|
    decreases max - k
  {
    if k == max then Run(None, max)
    else match classify(obs[k])
      case Continue => PollFrom(obs, classify, k + 1, max)
      case Stop(o) => Run(Some(o), k + 1)
  }

  /** The whole poll. */
  function Poll<O, R>(obs: seq<O>, classify: O -> Verdict<R>, max: nat): Run<R>
    requires max <= |obs|
  {
    PollFrom(obs, classify, 0, max)
  }

  /** What a poll from index k means: at most `max` queries in all; every
      attempt before the last one issued continued; an outcome is the verdict
      of the last attempt issued; no outcome means all `max` attempts were
      issued and every one of them continued. */
  lemma {:induction false} PollFromMeaning<O, R>(obs: seq<O>, classify: O -> Verdict<R>, k: nat, max: nat)
    requires k <= max <= |obs|
    ensures var r := PollFrom(obs, classify, k, max);
      && k <= r.attempts <= max
      && (r.outcome.Some? ==> k < r.attempts && classify(obs[r.attempts - 1]) == Stop(r.outcome.value))
      && (r.outcome.None? ==> r.attempts == max)
      && (forall j :: k <= j < r.attempts && (r.outcome.Some? ==> j < r.attempts - 1)
            ==> classify(obs[j]).Continue?)
    decreases max - k
  {
    if k < max && classify(obs[k]).Continue? {
      PollFromMeaning(obs, classify, k + 1, max);
    }
  }

  /** The poll's outcome and length are those of the first attempt whose
      verdict is Stop, if any among the first `max`; otherwise "unknown"
      after exactly `max` queries. */
  lemma PollMeaning<O, R>(obs: seq<O>, classify: O -> Verdict<R>, max: nat)
    requires max <= |obs|
    ensures var r := Poll(obs, classify, max);
      && r.attempts <= max
      && (r.outcome.None? <==> r.attempts == max && forall j :: 0 <= j < max ==> classify(obs[j]).Continue?)
      && (r.outcome.Some? ==>
            && 1 <= r.attempts
            && classify(obs[r.attempts - 1]) == Stop(r.outcome.value)
            && forall j :: 0 <= j < r.attempts - 1 ==> classify(obs[j]).Continue?)
  {
    PollFromMeaning(obs, classify, 0, max);
  }

  /** The properties of PollMeaning single the run out: any run with them is the poll. */
  lemma PollUnique<O, R>(obs: seq<O>, classify: O -> Verdict<R>, max: nat, r: Run<R>)
    requires max <= |obs|
    requires r.outcome.None? ==> r.attempts == max && forall j :: 0 <= j < max ==> classify(obs[j]).Continue?
    requires r.outcome.Some? ==>
      && 1 <= r.attempts <= max
      && classify(obs[r.attempts - 1]) == Stop(r.outcome.value)
      && forall j :: 0 <= j < r.attempts - 1 ==> classify(obs[j]).Continue?
    ensures r == Poll(obs, classify, max)
  {
    PollMeaning(obs, classify, max);
  }

  /** Observations past the attempt cap play no part in the poll. */
  lemma {:induction false} PollFromIgnoresLater<O, R>(obs: seq<O>, more: seq<O>, classify: O -> Verdict<R>, k: nat, max: nat)
    requires k <= max <= |obs|
    ensures PollFrom(obs + more, classify, k, max) == PollFrom(obs, classify, k, max)
    decreases max - k
  {
    if k < max {
      assert (obs + more)[k] == obs[k];
      PollFromIgnoresLater(obs, more, classify, k + 1, max);
    }
  }

  /** An attempt's events: the sleep, then the status query. */
  datatype Event<Q> = Sleep(seconds: nat) | Query(request: Q)

  /** The events of `n` attempts in order. */
  function PollTrace<Q>(delay: nat, request: Q, n: nat): seq<Event<Q>> {
    if n == 0 then [] else PollTrace(delay, request, n - 1) + [Sleep(delay), Query(request)]
  }

  function CountSleeps<Q>(t: seq<Event<Q>>): nat {
    if t == [] then 0 else CountSleeps(t[..|t| - 1]) + (if t[|t| - 1].Sleep? then 1 else 0)
  }

  function CountQueries<Q>(t: seq<Event<Q>>): nat {
    if t == [] then 0 else CountQueries(t[..|t| - 1]) + (if t[|t| - 1].Query? then 1 else 0)
  }

  /** The trace of n attempts alternates sleep and query, starting with a
      sleep: there are exactly n of each and every query follows its own sleep. */
  lemma {:induction false} PollTraceShape<Q>(delay: nat, request: Q, n: nat)
    ensures var t := PollTrace(delay, request, n);
      && |t| == 2 * n
      && (forall i :: 0 <= i < |t| ==> t[i] == if i % 2 == 0 then Sleep(delay) else Query(request))
      && CountSleeps(t) == n && CountQueries(t) == n
  {
    if n > 0 {
      var prev := PollTrace(delay, request, n - 1);
      var t := PollTrace(delay, request, n);
      PollTraceShape(delay, request, n - 1);
      assert t == (prev + [Sleep(delay)]) + [Query(request)];
      assert t[..|t| - 1] == prev + [Sleep(delay)];
      assert (prev + [Sleep(delay)])[..|prev|] == prev;
    }
  }
}
