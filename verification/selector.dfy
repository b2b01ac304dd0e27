/** The random endpoint selector: tries the configured dispatchers one at a
    time, in random order and without replacement, until one handles the
    request.

    The random number generator is an oracle `rnd`: the k-th pick takes index
    `rnd(k) % |toTry|`, which can be any index of the work list. A dispatcher's
    `Handle` followed by the selector's `HandleResponse` is an oracle `handle`
    too: given the attempt number, the chosen dispatcher and the "last
    attempt" flag, it either produces a response or throws. */
module Selector {
  import opened Wrappers
  import opened Http

  /** The response handed back to the pipeline. */
  datatype AICentralResponse = AICentralResponse(statusCode: int, body: string)

  /** What one dispatcher call plus `HandleResponse` ends in. */
  datatype AttemptOutcome = Handled(response: AICentralResponse) | Threw(exception: HttpException)

  /** The exceptions the selector itself can end in. */
  datatype SelectorError =
    | ArgumentOutOfRange                      // picking from an empty work list
    | NoAvailableHosts(inner: HttpException)  // InvalidOperationException("No available Open AI hosts", e)
    | Propagated(exception: HttpException)    // an exception the selector does not catch
    | FailedToSatisfy                         // InvalidOperationException("Failed to satisfy request")

  /** One dispatcher attempt: who was tried, the flag passed to
      `HandleResponse`, and how it ended. */
  datatype Attempt<D> = Attempt(dispatcher: D, lastAttempt: bool, outcome: AttemptOutcome)

  /** A whole selection: its result and the attempts made, in order. */
  datatype Run<D> = Run(result: Result<AICentralResponse, SelectorError>, attempts: seq<Attempt<D>>)

  /** `List.Remove`: drop the first element equal to `x`, if any. */
  function RemoveFirst<D(==)>(s: seq<D>, x: D): (r: seq<D>)
    ensures x in s ==> |r| == |s| - 1
    ensures multiset(r) == multiset(s) - multiset{x}
  {
    if s == [] then []
    else if s[0] == x then
      assert s == [s[0]] + s[1..];
      s[1..]
    else
      assert s == [s[0]] + s[1..];
      [s[0]] + RemoveFirst(s[1..], x)
  }

  /** The dispatchers of a sequence of attempts, in order. */
  function Dispatchers<D>(attempts: seq<Attempt<D>>): seq<D>
  {
    seq(|attempts|, i requires 0 <= i < |attempts| => attempts[i].dispatcher)
  }

  /** Whether an attempt ended in an HttpRequestException, the one exception
      the selector catches. */
  predicate FailedOver(outcome: AttemptOutcome)
  {
    outcome.Threw? && outcome.exception.HttpRequestException?
  }

  /** How the selection ends on an attempt it does not fail over from: the
      response, "No available Open AI hosts" wrapping an HttpRequestException,
      or any other exception passed on unchanged. */
  function Conclusion(outcome: AttemptOutcome): (r: Result<AICentralResponse, SelectorError>)
    ensures outcome.Handled? ==> r == Success(outcome.response)
    ensures outcome.Threw? ==>
      r == Failure(NoAvailableHosts(outcome.exception)) || r == Failure(Propagated(outcome.exception))
    ensures r.Failure? && r.error.NoAvailableHosts? <==> FailedOver(outcome)
  {
    match outcome
    case Handled(response) => Success(response)
    case Threw(e) => if e.HttpRequestException? then Failure(NoAvailableHosts(e)) else Failure(Propagated(e))
  }

  /** The selection loop from attempt `k` on, over the untried dispatchers
      `toTry`: pick one, remove it, try it, and go on to the rest only after an
      HttpRequestException while untried dispatchers remain. An empty work
      list can only be met at the first pick; the trailing "Failed to satisfy
      request" throw is never produced. */
  function Failover<D(==)>(
    toTry: seq<D>, k: nat, rnd: nat -> nat, handle: (nat, D, bool) -> AttemptOutcome): (run: Run<D>)
    ensures |toTry| == 0 <==> run.result == Failure(ArgumentOutOfRange)
    ensures run.result != Failure(FailedToSatisfy)
    decreases |toTry|
  {
    if |toTry| == 0 then Run(Failure(ArgumentOutOfRange), [])
    else
      var chosen := toTry[rnd(k) % |toTry|];
      var rest := RemoveFirst(toTry, chosen);
      var attempt := Attempt(chosen, |rest| == 0, handle(k, chosen, |rest| == 0));
      if FailedOver(attempt.outcome) && |rest| > 0 then
        var next := Failover(rest, k + 1, rnd, handle);
        Run(next.result, [attempt] + next.attempts)
      else
        Run(Conclusion(attempt.outcome), [attempt])
  }

  /** There are between one and N attempts, and the "last attempt" flag is
      set exactly on the N-th attempt, when no untried dispatcher remains. */
  lemma {:induction false} FailoverLastAttemptFlag<D>(
    toTry: seq<D>, k: nat, rnd: nat -> nat, handle: (nat, D, bool) -> AttemptOutcome)
    requires |toTry| > 0
    ensures var run := Failover(toTry, k, rnd, handle);
      && 1 <= |run.attempts| <= |toTry|
      && forall j :: 0 <= j < |run.attempts| ==> (run.attempts[j].lastAttempt <==> j == |toTry| - 1)
    decreases |toTry|
  {
    var run := Failover(toTry, k, rnd, handle);
    var chosen := toTry[rnd(k) % |toTry|];
    var rest := RemoveFirst(toTry, chosen);
    var attempt := Attempt(chosen, |rest| == 0, handle(k, chosen, |rest| == 0));
    if FailedOver(attempt.outcome) && |rest| > 0 {
      FailoverLastAttemptFlag(rest, k + 1, rnd, handle);
      var next := Failover(rest, k + 1, rnd, handle);
      forall j | 0 <= j < |run.attempts|
        ensures run.attempts[j].lastAttempt <==> j == |toTry| - 1
      {
        if j > 0 { assert run.attempts[j] == next.attempts[j - 1]; }
      }
    }
  }

  lemma DispatchersCons<D>(attempt: Attempt<D>, attempts: seq<Attempt<D>>)
    ensures Dispatchers([attempt] + attempts) == [attempt.dispatcher] + Dispatchers(attempts)
  {
    assert ([attempt] + attempts)[1..] == attempts;
  }

  /** Each configured dispatcher is attempted at most once: the dispatchers
      tried form a sub-multiset of the configured ones. */
  lemma {:induction false} FailoverTriesEachAtMostOnce<D>(
    toTry: seq<D>, k: nat, rnd: nat -> nat, handle: (nat, D, bool) -> AttemptOutcome)
    requires |toTry| > 0
    ensures var run := Failover(toTry, k, rnd, handle);
      multiset(Dispatchers(run.attempts)) <= multiset(toTry)
    decreases |toTry|
  {
    var run := Failover(toTry, k, rnd, handle);
    var chosen := toTry[rnd(k) % |toTry|];
    var rest := RemoveFirst(toTry, chosen);
    var attempt := Attempt(chosen, |rest| == 0, handle(k, chosen, |rest| == 0));
    assert multiset{chosen} <= multiset(toTry);
    if FailedOver(attempt.outcome) && |rest| > 0 {
      FailoverTriesEachAtMostOnce(rest, k + 1, rnd, handle);
      DispatchersCons(attempt, Failover(rest, k + 1, rnd, handle).attempts);
    } else {
      DispatchersCons(attempt, []);
    }
  }

  /** Every attempt but the final one failed with an HttpRequestException. */
  lemma {:induction false} FailoverEarlierAttemptsFailedOver<D>(
    toTry: seq<D>, k: nat, rnd: nat -> nat, handle: (nat, D, bool) -> AttemptOutcome)
    requires |toTry| > 0
    ensures var run := Failover(toTry, k, rnd, handle);
      && |run.attempts| >= 1
      && forall j :: 0 <= j < |run.attempts| - 1 ==> FailedOver(run.attempts[j].outcome)
    decreases |toTry|
  {
    var chosen := toTry[rnd(k) % |toTry|];
    var rest := RemoveFirst(toTry, chosen);
    var attempt := Attempt(chosen, |rest| == 0, handle(k, chosen, |rest| == 0));
    if FailedOver(attempt.outcome) && |rest| > 0 {
      FailoverEarlierAttemptsFailedOver(rest, k + 1, rnd, handle);
      var next := Failover(rest, k + 1, rnd, handle);
      var attempts := [attempt] + next.attempts;
      assert Failover(toTry, k, rnd, handle).attempts == attempts;
      forall j | 0 <= j < |attempts| - 1 ensures FailedOver(attempts[j].outcome) {
        if j > 0 { assert attempts[j] == next.attempts[j - 1]; }
      }
    }
  }

  /** The final attempt decides the result: its response, "No available Open
      AI hosts" wrapping its HttpRequestException, or its other exception
      passed on. It ends in an HttpRequestException only when it was flagged
      as the last attempt. */
  lemma {:induction false} FailoverFinalAttempt<D>(
    toTry: seq<D>, k: nat, rnd: nat -> nat, handle: (nat, D, bool) -> AttemptOutcome)
    requires |toTry| > 0
    ensures var run := Failover(toTry, k, rnd, handle);
      && |run.attempts| >= 1
      && var final := run.attempts[|run.attempts| - 1];
         && (FailedOver(final.outcome) ==> final.lastAttempt)
         && run.result == Conclusion(final.outcome)
    decreases |toTry|
  {
    var chosen := toTry[rnd(k) % |toTry|];
    var rest := RemoveFirst(toTry, chosen);
    var attempt := Attempt(chosen, |rest| == 0, handle(k, chosen, |rest| == 0));
    var run := Failover(toTry, k, rnd, handle);
    if FailedOver(attempt.outcome) && |rest| > 0 {
      FailoverFinalAttempt(rest, k + 1, rnd, handle);
      var next := Failover(rest, k + 1, rnd, handle);
      assert run == Run(next.result, [attempt] + next.attempts);
      assert run.attempts[|run.attempts| - 1] == next.attempts[|next.attempts| - 1];
    } else {
      assert run == Run(Conclusion(attempt.outcome), [attempt]);
    }
  }

  /** The selector gives up with "No available Open AI hosts" only after N
      attempts. */
  lemma ExhaustionTakesEveryAttempt<D>(
    toTry: seq<D>, k: nat, rnd: nat -> nat, handle: (nat, D, bool) -> AttemptOutcome)
    requires Failover(toTry, k, rnd, handle).result.Failure?
    requires Failover(toTry, k, rnd, handle).result.error.NoAvailableHosts?
    ensures |Failover(toTry, k, rnd, handle).attempts| == |toTry|
  {
    var run := Failover(toTry, k, rnd, handle);
    assert |toTry| > 0;
    FailoverFinalAttempt(toTry, k, rnd, handle);
    FailoverLastAttemptFlag(toTry, k, rnd, handle);
    var n := |run.attempts| - 1;
    var final := run.attempts[n];
    assert run.result == Conclusion(final.outcome);
    assert FailedOver(final.outcome);
    assert final.lastAttempt <==> n == |toTry| - 1;
  }

  /** When the selector gives up with "No available Open AI hosts", every
      configured dispatcher has been tried. */
  lemma ExhaustionTriesEveryDispatcher<D>(
    toTry: seq<D>, k: nat, rnd: nat -> nat, handle: (nat, D, bool) -> AttemptOutcome)
    requires Failover(toTry, k, rnd, handle).result.Failure?
    requires Failover(toTry, k, rnd, handle).result.error.NoAvailableHosts?
    ensures multiset(Dispatchers(Failover(toTry, k, rnd, handle).attempts)) == multiset(toTry)
  {
    var attempts := Failover(toTry, k, rnd, handle).attempts;
    ExhaustionTakesEveryAttempt(toTry, k, rnd, handle);
    FailoverTriesEachAtMostOnce(toTry, k, rnd, handle);
    SubMultisetOfSameSize(Dispatchers(attempts), toTry);
  }

  /** A sequence whose elements are drawn from another of the same length
      holds exactly the same elements. */
  lemma SubMultisetOfSameSize<D>(a: seq<D>, b: seq<D>)
    requires multiset(a) <= multiset(b) && |a| == |b|
    ensures multiset(a) == multiset(b)
  {
    assert |multiset(b) - multiset(a)| == |multiset(b)| - |multiset(a)|;
  }

  /** If some configured dispatcher always handles the request, the selector
      never gives up with "No available Open AI hosts", whatever the random
      order: it returns a response or passes on an exception it does not catch. */
  lemma {:induction false} HealthyDispatcherPreventsExhaustion<D>(
    toTry: seq<D>, k: nat, rnd: nat -> nat, handle: (nat, D, bool) -> AttemptOutcome, healthy: D)
    requires healthy in toTry
    requires forall n: nat, last: bool :: handle(n, healthy, last).Handled?
    ensures var result := Failover(toTry, k, rnd, handle).result;
      result.Success? || result.error.Propagated?
    decreases |toTry|
  {
    var chosen := toTry[rnd(k) % |toTry|];
    var rest := RemoveFirst(toTry, chosen);
    var outcome := handle(k, chosen, |rest| == 0);
    if FailedOver(outcome) {
      assert chosen != healthy;
      assert multiset(rest)[healthy] == multiset(toTry)[healthy];
      assert healthy in rest;
      HealthyDispatcherPreventsExhaustion(rest, k + 1, rnd, handle, healthy);
    }
  }

  /** With one healthy dispatcher and every other one failing with an
      HttpRequestException, the selector returns the healthy one's response,
      whatever the random order. */
  lemma {:induction false} FailoverFindsHealthyDispatcher<D>(
    toTry: seq<D>, k: nat, rnd: nat -> nat, handle: (nat, D, bool) -> AttemptOutcome,
    healthy: D, response: AICentralResponse)
    requires healthy in toTry
    requires forall n: nat, last: bool :: handle(n, healthy, last) == Handled(response)
    requires forall n: nat, d: D, last: bool :: d != healthy ==> FailedOver(handle(n, d, last))
    ensures Failover(toTry, k, rnd, handle).result == Success(response)
    decreases |toTry|
  {
    var chosen := toTry[rnd(k) % |toTry|];
    var rest := RemoveFirst(toTry, chosen);
    if chosen != healthy {
      assert multiset(rest)[healthy] == multiset(toTry)[healthy];
      assert healthy in rest;
      FailoverFindsHealthyDispatcher(rest, k + 1, rnd, handle, healthy, response);
    }
  }

  /** The selector over a fixed array of dispatchers. */
  class RandomEndpointSelector<D(==)> {
    const openAiServers: array<D>

    constructor(openAiServers: array<D>)
      ensures this.openAiServers == openAiServers
    {
      this.openAiServers := openAiServers;
    }

    /** `Handle`: copy the array into a work list, then pick, remove and try
        one dispatcher at a time. The array itself is only read. */
    method Handle(rnd: nat -> nat, handle: (nat, D, bool) -> AttemptOutcome)
      returns (r: Result<AICentralResponse, SelectorError>)
      ensures r == Failover(openAiServers[..], 0, rnd, handle).result
    {
      var toTry := openAiServers[..];
      ghost var spec := Failover(toTry, 0, rnd, handle);
      if |toTry| == 0 {
        // `ElementAt(Next(0, 0))` on the empty copy
        return Failure(ArgumentOutOfRange);
      }
      var k := 0;
      while |toTry| > 0
        invariant |toTry| > 0
        invariant Failover(toTry, k, rnd, handle).result == spec.result
        decreases |toTry|
      {
        var chosen := toTry[rnd(k) % |toTry|];
        toTry := RemoveFirst(toTry, chosen);
        var outcome := handle(k, chosen, |toTry| == 0);
        match outcome {
          case Handled(response) =>
            return Success(response);
          case Threw(e) =>
            if !e.HttpRequestException? {
              return Failure(Propagated(e));
            }
            if |toTry| == 0 {
              return Failure(NoAvailableHosts(e));
            }
        }
        k := k + 1;
      }
      // every iteration leaves by a return or keeps a dispatcher in hand
      assert false;
      r := Failure(FailedToSatisfy);
    }
  }
}
