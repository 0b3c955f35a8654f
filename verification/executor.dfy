/**
 The retry executor: `Send` and the recursive `send` (http_client.go:123-200).
 Each round rebuilds the request from the client, makes one round trip,
 classifies it, and — while attempts remain and the predicate approves —
 sleeps for the retry delay and goes again with one attempt fewer. The
 returned `Run` records, beside the final attempt, every request handed to the
 transport, how often the predicate was asked, and every sleep.
 */
module Executor {
  import opened Values
  import opened Responses
  import opened Builder
  import opened Assembly

  /**
   The result of a `Send`: the (response, error) pair of the last round, the
   requests sent (one per transport call), the number of predicate calls and
   the duration of each sleep.
   */
  datatype Run = Run(final: Attempt, sent: seq<Request>, asked: nat, slept: seq<int>)

  /**
   The client will not panic: once a request is built, no form value is
   stored into the request's nil form map, and a predicate exists whenever
   `attempts > 0` makes `send` call it.
   */
  predicate MayRun(c: Client, env: Env, attempts: int): (ok: bool)
    ensures BuildRequest(c, env).Failure? ==> ok
    ensures ok && BuildRequest(c, env).Success? ==> forall k :: ListAt(c.form, k) == []
    ensures ok && BuildRequest(c, env).Success? && attempts > 0 ==> c.retryRule.Some?
    ensures (BuildRequest(c, env).Success? && (forall k :: ListAt(c.form, k) == [])
             && (attempts > 0 ==> c.retryRule.Some?)) ==> ok
  {
    BuildRequest(c, env).Success? ==> FormIsEmpty(c.form) && (attempts > 0 ==> c.retryRule.Some?)
  }

  /** The predicate exists and asks for another round after `a`. */
  predicate Approves(c: Client, round: nat, a: Attempt)
  {
    c.retryRule.Some? && c.retryRule.value(round, a)
  }

  /** The attempt the transport yields in round `round` for request `req`. */
  function AttemptAt(c: Client, env: Env, req: Request, round: nat): Attempt
  {
    Classify(env.roundTrip(round, req, c.timeout))
  }

  /** The predicate asks for another round after round `n` of request `req`. */
  predicate ApprovedAt(c: Client, env: Env, req: Request, n: nat)
  {
    Approves(c, n, AttemptAt(c, env, req, n))
  }

  /** The number of retries `attempts` allows: a negative count allows none. */
  function Retries(attempts: int): nat
  {
    if attempts > 0 then attempts else 0
  }

  /**
   `send(attempts)`, entered as round `round` of the current `Send`. A failed
   build ends the call at once with no round trip; otherwise there is one round
   trip per round, at most `attempts + 1` of them, every one with the same
   request, a sleep of the retry delay between consecutive ones, and a
   predicate call after each round that had attempts left.
   */
  function Round(c: Client, env: Env, attempts: int, round: nat): (r: Run)
    requires MayRun(c, env, attempts)
    ensures Exclusive(r.final)
    ensures BuildRequest(c, env).Failure? ==>
              r == Run(Attempt(None, Some(BuildRequest(c, env).error)), [], 0, [])
    ensures BuildRequest(c, env).Success? ==>
              && 1 <= |r.sent| <= Retries(attempts) + 1
              && |r.slept| == |r.sent| - 1
              && (forall i :: 0 <= i < |r.sent| ==> r.sent[i] == BuildRequest(c, env).value)
              && (forall i :: 0 <= i < |r.slept| ==> r.slept[i] == c.retryDelay)
              && r.asked == (if |r.sent| - 1 < Retries(attempts) then |r.sent| else |r.sent| - 1)
    decreases Retries(attempts)
  {
    match BuildRequest(c, env)
    case Failure(e) => Run(Attempt(None, Some(e)), [], 0, [])
    case Success(req) =>
      var a := AttemptAt(c, env, req, round);
      if attempts > 0 && Approves(c, round, a) then
        var rest := Round(c, env, attempts - 1, round + 1);
        Run(rest.final, [req] + rest.sent, rest.asked + 1, [c.retryDelay] + rest.slept)
      else
        Run(a, [req], if attempts > 0 then 1 else 0, [])
  }

  /**
   `Send`: run `send` with the configured number of retries. Exactly one of
   response and error is present, and at most `retryAttempts + 1` round trips
   happen.
   */
  function Send(c: Client, env: Env): (r: Run)
    requires MayRun(c, env, c.retryAttempts)
    ensures Exclusive(r.final)
    ensures |r.sent| <= Retries(c.retryAttempts) + 1
    ensures |r.slept| <= Retries(c.retryAttempts)
  {
    Round(c, env, c.retryAttempts, 0)
  }

  /**
   The round at which a run entered at round `n` with `left` retries stops,
   defined independently of `send`: the first round the predicate does not
   approve, or the round that uses up the retries. Every round before it was
   approved.
   */
  function StopRound(c: Client, env: Env, req: Request, left: nat, n: nat): (stop: nat)
    ensures n <= stop <= n + left
    ensures forall m: nat :: n <= m < stop ==> ApprovedAt(c, env, req, m)
    ensures stop == n + left || !ApprovedAt(c, env, req, stop)
    decreases left
  {
    if left > 0 && ApprovedAt(c, env, req, n) then StopRound(c, env, req, left - 1, n + 1) else n
  }

  /**
   Which round ends the call: `send` stops exactly at `StopRound`, having made
   one round trip for each round up to it, and returns that round's attempt.
   */
  lemma {:induction false} RoundStopsAtFirstRefusal(c: Client, env: Env, attempts: int, round: nat, req: Request)
    requires MayRun(c, env, attempts)
    requires BuildRequest(c, env) == Success(req)
    ensures |Round(c, env, attempts, round).sent| == StopRound(c, env, req, Retries(attempts), round) - round + 1
    ensures Round(c, env, attempts, round).final == AttemptAt(c, env, req, StopRound(c, env, req, Retries(attempts), round))
    decreases Retries(attempts)
  {
    if attempts > 0 && ApprovedAt(c, env, req, round) {
      RoundStopsAtFirstRefusal(c, env, attempts - 1, round + 1, req);
    }
  }

  /**
   A URL that does not parse ends `Send` at once with a nil response and the
   wrapped parse error: no round trip, no predicate call, no sleep, however
   many retries are configured.
   */
  lemma SendUrlParseFailure(c: Client, env: Env)
    requires env.parseUrl(c.url).Failure?
    ensures MayRun(c, env, c.retryAttempts)
    ensures var r := Send(c, env);
            && r.final == Attempt(None, Some(UrlParse(env.parseUrl(c.url).error)))
            && r.sent == [] && r.asked == 0 && r.slept == []
  {
  }

  /**
   With no retries configured (zero or negative), `Send` makes exactly one
   round trip, never asks the predicate, never sleeps, and returns that round
   trip's attempt.
   */
  lemma SendWithoutRetries(c: Client, env: Env)
    requires c.retryAttempts <= 0
    requires BuildRequest(c, env).Success? && FormIsEmpty(c.form)
    ensures MayRun(c, env, c.retryAttempts)
    ensures var r := Send(c, env);
            && |r.sent| == 1 && r.asked == 0 && r.slept == []
            && r.final == AttemptAt(c, env, BuildRequest(c, env).value, 0)
  {
    RoundStopsAtFirstRefusal(c, env, c.retryAttempts, 0, BuildRequest(c, env).value);
  }

  /**
   A predicate that always approves makes `Send` use every attempt:
   `retryAttempts + 1` round trips, `retryAttempts` predicate calls and sleeps
   of the retry delay, and the outcome of the last round.
   */
  lemma SendAlwaysRetrying(c: Client, env: Env)
    requires c.retryAttempts > 0
    requires c.retryRule.Some? && forall j: nat, a: Attempt :: c.retryRule.value(j, a)
    requires FormIsEmpty(c.form)
    requires BuildRequest(c, env).Success?
    ensures MayRun(c, env, c.retryAttempts)
    ensures var r := Send(c, env);
            && |r.sent| == c.retryAttempts + 1
            && r.asked == c.retryAttempts
            && r.slept == seq(c.retryAttempts, _ => c.retryDelay)
            && r.final == AttemptAt(c, env, BuildRequest(c, env).value, c.retryAttempts)
  {
    RoundStopsAtFirstRefusal(c, env, c.retryAttempts, 0, BuildRequest(c, env).value);
    var r := Send(c, env);
    var req := BuildRequest(c, env).value;
    var last := |r.sent| - 1;
    assert ApprovedAt(c, env, req, last);
  }

  /**
   A predicate that refuses after the first round ends `Send` there: one
   round trip, one predicate call, no sleep, and the first round's attempt.
   */
  lemma SendRefusedAtOnce(c: Client, env: Env)
    requires c.retryAttempts > 0 && c.retryRule.Some?
    requires FormIsEmpty(c.form)
    requires BuildRequest(c, env).Success?
    requires !c.retryRule.value(0, AttemptAt(c, env, BuildRequest(c, env).value, 0))
    ensures MayRun(c, env, c.retryAttempts)
    ensures var r := Send(c, env);
            && |r.sent| == 1 && r.asked == 1 && r.slept == []
            && r.final == AttemptAt(c, env, BuildRequest(c, env).value, 0)
  {
    RoundStopsAtFirstRefusal(c, env, c.retryAttempts, 0, BuildRequest(c, env).value);
  }

  /**
   The param map and the records never influence a `Send`: replacing them
   changes neither the requests, the predicate calls, the sleeps nor the result.
   */
  lemma {:induction false} RoundIgnoresParamAndRecords(
    c: Client, env: Env, attempts: int, round: nat, param: Dict<string>, records: Value)
    requires MayRun(c, env, attempts)
    ensures MayRun(Records(Param(c, param), records), env, attempts)
    ensures Round(Records(Param(c, param), records), env, attempts, round) == Round(c, env, attempts, round)
    decreases Retries(attempts)
  {
    var d := Records(Param(c, param), records);
    BuildDependsOnlyOn(c, d, env);
    if BuildRequest(c, env).Success? {
      var req := BuildRequest(c, env).value;
      var a := AttemptAt(c, env, req, round);
      assert AttemptAt(d, env, req, round) == a;
      if attempts > 0 && Approves(c, round, a) {
        RoundIgnoresParamAndRecords(c, env, attempts - 1, round + 1, param, records);
      }
    }
  }

  lemma SendIgnoresParamAndRecords(c: Client, env: Env, param: Dict<string>, records: Value)
    requires MayRun(c, env, c.retryAttempts)
    ensures MayRun(Records(Param(c, param), records), env, c.retryAttempts)
    ensures Send(Records(Param(c, param), records), env) == Send(c, env)
  {
    RoundIgnoresParamAndRecords(c, env, c.retryAttempts, 0, param, records);
  }

  /**
   Adding a form value is not a silent no-op: once the request can be built,
   `send` stores that value into the request's nil form map and panics.
   */
  lemma AddFormPanics(c: Client, env: Env, attempts: int, name: string, values: seq<Value>)
    requires c.form.Dict? && values != []
    requires BuildRequest(c, env).Success?
    ensures !MayRun(AddForm(c, name, values), env, attempts)
  {
    var d := AddForm(c, name, values);
    BuildDependsOnlyOn(c, d, env);
    assert name in Keys(d.form) && ListAt(d.form, name) != [];
  }

  /** Configuring retries without a predicate makes `send` call a nil function and panic. */
  lemma RetryWithoutRulePanics(c: Client, env: Env, attempts: int, delay: int)
    requires attempts > 0
    requires BuildRequest(c, env).Success?
    ensures !MayRun(Retry(c, attempts, delay, None), env, attempts)
  {
    BuildDependsOnlyOn(c, Retry(c, attempts, delay, None), env);
  }

  /**
   A fresh client never retries: once its request can be built, `Send` makes
   one round trip, asks no predicate and returns that round trip's attempt.
   */
  lemma FreshClientSendsOnce(verb: string, url: string, env: Env)
    requires BuildRequest(NewRest(verb, url), env).Success?
    ensures MayRun(NewRest(verb, url), env, 0)
    ensures var r := Send(NewRest(verb, url), env);
            && |r.sent| == 1 && r.asked == 0 && r.slept == []
            && r.final == Classify(env.roundTrip(0, BuildRequest(NewRest(verb, url), env).value, 2 * Second))
  {
    SendWithoutRetries(NewRest(verb, url), env);
  }
}
