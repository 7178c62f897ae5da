/**
 * `fetch_response_text`: a cache lookup, then a paced request repeated up
 * to `max_retries` times with linear backoff, each attempt classified by
 * status and body. The network is a transport function giving the outcome
 * of attempt n; the sleeps and requests are recorded in a ghost trace; the
 * user-agent choice and the jitter are parameters.
 */
module Fetch {
  import opened Prelude
  import opened Text
  import opened Errors
  import opened Config

  /** How reading the body of a 200 response ended. */
  datatype BodyRead =
    | Body(text: string)
    | BodyReadError(message: string)   // the body could not be read
    | BodyTimedOut                     // `response_timeout` elapsed

  /** What one attempt observed. */
  datatype Attempt =
    | Responded(status: nat, reason: Option<string>, body: BodyRead)
      // `reason` is the status's canonical reason phrase, when it has one
    | SendFailed(isTimeout: bool, isConnect: bool, message: string)
    | AttemptTimedOut                  // the outer `request_timeout` elapsed first

  /** One observable step of a fetch. */
  datatype Event = Slept(millis: nat) | Sent(url: string, userAgent: string)

  /** A 200 body that is an anti-bot page rather than results. */
  predicate LooksBlocked(text: string) {
    Contains(text, "detected unusual traffic") || Contains(text, "CAPTCHA") || Contains(text, "blocked")
  }

  /** The `Display` form of an HTTP status: code and canonical reason. */
  function StatusText(status: nat, reason: Option<string>): string {
    Decimal(status) + " " + reason.GetOr("<unknown status code>")
  }

  /**
   * The classification of one attempt. Status codes follow sections 15.5.4
   * (403), 15.5.9 (408) and 15.6.5 (504) of RFC 9110 and section 4 of
   * RFC 6585 (429).
   */
  function Classify(a: Attempt): Result<string, SearchError>
  {
    match a
    case Responded(status, reason, body) =>
      if status == 200 then
        match body
        case Body(text) => if LooksBlocked(text) then Err(Blocked) else Ok(text)
        case BodyReadError(m) => Err(InvalidResponse(m))
        case BodyTimedOut => Err(Timeout)
      else if status == 429 then Err(RateLimited)
      else if status == 403 then Err(Blocked)
      else if status == 408 || status == 504 then Err(Timeout)
      else Err(NetworkError("HTTP error: " + StatusText(status, reason)))
    case SendFailed(isTimeout, isConnect, m) =>
      if isTimeout then Err(Timeout)
      else if isConnect then Err(NetworkError("Connection failed"))
      else Err(NetworkError(m))
    case AttemptTimedOut => Err(Timeout)
  }

  /**
   * What each attempt outcome is classified as: a clean 200 body is the only
   * success, and each error kind comes from exactly the statuses and
   * transport failures listed.
   */
  lemma ClassifySpec(a: Attempt)
    ensures Classify(a).Ok? <==> a.Responded? && a.status == 200 && a.body.Body? && !LooksBlocked(a.body.text)
    ensures Classify(a).Ok? ==> Classify(a).value == a.body.text
    ensures Classify(a) == Err(RateLimited) <==> a.Responded? && a.status == 429
    ensures Classify(a) == Err(Blocked) <==>
      a.Responded? && (a.status == 403 || (a.status == 200 && a.body.Body? && LooksBlocked(a.body.text)))
    ensures Classify(a) == Err(Timeout) <==>
      || (a.Responded? && (a.status == 408 || a.status == 504 || (a.status == 200 && a.body.BodyTimedOut?)))
      || (a.SendFailed? && a.isTimeout)
      || a.AttemptTimedOut?
    ensures a.Responded? && a.status !in {200, 403, 408, 429, 504} ==>
      Classify(a) == Err(NetworkError("HTTP error: " + StatusText(a.status, a.reason)))
    ensures a.Responded? && a.status == 200 && a.body.BodyReadError? ==>
      Classify(a) == Err(InvalidResponse(a.body.message))
    ensures a.SendFailed? && !a.isTimeout ==>
      Classify(a) == Err(NetworkError(if a.isConnect then "Connection failed" else a.message))
  {
  }

  /** The fixed inputs of one fetch. */
  datatype Plan = Plan(
    url: string,
    userAgent: string,
    baseDelay: nat,
    jitter: nat,
    maxRetries: nat,
    transport: nat -> Attempt)

  /**
   * Attempts n, n+1, ... of a fetch whose latest failure so far is `last`:
   * the result and the events they produce.
   */
  function Attempts(p: Plan, n: nat, last: Option<SearchError>): (Result<string, SearchError>, seq<Event>)
    decreases p.maxRetries - n
  {
    if n >= p.maxRetries then (Err(last.GetOr(Unknown)), [])
    else
      var step := AttemptStep(p, n);
      match Classify(p.transport(n))
      case Ok(text) => (Ok(text), step)
      case Err(e) =>
        var rest := Attempts(p, n + 1, Some(e));
        (rest.0, step + rest.1)
  }

  /** The events of attempt n: its pause, if any, then its request. */
  function AttemptStep(p: Plan, n: nat): seq<Event> {
    (if n > 0 then [Slept(p.baseDelay * n + p.jitter)] else []) + [Sent(p.url, p.userAgent)]
  }

  lemma AttemptsUnfold(p: Plan, n: nat, last: Option<SearchError>)
    requires n < p.maxRetries
    ensures Classify(p.transport(n)).Ok? ==>
      Attempts(p, n, last) == (Classify(p.transport(n)), AttemptStep(p, n))
    ensures Classify(p.transport(n)).Err? ==>
      var rest := Attempts(p, n + 1, Some(Classify(p.transport(n)).error));
      Attempts(p, n, last) == (rest.0, AttemptStep(p, n) + rest.1)
  {
  }

  /**
   * One more attempt keeps the loop's account: the run from attempt 0 is the
   * events so far followed by the run from the next attempt.
   */
  lemma AttemptsAdvance(p: Plan, n: nat, last: Option<SearchError>, done: seq<Event>)
    requires n < p.maxRetries
    requires Attempts(p, 0, None).0 == Attempts(p, n, last).0
    requires Attempts(p, 0, None).1 == done + Attempts(p, n, last).1
    ensures var o := Classify(p.transport(n));
      var done' := done + AttemptStep(p, n);
      && (o.Ok? ==> Attempts(p, 0, None) == (o, done'))
      && (o.Err? ==> Attempts(p, 0, None).0 == Attempts(p, n + 1, Some(o.error)).0)
      && (o.Err? ==> Attempts(p, 0, None).1 == done' + Attempts(p, n + 1, Some(o.error)).1)
  {
    AttemptsUnfold(p, n, last);
  }

  /** The plan an uncached fetch follows. */
  function PlanFor(url: string, c: SearchConfig, agent: nat, jitter: nat, transport: nat -> Attempt): Plan
    requires agent < |c.userAgents|
  {
    Plan(url, c.userAgents[agent], c.baseDelay, jitter, c.maxRetries, transport)
  }

  /**
   * An uncached fetch: the initial pause, then either the client-build
   * failure or the attempts.
   */
  function FetchMiss(p: Plan, buildError: Option<string>): (Result<string, SearchError>, seq<Event>) {
    var first := [Slept(p.baseDelay + p.jitter)];
    match buildError
    case Some(m) => (Err(Other("Failed to build client: " + m)), first)
    case None =>
      var run := Attempts(p, 0, None);
      (run.0, first + run.1)
  }

  /** The number of requests in a trace. */
  function Sends(ev: seq<Event>): nat {
    if ev == [] then 0 else (if ev[0].Sent? then 1 else 0) + Sends(ev[1..])
  }

  lemma SendsAppend(a: seq<Event>, b: seq<Event>)
    ensures Sends(a + b) == Sends(a) + Sends(b)
  {
    if a == [] {
      assert a + b == b;
    } else {
      assert (a + b)[0] == a[0];
      assert (a + b)[1..] == a[1..] + b;
      SendsAppend(a[1..], b);
    }
  }

  /**
   * The reference backoff schedule for `count` attempts starting at attempt
   * `from`: attempt n > 0 is preceded by a pause of `baseDelay * n + jitter`
   * milliseconds, attempt 0 by none.
   */
  function Schedule(p: Plan, from: nat, count: nat): seq<Event>
    decreases count
  {
    if count == 0 then []
    else (if from > 0 then [Slept(p.baseDelay * from + p.jitter)] else [])
         + [Sent(p.url, p.userAgent)] + Schedule(p, from + 1, count - 1)
  }

  /** Each attempt makes exactly one request. */
  lemma StepSends(p: Plan, n: nat)
    ensures Sends(AttemptStep(p, n)) == 1
  {
    var pause := if n > 0 then [Slept(p.baseDelay * n + p.jitter)] else [];
    SendsAppend(pause, [Sent(p.url, p.userAgent)]);
  }

  /** The events of the attempts from n on follow the backoff schedule, one request per attempt. */
  lemma {:induction false} AttemptsSchedule(p: Plan, n: nat, last: Option<SearchError>)
    requires n <= p.maxRetries
    ensures var ev := Attempts(p, n, last).1;
      Sends(ev) <= p.maxRetries - n && ev == Schedule(p, n, Sends(ev))
    decreases p.maxRetries - n
  {
    if n < p.maxRetries {
      AttemptsUnfold(p, n, last);
      StepSends(p, n);
      var o := Classify(p.transport(n));
      if o.Err? {
        AttemptsSchedule(p, n + 1, Some(o.error));
        SendsAppend(AttemptStep(p, n), Attempts(p, n + 1, Some(o.error)).1);
      } else {
        assert Schedule(p, n + 1, 0) == [];
      }
    }
  }

  /** A success comes from the last attempt made, every earlier one having failed. */
  lemma {:induction false} AttemptsSucceeded(p: Plan, n: nat, last: Option<SearchError>)
    requires n <= p.maxRetries
    ensures var (r, ev) := Attempts(p, n, last);
      var k := Sends(ev);
      r.Ok? ==> && k >= 1 && n + k <= p.maxRetries && r == Classify(p.transport(n + k - 1))
                && (forall i :: n <= i < n + k - 1 ==> Classify(p.transport(i)).Err?)
    decreases p.maxRetries - n
  {
    if n < p.maxRetries {
      AttemptsUnfold(p, n, last);
      StepSends(p, n);
      var o := Classify(p.transport(n));
      if o.Err? {
        AttemptsSucceeded(p, n + 1, Some(o.error));
        SendsAppend(AttemptStep(p, n), Attempts(p, n + 1, Some(o.error)).1);
      }
    }
  }

  /**
   * A failure means every attempt left was made and failed; it is the last
   * attempt's error, or the error carried in when no attempt was left.
   */
  lemma {:induction false} AttemptsExhausted(p: Plan, n: nat, last: Option<SearchError>)
    requires n <= p.maxRetries
    ensures var (r, ev) := Attempts(p, n, last);
      var k := Sends(ev);
      r.Err? ==> && n + k == p.maxRetries
                 && (forall i :: n <= i < p.maxRetries ==> Classify(p.transport(i)).Err?)
                 && (k == 0 ==> r == Err(last.GetOr(Unknown)))
                 && (k > 0 ==> r == Classify(p.transport(p.maxRetries - 1)))
    decreases p.maxRetries - n
  {
    if n < p.maxRetries {
      AttemptsUnfold(p, n, last);
      StepSends(p, n);
      var o := Classify(p.transport(n));
      if o.Err? {
        AttemptsExhausted(p, n + 1, Some(o.error));
        SendsAppend(AttemptStep(p, n), Attempts(p, n + 1, Some(o.error)).1);
      }
    }
  }

  /**
   * The attempts from n on: they follow the backoff schedule, make at most
   * the attempts left, stop at the first success and otherwise surface the
   * latest failure.
   */
  lemma AttemptsFrom(p: Plan, n: nat, last: Option<SearchError>)
    requires n <= p.maxRetries
    ensures var (r, ev) := Attempts(p, n, last);
      var k := Sends(ev);
      && k <= p.maxRetries - n
      && ev == Schedule(p, n, k)
      && (forall i :: n <= i < n + k - 1 ==> Classify(p.transport(i)).Err?)
      && (r.Ok? ==> k >= 1 && r == Classify(p.transport(n + k - 1)))
      && (r.Err? ==> n + k == p.maxRetries && (forall i :: n <= i < p.maxRetries ==> Classify(p.transport(i)).Err?))
      && (r.Err? && k == 0 ==> r == Err(last.GetOr(Unknown)))
      && (r.Err? && k > 0 ==> r == Classify(p.transport(p.maxRetries - 1)))
  {
    AttemptsSchedule(p, n, last);
    AttemptsSucceeded(p, n, last);
    AttemptsExhausted(p, n, last);
  }

  /**
   * The backoff schedule of an uncached fetch: one pause of
   * `baseDelay + jitter` before anything else, then k attempts (k at most
   * `maxRetries`), attempt n > 0 preceded by `baseDelay * n + jitter`.
   */
  lemma BackoffSchedule(p: Plan)
    ensures var (r, ev) := FetchMiss(p, None);
      var k := Sends(ev);
      k <= p.maxRetries && ev == [Slept(p.baseDelay + p.jitter)] + Schedule(p, 0, k)
  {
    AttemptsFrom(p, 0, None);
    var ev := FetchMiss(p, None).1;
    SendsAppend([Slept(p.baseDelay + p.jitter)], Attempts(p, 0, None).1);
  }

  /**
   * The result of an uncached fetch is the first successful attempt, or,
   * when all `maxRetries` attempts fail, the last attempt's error, or
   * `Unknown` when no attempt was made.
   */
  lemma LastErrorWins(p: Plan)
    ensures var (r, ev) := FetchMiss(p, None);
      var k := Sends(ev);
      && (forall i :: 0 <= i < k - 1 ==> Classify(p.transport(i)).Err?)
      && (r.Ok? ==> 1 <= k && r == Classify(p.transport(k - 1)))
      && (r.Err? ==> k == p.maxRetries && forall i :: 0 <= i < k ==> Classify(p.transport(i)).Err?)
      && (r.Err? && p.maxRetries == 0 ==> r == Err(Unknown))
      && (r.Err? && p.maxRetries > 0 ==> r == Classify(p.transport(p.maxRetries - 1)))
  {
    AttemptsFrom(p, 0, None);
    SendsAppend([Slept(p.baseDelay + p.jitter)], Attempts(p, 0, None).1);
  }

  /** A server that answers 429 to every attempt makes the fetch fail with `RateLimited`. */
  lemma AlwaysRateLimited(p: Plan)
    requires p.maxRetries > 0
    requires forall i :: p.transport(i).Responded? && p.transport(i).status == 429
    ensures FetchMiss(p, None).0 == Err(RateLimited)
  {
    LastErrorWins(p);
    assert p.transport(p.maxRetries - 1).status == 429;
  }

  /** The response cache and the trace of everything fetches did. */
  class Client {
    /** The shared response cache, url to body. */
    var cache: map<string, string>
    /** Every pause and request so far, in order. */
    ghost var trace: seq<Event>

    constructor ()
      ensures cache == map[] && trace == []
    {
      cache := map[];
      trace := [];
    }

    /** The cache dropping entries on its own (capacity or time-to-live). */
    method Evict(urls: set<string>)
      modifies this`cache
      ensures cache == old(cache) - urls
    {
      cache := cache - urls;
    }

    /**
     * `fetch_response_text(url)`. A cached url returns its body with no pause,
     * no user-agent choice and no request. Otherwise the fetch follows
     * `FetchMiss`, and only a success writes the cache.
     */
    method FetchText(url: string, c: SearchConfig, agent: nat, jitter: nat,
                     buildError: Option<string>, transport: nat -> Attempt)
      returns (r: Result<string, SearchError>)
      requires url !in cache ==> agent < |c.userAgents| && jitter < c.maxJitter
      modifies this
      ensures url in old(cache) ==>
        r == Ok(old(cache)[url]) && cache == old(cache) && trace == old(trace)
      ensures url !in old(cache) ==>
        var miss := FetchMiss(PlanFor(url, c, agent, jitter, transport), buildError);
        && r == miss.0
        && trace == old(trace) + miss.1
        && cache == (if r.Ok? then old(cache)[url := r.value] else old(cache))
    {
      if url in cache {
        return Ok(cache[url]);
      }
      var userAgent := c.userAgents[agent];
      trace := trace + [Slept(c.baseDelay + jitter)];
      if buildError.Some? {
        return Err(Other("Failed to build client: " + buildError.value));
      }
      r := RetryLoop(Plan(url, userAgent, c.baseDelay, jitter, c.maxRetries, transport));
      if r.Ok? {
        cache := cache[url := r.value];
      }
    }

    /**
     * The attempt loop of `fetch_response_text`, after the initial pause.
     * A success is stored in the cache by the caller.
     */
    method RetryLoop(p: Plan) returns (r: Result<string, SearchError>)
      modifies this`trace
      ensures r == Attempts(p, 0, None).0
      ensures trace == old(trace) + Attempts(p, 0, None).1
    {
      ghost var done: seq<Event> := [];
      var lastError: Option<SearchError> := None;
      for retry := 0 to p.maxRetries
        invariant trace == old(trace) + done
        invariant Attempts(p, 0, None).0 == Attempts(p, retry, lastError).0
        invariant Attempts(p, 0, None).1 == done + Attempts(p, retry, lastError).1
      {
        AttemptsAdvance(p, retry, lastError, done);
        var outcome := SendOnce(p, retry);
        done := done + AttemptStep(p, retry);
        if outcome.Ok? {
          assert old(trace) + done == old(trace) + Attempts(p, 0, None).1;
          return outcome;
        }
        lastError := Some(outcome.error);
      }
      r := Err(lastError.GetOr(Unknown));
    }

    /** Attempt n: its pause (none before the first), its request, and how it is classified. */
    method SendOnce(p: Plan, n: nat) returns (outcome: Result<string, SearchError>)
      modifies this`trace
      ensures outcome == Classify(p.transport(n))
      ensures trace == old(trace) + AttemptStep(p, n)
    {
      if n > 0 {
        trace := trace + [Slept(p.baseDelay * n + p.jitter)];
      }
      trace := trace + [Sent(p.url, p.userAgent)];
      outcome := Classify(p.transport(n));
    }
  }
}
