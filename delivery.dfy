/**
 * The request delivery engine of the SDK's API wrapper: `makeRequest` and
 * the failure handler it falls back to. Both wrappers (the TypeScript one
 * and the older JavaScript module) share this code path; they differ in how
 * a failed response is classified and in what a mocked request answers,
 * which `Variant` selects.
 *
 * The network and the clock are inputs: attempt number k of one request is
 * made at time `env[k].now` and ends with `env[k].outcome`. The chain of
 * promises that re-runs `makeRequest` after each backoff timer becomes the
 * loop of `MakeRequest`, specified by the recursive function `Run`.
 */
module Delivery {
  import opened JsValues

  /** The first backoff; it is doubled before every retry. */
  const ExponentialBackoff: int := 500
  /** A retry whose doubled backoff exceeds this is not made. */
  const MaxExponentialBackoff: int := 60000

  const UnrecoverableErrors: seq<string> :=
    ["domain_not_allowed", "quota_exceeded", "invalid_api_key", "app_not_recording"]

  const BackoffExhausted: string := "request failed after exponential backoff"
  const StringifyFailed: string := "Could not stringify request data"

  /** Current: src/api-wrapper.ts. Legacy: src/api-wrapper.mjs. */
  datatype Variant = Current | Legacy

  /** Why a request failed. `body` is the error body parsed as JSON, or None
      when it is not JSON. */
  datatype Failure =
    | NetworkError(body: Option<Json>)           // an `Error`: offline or timed out
    | HttpError(status: int, body: Option<Json>) // the server answered with an error status

  datatype Outcome = Success(response: Json) | Failed(failure: Failure)

  /** One attempt: when it was made and how it ended. */
  datatype Attempt = Attempt(now: int, outcome: Outcome)

  datatype HttpMethod = Post | Put

  /** The options of one `makeRequest` call. `timestamp` is set by a retry.
      `data` is an object for every call except a batch of connection events,
      whose data is an array. */
  datatype Request = Request(path: Json, data: Json, timestamp: Option<int>, verb: HttpMethod)

  /** What the failure handler decides. */
  datatype Decision =
    | GiveUp(body: Json)          // unrecoverable error code: reject with the body
    | RetryAfter(backoff: int)    // wait `backoff` ms, then repeat the request
    | Exhausted                   // the next backoff is over the ceiling
    | Reject(body: Json)          // reject with the parsed body

  /** How a `makeRequest` call ends. `Awaiting` means the given attempts ran
      out while the request was still being retried. */
  datatype Delivered =
    | Answered(response: Json)
    | Refused(reason: Json)
    | Abandoned(message: string)
    | Awaiting

  /** The bodies sent, one per attempt, the backoff waited before each retry,
      and how the call ended. */
  datatype Trace = Trace(bodies: seq<Json>, waits: seq<int>, result: Delivered)

  /** A failure the handler retries: an `Error`, or a status strictly above 500. */
  predicate Retryable(f: Failure)
  {
    f.NetworkError? || f.status > 500
  }

  /** `this.unrecoverable.includes(body.error_code)` for the parsed body. */
  predicate Unrecoverable(f: Failure)
  {
    f.body.Some? && Get(f.body.value, "error_code").JStr?
    && Get(f.body.value, "error_code").s in UnrecoverableErrors
  }

  function ParsedOr(body: Option<Json>, fallback: Json): Json
  {
    if body.Some? then body.value else fallback
  }

  /** `_handleFailedRequest` (Current) and `handleFailedRequest` (Legacy) with
      the backoff the failed attempt was made with. The Legacy handler has
      no unrecoverable list and rejects with `{}` when the body is not JSON;
      the Current one rejects with `undefined` then. */
  function Classify(v: Variant, f: Failure, backoff: int): Decision
  {
    if v == Current && Unrecoverable(f) then GiveUp(f.body.value)
    else if Retryable(f) then
      if backoff * 2 > MaxExponentialBackoff then Exhausted else RetryAfter(backoff * 2)
    else if v == Current then Reject(ParsedOr(f.body, JUndefined))
    else Reject(ParsedOr(f.body, JObj(map[])))
  }

  /** `data.token = token`, done only for a truthy token. Only an object
      carries the new property into the request: on an array it becomes a
      property that `JSON.stringify` leaves out. */
  function WithToken(data: Json, token: Json): (r: Json)
    ensures data.JObj? && Truthy(token) ==> r == JObj(data.fields["token" := token])
    ensures !(data.JObj? && Truthy(token)) ==> r == data
  {
    if Truthy(token) then JsValues.Put(data, "token", token) else data
  }

  /** A timestamp counts only when it is truthy: a non-zero number. */
  function Stamp(v: Json): Option<int>
  {
    if v.JNum? && v.n != 0 then Some(v.n) else None
  }

  /** `timestamp || data.timestamp` */
  function GivenStamp(req: Request): Option<int>
  {
    if req.timestamp.Some? && req.timestamp.value != 0 then req.timestamp
    else Stamp(Get(req.data, "timestamp"))
  }

  datatype Decorated = Decorated(body: Json, stamp: int)

  /** What `makeRequest` writes into `data` before sending it at time `now`,
      and the timestamp it keeps for a retry. */
  function Decorate(req: Request, token: Json, now: int): Decorated
  {
    var data := WithToken(req.data, token);
    var given := if req.timestamp.Some? && req.timestamp.value != 0 then req.timestamp
                 else Stamp(Get(data, "timestamp"));
    if given.Some? then Decorated(JsValues.Put(data, "delta", JNum(now - given.value)), given.value)
    else Decorated(data, now)
  }

  /** The timestamp an attempt keeps is the one given (by the retried
      request, else by the data) or else the attempt's own time; `delta` is
      added, measured from it, only when one was given; the token is set
      as `WithToken` says. Data that is not an object (a batch's array) is
      sent as it was given: neither property reaches the request. */
  lemma DecorateStamp(req: Request, token: Json, now: int)
    ensures var d := Decorate(req, token, now);
      && (GivenStamp(req).Some? ==>
            d.stamp == GivenStamp(req).value
            && d.body == JsValues.Put(WithToken(req.data, token), "delta", JNum(now - d.stamp)))
      && (GivenStamp(req).None? ==> d.stamp == now && d.body == WithToken(req.data, token))
      && (req.data.JObj? ==>
            d.body.JObj? && Get(d.body, "token") == (if Truthy(token) then token else Get(req.data, "token")))
      && (!req.data.JObj? ==> d.body == req.data)
  {
    var data := WithToken(req.data, token);
    if !(req.timestamp.Some? && req.timestamp.value != 0) {
      if Truthy(token) {
        assert Get(data, "timestamp") == Get(req.data, "timestamp");
      }
    }
  }

  /** A mocked request answers `{peer_id: data.peerId}` to the Current
      wrapper's 'addConnection' event and `{}` to everything else. */
  function MockResponse(v: Variant, data: Json): Json
  {
    if v == Current && Get(data, "eventName") == JStr("addConnection")
    then JObj(map["peer_id" := Get(data, "peerId")])
    else JObj(map[])
  }

  function Prepend(bodies: seq<Json>, waits: seq<int>, t: Trace): Trace
  {
    Trace(bodies + t.bodies, waits + t.waits, t.result)
  }

  /** What follows one attempt: the call ends, or it is retried after the
      given backoff. */
  datatype Next = Done(result: Delivered) | Retry(backoff: int)

  /** The verdict on an attempt made with `backoff`. */
  function NextStep(v: Variant, o: Outcome, backoff: int): Next
  {
    match o
    case Success(r) => Done(Answered(r))
    case Failed(f) =>
      match Classify(v, f, backoff)
      case GiveUp(b) => Done(Refused(b))
      case Reject(b) => Done(Refused(b))
      case Exhausted => Done(Abandoned(BackoffExhausted))
      case RetryAfter(next) => Retry(next)
  }

  /** The attempts of one request that starts with `backoff`. */
  function Run(v: Variant, req: Request, token: Json, serialisable: bool, backoff: int, env: seq<Attempt>): Trace
    decreases |env|
  {
    if !serialisable then Trace([], [], Abandoned(StringifyFailed))
    else if |env| == 0 then Trace([], [], Awaiting)
    else
      var d := Decorate(req, token, env[0].now);
      match NextStep(v, env[0].outcome, backoff)
      case Done(result) => Trace([d.body], [], result)
      case Retry(next) =>
        Prepend([d.body], [next],
          Run(v, req.(data := d.body, timestamp := Some(d.stamp)), token, serialisable, next, env[1..]))
  }

  /** One attempt of a serialisable request, seen from a run that has
      already sent `bodies` and waited `waits`: the attempt either ends the
      whole run or adds its body and wait and leaves the rest to the
      repeated request. */
  lemma RunStep(v: Variant, req: Request, token: Json, backoff: int, env: seq<Attempt>, i: nat,
                bodies: seq<Json>, waits: seq<int>, whole: Trace)
    requires i < |env| && whole == Prepend(bodies, waits, Run(v, req, token, true, backoff, env[i..]))
    ensures var d := Decorate(req, token, env[i].now);
      var next := NextStep(v, env[i].outcome, backoff);
      && (next.Done? ==> whole == Trace(bodies + [d.body], waits, next.result))
      && (next.Retry? ==>
            whole == Prepend(bodies + [d.body], waits + [next.backoff],
                       Run(v, req.(data := d.body, timestamp := Some(d.stamp)), token, true, next.backoff, env[i + 1..])))
  {
    assert env[i..][0] == env[i] && env[i..][1..] == env[i + 1..];
    var d := Decorate(req, token, env[i].now);
    var next := NextStep(v, env[i].outcome, backoff);
    if next.Retry? {
      var rest := Run(v, req.(data := d.body, timestamp := Some(d.stamp)), token, true, next.backoff, env[i + 1..]);
      assert bodies + ([d.body] + rest.bodies) == (bodies + [d.body]) + rest.bodies;
      assert waits + ([next.backoff] + rest.waits) == (waits + [next.backoff]) + rest.waits;
    }
  }

  /** A whole `makeRequest` call: a mocked one answers at once; otherwise the
      first attempt uses the initial backoff. */
  function Deliver(v: Variant, req: Request, token: Json, mock: bool, serialisable: bool, env: seq<Attempt>): Trace
  {
    if mock then Trace([], [], Answered(MockResponse(v, WithToken(req.data, token))))
    else Run(v, req, token, serialisable, ExponentialBackoff, env)
  }

  /** `makeRequest` with its retries as a loop: each failed attempt is
      classified, and a retry repeats the same options with the decorated
      data, the kept timestamp and the doubled backoff. */
  method MakeRequest(v: Variant, req: Request, token: Json, mock: bool, serialisable: bool, env: seq<Attempt>)
    returns (t: Trace)
    ensures t == Deliver(v, req, token, mock, serialisable, env)
  {
    if mock {
      return Trace([], [], Answered(MockResponse(v, WithToken(req.data, token))));
    }
    if !serialisable {
      return Trace([], [], Abandoned(StringifyFailed));
    }
    t := Attempts(v, req, token, env);
  }

  /** A body that `JSON.stringify` rejects ends the request before any
      attempt, whatever the network would have done. */
  lemma UnserialisableNeverSent(v: Variant, req: Request, token: Json, env: seq<Attempt>)
    ensures Deliver(v, req, token, false, false, env) == Trace([], [], Abandoned(StringifyFailed))
  {
  }

  /** The attempts of a serialisable request, one per iteration, until one
      ends the call or the given attempts run out. */
  method Attempts(v: Variant, req: Request, token: Json, env: seq<Attempt>) returns (t: Trace)
    ensures t == Run(v, req, token, true, ExponentialBackoff, env)
  {
    var options := req;
    var backoff := ExponentialBackoff;
    var bodies: seq<Json> := [];
    var waits: seq<int> := [];
    ghost var whole := Run(v, req, token, true, ExponentialBackoff, env);
    assert env[0..] == env;
    var i := 0;
    while i < |env|
      invariant 0 <= i <= |env|
      invariant whole == Prepend(bodies, waits, Run(v, options, token, true, backoff, env[i..]))
      decreases |env| - i
    {
      var d := Decorate(options, token, env[i].now);
      var next := NextStep(v, env[i].outcome, backoff);
      RunStep(v, options, token, backoff, env, i, bodies, waits, whole);
      if next.Done? {
        return Trace(bodies + [d.body], waits, next.result);
      }
      bodies, waits := bodies + [d.body], waits + [next.backoff];
      options := options.(data := d.body, timestamp := Some(d.stamp));
      backoff := next.backoff;
      i := i + 1;
    }
    assert env[i..] == [];
    t := Trace(bodies, waits, Awaiting);
  }



  function Pow2(k: nat): nat
  {
    if k == 0 then 1 else 2 * Pow2(k - 1)
  }

  /** The request a retry repeats: the data as last sent and the kept timestamp. */
  function Retried(req: Request, d: Decorated): Request
  {
    req.(data := d.body, timestamp := Some(d.stamp))
  }

  /** One retry, unfolded: the attempt's body and wait come first, then the
      attempts of the repeated request with the doubled backoff. */
  lemma RetryStep(v: Variant, req: Request, token: Json, serialisable: bool, b: int, env: seq<Attempt>)
    requires |env| > 0 && serialisable && env[0].outcome.Failed?
    requires Classify(v, env[0].outcome.failure, b).RetryAfter?
    ensures var d := Decorate(req, token, env[0].now);
      Run(v, req, token, serialisable, b, env)
      == Prepend([d.body], [2 * b], Run(v, Retried(req, d), token, serialisable, 2 * b, env[1..]))
  {
  }

  /** A run whose first attempt is not retried sends at most that attempt's
      body and waits for nothing. */
  lemma RunEnds(v: Variant, req: Request, token: Json, serialisable: bool, b: int, env: seq<Attempt>)
    requires !(|env| > 0 && serialisable && env[0].outcome.Failed? && Classify(v, env[0].outcome.failure, b).RetryAfter?)
    ensures var t := Run(v, req, token, serialisable, b, env);
      && t.waits == [] && |t.bodies| <= 1 && |t.bodies| <= |env|
      && (|t.bodies| == 1 ==> t.bodies[0] == Decorate(req, token, env[0].now).body)
  {
  }

  /** The waits after a retry with backoff `b`: the doubled backoff, then
      the waits of the repeated request, which start from it. */
  lemma ShiftedWaits(b: int, waits: seq<int>, rest: seq<int>)
    requires waits == [2 * b] + rest && 2 * b <= MaxExponentialBackoff
    requires forall k :: 0 <= k < |rest| ==> rest[k] == 2 * b * Pow2(k + 1) && rest[k] <= MaxExponentialBackoff
    ensures forall k :: 0 <= k < |waits| ==> waits[k] == b * Pow2(k + 1) && waits[k] <= MaxExponentialBackoff
  {
    forall k | 0 <= k < |waits|
      ensures waits[k] == b * Pow2(k + 1) && waits[k] <= MaxExponentialBackoff
    {
      if k > 0 {
        assert waits[k] == rest[k - 1];
        assert 2 * b * Pow2(k) == b * (2 * Pow2(k)) == b * Pow2(k + 1);
      }
    }
  }

  /** Every retry of a request started with backoff b waits b * 2^(k+1) before
      attempt k + 1, and no wait is over the ceiling; there is at most one
      attempt more than there are waits. */
  lemma {:induction false} WaitsDouble(v: Variant, req: Request, token: Json, serialisable: bool, b: int, env: seq<Attempt>)
    ensures var t := Run(v, req, token, serialisable, b, env);
      && |t.bodies| <= |t.waits| + 1
      && forall k :: 0 <= k < |t.waits| ==> t.waits[k] == b * Pow2(k + 1) && t.waits[k] <= MaxExponentialBackoff
    decreases |env|
  {
    if |env| > 0 && serialisable && env[0].outcome.Failed? && Classify(v, env[0].outcome.failure, b).RetryAfter? {
      var d := Decorate(req, token, env[0].now);
      RetryStep(v, req, token, serialisable, b, env);
      WaitsDouble(v, Retried(req, d), token, serialisable, 2 * b, env[1..]);
      var rest := Run(v, Retried(req, d), token, serialisable, 2 * b, env[1..]);
      var t := Run(v, req, token, serialisable, b, env);
      ShiftedWaits(b, t.waits, rest.waits);
    } else {
      RunEnds(v, req, token, serialisable, b, env);
    }
  }

  lemma {:induction false} Pow2AtLeast128(n: nat)
    ensures n >= 7 ==> Pow2(n) >= 128
  {
    if n > 7 {
      Pow2AtLeast128(n - 1);
    }
  }

  /** With the initial backoff of 500 there are at most six waits. */
  lemma AtMostSixWaits(waits: seq<int>)
    requires forall k :: 0 <= k < |waits| ==> waits[k] == ExponentialBackoff * Pow2(k + 1) && waits[k] <= MaxExponentialBackoff
    ensures |waits| <= 6
    ensures forall k :: 0 <= k < |waits| ==> waits[k] == [1000, 2000, 4000, 8000, 16000, 32000][k]
  {
    assert Pow2(1) == 2 && Pow2(2) == 4 && Pow2(3) == 8;
    assert Pow2(4) == 16 && Pow2(5) == 32 && Pow2(6) == 64;
    Pow2AtLeast128(|waits|);
    if |waits| > 0 {
      assert waits[|waits| - 1] == 500 * Pow2(|waits|) <= 60000;
    }
  }

  /** Backoff sequence: a request is attempted at most 7 times, and the waits
      before its retries are 1000, 2000, 4000, 8000, 16000 and 32000 ms, in
      that order, for as many retries as are made. */
  lemma BackoffSchedule(v: Variant, req: Request, token: Json, mock: bool, serialisable: bool, env: seq<Attempt>)
    ensures var t := Deliver(v, req, token, mock, serialisable, env);
      && |t.bodies| <= 7
      && t.waits <= [1000, 2000, 4000, 8000, 16000, 32000]
  {
    var t := Deliver(v, req, token, mock, serialisable, env);
    if !mock {
      WaitsDouble(v, req, token, serialisable, ExponentialBackoff, env);
      AtMostSixWaits(t.waits);
    }
  }

  /** Attempts that are all retried: each failed with a retryable failure that
      (for the Current wrapper) carries no unrecoverable error code. */
  predicate AllRetried(v: Variant, env: seq<Attempt>, n: nat)
    requires n <= |env|
  {
    forall k :: 0 <= k < n ==>
      env[k].outcome.Failed? && Retryable(env[k].outcome.failure)
      && !(v == Current && Unrecoverable(env[k].outcome.failure))
  }

  /** The bounds on the backoff carry over to the doubled one, one retry
      fewer from exhaustion, and the doubled backoff is within the ceiling. */
  lemma DoubledWithin(b: int, m: nat)
    requires m >= 1 && b * Pow2(m) <= MaxExponentialBackoff < b * Pow2(m + 1)
    ensures 2 * b <= MaxExponentialBackoff
    ensures 2 * b * Pow2(m - 1) <= MaxExponentialBackoff < 2 * b * Pow2(m)
  {
    Pow2Positive(m - 1);
    assert Pow2(m) == 2 * Pow2(m - 1) && Pow2(m + 1) == 2 * Pow2(m);
    assert b * Pow2(m) == 2 * b * Pow2(m - 1);
    assert b * Pow2(m + 1) == 2 * b * Pow2(m);
    assert b > 0;
    assert 2 * b <= 2 * b * Pow2(m - 1);
  }

  /** Attempts that are all retried from backoff b, with the n-th over the
      ceiling, end the request after exactly n attempts as abandoned. */
  lemma {:induction false} ExhaustsAfter(v: Variant, req: Request, token: Json, b: int, env: seq<Attempt>, n: nat)
    requires 1 <= n <= |env| && AllRetried(v, env, n)
    requires b * Pow2(n - 1) <= MaxExponentialBackoff < b * Pow2(n)
    ensures var t := Run(v, req, token, true, b, env);
      |t.bodies| == n && t.result == Abandoned(BackoffExhausted)
    decreases n
  {
    var d := Decorate(req, token, env[0].now);
    var f := env[0].outcome.failure;
    if n == 1 {
      assert Classify(v, f, b) == Exhausted;
    } else {
      DoubledWithin(b, n - 1);
      assert Classify(v, f, b) == RetryAfter(b * 2);
      RetryStep(v, req, token, true, b, env);
      assert AllRetried(v, env[1..], n - 1) by {
        forall k | 0 <= k < n - 1
          ensures env[1..][k] == env[k + 1]
        {}
      }
      ExhaustsAfter(v, Retried(req, d), token, 2 * b, env[1..], n - 1);
    }
  }

  lemma {:induction false} Pow2Positive(k: nat)
    ensures Pow2(k) >= 1
  {
    if k > 0 {
      Pow2Positive(k - 1);
    }
  }

  /** When seven attempts in a row fail in a way that is retried, the seventh
      ends the request with 'request failed after exponential backoff' and
      no eighth attempt is made, whatever attempts follow. */
  lemma FailsAfterSixRetries(v: Variant, req: Request, token: Json, env: seq<Attempt>)
    requires |env| >= 7 && AllRetried(v, env, 7)
    ensures var t := Deliver(v, req, token, false, true, env);
      && |t.bodies| == 7
      && t.waits == [1000, 2000, 4000, 8000, 16000, 32000]
      && t.result == Abandoned(BackoffExhausted)
  {
    var t := Deliver(v, req, token, false, true, env);
    assert Pow2(6) == 64 && Pow2(7) == 128;
    ExhaustsAfter(v, req, token, ExponentialBackoff, env, 7);
    WaitsDouble(v, req, token, true, ExponentialBackoff, env);
    AtMostSixWaits(t.waits);
  }

  /** Unrecoverable codes: an error body whose `error_code` is on the list
      rejects the Current wrapper's request with that body after the one
      attempt, whatever the status, even one that would be retried. */
  lemma UnrecoverableNotRetried(req: Request, token: Json, b: int, env: seq<Attempt>)
    requires |env| > 0 && env[0].outcome.Failed? && Unrecoverable(env[0].outcome.failure)
    ensures var t := Run(Current, req, token, true, b, env);
      |t.bodies| == 1 && t.waits == [] && t.result == Refused(env[0].outcome.failure.body.value)
  {
  }

  /** The Legacy handler has no unrecoverable list: a retryable failure is
      retried after 1000 ms whatever its error code. */
  lemma LegacyRetriesUnrecoverable(req: Request, token: Json, env: seq<Attempt>)
    requires |env| > 1 && env[0].outcome.Failed? && Retryable(env[0].outcome.failure)
    ensures var t := Run(Legacy, req, token, true, ExponentialBackoff, env);
      |t.bodies| >= 1 && |t.waits| >= 1 && t.waits[0] == 1000
  {
    RetryStep(Legacy, req, token, true, ExponentialBackoff, env);
  }

  /** A failure that is neither retryable nor unrecoverable (status 500 and
      below) rejects after one attempt with the parsed body; when the body is
      not JSON the Current wrapper rejects with undefined and the Legacy one
      with `{}`. */
  lemma NotRetriedAtOrBelow500(v: Variant, req: Request, token: Json, b: int, env: seq<Attempt>)
    requires |env| > 0 && env[0].outcome.Failed?
    requires env[0].outcome.failure.HttpError? && env[0].outcome.failure.status <= 500
    requires !(v == Current && Unrecoverable(env[0].outcome.failure))
    ensures var t := Run(v, req, token, true, b, env);
      var body := env[0].outcome.failure.body;
      && |t.bodies| == 1 && t.waits == []
      && t.result == Refused(if body.Some? then body.value else if v == Current then JUndefined else JObj(map[]))
  {
  }

  /** The deltas of the attempts after the first: those of the repeated
      request, whose attempts are `env[1..]`. */
  lemma DeltasAfterFirst(t: Trace, first: Json, wait: int, rest: Trace, env: seq<Attempt>, stamp: int)
    requires |env| > 0 && t == Prepend([first], [wait], rest) && |rest.bodies| <= |env| - 1
    requires forall k :: 0 <= k < |rest.bodies| ==> Get(rest.bodies[k], "delta") == JNum(env[1..][k].now - stamp)
    ensures |t.bodies| <= |env|
    ensures forall k :: 1 <= k < |t.bodies| ==> Get(t.bodies[k], "delta") == JNum(env[k].now - stamp)
    ensures Get(first, "delta") == JNum(env[0].now - stamp) ==>
      forall k :: 0 <= k < |t.bodies| ==> Get(t.bodies[k], "delta") == JNum(env[k].now - stamp)
  {
    forall k | 1 <= k < |t.bodies|
      ensures Get(t.bodies[k], "delta") == JNum(env[k].now - stamp)
    {
      assert t.bodies[k] == rest.bodies[k - 1];
      assert env[1..][k - 1] == env[k];
    }
  }

  /** Once a request carries a non-zero timestamp, every attempt is sent with
      `delta` measured from it, and the timestamp passed on stays the same. */
  lemma {:induction false} DeltaFromKeptStamp(v: Variant, req: Request, token: Json, serialisable: bool, b: int,
                                              env: seq<Attempt>, stamp: int)
    requires stamp != 0 && req.timestamp == Some(stamp) && req.data.JObj?
    ensures var t := Run(v, req, token, serialisable, b, env);
      |t.bodies| <= |env|
      && forall k :: 0 <= k < |t.bodies| ==> Get(t.bodies[k], "delta") == JNum(env[k].now - stamp)
    decreases |env|
  {
    if |env| == 0 {
      return;
    }
    var d := Decorate(req, token, env[0].now);
    DecorateStamp(req, token, env[0].now);
    if serialisable && env[0].outcome.Failed? && Classify(v, env[0].outcome.failure, b).RetryAfter? {
      RetryStep(v, req, token, serialisable, b, env);
      DeltaFromKeptStamp(v, Retried(req, d), token, serialisable, 2 * b, env[1..], stamp);
      var rest := Run(v, Retried(req, d), token, serialisable, 2 * b, env[1..]);
      var t := Run(v, req, token, serialisable, b, env);
      DeltasAfterFirst(t, d.body, 2 * b, rest, env, stamp);
    } else {
      RunEnds(v, req, token, serialisable, b, env);
    }
  }

  /** Timestamps and delta: every retry carries `delta` measured from the
      timestamp the first attempt kept (the given one, or the first attempt's
      own time when none was given), not from the time of the retried attempt. */
  lemma RetryDeltaFromFirstAttempt(v: Variant, req: Request, token: Json, b: int, env: seq<Attempt>)
    requires |env| > 0 && Decorate(req, token, env[0].now).stamp != 0 && req.data.JObj?
    ensures var t := Run(v, req, token, true, b, env);
      var first := Decorate(req, token, env[0].now).stamp;
      && |t.bodies| <= |env|
      && forall k :: 1 <= k < |t.bodies| ==> Get(t.bodies[k], "delta") == JNum(env[k].now - first)
  {
    if env[0].outcome.Failed? && Classify(v, env[0].outcome.failure, b).RetryAfter? {
      RetriedDeltas(v, req, token, b, env);
    } else {
      RunEnds(v, req, token, true, b, env);
    }
  }

  lemma RetriedDeltas(v: Variant, req: Request, token: Json, b: int, env: seq<Attempt>)
    requires |env| > 0 && Decorate(req, token, env[0].now).stamp != 0 && req.data.JObj?
    requires env[0].outcome.Failed? && Classify(v, env[0].outcome.failure, b).RetryAfter?
    ensures var t := Run(v, req, token, true, b, env);
      var first := Decorate(req, token, env[0].now).stamp;
      && |t.bodies| <= |env|
      && forall k :: 1 <= k < |t.bodies| ==> Get(t.bodies[k], "delta") == JNum(env[k].now - first)
  {
    var d := Decorate(req, token, env[0].now);
    RetryStep(v, req, token, true, b, env);
    DeltaFromKeptStamp(v, Retried(req, d), token, true, 2 * b, env[1..], d.stamp);
    var rest := Run(v, Retried(req, d), token, true, 2 * b, env[1..]);
    var t := Run(v, req, token, true, b, env);
    DeltasAfterFirst(t, d.body, 2 * b, rest, env, d.stamp);
  }

  /** Token handling: every attempt of a request whose data is an object is
      sent with the wrapper's token when it is truthy; with a falsy token the
      data's own `token` is left as it was. */
  lemma {:induction false} TokenOnEveryAttempt(v: Variant, req: Request, token: Json, serialisable: bool, b: int,
                                               env: seq<Attempt>)
    requires req.data.JObj?
    ensures var t := Run(v, req, token, serialisable, b, env);
      forall k :: 0 <= k < |t.bodies| ==>
        Get(t.bodies[k], "token") == (if Truthy(token) then token else Get(req.data, "token"))
    decreases |env|
  {
    if |env| == 0 {
      return;
    }
    var want := if Truthy(token) then token else Get(req.data, "token");
    var d := Decorate(req, token, env[0].now);
    DecorateStamp(req, token, env[0].now);
    if serialisable && env[0].outcome.Failed? && Classify(v, env[0].outcome.failure, b).RetryAfter? {
      RetryStep(v, req, token, serialisable, b, env);
      TokenOnEveryAttempt(v, Retried(req, d), token, serialisable, 2 * b, env[1..]);
      var rest := Run(v, Retried(req, d), token, serialisable, 2 * b, env[1..]);
      var t := Run(v, req, token, serialisable, b, env);
      SameTokens(t, d.body, 2 * b, rest, want);
    } else {
      RunEnds(v, req, token, serialisable, b, env);
    }
  }

  lemma SameTokens(t: Trace, first: Json, wait: int, rest: Trace, want: Json)
    requires t == Prepend([first], [wait], rest) && Get(first, "token") == want
    requires forall k :: 0 <= k < |rest.bodies| ==> Get(rest.bodies[k], "token") == want
    ensures forall k :: 0 <= k < |t.bodies| ==> Get(t.bodies[k], "token") == want
  {
    forall k | 0 <= k < |t.bodies|
      ensures Get(t.bodies[k], "token") == want
    {
      if k > 0 {
        assert t.bodies[k] == rest.bodies[k - 1];
      }
    }
  }

  /** Data that is not an object (the array of a batch of connection events)
      goes out unchanged on every attempt: the token and the delta written
      into it are properties of the array that `JSON.stringify` leaves out. */
  lemma {:induction false} NonObjectDataSentAsIs(v: Variant, req: Request, token: Json, serialisable: bool, b: int,
                                                 env: seq<Attempt>)
    requires !req.data.JObj?
    ensures forall k :: 0 <= k < |Run(v, req, token, serialisable, b, env).bodies| ==>
      Run(v, req, token, serialisable, b, env).bodies[k] == req.data
    decreases |env|
  {
    if |env| == 0 {
      return;
    }
    var d := Decorate(req, token, env[0].now);
    DecorateStamp(req, token, env[0].now);
    if serialisable && env[0].outcome.Failed? && Classify(v, env[0].outcome.failure, b).RetryAfter? {
      RetryStep(v, req, token, serialisable, b, env);
      NonObjectDataSentAsIs(v, Retried(req, d), token, serialisable, 2 * b, env[1..]);
      var rest := Run(v, Retried(req, d), token, serialisable, 2 * b, env[1..]);
      var t := Run(v, req, token, serialisable, b, env);
      forall k | 0 <= k < |t.bodies|
        ensures t.bodies[k] == req.data
      {
        if k > 0 {
          assert t.bodies[k] == rest.bodies[k - 1];
        }
      }
    } else {
      RunEnds(v, req, token, serialisable, b, env);
    }
  }
}
