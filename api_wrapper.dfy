/**
 * The TypeScript API wrapper (src/api-wrapper.ts): the session settings it
 * keeps (token, endpoint table, batching flag), the debounce batcher for
 * connection events, and the calls it hands to `makeRequest`.
 *
 * Every `makeRequest` call is appended to `issued`; what happens to one
 * call on the network is `Delivery.MakeRequest`. An operation that awaits
 * its request takes how that request settled as an input.
 */
module Api {
  import opened JsValues
  import opened Delivery

  /** The debounce delay of the connection-event batcher, in ms. */
  const ConnectionTimeoutValue: int := 500

  /** The endpoint table the TypeScript wrapper starts with. */
  const DefaultUrls: Json := JObj(map[
    "session" := JStr("/sessions"),
    "events-getusermedia" := JStr("/events/get-user-media"),
    "events-browser" := JStr("/events/browser"),
    "connection" := JStr("/connection"),
    "batch-connection" := JStr("/connection/batch"),
    "stats" := JStr("/stats"),
    "track" := JStr("/tracks")])

  datatype User = User(userId: Json, userName: Json)

  /** One call of `makeRequest`: the path, the data and the HTTP method. */
  datatype Call = Call(path: Json, data: Json, verb: HttpMethod)

  /** What `sendConnectionEvent` returns: undefined, the promise of the call
      at that index of `issued`, or (in the older wrapper) a value. */
  datatype Reply = NoReply | Awaits(call: nat) | Immediate(value: Json)

  /** How a delivered request settles the promise `makeRequest` returns;
      None while it is still being retried. */
  function Settlement(d: Delivered): Option<Settled>
  {
    match d
    case Answered(r) => Some(Fulfilled(r))
    case Refused(b) => Some(Rejected(b))
    case Abandoned(m) => Some(Rejected(JObj(map["message" := JStr(m)])))
    case Awaiting => None
  }

  /** The promise of a request whose data `JSON.stringify` rejects is
      already rejected with that message, whatever the network would do. */
  lemma UnserialisableRejected(v: Variant, req: Request, token: Json, env: seq<Attempt>)
    ensures Settlement(Deliver(v, req, token, false, false, env).result)
      == Some(Rejected(JObj(map["message" := JStr(StringifyFailed)])))
  {
    UnserialisableNeverSent(v, req, token, env);
  }

  /** `{urlsMap, ...urls}`: the old table is kept under the key 'urlsMap' and
      the table holds only the endpoints the server sent. */
  function MergedUrls(table: Json, urls: Json): (r: Json)
    ensures r.JObj?
    ensures forall k :: k != "urlsMap" ==> Get(r, k) == Get(urls, k)
    ensures Get(r, "urlsMap") == if "urlsMap" in OwnEntries(urls) then OwnEntries(urls)["urlsMap"] else table
  {
    JObj(map["urlsMap" := table] + OwnEntries(urls))
  }

  /** The body `sendCustomEvent` sends: the event name, or 'custom' when it
      has none, and the caller's whole object under `data`. */
  function CustomEventBody(data: Json): (r: Json)
    ensures Get(r, "data") == data
    ensures Truthy(Get(data, "eventName")) ==> Get(r, "eventName") == Get(data, "eventName")
    ensures !Truthy(Get(data, "eventName")) ==> Get(r, "eventName") == JStr("custom")
  {
    JObj(map["eventName" := if Truthy(Get(data, "eventName")) then Get(data, "eventName") else JStr("custom"),
             "data" := data])
  }

  /** One entry of a flush: `{eventName, peerId, timeDelta, data}` from the
      event pushed at `pushed`, flushed at `now`. */
  function ConnectionItem(ev: Json, pushed: int, now: int): Json
  {
    JObj(map["eventName" := Get(ev, "eventName"), "peerId" := Get(ev, "peerId"),
             "timeDelta" := JNum(now - pushed), "data" := Get(ev, "data")])
  }

  /** `events.map(...)` in `_handleBatchConnectionEvents`. */
  function ConnectionItems(events: seq<(Json, int)>, now: int): seq<Json>
  {
    seq(|events|, i requires 0 <= i < |events| => ConnectionItem(events[i].0, events[i].1, now))
  }

  /** The one call a flush makes: a single event goes to 'connection', any
      other number of events (none included) to 'batch-connection'. */
  function FlushCall(events: seq<(Json, int)>, urls: Json, now: int): Call
  {
    if |events| == 1 then Call(Get(urls, "connection"), ConnectionItem(events[0].0, events[0].1, now), Post)
    else Call(Get(urls, "batch-connection"), JArr(ConnectionItems(events, now)), Post)
  }

  /** Flush: the events keep their arrival order, and each is sent as exactly
      `{eventName, peerId, timeDelta, data}` with `timeDelta = now - pushTime`;
      the event's `connectionId` is not sent. */
  lemma FlushPayload(events: seq<(Json, int)>, urls: Json, now: int)
    ensures var c := FlushCall(events, urls, now);
      var items := if |events| == 1 then [c.data] else c.data.items;
      && (|events| == 1 ==> c.path == Get(urls, "connection"))
      && (|events| != 1 ==> c.path == Get(urls, "batch-connection") && c.data.JArr?)
      && |items| == |events|
      && forall i :: 0 <= i < |events| ==>
           && items[i].JObj?
           && items[i].fields.Keys == {"eventName", "peerId", "timeDelta", "data"}
           && Get(items[i], "eventName") == Get(events[i].0, "eventName")
           && Get(items[i], "peerId") == Get(events[i].0, "peerId")
           && Get(items[i], "timeDelta") == JNum(now - events[i].1)
           && Get(items[i], "data") == Get(events[i].0, "data")
  {
    var c := FlushCall(events, urls, now);
    var items := if |events| == 1 then [c.data] else c.data.items;
    forall i | 0 <= i < |events|
      ensures items[i] == ConnectionItem(events[i].0, events[i].1, now)
    {
    }
  }

  /** A batch is sent as an array, and `data.token = token` on an array is
      lost when the array is serialised: every attempt of a
      'batch-connection' request carries exactly the array of events and
      no token. */
  lemma BatchSentWithoutToken(events: seq<(Json, int)>, urls: Json, now: int, v: Variant, token: Json,
                              mock: bool, serialisable: bool, env: seq<Attempt>)
    requires |events| != 1
    ensures var c := FlushCall(events, urls, now);
      var t := Deliver(v, Request(c.path, c.data, None, c.verb), token, mock, serialisable, env);
      forall k :: 0 <= k < |t.bodies| ==> t.bodies[k] == c.data && Get(t.bodies[k], "token") == JUndefined
  {
    var c := FlushCall(events, urls, now);
    assert c.data.JArr?;
    if !mock {
      var req := Request(c.path, c.data, None, c.verb);
      var t := Run(v, req, token, serialisable, ExponentialBackoff, env);
      assert Deliver(v, req, token, mock, serialisable, env) == t;
      forall k | 0 <= k < |t.bodies|
        ensures t.bodies[k] == c.data && Get(t.bodies[k], "token") == JUndefined
      {
        NonObjectDataSentAsIs(v, req, token, serialisable, ExponentialBackoff, env);
      }
    } else {
      assert Deliver(v, Request(c.path, c.data, None, c.verb), token, mock, serialisable, env).bodies == [];
    }
  }

  /** The value `await` gives for a reply: undefined when the wrapper
      returned nothing, the value itself, or how the awaited call settled. */
  function Awaited(reply: Reply, settled: Settled): (s: Settled)
    ensures reply.NoReply? ==> s == Fulfilled(JUndefined)
    ensures reply.Immediate? ==> s == Fulfilled(reply.value)
    ensures reply.Awaits? ==> s == settled
  {
    match reply
    case NoReply => Fulfilled(JUndefined)
    case Immediate(v) => Fulfilled(v)
    case Awaits(_) => settled
  }

  class ApiWrapper {
    const apiKey: Json
    const user: User
    const mockRequests: bool

    /** The session token; the source keeps it in a module variable. */
    var token: Json
    /** The endpoint table; a module variable in the source. */
    var urlsMap: Json
    var batchConnectionEvents: bool
    /** The pending `[data, pushTime]` pairs of the batcher. */
    var connectionEvents: seq<(Json, int)>
    /** When the pending debounce timer fires; None when no timer is pending. */
    var connectionTimeout: Option<int>
    /** Every `makeRequest` call, in the order made. */
    var issued: seq<Call>

    constructor (apiKey: Json, user: User, mockRequests: bool)
      ensures this.apiKey == apiKey && this.user == user && this.mockRequests == mockRequests
      ensures token == JStr("") && urlsMap == DefaultUrls && !batchConnectionEvents
      ensures connectionEvents == [] && connectionTimeout == None && issued == []
    {
      this.apiKey := apiKey;
      this.user := user;
      this.mockRequests := mockRequests;
      token := JStr("");
      urlsMap := DefaultUrls;
      batchConnectionEvents := false;
      connectionEvents := [];
      connectionTimeout := None;
      issued := [];
    }

    /** `initialize`: sends a copy of `data` with the user and the API key to
        the fixed '/initialize' path; when the response is truthy, merges its
        `urls`, takes its boolean `batchConnectionEvents` and overwrites the
        token with its `token`, whatever that is. */
    method Initialize(data: Json, response: Settled) returns (r: Result<Json>)
      modifies this
      ensures issued == old(issued) + [Call(JStr("/initialize"),
        JObj(OwnEntries(data)["userId" := user.userId]["userName" := user.userName]["apiKey" := apiKey]), Post)]
      ensures response.Rejected? ==> r == Fail(RejectedWith(response.reason))
      ensures response.Fulfilled? ==> r == Ok(response.value)
      ensures var applied := response.Fulfilled? && Truthy(response.value);
        && token == (if applied then Get(response.value, "token") else old(token))
        && urlsMap == (if applied && Truthy(Get(response.value, "urls"))
                       then MergedUrls(old(urlsMap), Get(response.value, "urls")) else old(urlsMap))
        && batchConnectionEvents == (if applied && Get(response.value, "batchConnectionEvents").JBool?
                                     then Get(response.value, "batchConnectionEvents").b
                                     else old(batchConnectionEvents))
      ensures connectionEvents == old(connectionEvents) && connectionTimeout == old(connectionTimeout)
    {
      var toSend := JObj(OwnEntries(data)["userId" := user.userId]["userName" := user.userName]["apiKey" := apiKey]);
      issued := issued + [Call(JStr("/initialize"), toSend, Post)];
      if response.Rejected? {
        return Fail(RejectedWith(response.reason));
      }
      var resp := response.value;
      if Truthy(resp) {
        if Truthy(Get(resp, "urls")) {
          urlsMap := MergedUrls(urlsMap, Get(resp, "urls"));
        }
        if Get(resp, "batchConnectionEvents").JBool? {
          batchConnectionEvents := Get(resp, "batchConnectionEvents").b;
        }
        token := Get(resp, "token");
      }
      r := Ok(resp);
    }

    /** `createSession`: sends `data` to the 'session' endpoint and replaces
        the token only when the response carries a truthy one; a null or
        undefined response makes the promise reject with a TypeError. */
    method CreateSession(data: Json, response: Settled) returns (r: Result<Json>)
      modifies this
      ensures issued == old(issued) + [Call(Get(old(urlsMap), "session"), data, Post)]
      ensures response.Rejected? ==> r == Fail(RejectedWith(response.reason)) && token == old(token)
      ensures response.Fulfilled? && Nullish(response.value) ==> r == Fail(TypeError) && token == old(token)
      ensures response.Fulfilled? && !Nullish(response.value) ==>
        r == Ok(JUndefined)
        && token == (if Truthy(Get(response.value, "token")) then Get(response.value, "token") else old(token))
      ensures urlsMap == old(urlsMap) && batchConnectionEvents == old(batchConnectionEvents)
      ensures connectionEvents == old(connectionEvents) && connectionTimeout == old(connectionTimeout)
    {
      issued := issued + [Call(Get(urlsMap, "session"), data, Post)];
      if response.Rejected? {
        return Fail(RejectedWith(response.reason));
      }
      if Nullish(response.value) {
        return Fail(TypeError);
      }
      if Truthy(Get(response.value, "token")) {
        token := Get(response.value, "token");
      }
      r := Ok(JUndefined);
    }

    /** `sendCustomEvent`: one call to the 'events-browser' endpoint. */
    method SendCustomEvent(data: Json)
      modifies this`issued
      ensures issued == old(issued) + [Call(Get(urlsMap, "events-browser"), CustomEventBody(data), Post)]
    {
      issued := issued + [Call(Get(urlsMap, "events-browser"), CustomEventBody(data), Post)];
    }

    /** `sendTrackEvent` returns a resolved promise before its request is
        built: it never issues a call and changes nothing. */
    method SendTrackEvent(data: Json) returns (r: Result<Json>)
      ensures r == Ok(JUndefined)
    {
      r := Ok(JUndefined);
    }

    /** `sendConnectionEvent`: with batching off the event goes straight to
        the 'connection' endpoint; with batching on, any pending timer is
        cancelled, one new timer is armed to fire 500 ms from now, and
        `[data, now]` is appended, without any request. */
    method SendConnectionEvent(data: Json, now: int) returns (r: Reply)
      modifies this`issued, this`connectionEvents, this`connectionTimeout
      ensures !batchConnectionEvents ==>
        && issued == old(issued) + [Call(Get(urlsMap, "connection"), data, Post)]
        && r == Awaits(|old(issued)|)
        && connectionEvents == old(connectionEvents) && connectionTimeout == old(connectionTimeout)
      ensures batchConnectionEvents ==>
        && issued == old(issued) && r == NoReply
        && connectionTimeout == Some(now + ConnectionTimeoutValue)
        && connectionEvents == old(connectionEvents) + [(data, now)]
    {
      if !batchConnectionEvents {
        r := Awaits(|issued|);
        issued := issued + [Call(Get(urlsMap, "connection"), data, Post)];
        return;
      }
      connectionTimeout := Some(now + ConnectionTimeoutValue);
      connectionEvents := connectionEvents + [(data, now)];
      r := NoReply;
    }

    /** `sendBatchConnectionEvents`, run when the timer fires at `now`: the
        list is copied and emptied, the timer cleared, and one call made. */
    method SendBatchConnectionEvents(now: int)
      modifies this`issued, this`connectionEvents, this`connectionTimeout
      ensures connectionEvents == [] && connectionTimeout == None
      ensures issued == old(issued) + [FlushCall(old(connectionEvents), urlsMap, now)]
    {
      var events := connectionEvents;
      connectionEvents := [];
      connectionTimeout := None;
      issued := issued + [FlushCall(events, urlsMap, now)];
    }
  }

  /** Two connection events pushed 100 ms apart with batching switched on by
      the server make no request until the timer armed by the second one
      fires; then one 'batch-connection' request carries both, in order,
      each with its own `timeDelta`. */
  method DebounceScenario(e1: Json, e2: Json, t0: int) returns (calls: seq<Call>, fireAt: int)
    ensures fireAt == t0 + 600
    ensures |calls| == 1
    ensures calls[0].path == JStr("/connection/batch")
    ensures calls[0].data == JArr([ConnectionItem(e1, t0, t0 + 600), ConnectionItem(e2, t0 + 100, t0 + 600)])
  {
    var api := new ApiWrapper(JStr("key"), User(JStr("u"), JStr("name")), false);
    var settings := JObj(map["batchConnectionEvents" := JBool(true), "token" := JStr("t")]);
    assert Get(settings, "batchConnectionEvents") == JBool(true) && !Truthy(Get(settings, "urls"));
    var init := api.Initialize(JObj(map[]), Fulfilled(settings));
    assert api.batchConnectionEvents && api.urlsMap == DefaultUrls;
    var before := api.issued;
    var r1 := api.SendConnectionEvent(e1, t0);
    var r2 := api.SendConnectionEvent(e2, t0 + 100);
    assert api.issued == before && api.connectionEvents == [(e1, t0), (e2, t0 + 100)];
    fireAt := api.connectionTimeout.value;
    api.SendBatchConnectionEvents(fireAt);
    calls := api.issued[|before|..];
    assert Get(DefaultUrls, "batch-connection") == JStr("/connection/batch");
    assert ConnectionItems([(e1, t0), (e2, t0 + 100)], fireAt)
        == [ConnectionItem(e1, t0, fireAt), ConnectionItem(e2, t0 + 100, fireAt)];
  }

  /** With batching switched on by the server, `sendConnectionEvent` makes
      no request: the caller awaits undefined, whatever the server would
      have answered, and only '/initialize' went out. */
  method BatchedConnectionEvent(data: Json, answer: Settled, now: int) returns (awaited: Settled, requests: nat)
    ensures awaited == Fulfilled(JUndefined)
    ensures requests == 1
  {
    var api := new ApiWrapper(JStr("key"), User(JStr("u"), JStr("name")), false);
    var settings := JObj(map["batchConnectionEvents" := JBool(true), "token" := JStr("t")]);
    assert Get(settings, "batchConnectionEvents") == JBool(true);
    var init := api.Initialize(JObj(map[]), Fulfilled(settings));
    var reply := api.SendConnectionEvent(data, now);
    awaited := Awaited(reply, answer);
    requests := |api.issued|;
  }
}
