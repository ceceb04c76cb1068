/**
 * The older JavaScript API wrapper (src/api-wrapper.mjs). It differs from
 * the TypeScript one in the ways stated here: `initialize` writes the user
 * and the key into the caller's own object, the endpoint table has no
 * 'track' entry, a mocked 'addPeer' connection event is answered on the
 * spot, and the batcher reads the `event` and `eventData` fields.
 */
module LegacyApi {
  import opened JsValues
  import opened Delivery
  import Api

  /** The debounce delay of the connection-event batcher, in ms. */
  const ConnectionTimeoutValue: int := 500

  /** The endpoint table the older wrapper starts with. */
  const DefaultUrls: Json := JObj(map[
    "session" := JStr("/sessions"),
    "events-getusermedia" := JStr("/events/get-user-media"),
    "events-browser" := JStr("/events/browser"),
    "connection" := JStr("/connection"),
    "batch-connection" := JStr("/connection/batch"),
    "stats" := JStr("/stats")])

  /** The `data` object after `initialize` wrote the user and the key into it
      (an omitted argument starts as `{}`); null or a primitive cannot take
      the properties, and the assignment throws. */
  function InitializeData(data: Json, user: Api.User, apiKey: Json): (r: Result<Json>)
    requires !data.JArr?
    ensures r.Ok? <==> data.JUndefined? || data.JObj?
    ensures r.Ok? ==>
      && r.value.JObj?
      && r.value.fields.Keys == OwnEntries(data).Keys + {"userId", "userName", "apiKey"}
      && Get(r.value, "userId") == user.userId && Get(r.value, "userName") == user.userName
      && Get(r.value, "apiKey") == apiKey
      && forall k :: k in OwnEntries(data) && k !in {"userId", "userName", "apiKey"} ==>
           Get(r.value, k) == Get(data, k)
  {
    if data.JUndefined? || data.JObj? then
      Ok(JObj(OwnEntries(data)["userId" := user.userId]["userName" := user.userName]["apiKey" := apiKey]))
    else Fail(TypeError)
  }

  /** One entry of a flush, read from the event's `event`, `peerId` and
      `eventData` fields. */
  function ConnectionItem(ev: Json, pushed: int, now: int): Json
  {
    JObj(map["eventName" := Get(ev, "event"), "peerId" := Get(ev, "peerId"),
             "timeDelta" := JNum(now - pushed), "data" := Get(ev, "eventData")])
  }

  function ConnectionItems(events: seq<(Json, int)>, now: int): seq<Json>
  {
    seq(|events|, i requires 0 <= i < |events| => ConnectionItem(events[i].0, events[i].1, now))
  }

  function FlushCall(events: seq<(Json, int)>, urls: Json, now: int): Api.Call
  {
    if |events| == 1 then Api.Call(Get(urls, "connection"), ConnectionItem(events[0].0, events[0].1, now), Post)
    else Api.Call(Get(urls, "batch-connection"), JArr(ConnectionItems(events, now)), Post)
  }

  /** The SDK's events carry `eventName`, which this batcher does not read:
      every event it flushes goes out with an undefined `eventName` and an
      undefined `data`. */
  lemma FlushDropsEventNames(events: seq<(Json, int)>, urls: Json, now: int)
    requires forall i :: 0 <= i < |events| ==>
      "event" !in OwnEntries(events[i].0) && "eventData" !in OwnEntries(events[i].0)
    ensures var c := FlushCall(events, urls, now);
      var items := if |events| == 1 then [c.data] else c.data.items;
      && |items| == |events|
      && forall i :: 0 <= i < |events| ==>
           && Get(items[i], "eventName") == JUndefined
           && Get(items[i], "data") == JUndefined
           && Get(items[i], "peerId") == Get(events[i].0, "peerId")
           && Get(items[i], "timeDelta") == JNum(now - events[i].1)
  {
    var c := FlushCall(events, urls, now);
    var items := if |events| == 1 then [c.data] else c.data.items;
    forall i | 0 <= i < |events|
      ensures items[i] == ConnectionItem(events[i].0, events[i].1, now)
    {
    }
  }

  class ApiWrapper {
    const apiKey: Json
    const user: Api.User
    const mockRequests: bool

    var token: Json
    var urlsMap: Json
    var batchConnectionEvents: bool
    var connectionEvents: seq<(Json, int)>
    var connectionTimeout: Option<int>
    var issued: seq<Api.Call>

    constructor (apiKey: Json, user: Api.User, mockRequests: bool)
      ensures this.apiKey == apiKey && this.user == user && this.mockRequests == mockRequests
      ensures token == JStr("") && urlsMap == DefaultUrls && !batchConnectionEvents
      ensures connectionEvents == [] && connectionTimeout == None && issued == []
    {
      this.apiKey := apiKey;
      this.user := user;
      this.mockRequests := mockRequests;
      token := JStr("");
      urlsMap := DefaultUrls;
      batchConnectionEvents := false;
      connectionEvents := [];
      connectionTimeout := None;
      issued := [];
    }

    /** `initialize`: writes the user and the key into the caller's `data`
        (returned as `data'`) and sends it to '/initialize'; a truthy
        response updates the settings as in the TypeScript wrapper. */
    method Initialize(data: Json, response: Settled) returns (r: Result<Json>, data': Json)
      requires !data.JArr?
      modifies this
      ensures InitializeData(data, user, apiKey).Fail? ==>
        r == InitializeData(data, user, apiKey) && data' == data && issued == old(issued)
        && token == old(token) && urlsMap == old(urlsMap) && batchConnectionEvents == old(batchConnectionEvents)
      ensures InitializeData(data, user, apiKey).Ok? ==>
        && data' == InitializeData(data, user, apiKey).value
        && issued == old(issued) + [Api.Call(JStr("/initialize"), data', Post)]
        && (response.Rejected? ==> r == Fail(RejectedWith(response.reason)))
        && (response.Fulfilled? ==> r == Ok(response.value))
        && var applied := response.Fulfilled? && Truthy(response.value);
           && token == (if applied then Get(response.value, "token") else old(token))
           && urlsMap == (if applied && Truthy(Get(response.value, "urls"))
                          then Api.MergedUrls(old(urlsMap), Get(response.value, "urls")) else old(urlsMap))
           && batchConnectionEvents == (if applied && Get(response.value, "batchConnectionEvents").JBool?
                                        then Get(response.value, "batchConnectionEvents").b
                                        else old(batchConnectionEvents))
      ensures connectionEvents == old(connectionEvents) && connectionTimeout == old(connectionTimeout)
    {
      var prepared := InitializeData(data, user, apiKey);
      if prepared.Fail? {
        return prepared, data;
      }
      data' := prepared.value;
      issued := issued + [Api.Call(JStr("/initialize"), data', Post)];
      if response.Rejected? {
        return Fail(RejectedWith(response.reason)), data';
      }
      var resp := response.value;
      if Truthy(resp) {
        if Truthy(Get(resp, "urls")) {
          urlsMap := Api.MergedUrls(urlsMap, Get(resp, "urls"));
        }
        if Get(resp, "batchConnectionEvents").JBool? {
          batchConnectionEvents := Get(resp, "batchConnectionEvents").b;
        }
        token := Get(resp, "token");
      }
      r := Ok(resp);
    }

    /** `createSession`, as in the TypeScript wrapper. */
    method CreateSession(data: Json, response: Settled) returns (r: Result<Json>)
      modifies this
      ensures issued == old(issued) + [Api.Call(Get(old(urlsMap), "session"), data, Post)]
      ensures response.Rejected? ==> r == Fail(RejectedWith(response.reason)) && token == old(token)
      ensures response.Fulfilled? && Nullish(response.value) ==> r == Fail(TypeError) && token == old(token)
      ensures response.Fulfilled? && !Nullish(response.value) ==>
        r == Ok(JUndefined)
        && token == (if Truthy(Get(response.value, "token")) then Get(response.value, "token") else old(token))
      ensures urlsMap == old(urlsMap) && batchConnectionEvents == old(batchConnectionEvents)
      ensures connectionEvents == old(connectionEvents) && connectionTimeout == old(connectionTimeout)
    {
      issued := issued + [Api.Call(Get(urlsMap, "session"), data, Post)];
      if response.Rejected? {
        return Fail(RejectedWith(response.reason));
      }
      if Nullish(response.value) {
        return Fail(TypeError);
      }
      if Truthy(Get(response.value, "token")) {
        token := Get(response.value, "token");
      }
      r := Ok(JUndefined);
    }

    /** `sendCustomEvent`: one call to the 'events-browser' endpoint. */
    method SendCustomEvent(data: Json)
      modifies this`issued
      ensures issued == old(issued) + [Api.Call(Get(urlsMap, "events-browser"), Api.CustomEventBody(data), Post)]
    {
      issued := issued + [Api.Call(Get(urlsMap, "events-browser"), Api.CustomEventBody(data), Post)];
    }

    /** `sendConnectionEvent`: with batching off, a mocked 'addPeer' event is
        answered at once with `{peer_id: data.peerId}` and no request, any
        other event goes to the 'connection' endpoint; with batching on, the
        event is queued behind a fresh 500 ms timer. */
    method SendConnectionEvent(data: Json, now: int) returns (r: Api.Reply)
      modifies this`issued, this`connectionEvents, this`connectionTimeout
      ensures !batchConnectionEvents && mockRequests && Get(data, "eventName") == JStr("addPeer") ==>
        && r == Api.Immediate(JObj(map["peer_id" := Get(data, "peerId")]))
        && issued == old(issued)
        && connectionEvents == old(connectionEvents) && connectionTimeout == old(connectionTimeout)
      ensures !batchConnectionEvents && !(mockRequests && Get(data, "eventName") == JStr("addPeer")) ==>
        && issued == old(issued) + [Api.Call(Get(urlsMap, "connection"), data, Post)]
        && r == Api.Awaits(|old(issued)|)
        && connectionEvents == old(connectionEvents) && connectionTimeout == old(connectionTimeout)
      ensures batchConnectionEvents ==>
        && issued == old(issued) && r == Api.NoReply
        && connectionTimeout == Some(now + ConnectionTimeoutValue)
        && connectionEvents == old(connectionEvents) + [(data, now)]
    {
      if !batchConnectionEvents {
        if mockRequests && Get(data, "eventName") == JStr("addPeer") {
          return Api.Immediate(JObj(map["peer_id" := Get(data, "peerId")]));
        }
        r := Api.Awaits(|issued|);
        issued := issued + [Api.Call(Get(urlsMap, "connection"), data, Post)];
        return;
      }
      connectionTimeout := Some(now + ConnectionTimeoutValue);
      connectionEvents := connectionEvents + [(data, now)];
      r := Api.NoReply;
    }

    /** `sendBatchConnectionEvents`, run when the timer fires at `now`. */
    method SendBatchConnectionEvents(now: int)
      modifies this`issued, this`connectionEvents, this`connectionTimeout
      ensures connectionEvents == [] && connectionTimeout == None
      ensures issued == old(issued) + [FlushCall(old(connectionEvents), urlsMap, now)]
    {
      var events := connectionEvents;
      connectionEvents := [];
      connectionTimeout := None;
      issued := issued + [FlushCall(events, urlsMap, now)];
    }
  }

  /** With batching switched on by the server, `sendConnectionEvent` makes
      no request, even for the 'addPeer' event: the caller awaits
      undefined, whatever the server would have answered. */
  method BatchedConnectionEvent(data: Json, answer: Settled, now: int) returns (awaited: Settled, requests: nat)
    ensures awaited == Fulfilled(JUndefined)
    ensures requests == 1
  {
    var api := new ApiWrapper(JStr("key"), Api.User(JStr("u"), JStr("name")), false);
    var settings := JObj(map["batchConnectionEvents" := JBool(true), "token" := JStr("t")]);
    assert Get(settings, "batchConnectionEvents") == JBool(true);
    var init, sentData := api.Initialize(JObj(map[]), Fulfilled(settings));
    var reply := api.SendConnectionEvent(data, now);
    awaited := Api.Awaited(reply, answer);
    requests := |api.issued|;
  }
}
