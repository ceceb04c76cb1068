/**
 * The payloads `PeerMetrics` builds from the timeline events of the stats
 * library (src/index.ts and src/index.js). A handler that throws a
 * TypeError on a malformed event yields `Fail(TypeError)`.
 */
module Payloads {
  import opened JsValues
  import Delivery

  /** The ICE candidate fields that are forwarded; all others are dropped. */
  const IceCandidateFields: set<string> := {
    "address", "candidate", "component", "foundation", "port", "priority", "protocol",
    "relatedAddress", "relatedPort", "sdpMLineIndex", "sdpMid", "tcpType", "type", "usernameFragment"}

  /** The 'onicecandidate' payload: exactly the allowlisted fields, each read
      from the candidate (undefined where it has none). */
  function IceCandidate(data: Json): (r: Json)
    ensures r.JObj? && r.fields.Keys == IceCandidateFields
    ensures forall k :: k in r.fields ==> r.fields[k] == Get(data, k)
  {
    JObj(map k | k in IceCandidateFields :: Get(data, k))
  }

  /** `_handleGumEvent`'s payload from the event's `data`: the constraints
      when present; once there is a stream, a copy of `details` instead
      (the constraints are not kept); and `{name, message}` of an error. */
  function GumPayload(data: Json): (r: Result<Json>)
    ensures r.Fail? <==> Nullish(data)
    ensures r.Fail? ==> r.error == TypeError
    ensures r.Ok? ==> r.value.JObj?
    ensures r.Ok? && Truthy(Get(data, "error")) ==>
      Get(r.value, "error") == JObj(map["name" := Get(Get(data, "error"), "name"),
                                        "message" := Get(Get(data, "error"), "message")])
    ensures r.Ok? && !Truthy(Get(data, "error")) ==>
      Get(r.value, "error") == (if Truthy(Get(data, "stream")) then Get(Get(data, "details"), "error") else JUndefined)
    ensures r.Ok? && !Truthy(Get(data, "stream")) ==>
      Get(r.value, "constraints") == (if Truthy(Get(data, "constraints")) then Get(data, "constraints") else JUndefined)
      && forall k :: k !in {"constraints", "error"} ==> Get(r.value, k) == JUndefined
    ensures r.Ok? && Truthy(Get(data, "stream")) ==>
      forall k :: k != "error" ==> Get(r.value, k) == Get(Get(data, "details"), k)
  {
    if Nullish(data) then Fail(TypeError)
    else
      var withConstraints := if Truthy(Get(data, "constraints")) then map["constraints" := Get(data, "constraints")] else map[];
      var base := if Truthy(Get(data, "stream")) then OwnEntries(Get(data, "details")) else withConstraints;
      var err := Get(data, "error");
      if Truthy(err) then Ok(JObj(base["error" := JObj(map["name" := Get(err, "name"), "message" := Get(err, "message")])]))
      else Ok(JObj(base))
  }

  /** `_handleStatsEvent`'s payload: `{data, peerId, connectionId, timeTaken}`,
      and only `{data, peerId}` in the older SDK. */
  function StatsPayload(v: Delivery.Variant, ev: Json): (r: Json)
    ensures r.JObj?
    ensures v == Delivery.Current ==> r.fields.Keys == {"data", "peerId", "connectionId", "timeTaken"}
    ensures v == Delivery.Legacy ==> r.fields.Keys == {"data", "peerId"}
    ensures forall k :: k in r.fields ==> r.fields[k] == Get(ev, k)
  {
    if v == Delivery.Current then
      JObj(map["data" := Get(ev, "data"), "peerId" := Get(ev, "peerId"),
               "connectionId" := Get(ev, "connectionId"), "timeTaken" := Get(ev, "timeTaken")])
    else JObj(map["data" := Get(ev, "data"), "peerId" := Get(ev, "peerId")])
  }

  /** What `_handleTrackEvent` sends as `trackId`: the track's id, else the id
      of the event's target, else null. */
  function TrackId(data: Json): Json
  {
    var track := Get(data, "track");
    var event := Get(data, "event");
    if Truthy(track) then Get(track, "id")
    else if Truthy(event) && Truthy(Get(event, "target")) then Get(Get(event, "target"), "id")
    else JNull
  }

  /** Whether a track event carries `data.event.detail.check`. */
  predicate HasCheck(data: Json)
  {
    var event := Get(data, "event");
    Truthy(event) && Truthy(Get(event, "detail")) && Truthy(Get(Get(event, "detail"), "check"))
  }

  /** `_handleTrackEvent`'s payload `{event, peerId, connectionId, trackId,
      data}`. Only an 'ontrack' event sends its track (without `_track`) as
      `data`; any other event sends `{}`, with the check found on the
      event's detail when there is no track. Setting that check on a track
      that is a primitive, reading a missing `data`, or deleting from a
      missing track throws. */
  function TrackPayload(ev: Json): (r: Result<Json>)
    ensures var data := Get(ev, "data"); var track := Get(data, "track");
      var ontrack := Get(ev, "event") == JStr("ontrack");
      && (r.Ok? <==> !Nullish(data) && !(ontrack && Nullish(track)) && !(ontrack && !Truthy(track) && HasCheck(data)))
      && (r.Fail? ==> r.error == TypeError)
      && (r.Ok? ==>
          && r.value.JObj?
          && r.value.fields.Keys == {"event", "peerId", "connectionId", "trackId", "data"}
          && Get(r.value, "event") == Get(ev, "event")
          && Get(r.value, "peerId") == Get(ev, "peerId")
          && Get(r.value, "connectionId") == Get(ev, "connectionId")
          && Get(r.value, "trackId") == TrackId(data))
      && (r.Ok? && ontrack ==> Get(r.value, "data") == Remove(track, "_track"))
      && (r.Ok? && !ontrack ==>
          Get(r.value, "data") == (if !Truthy(track) && HasCheck(data)
                                   then JObj(map["check" := Get(Get(Get(data, "event"), "detail"), "check")])
                                   else JObj(map[])))
  {
    var data := Get(ev, "data");
    var sent :=
      if Get(ev, "event") == JStr("ontrack") then
        if Nullish(data) || Nullish(Get(data, "track")) then Fail(TypeError)
        else Ok(Remove(Get(data, "track"), "_track"))
      else Ok(JObj(map[]));
    if sent.Fail? || Nullish(data) then Fail(TypeError)
    else
      var event := Get(data, "event");
      var detail := Get(event, "detail");
      var withCheck :=
        if !Truthy(Get(data, "track")) && Truthy(event) && Truthy(detail) && Truthy(Get(detail, "check")) then
          if sent.value.JObj? then Ok(Put(sent.value, "check", Get(detail, "check"))) else Fail(TypeError)
        else sent;
      if withCheck.Fail? then Fail(TypeError)
      else Ok(JObj(map["event" := Get(ev, "event"), "peerId" := Get(ev, "peerId"),
                       "connectionId" := Get(ev, "connectionId"), "trackId" := TrackId(data),
                       "data" := withCheck.value]))
  }

  /** The event name each SDK renames to 'peerDetails'. */
  function AddEventName(v: Delivery.Variant): string
  {
    if v == Delivery.Current then "addConnection" else "addPeer"
  }

  /** The `data` of a connection event after `_handleConnectionEvent`'s
      switch; a TypeError when the event is too malformed to read. */
  function ConnectionData(v: Delivery.Variant, ev: Json): (r: Result<Json>)
    ensures var event := Get(ev, "event"); var data := Get(ev, "data");
      && (event == JStr(AddEventName(v)) ==>
            (r.Ok? <==> !Nullish(data) && !Nullish(Get(data, "options")))
            && (r.Ok? ==> r.value == Put(data, "options", Remove(Get(data, "options"), "pc"))))
      && (event == JStr("onicecandidate") ==> r == Ok(if Truthy(data) then IceCandidate(data) else data))
      && (v == Delivery.Current && event == JStr("onicecandidateerror") ==> r == Ok(Get(ev, "error")))
      && (v == Delivery.Legacy && event == JStr("icecandidateerror") ==>
            (r.Ok? <==> !Nullish(Get(ev, "error")))
            && (r.Ok? ==> r.value == Get(Get(ev, "error"), "errorCode")))
      && (event == JStr("ondatachannel") ==> r == Ok(JNull))
      && ((event !in {JStr(AddEventName(v)), JStr("onicecandidate"), JStr("ondatachannel"),
                      JStr(if v == Delivery.Current then "onicecandidateerror" else "icecandidateerror")})
          ==> r == Ok(data))
      && (r.Fail? ==> r.error == TypeError)
  {
    var event := Get(ev, "event");
    var data := Get(ev, "data");
    if event == JStr(AddEventName(v)) then
      if Nullish(data) || Nullish(Get(data, "options")) then Fail(TypeError)
      else Ok(Put(data, "options", Remove(Get(data, "options"), "pc")))
    else if event == JStr("onicecandidate") then Ok(if Truthy(data) then IceCandidate(data) else data)
    else if v == Delivery.Current && event == JStr("onicecandidateerror") then Ok(Get(ev, "error"))
    else if v == Delivery.Legacy && event == JStr("icecandidateerror") then
      if Nullish(Get(ev, "error")) then Fail(TypeError) else Ok(Get(Get(ev, "error"), "errorCode"))
    else if event == JStr("ondatachannel") then Ok(JNull)
    else Ok(data)
  }

  /** The body `_handleConnectionEvent` sends: the renamed event, the ids
      (no `connectionId` in the older SDK), the normalised data, and the
      event's timestamp only when the event was delayed. */
  function ConnectionPayload(v: Delivery.Variant, ev: Json): (r: Result<Json>)
    ensures r.Ok? <==> ConnectionData(v, ev).Ok?
    ensures r.Ok? ==>
      && r.value.JObj?
      && r.value.fields.Keys == (if v == Delivery.Current then {"eventName", "peerId", "connectionId", "timestamp", "data"}
                                 else {"eventName", "peerId", "timestamp", "data"})
      && Get(r.value, "data") == ConnectionData(v, ev).value
      && Get(r.value, "peerId") == Get(ev, "peerId")
      && (v == Delivery.Current ==> Get(r.value, "connectionId") == Get(ev, "connectionId"))
      && Get(r.value, "timestamp") == (if Truthy(Get(ev, "delayed")) then Get(ev, "timestamp") else JNull)
      && Get(r.value, "eventName") == (if Get(ev, "event") == JStr(AddEventName(v)) then JStr("peerDetails")
                                       else Get(ev, "event"))
  {
    var data := ConnectionData(v, ev);
    if data.Fail? then Fail(TypeError)
    else
      var eventName := if Get(ev, "event") == JStr(AddEventName(v)) then JStr("peerDetails") else Get(ev, "event");
      var timestamp := if Truthy(Get(ev, "delayed")) then Get(ev, "timestamp") else JNull;
      var body := map["eventName" := eventName, "peerId" := Get(ev, "peerId"),
                      "timestamp" := timestamp, "data" := data.value];
      if v == Delivery.Current then Ok(JObj(body["connectionId" := Get(ev, "connectionId")]))
      else Ok(JObj(body))
  }

  /** What the handlers change in the event object they are given, which
      is the object the queue holds: `_handleTrackEvent` deletes `_track`
      from the track of an 'ontrack' event (current SDK only), and
      `_handleConnectionEvent` deletes `pc` from the options of the add
      event. Nothing else of the event is touched. */
  function HandlerEdits(v: Delivery.Variant, ev: Json): (r: Json)
    ensures r.JObj? <==> ev.JObj?
    ensures forall k :: k != "data" ==> Get(r, k) == Get(ev, k)
    ensures r != ev ==> Get(ev, "data").JObj? && Get(r, "data").JObj?
    ensures v == Delivery.Current && Get(ev, "tag") == JStr("track") && Get(ev, "event") == JStr("ontrack")
            && TrackPayload(ev).Ok? ==>
              Get(Get(r, "data"), "track") == Get(TrackPayload(ev).value, "data")
    ensures Get(ev, "tag") !in {JStr("getUserMedia"), JStr("stats"), JStr("track")}
            && Get(ev, "event") == JStr(AddEventName(v)) && ConnectionData(v, ev).Ok? ==>
              Get(r, "data") == ConnectionData(v, ev).value
  {
    var data := Get(ev, "data");
    var tag := Get(ev, "tag");
    if v == Delivery.Current && tag == JStr("track") && Get(ev, "event") == JStr("ontrack") && Get(data, "track").JObj? then
      Put(ev, "data", Put(data, "track", Remove(Get(data, "track"), "_track")))
    else if tag !in {JStr("getUserMedia"), JStr("stats"), JStr("track")}
            && Get(ev, "event") == JStr(AddEventName(v)) && !Nullish(data) && !Nullish(Get(data, "options")) then
      Put(ev, "data", Put(data, "options", Remove(Get(data, "options"), "pc")))
    else ev
  }

  /** A call `PeerMetrics` makes on its API wrapper. */
  datatype ApiCall =
    | SendConnectionEvent(data: Json)
    | SendWebrtcStats(data: Json)
    | SaveGetUserMediaEvent(data: Json)
    | SendTrackEvent(data: Json)
    | SendCustomEvent(data: Json)

  /** What the timeline handler does with one event: queue it (as changed),
      make one wrapper call, make none, or throw synchronously. */
  datatype Dispatch = Queued(ev: Json) | Sent(call: ApiCall) | Quiet | Threw

  /** What a replay of queued events produced so far: the events queued
      again, the wrapper calls, whether a handler threw, and how many
      events were handed to the handler (the one that threw included). */
  datatype Drained = Drained(requeued: seq<Json>, calls: seq<ApiCall>, threw: bool, handled: nat)

  /** One more event of a replay; after a throw nothing else is handled. */
  function Absorb(d: Drained, x: Dispatch): Drained
  {
    if d.threw then d
    else match x
      case Queued(e) => Drained(d.requeued + [e], d.calls, false, d.handled + 1)
      case Sent(c) => Drained(d.requeued, d.calls + [c], false, d.handled + 1)
      case Quiet => d.(handled := d.handled + 1)
      case Threw => Drained(d.requeued, d.calls, true, d.handled + 1)
  }

  /** The replay `eventQueue.map(handle)`: what handling the queued events
      one after another produces. */
  function Replay(ds: seq<Dispatch>): (r: Drained)
    ensures r.handled <= |ds|
    ensures !r.threw ==> r.handled == |ds|
    decreases |ds|
  {
    if |ds| == 0 then Drained([], [], false, 0)
    else Absorb(Replay(ds[..|ds| - 1]), ds[|ds| - 1])
  }

  /** Once a handler has thrown, the rest of the queue is not replayed. */
  lemma {:induction false} ReplayStopsAtThrow(ds: seq<Dispatch>, i: nat)
    requires i <= |ds|
    requires Replay(ds[..i]).threw
    ensures Replay(ds) == Replay(ds[..i])
    decreases |ds| - i
  {
    if i < |ds| {
      assert ds[..i + 1][..i] == ds[..i];
      assert Replay(ds[..i + 1]) == Replay(ds[..i]);
      ReplayStopsAtThrow(ds, i + 1);
    } else {
      assert ds[..i] == ds;
    }
  }

  /** One more dispatch of a replay that has not thrown is handled as it
      is: counted, and its event or call recorded. */
  lemma ReplayStep(ds: seq<Dispatch>, i: nat)
    requires i < |ds| && !Replay(ds[..i]).threw
    ensures var d := Replay(ds[..i]); var next := Replay(ds[..i + 1]);
      && next.handled == d.handled + 1
      && next.threw == ds[i].Threw?
      && next.calls == d.calls + (if ds[i].Sent? then [ds[i].call] else [])
      && next.requeued == d.requeued + (if ds[i].Queued? then [ds[i].ev] else [])
  {
    assert ds[..i + 1][..i] == ds[..i];
  }

  /** A replay that threw stopped at the event that threw: the events
      before it were handled without a throw, the rest not at all. */
  lemma {:induction false} ReplayThrewAtLastHandled(ds: seq<Dispatch>)
    requires Replay(ds).threw
    ensures 0 < Replay(ds).handled
    ensures ds[Replay(ds).handled - 1] == Threw
    ensures !Replay(ds[..Replay(ds).handled - 1]).threw
    ensures Replay(ds) == Replay(ds[..Replay(ds).handled])
    decreases |ds|
  {
    var init := ds[..|ds| - 1];
    if Replay(init).threw {
      ReplayThrewAtLastHandled(init);
      var n := Replay(init).handled;
      assert init[..n - 1] == ds[..n - 1] && init[..n] == ds[..n];
    } else {
      assert ds[..|ds|] == ds;
    }
  }

  /** When every queued event is sent, the replay makes one call per event,
      in queue order, and queues nothing again. */
  lemma {:induction false} ReplaySendsInOrder(ds: seq<Dispatch>)
    requires forall i :: 0 <= i < |ds| ==> ds[i].Sent?
    ensures Replay(ds) == Drained([], seq(|ds|, i requires 0 <= i < |ds| => ds[i].call), false, |ds|)
    decreases |ds|
  {
    if |ds| > 0 {
      var init := ds[..|ds| - 1];
      ReplaySendsInOrder(init);
      assert seq(|ds|, i requires 0 <= i < |ds| => ds[i].call)
          == seq(|init|, i requires 0 <= i < |init| => init[i].call) + [ds[|ds| - 1].call];
    }
  }

  /** Every event the replay queues again was queued again by its own
      dispatch, and nothing is both sent and queued: the replay neither
      invents nor duplicates events. */
  lemma {:induction false} ReplayAccounts(ds: seq<Dispatch>)
    ensures |Replay(ds).requeued| + |Replay(ds).calls| <= |ds|
    ensures forall e :: e in Replay(ds).requeued ==> exists i :: 0 <= i < |ds| && ds[i] == Queued(e)
    ensures forall c :: c in Replay(ds).calls ==> exists i :: 0 <= i < |ds| && ds[i] == Sent(c)
    decreases |ds|
  {
    if |ds| > 0 {
      var init := ds[..|ds| - 1];
      ReplayAccounts(init);
      forall e | e in Replay(ds).requeued
        ensures exists i :: 0 <= i < |ds| && ds[i] == Queued(e)
      {
        if e in Replay(init).requeued {
          var i :| 0 <= i < |init| && init[i] == Queued(e);
          assert ds[i] == Queued(e);
        } else {
          assert ds[|ds| - 1] == Queued(e);
        }
      }
      forall c | c in Replay(ds).calls
        ensures exists i :: 0 <= i < |ds| && ds[i] == Sent(c)
      {
        if c in Replay(init).calls {
          var i :| 0 <= i < |init| && init[i] == Sent(c);
          assert ds[i] == Sent(c);
        } else {
          assert ds[|ds| - 1] == Sent(c);
        }
      }
    }
  }

  /** Writing the event the handler left into its slot moves the boundary
      between the handled events and the rest by one. */
  lemma SlotRewritten(handled: seq<Json>, rest: seq<Json>, tail: seq<Json>, x: Json)
    requires |rest| > 0
    ensures (handled + rest + tail)[|handled| := x] == (handled + [x]) + rest[1..] + tail
  {
    assert (handled + rest + tail)[|handled| := x] == (handled + [x]) + rest[1..] + tail by {
      var lhs := (handled + rest + tail)[|handled| := x];
      var rhs := (handled + [x]) + rest[1..] + tail;
      assert |lhs| == |rhs|;
      forall k | 0 <= k < |lhs| ensures lhs[k] == rhs[k] {
        if k < |handled| {
        } else if k == |handled| {
        } else if k < |handled| + |rest| {
          assert lhs[k] == rest[k - |handled|] && rhs[k] == rest[1..][k - |handled| - 1];
        }
      }
    }
  }

  /** Partway through a replay that has not thrown, the queue holds the
      events handled so far as rewritten, the rest of the snapshot, then
      the events queued again; handling one more and writing it back into
      its slot moves that boundary by one. */
  lemma ReplayQueueStep(handled: seq<Json>, queue: seq<Json>, ds: seq<Dispatch>, i: nat, x: Json)
    requires i < |queue| && i < |ds| && |handled| == i
    requires !Replay(ds[..i]).threw
    ensures var extra := if ds[i].Queued? then [ds[i].ev] else [];
      (handled + queue[i..] + Replay(ds[..i]).requeued + extra)[i := x]
        == (handled + [x]) + queue[i + 1..] + Replay(ds[..i + 1]).requeued
  {
    ReplayStep(ds, i);
    var requeued := Replay(ds[..i]).requeued;
    var extra := if ds[i].Queued? then [ds[i].ev] else [];
    assert handled + queue[i..] + requeued + extra == handled + queue[i..] + (requeued + extra);
    SlotRewritten(handled, queue[i..], requeued + extra, x);
    assert queue[i..][1..] == queue[i + 1..];
  }
}
