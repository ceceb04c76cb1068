/**
 * `PeerMetrics` of the older JavaScript SDK (src/index.js). Its registry
 * maps the application's peer ids straight to the server's, there is no
 * connection map, and `addPeer` waits for the server's answer before it
 * replays the queued events.
 */
module LegacySdk {
  import opened JsValues
  import opened Payloads
  import Delivery
  import Validation
  import Api
  import LegacyApi

  const NotInitialized := "SDK not initialized. Please call initialize() first."
  const NoStatsModule := "The stats module is not instantiated yet."
  const MissingPc := "Missing argument pc: RTCPeerConnection."
  const MissingPeerId := "Missing argument peerId."
  const PeerNameNotString := "peerName should be a string"

  /** The switch of `handleTimelineEvent`: 'track' events are only logged. */
  function Route(ev: Json): (d: Dispatch)
    ensures !d.Queued?
    ensures var tag := Get(ev, "tag");
      && (tag == JStr("track") ==> d == Quiet)
      && (tag == JStr("stats") ==> d == Sent(SendWebrtcStats(StatsPayload(Delivery.Legacy, ev))))
      && (d.Sent? ==>
          && (d.call.SaveGetUserMediaEvent? <==> tag == JStr("getUserMedia"))
          && (d.call.SendWebrtcStats? <==> tag == JStr("stats"))
          && !d.call.SendTrackEvent?
          && (d.call.SendConnectionEvent? <==> tag !in {JStr("getUserMedia"), JStr("stats"), JStr("track")}))
      && (d.Threw? ==> tag == JStr("getUserMedia"))
  {
    var tag := Get(ev, "tag");
    if tag == JStr("getUserMedia") then
      var p := GumPayload(Get(ev, "data"));
      if p.Ok? then Sent(SaveGetUserMediaEvent(p.value)) else Threw
    else if tag == JStr("stats") then Sent(SendWebrtcStats(StatsPayload(Delivery.Legacy, ev)))
    else if tag == JStr("track") then Quiet
    else
      var p := ConnectionPayload(Delivery.Legacy, ev);
      if p.Ok? then Sent(SendConnectionEvent(p.value)) else Quiet
  }

  /** Where `handleTimelineEvent` leaves an event before its switch. */
  datatype Resolution =
    | /** its peer has no truthy server id yet: marked `delayed`, to be queued */
      Deferred(ev: Json)
    | /** handed to the switch */
      Ready(ev: Json)

  /** The first half of `handleTimelineEvent`: only the peer id is
      replaced, in the event object itself, and only when the stored server
      id is truthy; otherwise the event is marked `delayed`. An event
      without a peer id is left as it is. */
  function Resolve(peers: map<string, Json>, ev: Json): (r: Resolution)
    requires ev.JObj?
    ensures var pid := Get(ev, "peerId");
      var resolved := PropKey(pid) in peers && Truthy(peers[PropKey(pid)]);
      && (r.Deferred? <==> Truthy(pid) && !resolved)
      && (Truthy(pid) && !resolved ==> r == Deferred(Put(ev, "delayed", JBool(true))))
      && (Truthy(pid) && resolved ==> r == Ready(Put(ev, "peerId", peers[PropKey(pid)])))
      && (!Truthy(pid) ==> r == Ready(ev))
    ensures r.ev.JObj?
  {
    var pid := Get(ev, "peerId");
    if Truthy(pid) then
      if PropKey(pid) in peers && Truthy(peers[PropKey(pid)]) then Ready(Put(ev, "peerId", peers[PropKey(pid)]))
      else Deferred(Put(ev, "delayed", JBool(true)))
    else Ready(ev)
  }

  /** `handleTimelineEvent`: a deferred event is queued and reaches no
      handler; any other goes through the switch. */
  function Timeline(peers: map<string, Json>, ev: Json): (d: Dispatch)
    requires ev.JObj?
    ensures var pid := Get(ev, "peerId");
      var resolved := PropKey(pid) in peers && Truthy(peers[PropKey(pid)]);
      && (d.Queued? <==> Truthy(pid) && !resolved)
      && (Truthy(pid) && !resolved ==> d == Queued(Put(ev, "delayed", JBool(true))))
      && (Truthy(pid) && resolved ==> d == Route(Put(ev, "peerId", peers[PropKey(pid)])))
      && (!Truthy(pid) ==> d == Route(ev))
    ensures d.Queued? ==> d.ev.JObj?
  {
    match Resolve(peers, ev)
    case Deferred(e) => Queued(e)
    case Ready(e) => Route(e)
  }

  /** The event object as `handleTimelineEvent` leaves it: the queued
      object when it is deferred, otherwise the resolved event with the
      deletion `handleConnectionEvent` makes in an 'addPeer' event. */
  function Touched(peers: map<string, Json>, ev: Json): (t: Json)
    requires ev.JObj?
    ensures t.JObj?
  {
    match Resolve(peers, ev)
    case Deferred(e) => e
    case Ready(e) => HandlerEdits(Delivery.Legacy, e)
  }

  /** What the handler leaves in the event object: a deferred event is the
      very object queued, and otherwise the handler changes only `data`
      of the resolved event, so the server peer id written into it stays. */
  lemma TouchedKeepsIds(peers: map<string, Json>, ev: Json)
    requires ev.JObj?
    ensures Timeline(peers, ev).Queued? ==> Touched(peers, ev) == Timeline(peers, ev).ev
    ensures var pid := Get(ev, "peerId");
      Truthy(pid) && PropKey(pid) in peers && Truthy(peers[PropKey(pid)]) ==> Get(Touched(peers, ev), "peerId") == peers[PropKey(pid)]
  {
    match Resolve(peers, ev)
    case Deferred(e) =>
    case Ready(e) =>
  }

  /** `Touched` for each of `evs`, in order. */
  function TouchedAll(peers: map<string, Json>, evs: seq<Json>): (ts: seq<Json>)
    requires forall i :: 0 <= i < |evs| ==> evs[i].JObj?
    ensures |ts| == |evs|
    decreases |evs|
  {
    if |evs| == 0 then [] else TouchedAll(peers, evs[..|evs| - 1]) + [Touched(peers, evs[|evs| - 1])]
  }

  lemma {:induction false} TouchedAllAt(peers: map<string, Json>, evs: seq<Json>, i: nat)
    requires forall k :: 0 <= k < |evs| ==> evs[k].JObj?
    requires i < |evs|
    ensures TouchedAll(peers, evs)[i] == Touched(peers, evs[i])
    decreases |evs|
  {
    if i < |evs| - 1 {
      TouchedAllAt(peers, evs[..|evs| - 1], i);
    }
  }

  function Dispatches(peers: map<string, Json>, evs: seq<Json>): (ds: seq<Dispatch>)
    requires forall i :: 0 <= i < |evs| ==> evs[i].JObj?
    ensures |ds| == |evs|
  {
    seq(|evs|, i requires 0 <= i < |evs| => Timeline(peers, evs[i]))
  }

  /** The queue a replay that threw leaves behind, since the queue holds
      the very objects the handler rewrites and `eventQueue.length = 0` is
      not reached: the events handed to the handler as it left them (the one
      that threw included), the events after it untouched, then the events
      queued again. */
  function LeftBehind(peers: map<string, Json>, queue: seq<Json>): (q: seq<Json>)
    requires forall i :: 0 <= i < |queue| ==> queue[i].JObj?
    ensures |q| == |queue| + |Replay(Dispatches(peers, queue)).requeued|
  {
    var d := Replay(Dispatches(peers, queue));
    TouchedAll(peers, queue[..d.handled]) + queue[d.handled..] + d.requeued
  }

  /** After a replay that threw, an event the handler already saw carries
      the server's peer id. Replaying the queue again looks that id up
      among the application's peer ids, so unless it is also one of those
      with a truthy server id, the event is queued instead. */
  lemma HandledEventDeferredOnNextReplay(peers: map<string, Json>, queue: seq<Json>, i: nat)
    requires forall k :: 0 <= k < |queue| ==> queue[k].JObj?
    requires Replay(Dispatches(peers, queue)).threw
    requires i < Replay(Dispatches(peers, queue)).handled
    requires var pid := Get(queue[i], "peerId");
      && Truthy(pid) && PropKey(pid) in peers && Truthy(peers[PropKey(pid)])
      && var server := peers[PropKey(pid)];
         !(PropKey(server) in peers && Truthy(peers[PropKey(server)]))
    ensures i < |LeftBehind(peers, queue)|
    ensures Get(LeftBehind(peers, queue)[i], "peerId") == peers[PropKey(Get(queue[i], "peerId"))]
    ensures Timeline(peers, LeftBehind(peers, queue)[i]).Queued?
  {
    var n := Replay(Dispatches(peers, queue)).handled;
    TouchedAllAt(peers, queue[..n], i);
    assert LeftBehind(peers, queue)[i] == TouchedAll(peers, queue[..n])[i];
    TouchedKeepsIds(peers, queue[i]);
  }

  /** A peer whose server id came back falsy never resolves: a replay
      queues every event naming it again, marked `delayed`, and sends
      nothing. */
  lemma {:induction false} FalsyServerIdNeverResolves(peers: map<string, Json>, evs: seq<Json>, peerKey: string)
    requires forall i :: 0 <= i < |evs| ==>
      evs[i].JObj? && Truthy(Get(evs[i], "peerId")) && PropKey(Get(evs[i], "peerId")) == peerKey
    requires peerKey in peers && !Truthy(peers[peerKey])
    ensures Replay(Dispatches(peers, evs))
         == Drained(seq(|evs|, i requires 0 <= i < |evs| => Put(evs[i], "delayed", JBool(true))), [], false, |evs|)
    decreases |evs|
  {
    if |evs| > 0 {
      var init := evs[..|evs| - 1];
      FalsyServerIdNeverResolves(peers, init, peerKey);
      assert Dispatches(peers, evs)[..|evs| - 1] == Dispatches(peers, init);
      assert seq(|evs|, i requires 0 <= i < |evs| => Put(evs[i], "delayed", JBool(true)))
          == seq(|init|, i requires 0 <= i < |init| => Put(init[i], "delayed", JBool(true)))
             + [Put(evs[|evs| - 1], "delayed", JBool(true))];
    }
  }

  /** `addPeer`'s checks and the 'addPeer' event it sends: a `peerName`
      property must be a string and is cut to its first 120 characters. */
  function AddPeerRequest(initialized: bool, statsReady: bool, options: Json): (r: Result<Json>)
    ensures var given := Validation.Given(options, Delivery.Legacy);
      && (r.Ok? <==>
          && initialized && statsReady && given.JObj?
          && Truthy(Get(given, "pc")) && Truthy(Get(given, "peerId"))
          && ("peerName" in given.fields ==> given.fields["peerName"].JStr?))
      && (!initialized ==> r == Fail(Thrown(NotInitialized)))
      && (initialized && !statsReady ==> r == Fail(Thrown(NoStatsModule)))
      && (initialized && statsReady && given.JNull? ==> r == Fail(TypeError))
      && (r.Ok? ==>
          && r.value.JObj?
          && r.value.fields.Keys == {"eventName", "peerId", "peerName"}
          && Get(r.value, "eventName") == JStr("addPeer")
          && Get(r.value, "peerId") == Get(given, "peerId")
          && Get(r.value, "peerName") == (if "peerName" in given.fields
                                          then JStr(Validation.CutPeerName(given.fields["peerName"].s))
                                          else JUndefined))
  {
    var given := Validation.Given(options, Delivery.Legacy);
    if !initialized then Fail(Thrown(NotInitialized))
    else if !statsReady then Fail(Thrown(NoStatsModule))
    else if given.JNull? then Fail(TypeError)
    else if !Truthy(Get(given, "pc")) then Fail(Thrown(MissingPc))
    else if !Truthy(Get(given, "peerId")) then Fail(Thrown(MissingPeerId))
    else if "peerName" in given.fields && !given.fields["peerName"].JStr? then Fail(Thrown(PeerNameNotString))
    else
      var name := if "peerName" in given.fields then JStr(Validation.CutPeerName(given.fields["peerName"].s))
                  else JUndefined;
      Ok(JObj(map["eventName" := JStr("addPeer"), "peerId" := Get(given, "peerId"), "peerName" := name]))
  }

  /** The queue after the first `i` events of a replay of `snapshot`, none
      of which threw. */
  ghost function QueueAt(peers: map<string, Json>, snapshot: seq<Json>, i: nat): seq<Json>
    requires forall k :: 0 <= k < |snapshot| ==> snapshot[k].JObj?
    requires i <= |snapshot|
  {
    TouchedAll(peers, snapshot[..i]) + snapshot[i..] + Replay(Dispatches(peers, snapshot)[..i]).requeued
  }

  /** One step of the replay loop: handling the next event rewrites its
      slot, queues it again when it is deferred, and records its call. */
  lemma DrainStep(peers: map<string, Json>, snapshot: seq<Json>, i: nat)
    requires forall k :: 0 <= k < |snapshot| ==> snapshot[k].JObj?
    requires i < |snapshot|
    requires var d := Replay(Dispatches(peers, snapshot)[..i]); !d.threw && d.handled == i
    ensures var ds := Dispatches(peers, snapshot);
      var d := Replay(ds[..i]); var next := Replay(ds[..i + 1]); var t := Timeline(peers, snapshot[i]);
      && next.handled == i + 1
      && next.threw == t.Threw?
      && next.calls == d.calls + (if t.Sent? then [t.call] else [])
      && (QueueAt(peers, snapshot, i) + (if t.Queued? then [t.ev] else []))[i := Touched(peers, snapshot[i])]
         == QueueAt(peers, snapshot, i + 1)
  {
    var ds := Dispatches(peers, snapshot);
    ReplayStep(ds, i);
    assert ds[i] == Timeline(peers, snapshot[i]);
    ReplayQueueStep(TouchedAll(peers, snapshot[..i]), snapshot, ds, i, Touched(peers, snapshot[i]));
    assert snapshot[..i + 1][..i] == snapshot[..i];
  }

  class PeerMetrics {
    var initialized: bool
    var statsReady: bool
    /** The module-level `peersToMonitor`: application peer id to server id. */
    var peersToMonitor: map<string, Json>
    /** The module-level `eventQueue`. */
    var eventQueue: seq<Json>
    /** Every call made on the API wrapper, in order. */
    var sent: seq<ApiCall>

    ghost predicate Valid()
      reads this
    {
      forall i :: 0 <= i < |eventQueue| ==> eventQueue[i].JObj?
    }

    constructor ()
      ensures Valid()
      ensures !initialized && !statsReady && peersToMonitor == map[] && eventQueue == [] && sent == []
    {
      initialized := false;
      statsReady := false;
      peersToMonitor := map[];
      eventQueue := [];
      sent := [];
    }

    /** The end of a successful `initialize`. */
    method FinishInitialize()
      modifies this`initialized, this`statsReady
      ensures initialized && statsReady
    {
      initialized := true;
      statsReady := true;
    }

    /** `handleTimelineEvent` on one event; `left` is the event object as
        the handler leaves it. */
    method HandleTimelineEvent(ev: Json) returns (r: Result<()>, left: Json)
      requires Valid() && ev.JObj?
      modifies this`eventQueue, this`sent
      ensures Valid()
      ensures var d := Timeline(peersToMonitor, ev);
        && eventQueue == old(eventQueue) + (if d.Queued? then [d.ev] else [])
        && sent == old(sent) + (if d.Sent? then [d.call] else [])
        && r == (if d.Threw? then Fail(TypeError) else Ok(()))
      ensures left == Touched(peersToMonitor, ev)
    {
      r := Ok(());
      match Resolve(peersToMonitor, ev) {
        case Deferred(e) =>
          eventQueue := eventQueue + [e];
          left := e;
        case Ready(e) =>
          match Route(e) {
            case Sent(c) => sent := sent + [c];
            case Quiet =>
            case Threw => r := Fail(TypeError);
          }
          left := HandlerEdits(Delivery.Legacy, e);
      }
    }

    /** `addPeer`, with the settlement of its 'addPeer' event as `response`:
        after the checks the event is sent and awaited; a rejection, or an
        answer that is null or undefined, fails with the map untouched.
        Otherwise the server's `peer_id` is stored, the queue as it was is
        replayed and then emptied; a handler that throws stops the replay
        and fails, leaving the queue holding the events as the replay
        rewrote them. */
    method AddPeer(options: Json, response: Settled) returns (r: Result<()>)
      requires Valid()
      modifies this`peersToMonitor, this`eventQueue, this`sent
      ensures Valid()
      ensures var request := AddPeerRequest(initialized, statsReady, options);
        var peerKey := PropKey(Get(Validation.Given(options, Delivery.Legacy), "peerId"));
        && (request.Fail? ==>
              r == Fail(request.error) && peersToMonitor == old(peersToMonitor)
              && eventQueue == old(eventQueue) && sent == old(sent))
        && (request.Ok? && response.Rejected? ==>
              r == Fail(RejectedWith(response.reason)) && peersToMonitor == old(peersToMonitor)
              && eventQueue == old(eventQueue) && sent == old(sent) + [SendConnectionEvent(request.value)])
        && (request.Ok? && response.Fulfilled? && Nullish(response.value) ==>
              r == Fail(TypeError) && peersToMonitor == old(peersToMonitor)
              && eventQueue == old(eventQueue) && sent == old(sent) + [SendConnectionEvent(request.value)])
        && (request.Ok? && response.Fulfilled? && !Nullish(response.value) ==>
              var peers := old(peersToMonitor)[peerKey := Get(response.value, "peer_id")];
              var d := Replay(Dispatches(peers, old(eventQueue)));
              && peersToMonitor == peers
              && sent == old(sent) + [SendConnectionEvent(request.value)] + d.calls
              && eventQueue == (if d.threw then LeftBehind(peers, old(eventQueue)) else [])
              && r == (if d.threw then Fail(TypeError) else Ok(())))
    {
      var request := AddPeerRequest(initialized, statsReady, options);
      if request.Fail? {
        return Fail(request.error);
      }
      sent := sent + [SendConnectionEvent(request.value)];
      if response.Rejected? {
        return Fail(RejectedWith(response.reason));
      }
      if Nullish(response.value) {
        return Fail(TypeError);
      }
      var peerKey := PropKey(Get(Validation.Given(options, Delivery.Legacy), "peerId"));
      peersToMonitor := peersToMonitor[peerKey := Get(response.value, "peer_id")];
      var threw := DrainEventQueue();
      r := if threw then Fail(TypeError) else Ok(());
    }

    /** One turn of the replay loop: the handler gets the next event of
        `snapshot`, and the rewritten event is written back into its slot. */
    method ReplayNext(snapshot: seq<Json>, i: nat, ghost start: seq<ApiCall>) returns (threw: bool)
      requires Valid() && i < |snapshot| && forall k :: 0 <= k < |snapshot| ==> snapshot[k].JObj?
      requires var d := Replay(Dispatches(peersToMonitor, snapshot)[..i]);
        !d.threw && d.handled == i && eventQueue == QueueAt(peersToMonitor, snapshot, i) && sent == start + d.calls
      modifies this`eventQueue, this`sent
      ensures Valid()
      ensures var d := Replay(Dispatches(peersToMonitor, snapshot)[..i + 1]);
        d.handled == i + 1 && eventQueue == QueueAt(peersToMonitor, snapshot, i + 1) && sent == start + d.calls
        && threw == d.threw
    {
      DrainStep(peersToMonitor, snapshot, i);
      var handled, left := HandleTimelineEvent(snapshot[i]);
      eventQueue := eventQueue[i := left];
      threw := handled.Fail?;
    }

    /** The loop over the deferred events once a peer is added: each goes
        through the timeline handler again, which rewrites the object in
        its queue slot, and the queue is emptied only when none of them
        threw. */
    method DrainEventQueue() returns (threw: bool)
      requires Valid()
      modifies this`eventQueue, this`sent
      ensures Valid()
      ensures var d := Replay(Dispatches(peersToMonitor, old(eventQueue)));
        && sent == old(sent) + d.calls
        && eventQueue == (if d.threw then LeftBehind(peersToMonitor, old(eventQueue)) else [])
        && threw == d.threw
    {
      var snapshot := eventQueue;
      var ds := Dispatches(peersToMonitor, snapshot);
      var i := 0;
      threw := false;
      while i < |snapshot| && !threw
        invariant 0 <= i <= |snapshot|
        invariant Valid()
        invariant var d := Replay(ds[..i]);
          && d.handled == i
          && eventQueue == QueueAt(peersToMonitor, snapshot, i)
          && sent == old(sent) + d.calls && threw == d.threw
      {
        threw := ReplayNext(snapshot, i, old(sent));
        i := i + 1;
      }
      if threw {
        ReplayStopsAtThrow(ds, i);
      } else {
        assert ds[..i] == ds;
        eventQueue := [];
      }
    }

    /** `removePeer`: throws unless the id maps to a truthy server id, then
        fails on a missing stats module; it changes no state of the SDK. */
    method RemovePeer(peerId: Json) returns (r: Result<()>)
      ensures PropKey(peerId) in peersToMonitor && Truthy(peersToMonitor[PropKey(peerId)]) ==>
        r == (if statsReady then Ok(()) else Fail(TypeError))
      ensures !(PropKey(peerId) in peersToMonitor && Truthy(peersToMonitor[PropKey(peerId)])) ==>
        r == Fail(Thrown("Could not find peer with id " + ToJsString(peerId)))
    {
      if !(PropKey(peerId) in peersToMonitor && Truthy(peersToMonitor[PropKey(peerId)])) {
        r := Fail(Thrown("Could not find peer with id " + ToJsString(peerId)));
      } else if !statsReady {
        r := Fail(TypeError);
      } else {
        r := Ok(());
      }
    }

    /** `addEvent`: the checks, then the custom event is sent without
        waiting for its answer. */
    method AddEvent(options: Json, serialised: Option<nat>) returns (r: Result<()>)
      modifies this`sent
      ensures var check := Validation.CustomEventCheck(options, serialised, Delivery.Legacy);
        && (check.Fail? ==> r == Fail(check.error) && sent == old(sent))
        && (check.Ok? ==> r == Ok(()) && sent == old(sent) + [SendCustomEvent(check.value)])
    {
      var check := Validation.CustomEventCheck(options, serialised, Delivery.Legacy);
      if check.Fail? {
        return Fail(check.error);
      }
      sent := sent + [SendCustomEvent(check.value)];
      r := Ok(());
    }
  }

  /** When the server switches batching on, `sendConnectionEvent` returns
      undefined, so `addPeer` reads `peer_id` of undefined and throws a
      TypeError: whatever the server would have answered, no peer is
      stored. */
  method BatchedAddPeerFails(options: Json, answer: Settled, now: int) returns (r: Result<()>, stored: bool)
    requires AddPeerRequest(true, true, options).Ok?
    ensures r == Fail(TypeError)
    ensures !stored
  {
    var sdk := new PeerMetrics();
    sdk.FinishInitialize();
    var awaited, requests := LegacyApi.BatchedConnectionEvent(AddPeerRequest(true, true, options).value, answer, now);
    r := sdk.AddPeer(options, awaited);
    stored := sdk.peersToMonitor != map[];
  }
}
