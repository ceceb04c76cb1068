/**
 * `PeerMetrics` of the TypeScript SDK (src/index.ts): the registry that
 * maps the application's peer and connection ids to the server's, the
 * queue of timeline events that wait for those ids, the dispatcher that
 * turns events into wrapper calls, and the operations that add and remove
 * peers and connections.
 *
 * The stats library is outside the model: the connection id it assigns is
 * an input. So is the settlement of every awaited wrapper call. Each
 * operation runs as one step, from its call to the end of its awaits.
 */
module Sdk {
  import opened JsValues
  import opened Payloads
  import Delivery
  import Validation
  import Api

  const NotInitialized := "SDK not initialized. Please call initialize() first."
  const NoStatsModule := "The stats module is not instantiated yet."
  const AddConnectionNotObject := "Argument for addConnection() should be an object."
  const MissingPc := "Missing argument pc: RTCPeerConnection."
  const MissingPeerId := "Missing argument peerId."
  const PeerNameNotString := "peerName should be a string"
  const SameAsUser := "peerId can't be the same as the id used to initialize PeerMetrics."
  const AddConnectionProblem := "There was a problem while adding this connection"
  const RemovePeerNotString := "Argument for removePeer() should be a string."

  /** An entry of `peersToMonitor`: the server's peer id and the server ids
      of its connections. */
  datatype Peer = Peer(id: Json, connections: seq<Json>)

  /** `peersToMonitor` and `monitoredConnections`. `order` lists the peers in
      the order `for...in` visits them. */
  datatype Registry = Registry(peers: map<string, Peer>, order: seq<string>, connections: map<string, Json>)

  const EmptyRegistry := Registry(map[], [], map[])

  ghost predicate Distinct<T>(s: seq<T>)
  {
    forall i, j :: 0 <= i < j < |s| ==> s[i] != s[j]
  }

  /** `order` lists every peer once. */
  ghost predicate WellOrdered(reg: Registry)
  {
    Distinct(reg.order) && forall p :: p in reg.peers <==> p in reg.order
  }

  /** `s.filter(y => y !== x)` */
  function Without<T(==, !new)>(s: seq<T>, x: T): (r: seq<T>)
    ensures forall y :: y in r <==> y in s && y != x
    ensures |r| <= |s|
    ensures Distinct(s) ==> Distinct(r)
    decreases |s|
  {
    if |s| == 0 then []
    else
      var rest := Without(s[1..], x);
      if s[0] == x then rest
      else
        assert s[0] !in s[1..] ==> s[0] !in rest;
        [s[0]] + rest
  }

  /** The switch of `_handleTimelineEvent` on an event whose ids are
      resolved: each tag goes to its own handler and wrapper call. A
      getUserMedia or track event too malformed to read throws; a malformed
      connection event only rejects the handler's own promise. */
  function Route(ev: Json): (d: Dispatch)
    ensures !d.Queued?
    ensures var tag := Get(ev, "tag");
      && (d.Sent? ==>
          && (d.call.SaveGetUserMediaEvent? <==> tag == JStr("getUserMedia"))
          && (d.call.SendWebrtcStats? <==> tag == JStr("stats"))
          && (d.call.SendTrackEvent? <==> tag == JStr("track"))
          && (d.call.SendConnectionEvent? <==> tag !in {JStr("getUserMedia"), JStr("stats"), JStr("track")}))
      && (d.Threw? ==> tag == JStr("getUserMedia") || tag == JStr("track"))
      && (d.Quiet? ==> tag !in {JStr("getUserMedia"), JStr("stats"), JStr("track")})
      && (tag == JStr("stats") ==> d == Sent(SendWebrtcStats(StatsPayload(Delivery.Current, ev))))
  {
    var tag := Get(ev, "tag");
    if tag == JStr("getUserMedia") then
      var p := GumPayload(Get(ev, "data"));
      if p.Ok? then Sent(SaveGetUserMediaEvent(p.value)) else Threw
    else if tag == JStr("stats") then Sent(SendWebrtcStats(StatsPayload(Delivery.Current, ev)))
    else if tag == JStr("track") then
      var p := TrackPayload(ev);
      if p.Ok? then Sent(SendTrackEvent(p.value)) else Threw
    else
      var p := ConnectionPayload(Delivery.Current, ev);
      if p.Ok? then Sent(SendConnectionEvent(p.value)) else Quiet
  }

  /** Where `_handleTimelineEvent` leaves an event before its switch. */
  datatype Resolution =
    | /** an id is not known yet: marked `delayed`, to be queued */
      Deferred(ev: Json)
    | /** every id it names is known: handed to the switch */
      Ready(ev: Json)

  /** The first half of `_handleTimelineEvent`: the peer id, then the
      connection id, is replaced by the server's, in the event object
      itself; an event naming an id the registry does not know yet is
      marked `delayed`, with whatever was replaced before that point. */
  function Resolve(reg: Registry, ev: Json): (r: Resolution)
    requires ev.JObj?
    ensures var pid := Get(ev, "peerId"); var cid := Get(ev, "connectionId");
      var peerKnown := Truthy(pid) ==> PropKey(pid) in reg.peers;
      var connKnown := Truthy(cid) ==> PropKey(cid) in reg.connections;
      var ev1 := if Truthy(pid) && peerKnown then Put(ev, "peerId", reg.peers[PropKey(pid)].id) else ev;
      && (r.Deferred? <==> !peerKnown || !connKnown)
      && (!peerKnown ==> r == Deferred(Put(ev, "delayed", JBool(true))))
      && (peerKnown && !connKnown ==> r == Deferred(Put(ev1, "delayed", JBool(true))))
      && (peerKnown && connKnown ==>
            r == Ready(if Truthy(cid) then Put(ev1, "connectionId", reg.connections[PropKey(cid)]) else ev1))
    ensures r.ev.JObj?
    ensures r.Deferred? ==> Get(r.ev, "delayed") == JBool(true)
  {
    var pid := Get(ev, "peerId");
    if Truthy(pid) && PropKey(pid) !in reg.peers then Deferred(Put(ev, "delayed", JBool(true)))
    else
      var ev1 := if Truthy(pid) then Put(ev, "peerId", reg.peers[PropKey(pid)].id) else ev;
      assert Get(ev1, "connectionId") == Get(ev, "connectionId");
      var cid := Get(ev1, "connectionId");
      if Truthy(cid) && PropKey(cid) !in reg.connections then Deferred(Put(ev1, "delayed", JBool(true)))
      else
        var ev2 := if Truthy(cid) then Put(ev1, "connectionId", reg.connections[PropKey(cid)]) else ev1;
        Ready(ev2)
  }

  /** `_handleTimelineEvent`: a deferred event is queued and reaches no
      handler; a resolved one goes through the switch. */
  function Timeline(reg: Registry, ev: Json): (d: Dispatch)
    requires ev.JObj?
    ensures var pid := Get(ev, "peerId"); var cid := Get(ev, "connectionId");
      var peerKnown := Truthy(pid) ==> PropKey(pid) in reg.peers;
      var connKnown := Truthy(cid) ==> PropKey(cid) in reg.connections;
      var ev1 := if Truthy(pid) && peerKnown then Put(ev, "peerId", reg.peers[PropKey(pid)].id) else ev;
      && (d.Queued? <==> !peerKnown || !connKnown)
      && (!peerKnown ==> d == Queued(Put(ev, "delayed", JBool(true))))
      && (peerKnown && !connKnown ==> d == Queued(Put(ev1, "delayed", JBool(true))))
      && (peerKnown && connKnown ==>
            d == Route(if Truthy(cid) then Put(ev1, "connectionId", reg.connections[PropKey(cid)]) else ev1))
    ensures d.Queued? ==> d.ev.JObj? && Get(d.ev, "delayed") == JBool(true)
  {
    match Resolve(reg, ev)
    case Deferred(e) => Queued(e)
    case Ready(e) => Route(e)
  }

  /** The event object as `_handleTimelineEvent` leaves it: the queued
      object when it is deferred, otherwise the resolved event with the
      deletions its handler makes. Only `data` differs from the resolved
      event, so the ids written into it stay. */
  function Touched(reg: Registry, ev: Json): (t: Json)
    requires ev.JObj?
    ensures t.JObj?
  {
    match Resolve(reg, ev)
    case Deferred(e) => e
    case Ready(e) => HandlerEdits(Delivery.Current, e)
  }

  /** What the handler leaves in the event object: a deferred event is the
      very object queued, and otherwise the handler changes only `data`
      of the resolved event, so the server peer id written into it stays. */
  lemma TouchedKeepsIds(reg: Registry, ev: Json)
    requires ev.JObj?
    ensures Timeline(reg, ev).Queued? ==> Touched(reg, ev) == Timeline(reg, ev).ev
    ensures var pid := Get(ev, "peerId");
      Truthy(pid) && PropKey(pid) in reg.peers ==> Get(Touched(reg, ev), "peerId") == reg.peers[PropKey(pid)].id
  {
    match Resolve(reg, ev)
    case Deferred(e) =>
    case Ready(e) =>
  }

  /** `Touched` for each of `evs`, in order. */
  function TouchedAll(reg: Registry, evs: seq<Json>): (ts: seq<Json>)
    requires forall i :: 0 <= i < |evs| ==> evs[i].JObj?
    ensures |ts| == |evs|
    decreases |evs|
  {
    if |evs| == 0 then [] else TouchedAll(reg, evs[..|evs| - 1]) + [Touched(reg, evs[|evs| - 1])]
  }

  lemma {:induction false} TouchedAllAt(reg: Registry, evs: seq<Json>, i: nat)
    requires forall k :: 0 <= k < |evs| ==> evs[k].JObj?
    requires i < |evs|
    ensures TouchedAll(reg, evs)[i] == Touched(reg, evs[i])
    decreases |evs|
  {
    if i < |evs| - 1 {
      TouchedAllAt(reg, evs[..|evs| - 1], i);
    }
  }

  /** How the dispatcher handles each of `evs` with the registry fixed,
      as during a replay of the queue. */
  function Dispatches(reg: Registry, evs: seq<Json>): (ds: seq<Dispatch>)
    requires forall i :: 0 <= i < |evs| ==> evs[i].JObj?
    ensures |ds| == |evs|
  {
    seq(|evs|, i requires 0 <= i < |evs| => Timeline(reg, evs[i]))
  }

  /** The queue a replay that threw leaves behind, since the queue holds
      the very objects the handler rewrites and `eventQueue.length = 0` is
      not reached: the events handed to the handler as it left them (the
      one that threw included), the events after it untouched, then the
      events queued again. */
  function LeftBehind(reg: Registry, queue: seq<Json>): (q: seq<Json>)
    requires forall i :: 0 <= i < |queue| ==> queue[i].JObj?
    ensures |q| == |queue| + |Replay(Dispatches(reg, queue)).requeued|
  {
    var d := Replay(Dispatches(reg, queue));
    TouchedAll(reg, queue[..d.handled]) + queue[d.handled..] + d.requeued
  }

  /** After a replay that threw, an event the handler already saw carries
      the server's peer id. Replaying the queue again with the same
      registry looks that id up among the application's peer ids, so unless
      it is also one of those, the event (perhaps sent the first time) is
      queued instead. */
  lemma HandledEventDeferredOnNextReplay(reg: Registry, queue: seq<Json>, i: nat)
    requires forall k :: 0 <= k < |queue| ==> queue[k].JObj?
    requires Replay(Dispatches(reg, queue)).threw
    requires i < Replay(Dispatches(reg, queue)).handled
    requires var pid := Get(queue[i], "peerId");
      Truthy(pid) && PropKey(pid) in reg.peers
      && Truthy(reg.peers[PropKey(pid)].id) && PropKey(reg.peers[PropKey(pid)].id) !in reg.peers
    ensures i < |LeftBehind(reg, queue)|
    ensures Get(LeftBehind(reg, queue)[i], "peerId") == reg.peers[PropKey(Get(queue[i], "peerId"))].id
    ensures Timeline(reg, LeftBehind(reg, queue)[i]).Queued?
  {
    var n := Replay(Dispatches(reg, queue)).handled;
    TouchedAllAt(reg, queue[..n], i);
    assert LeftBehind(reg, queue)[i] == TouchedAll(reg, queue[..n])[i];
    TouchedKeepsIds(reg, queue[i]);
  }

  /** The replay of a stats event sent for a known peer, then an 'ontrack'
      event without a track, which throws: the stats event, sent once, now
      names the server's peer, so the next replay queues it. */
  lemma ReplayAfterThrowQueuesSentStats()
    ensures var reg := ExampleRegistry(); var q := [ExampleStats(), ExampleTrack()];
      && Dispatches(reg, q)[0].Sent?
      && Replay(Dispatches(reg, q)).threw
      && Timeline(reg, LeftBehind(reg, q)[0]).Queued?
  {
    ExampleDispatches();
    ExampleReplayThrows();
    assert PropKey(JStr("p")) == "p" && PropKey(JStr("S")) == "S";
    HandledEventDeferredOnNextReplay(ExampleRegistry(), [ExampleStats(), ExampleTrack()], 0);
  }

  /** The replay of the example handles both events and throws on the second. */
  lemma ExampleReplayThrows()
    ensures var d := Replay(Dispatches(ExampleRegistry(), [ExampleStats(), ExampleTrack()]));
      d.threw && d.handled == 2
  {
    var ds := Dispatches(ExampleRegistry(), [ExampleStats(), ExampleTrack()]);
    ExampleDispatches();
    assert ds[..0] == [];
    ReplayStep(ds, 0);
    ReplayStep(ds, 1);
    assert ds[..2] == ds;
  }

  /** The registry of the example: application peer "p" is server peer
      "S", and connection "c" is server connection "C". */
  function ExampleRegistry(): Registry
  {
    Registry(map["p" := Peer(JStr("S"), [JStr("C")])], ["p"], map["c" := JStr("C")])
  }

  /** A stats event for peer "p" on connection "c". */
  function ExampleStats(): Json
  {
    JObj(map["tag" := JStr("stats"), "peerId" := JStr("p"), "connectionId" := JStr("c"), "data" := JObj(map[])])
  }

  /** An 'ontrack' event for the same peer whose data has no track. */
  function ExampleTrack(): Json
  {
    JObj(map["tag" := JStr("track"), "event" := JStr("ontrack"), "peerId" := JStr("p"),
             "connectionId" := JStr("c"), "data" := JObj(map[])])
  }

  /** With both ids known, the stats event is sent and the track event,
      having no track, throws. */
  lemma ExampleDispatches()
    ensures Dispatches(ExampleRegistry(), [ExampleStats(), ExampleTrack()])[0].Sent?
    ensures Dispatches(ExampleRegistry(), [ExampleStats(), ExampleTrack()])[1] == Threw
  {
    var reg := ExampleRegistry();
    assert PropKey(JStr("p")) == "p" && PropKey(JStr("c")) == "c";
    var e1 := Put(Put(ExampleStats(), "peerId", JStr("S")), "connectionId", JStr("C"));
    assert Resolve(reg, ExampleStats()) == Ready(e1);
    assert Get(e1, "tag") == JStr("stats");
    var e2 := Put(Put(ExampleTrack(), "peerId", JStr("S")), "connectionId", JStr("C"));
    assert Resolve(reg, ExampleTrack()) == Ready(e2);
    assert Get(e2, "tag") == JStr("track") && Get(e2, "event") == JStr("ontrack");
    assert Nullish(Get(Get(e2, "data"), "track"));
  }

  /** An event queued after only its peer id was replaced carries the
      server's peer id; a replay looks that id up among the application's
      peer ids, so unless the server id is also one of those, the event is
      queued again, and a completed replay then clears it. */
  lemma PartiallyResolvedEventQueuedAgain(reg: Registry, later: Registry, ev: Json)
    requires ev.JObj?
    requires Truthy(Get(ev, "peerId")) && PropKey(Get(ev, "peerId")) in reg.peers
    requires Truthy(Get(ev, "connectionId")) && PropKey(Get(ev, "connectionId")) !in reg.connections
    requires var server := reg.peers[PropKey(Get(ev, "peerId"))].id;
      Truthy(server) && PropKey(server) !in later.peers
    ensures Timeline(reg, ev).Queued?
    ensures Get(Timeline(reg, ev).ev, "peerId") == reg.peers[PropKey(Get(ev, "peerId"))].id
    ensures Timeline(later, Timeline(reg, ev).ev).Queued?
    ensures Timeline(later, Timeline(reg, ev).ev).ev == Timeline(reg, ev).ev
  {
    var q := Timeline(reg, ev).ev;
    assert Get(q, "peerId") == reg.peers[PropKey(Get(ev, "peerId"))].id;
    assert Put(q, "delayed", JBool(true)) == q by {
      assert q.fields["delayed"] == JBool(true);
    }
  }

  /** The registry after a successful add-connection request: the peer's
      entry is replaced by the server's peer id and a list holding only the
      new connection, and the connection id is mapped. */
  function Registered(reg: Registry, peerId: string, connKey: string, response: Json): (r: Registry)
    ensures WellOrdered(reg) ==> WellOrdered(r)
  {
    Registry(reg.peers[peerId := Peer(Get(response, "peer_id"), [Get(response, "connection_id")])],
             if peerId in reg.peers then reg.order else reg.order + [peerId],
             reg.connections[connKey := Get(response, "connection_id")])
  }

  /** The first peer, in `for...in` order, whose list holds `internalId`. */
  function Owner(reg: Registry, order: seq<string>, internalId: Json): (r: Option<string>)
    ensures r.Some? ==> r.value in order && r.value in reg.peers && internalId in reg.peers[r.value].connections
    ensures r.None? ==> forall p :: p in order && p in reg.peers ==> internalId !in reg.peers[p].connections
    decreases |order|
  {
    if |order| == 0 then None
    else if order[0] in reg.peers && internalId in reg.peers[order[0]].connections then Some(order[0])
    else Owner(reg, order[1..], internalId)
  }

  /** The owner found is the first in `order`: no peer listed before it
      holds the connection. */
  lemma {:induction false} OwnerIsFirst(reg: Registry, order: seq<string>, internalId: Json)
    ensures var r := Owner(reg, order, internalId);
      r.Some? ==>
        exists j :: (0 <= j < |order| && order[j] == r.value
          && forall k :: 0 <= k < j ==> !(order[k] in reg.peers && internalId in reg.peers[order[k]].connections))
    decreases |order|
  {
    if |order| > 0 && !(order[0] in reg.peers && internalId in reg.peers[order[0]].connections) {
      var rest := Owner(reg, order[1..], internalId);
      OwnerIsFirst(reg, order[1..], internalId);
      if rest.Some? {
        var j :| 0 <= j < |order[1..]| && order[1..][j] == rest.value
          && forall k :: 0 <= k < j ==> !(order[1..][k] in reg.peers && internalId in reg.peers[order[1..][k]].connections);
        assert order[j + 1] == rest.value;
        assert forall k :: 1 <= k < j + 1 ==> order[k] == order[1..][k - 1];
      }
    }
  }

  datatype Removal = Removal(registry: Registry, calls: seq<ApiCall>, result: Result<()>)

  /** The body of the 'removeConnection' event. */
  function RemoveConnectionBody(internalId: Json, owner: Option<string>): Json
  {
    JObj(map["eventName" := JStr("removeConnection"), "connectionId" := internalId,
             "peerId" := if owner.Some? then JStr(owner.value) else JUndefined])
  }

  /** `removeConnection` for the local connection id `connKey`: nothing
      happens unless it maps to a truthy server id; then the event is sent
      naming the owning peer, and once it is answered the mapping goes and
      the server id leaves the owner's list. The peer stays, even with an
      empty list. Without an owner the cleanup throws after the mapping went. */
  function RemoveConnectionEffect(reg: Registry, connKey: string, response: Settled): (r: Removal)
    ensures WellOrdered(reg) ==> WellOrdered(r.registry)
    ensures r.registry.peers.Keys == reg.peers.Keys && r.registry.order == reg.order
    ensures var internalId := if connKey in reg.connections then reg.connections[connKey] else JUndefined;
      && (!Truthy(internalId) ==> r == Removal(reg, [], Ok(())))
      && (Truthy(internalId) ==>
          && r.calls == [SendConnectionEvent(RemoveConnectionBody(internalId, Owner(reg, reg.order, internalId)))]
          && (response.Rejected? ==> r.registry == reg && r.result == Fail(RejectedWith(response.reason)))
          && (response.Fulfilled? ==>
                && r.registry.connections == reg.connections - {connKey}
                && var owner := Owner(reg, reg.order, internalId);
                   && (owner.None? ==> r.registry.peers == reg.peers && r.result == Fail(TypeError))
                   && (owner.Some? ==>
                         && r.result == Ok(())
                         && r.registry.peers == reg.peers[owner.value :=
                              Peer(reg.peers[owner.value].id, Without(reg.peers[owner.value].connections, internalId))])))
  {
    var internalId := if connKey in reg.connections then reg.connections[connKey] else JUndefined;
    if !Truthy(internalId) then Removal(reg, [], Ok(()))
    else
      var owner := Owner(reg, reg.order, internalId);
      var calls := [SendConnectionEvent(RemoveConnectionBody(internalId, owner))];
      if response.Rejected? then Removal(reg, calls, Fail(RejectedWith(response.reason)))
      else
        var connections := reg.connections - {connKey};
        if owner.None? then Removal(reg.(connections := connections), calls, Fail(TypeError))
        else
          var peer := reg.peers[owner.value];
          Removal(Registry(reg.peers[owner.value := Peer(peer.id, Without(peer.connections, internalId))],
                           reg.order, connections),
                  calls, Ok(()))
  }

  /** A second connection of the same peer replaces the peer's list, so the
      first connection's server id has no owner: removing the first
      connection sends the event without a peer id, drops the mapping and
      then throws. */
  lemma SecondConnectionOrphansFirst(peerId: string, local1: string, local2: string, server: Json, c1: Json, c2: Json)
    requires local1 != local2 && c1 != c2 && Truthy(c1)
    ensures var reg1 := Registered(EmptyRegistry, peerId, local1,
                                   JObj(map["peer_id" := server, "connection_id" := c1]));
      var reg2 := Registered(reg1, peerId, local2, JObj(map["peer_id" := server, "connection_id" := c2]));
      && reg2.peers[peerId].connections == [c2]
      && reg2.connections == map[local1 := c1, local2 := c2]
      && RemoveConnectionEffect(reg2, local1, Fulfilled(JUndefined))
         == Removal(reg2.(connections := map[local2 := c2]),
                    [SendConnectionEvent(RemoveConnectionBody(c1, None))], Fail(TypeError))
  {
    var reg1 := Registered(EmptyRegistry, peerId, local1, JObj(map["peer_id" := server, "connection_id" := c1]));
    var reg2 := Registered(reg1, peerId, local2, JObj(map["peer_id" := server, "connection_id" := c2]));
    assert reg2.order == [peerId];
    assert Owner(reg2, reg2.order[1..], c1) == None;
    assert Owner(reg2, reg2.order, c1) == None;
    assert reg2.connections - {local1} == map[local2 := c2];
  }

  /** `addConnection`'s checks, in order, and the 'addConnection' event it
      sends: the peer id as a string and a truthy peer name of more than 64
      characters cut down to what follows its first 64. */
  datatype AddRequest = AddRequest(peerId: string, body: Json)

  function AddConnectionRequest(initialized: bool, statsReady: bool, options: Json, userId: Json): (r: Result<AddRequest>)
    ensures var pid := Get(options, "peerId"); var name := Get(options, "peerName");
      && (r.Ok? <==>
          && initialized && statsReady && options.JObj?
          && Truthy(Get(options, "pc")) && Truthy(pid)
          && (Truthy(name) ==> name.JStr?)
          && JStr(PropKey(pid)) != userId)
      && (!initialized ==> r == Fail(Thrown(NotInitialized)))
      && (initialized && !statsReady ==> r == Fail(Thrown(NoStatsModule)))
      && (initialized && statsReady && TypeOf(options) != "object" ==> r == Fail(Thrown(AddConnectionNotObject)))
      && (initialized && statsReady && options.JNull? ==> r == Fail(TypeError))
      && (r.Ok? ==>
          && r.value.peerId == PropKey(pid)
          && r.value.body.JObj?
          && r.value.body.fields.Keys == {"eventName", "peerId", "peerName", "connectionState", "isSfu"}
          && Get(r.value.body, "eventName") == JStr("addConnection")
          && Get(r.value.body, "peerId") == JStr(PropKey(pid))
          && Get(r.value.body, "peerName") ==
               (if Truthy(name) && |name.s| > Validation.PeerNameLength
                then JStr(name.s[Validation.PeerNameLength..]) else name)
          && Get(r.value.body, "connectionState") == Get(Get(options, "pc"), "connectionState")
          && Get(r.value.body, "isSfu") == JBool(Truthy(Get(options, "isSfu"))))
  {
    if !initialized then Fail(Thrown(NotInitialized))
    else if !statsReady then Fail(Thrown(NoStatsModule))
    else if TypeOf(options) != "object" then Fail(Thrown(AddConnectionNotObject))
    else if options.JNull? then Fail(TypeError)
    else
      var pc := Get(options, "pc");
      var pid := Get(options, "peerId");
      var name := Get(options, "peerName");
      if !Truthy(pc) then Fail(Thrown(MissingPc))
      else if !Truthy(pid) then Fail(Thrown(MissingPeerId))
      else if Truthy(name) && !name.JStr? then Fail(Thrown(PeerNameNotString))
      else
        var peerId := PropKey(pid);
        var peerName := if Truthy(name) then JStr(Validation.TrimPeerName(name.s)) else name;
        if JStr(peerId) == userId then Fail(Thrown(SameAsUser))
        else Ok(AddRequest(peerId, JObj(map[
          "eventName" := JStr("addConnection"), "peerId" := JStr(peerId), "peerName" := peerName,
          "connectionState" := Get(pc, "connectionState"), "isSfu" := JBool(Truthy(Get(options, "isSfu")))])))
  }

  /** The queue after the first `i` events of a replay of `snapshot`, none
      of which threw. */
  ghost function QueueAt(reg: Registry, snapshot: seq<Json>, i: nat): seq<Json>
    requires forall k :: 0 <= k < |snapshot| ==> snapshot[k].JObj?
    requires i <= |snapshot|
  {
    TouchedAll(reg, snapshot[..i]) + snapshot[i..] + Replay(Dispatches(reg, snapshot)[..i]).requeued
  }

  /** One step of the replay loop: handling the next event rewrites its
      slot, queues it again when it is deferred, and records its call. */
  lemma DrainStep(reg: Registry, snapshot: seq<Json>, i: nat)
    requires forall k :: 0 <= k < |snapshot| ==> snapshot[k].JObj?
    requires i < |snapshot|
    requires var d := Replay(Dispatches(reg, snapshot)[..i]); !d.threw && d.handled == i
    ensures var ds := Dispatches(reg, snapshot);
      var d := Replay(ds[..i]); var next := Replay(ds[..i + 1]); var t := Timeline(reg, snapshot[i]);
      && next.handled == i + 1
      && next.threw == t.Threw?
      && next.calls == d.calls + (if t.Sent? then [t.call] else [])
      && (QueueAt(reg, snapshot, i) + (if t.Queued? then [t.ev] else []))[i := Touched(reg, snapshot[i])]
         == QueueAt(reg, snapshot, i + 1)
  {
    var ds := Dispatches(reg, snapshot);
    ReplayStep(ds, i);
    assert ds[i] == Timeline(reg, snapshot[i]);
    ReplayQueueStep(TouchedAll(reg, snapshot[..i]), snapshot, ds, i, Touched(reg, snapshot[i]));
    assert snapshot[..i + 1][..i] == snapshot[..i];
  }

  class PeerMetrics {
    /** The id the SDK was created with (`this.user.userId`). */
    const userId: Json
    var initialized: bool
    /** Whether the stats module is instantiated (`this.webrtcStats`). */
    var statsReady: bool
    /** The module-level `peersToMonitor` and `monitoredConnections`. */
    var registry: Registry
    /** The module-level `eventQueue`. */
    var eventQueue: seq<Json>
    /** Every call made on the API wrapper, in order. */
    var sent: seq<ApiCall>

    ghost predicate Valid()
      reads this
    {
      WellOrdered(registry) && forall i :: 0 <= i < |eventQueue| ==> eventQueue[i].JObj?
    }

    constructor (userId: Json)
      ensures Valid()
      ensures this.userId == userId && !initialized && !statsReady
      ensures registry == EmptyRegistry && eventQueue == [] && sent == []
    {
      this.userId := userId;
      initialized := false;
      statsReady := false;
      registry := EmptyRegistry;
      eventQueue := [];
      sent := [];
    }

    /** The end of a successful `initialize`: the SDK is initialized and
        its stats module exists. */
    method FinishInitialize()
      modifies this`initialized, this`statsReady
      ensures initialized && statsReady
    {
      initialized := true;
      statsReady := true;
    }

    /** `_handleTimelineEvent` on one event; `left` is the event object as
        the handler leaves it. */
    method HandleTimelineEvent(ev: Json) returns (r: Result<()>, left: Json)
      requires Valid() && ev.JObj?
      modifies this`eventQueue, this`sent
      ensures Valid()
      ensures var d := Timeline(registry, ev);
        && eventQueue == old(eventQueue) + (if d.Queued? then [d.ev] else [])
        && sent == old(sent) + (if d.Sent? then [d.call] else [])
        && r == (if d.Threw? then Fail(TypeError) else Ok(()))
      ensures left == Touched(registry, ev)
    {
      r := Ok(());
      match Resolve(registry, ev) {
        case Deferred(e) =>
          eventQueue := eventQueue + [e];
          left := e;
        case Ready(e) =>
          match Route(e) {
            case Sent(c) => sent := sent + [c];
            case Quiet =>
            case Threw => r := Fail(TypeError);
          }
          left := HandlerEdits(Delivery.Current, e);
      }
    }

    /** `addConnection`: the checks, then the 'addConnection' event is sent
        without waiting for it; `connectionId` is what the stats library
        assigned. The answer is handled by `CompleteAddConnection`. */
    method AddConnection(options: Json, connectionId: Json) returns (r: Result<Json>, request: Result<AddRequest>)
      modifies this`sent
      ensures request == AddConnectionRequest(initialized, statsReady, options, userId)
      ensures request.Fail? ==> r == Fail(request.error) && sent == old(sent)
      ensures request.Ok? ==>
        r == Ok(JObj(map["connectionId" := connectionId]))
        && sent == old(sent) + [SendConnectionEvent(request.value.body)]
    {
      request := AddConnectionRequest(initialized, statsReady, options, userId);
      if request.Fail? {
        return Fail(request.error), request;
      }
      sent := sent + [SendConnectionEvent(request.value.body)];
      r := Ok(JObj(map["connectionId" := connectionId]));
    }

    /** `_sendAddConnectionRequest` once its request settled. A rejection or
        a falsy answer starts `removeConnection` for the connection (its
        event settling as `removal`) and fails; the queue is untouched. An
        answer registers the ids, replays the queue as it was, and empties
        it, which also drops the events queued again by the replay. A
        handler that throws stops the replay and leaves the queue holding
        the events as the replay rewrote them. */
    method CompleteAddConnection(peerId: string, connectionId: Json, response: Settled, removal: Settled)
      returns (r: Result<()>)
      requires Valid()
      modifies this`registry, this`eventQueue, this`sent
      ensures Valid()
      ensures response.Rejected? || !Truthy(response.value) ==>
        var rem := RemoveConnectionEffect(old(registry), PropKey(connectionId), removal);
        && (statsReady ==> registry == rem.registry && sent == old(sent) + rem.calls)
        && (!statsReady ==> registry == old(registry) && sent == old(sent))
        && eventQueue == old(eventQueue)
        && r == (if response.Rejected? then Fail(RejectedWith(response.reason)) else Fail(Thrown(AddConnectionProblem)))
      ensures response.Fulfilled? && Truthy(response.value) ==>
        var reg := Registered(old(registry), peerId, PropKey(connectionId), response.value);
        var d := Replay(Dispatches(reg, old(eventQueue)));
        && registry == reg
        && sent == old(sent) + d.calls
        && eventQueue == (if d.threw then LeftBehind(reg, old(eventQueue)) else [])
        && r == (if d.threw then Fail(TypeError) else Ok(()))
    {
      if response.Rejected? || !Truthy(response.value) {
        var ignored := RemoveConnection(connectionId, removal);
        r := if response.Rejected? then Fail(RejectedWith(response.reason)) else Fail(Thrown(AddConnectionProblem));
        return;
      }
      registry := Registered(registry, peerId, PropKey(connectionId), response.value);
      var threw := DrainEventQueue();
      r := if threw then Fail(TypeError) else Ok(());
    }

    /** One turn of the replay loop: the handler gets the next event of
        `snapshot`, and the rewritten event is written back into its slot. */
    method ReplayNext(snapshot: seq<Json>, i: nat, ghost start: seq<ApiCall>) returns (threw: bool)
      requires Valid() && i < |snapshot| && forall k :: 0 <= k < |snapshot| ==> snapshot[k].JObj?
      requires var d := Replay(Dispatches(registry, snapshot)[..i]);
        !d.threw && d.handled == i && eventQueue == QueueAt(registry, snapshot, i) && sent == start + d.calls
      modifies this`eventQueue, this`sent
      ensures Valid()
      ensures var d := Replay(Dispatches(registry, snapshot)[..i + 1]);
        d.handled == i + 1 && eventQueue == QueueAt(registry, snapshot, i + 1) && sent == start + d.calls
        && threw == d.threw
    {
      DrainStep(registry, snapshot, i);
      var handled, left := HandleTimelineEvent(snapshot[i]);
      eventQueue := eventQueue[i := left];
      threw := handled.Fail?;
    }

    /** The loop over the deferred events once a connection is registered:
        each goes through the timeline handler again, which rewrites the
        object in its queue slot, and the queue is emptied only when none
        of them threw. */
    method DrainEventQueue() returns (threw: bool)
      requires Valid()
      modifies this`eventQueue, this`sent
      ensures Valid()
      ensures var d := Replay(Dispatches(registry, old(eventQueue)));
        && sent == old(sent) + d.calls
        && eventQueue == (if d.threw then LeftBehind(registry, old(eventQueue)) else [])
        && threw == d.threw
    {
      var snapshot := eventQueue;
      var ds := Dispatches(registry, snapshot);
      var i := 0;
      threw := false;
      while i < |snapshot| && !threw
        invariant 0 <= i <= |snapshot|
        invariant Valid()
        invariant var d := Replay(ds[..i]);
          && d.handled == i
          && eventQueue == QueueAt(registry, snapshot, i)
          && sent == old(sent) + d.calls && threw == d.threw
      {
        threw := ReplayNext(snapshot, i, old(sent));
        i := i + 1;
      }
      if threw {
        ReplayStopsAtThrow(ds, i);
      } else {
        assert ds[..i] == ds;
        eventQueue := [];
      }
    }

    /** `removeConnection` for the connection id the stats library gave
        back; the owner is searched peer by peer. Without a stats module the
        first call, on `this.webrtcStats`, is a TypeError. */
    method RemoveConnection(connectionId: Json, response: Settled) returns (r: Result<()>)
      requires Valid()
      modifies this`registry, this`sent
      ensures Valid()
      ensures !statsReady ==> r == Fail(TypeError) && registry == old(registry) && sent == old(sent)
      ensures statsReady ==>
        var rem := RemoveConnectionEffect(old(registry), PropKey(connectionId), response);
        registry == rem.registry && sent == old(sent) + rem.calls && r == rem.result
    {
      if !statsReady {
        return Fail(TypeError);
      }
      var key := PropKey(connectionId);
      var internalId := if key in registry.connections then registry.connections[key] else JUndefined;
      if !Truthy(internalId) {
        return Ok(());
      }
      var owner: Option<string> := None;
      var i := 0;
      while i < |registry.order|
        invariant 0 <= i <= |registry.order|
        invariant Owner(registry, registry.order, internalId) ==
                  (if owner.Some? then owner else Owner(registry, registry.order[i..], internalId))
        invariant owner.Some? ==> i == |registry.order|
      {
        var p := registry.order[i];
        if p in registry.peers && internalId in registry.peers[p].connections {
          owner := Some(p);
          assert Owner(registry, registry.order[i..], internalId) == Some(p);
          i := |registry.order|;
        } else {
          assert registry.order[i..][1..] == registry.order[i + 1..];
          i := i + 1;
        }
      }
      assert owner.None? ==> registry.order[i..] == [];
      sent := sent + [SendConnectionEvent(RemoveConnectionBody(internalId, owner))];
      if response.Rejected? {
        return Fail(RejectedWith(response.reason));
      }
      var connections := registry.connections - {key};
      if owner.None? {
        registry := registry.(connections := connections);
        return Fail(TypeError);
      }
      var peer := registry.peers[owner.value];
      registry := Registry(registry.peers[owner.value := Peer(peer.id, Without(peer.connections, internalId))],
                           registry.order, connections);
      r := Ok(());
    }

    /** `removePeer`: a non-string or unknown id throws, and so does the
        call on a missing stats module; otherwise the 'removePeer' event is
        sent and, once it is answered, the peer's entry is deleted. Its
        connection mappings stay. */
    method RemovePeer(peerId: Json, response: Settled) returns (r: Result<()>)
      requires Valid()
      modifies this`registry, this`sent
      ensures Valid()
      ensures !peerId.JStr? ==>
        r == Fail(Thrown(RemovePeerNotString)) && registry == old(registry) && sent == old(sent)
      ensures peerId.JStr? && peerId.s !in old(registry).peers ==>
        r == Fail(Thrown("Could not find peer with id " + peerId.s)) && registry == old(registry) && sent == old(sent)
      ensures peerId.JStr? && peerId.s in old(registry).peers && !statsReady ==>
        r == Fail(TypeError) && registry == old(registry) && sent == old(sent)
      ensures peerId.JStr? && peerId.s in old(registry).peers && statsReady ==>
        && sent == old(sent) + [SendConnectionEvent(JObj(map["eventName" := JStr("removePeer"), "peerId" := peerId]))]
        && registry.connections == old(registry).connections
        && (response.Rejected? ==> r == Fail(RejectedWith(response.reason)) && registry == old(registry))
        && (response.Fulfilled? ==>
              && r == Ok(())
              && registry.peers == old(registry).peers - {peerId.s}
              && registry.order == Without(old(registry).order, peerId.s))
    {
      if !peerId.JStr? {
        return Fail(Thrown(RemovePeerNotString));
      }
      if peerId.s !in registry.peers {
        return Fail(Thrown("Could not find peer with id " + peerId.s));
      }
      if !statsReady {
        return Fail(TypeError);
      }
      sent := sent + [SendConnectionEvent(JObj(map["eventName" := JStr("removePeer"), "peerId" := peerId]))];
      if response.Rejected? {
        return Fail(RejectedWith(response.reason));
      }
      registry := registry.(peers := registry.peers - {peerId.s}, order := Without(registry.order, peerId.s));
      r := Ok(());
    }

    /** `addEvent`: the checks, then the custom event is sent and awaited.
        `serialised` is the length of the event's JSON text, None when it
        cannot be serialised. */
    method AddEvent(options: Json, serialised: Option<nat>, response: Settled) returns (r: Result<()>)
      modifies this`sent
      ensures var check := Validation.CustomEventCheck(options, serialised, Delivery.Current);
        && (check.Fail? ==> r == Fail(check.error) && sent == old(sent))
        && (check.Ok? ==>
              sent == old(sent) + [SendCustomEvent(options)]
              && r == (if response.Rejected? then Fail(RejectedWith(response.reason)) else Ok(())))
    {
      var check := Validation.CustomEventCheck(options, serialised, Delivery.Current);
      if check.Fail? {
        return Fail(check.error);
      }
      sent := sent + [SendCustomEvent(options)];
      r := if response.Rejected? then Fail(RejectedWith(response.reason)) else Ok(());
    }

    /** `endCall`: without a stats module it throws before anything changes;
        otherwise both maps are emptied and the SDK is no longer initialized,
        and then the call it returns, `sendEndCall`, which the wrapper does
        not define, throws as well. The event queue is kept. */
    method EndCall() returns (r: Result<()>)
      requires Valid()
      modifies this`registry, this`initialized, this`statsReady
      ensures Valid()
      ensures r == Fail(TypeError) && !statsReady
      ensures !old(statsReady) ==> registry == old(registry) && initialized == old(initialized)
      ensures old(statsReady) ==> registry == EmptyRegistry && !initialized
    {
      if statsReady {
        statsReady := false;
        registry := EmptyRegistry;
        initialized := false;
      }
      r := Fail(TypeError);
    }
  }

  /** When the server switches batching on, `sendConnectionEvent` returns
      undefined, so `_sendAddConnectionRequest` awaits undefined and always
      takes its failure path. `addConnection` itself does not wait for it
      and still resolves `{connectionId}`; the registration running behind
      it rejects, whatever the server would have answered, and no peer is
      registered. */
  method BatchedAddConnectionNeverRegisters(options: Json, connectionId: Json, answer: Settled, removal: Settled,
                                            now: int)
    returns (added: Result<Json>, registration: Result<()>, registered: bool)
    requires AddConnectionRequest(true, true, options, JStr("u")).Ok?
    ensures added == Ok(JObj(map["connectionId" := connectionId]))
    ensures registration == Fail(Thrown(AddConnectionProblem))
    ensures !registered
  {
    var sdk := new PeerMetrics(JStr("u"));
    sdk.FinishInitialize();
    var request;
    added, request := sdk.AddConnection(options, connectionId);
    var awaited, requests := Api.BatchedConnectionEvent(request.value.body, answer, now);
    registration := sdk.CompleteAddConnection(request.value.peerId, connectionId, awaited, removal);
    registered := sdk.registry.peers != map[];
  }

  /** A connection whose registration completes after `endCall` leaves a
      registered peer that `removePeer` can no longer remove: the call on
      the missing stats module throws before anything is sent. */
  method RemovePeerAfterEndCall(options: Json, connectionId: Json, answer: Json, response: Settled)
    returns (removed: Result<()>, stillRegistered: bool)
    requires AddConnectionRequest(true, true, options, JStr("u")).Ok?
    requires Truthy(answer)
    ensures removed == Fail(TypeError)
    ensures stillRegistered
  {
    var sdk := new PeerMetrics(JStr("u"));
    sdk.FinishInitialize();
    var added, request := sdk.AddConnection(options, connectionId);
    var ended := sdk.EndCall();
    var registration := sdk.CompleteAddConnection(request.value.peerId, connectionId, Fulfilled(answer), response);
    removed := sdk.RemovePeer(JStr(request.value.peerId), response);
    stillRegistered := request.value.peerId in sdk.registry.peers;
  }
}
