/**
  The live order and rider fan-out as one sequential state machine. The world is
  the channel layer's group registry, the consumers currently connected, keyed
  by channel name, and the consumers whose task ended by raising. Each handler
  (connect, disconnect, receive, an order save) is one atomic transition
  returning the new world and the `group_send` calls it made; `Deliver` is the
  layer handing one such call to every current member of the group, each through
  its own consumer's handler.
 */
module Realtime {
  import opened Wrappers
  import opened JsonValues
  import opened ChannelLayer
  import opened Routing
  import opened Consumers
  import opened OrderModels
  import Signals

  /** A connected consumer: its kind and the identifier its route bound, fixed at connect. */
  datatype Connection = Connection(kind: ConsumerKind, roomId: string) {
    function Group(): GroupName {
      GroupFor(kind, roomId)
    }
  }

  /**
    `crashed` holds the consumers whose `receive` raised: their task is over, so
    nothing reads their channel and `disconnect` never runs for them, but the
    layer still lists them in the group they joined.
   */
  datatype World = World(layer: Registry, connections: map<ChannelName, Connection>, crashed: map<ChannelName, Connection>)

  /** The world after one handler, and the group sends it made, in order. */
  datatype Step = Step(world: World, sent: seq<GroupSend>)

  const Initial: World := World(EmptyRegistry, map[], map[])

  /** The consumer a route instantiates. */
  function ConnectionFor(route: Route): Connection {
    match route
    case OrderRoute(id) => Connection(OrderConsumer, id)
    case TrackingRoute(id) => Connection(LocationConsumer, id)
  }

  /** `c` is a consumer, live or crashed, that joined `g`. */
  ghost predicate JoinedBy(w: World, c: ChannelName, g: GroupName) {
    || (c in w.connections && w.connections[c].Group() == g)
    || (c in w.crashed && w.crashed[c].Group() == g)
  }

  /**
    The registry mirrors the consumers: a channel is in group `g` exactly when its
    consumer, live or crashed, joined `g`; no channel is both live and crashed;
    every identifier bound by a connection passed routing.
   */
  ghost predicate Consistent(w: World) {
    && (forall c, g :: c in Members(w.layer, g) <==> JoinedBy(w, c, g))
    && w.connections.Keys !! w.crashed.Keys
    && (forall c :: c in w.connections ==> ValidId(w.connections[c].roomId))
    && (forall c :: c in w.crashed ==> ValidId(w.crashed[c].roomId))
  }

  /**
    A WebSocket handshake on `path` for the fresh channel `c`. A path no pattern
    admits reaches no consumer and changes nothing; otherwise the consumer joins
    the group of its route (`order_<id>` or `location_<id>`) and nothing else.
   */
  function Connect(w: World, path: string, c: ChannelName): (s: Step)
    requires c !in w.connections && c !in w.crashed
    ensures s.sent == []
    ensures Resolve(path).None? ==> s.world == w
    ensures Resolve(path).Some? ==>
              var conn := ConnectionFor(Resolve(path).value);
              && s.world.connections == w.connections[c := conn]
              && s.world.crashed == w.crashed
              && Members(s.world.layer, conn.Group()) == Members(w.layer, conn.Group()) + {c}
              && (forall h :: h != conn.Group() ==> Members(s.world.layer, h) == Members(w.layer, h))
  {
    match Resolve(path)
    case None => Step(w, [])
    case Some(route) =>
      var conn := ConnectionFor(route);
      Step(World(GroupAdd(w.layer, conn.Group(), c), w.connections[c := conn], w.crashed), [])
  }

  /**
    `disconnect`: the consumer leaves the very group it joined at connect; no other
    group changes. A channel that never connected, or whose consumer crashed,
    changes nothing.
   */
  function Disconnect(w: World, c: ChannelName): (s: Step)
    ensures s.sent == []
    ensures c !in w.connections ==> s.world == w
    ensures c in w.connections ==>
              var g := w.connections[c].Group();
              && s.world.connections == w.connections - {c}
              && s.world.crashed == w.crashed
              && Members(s.world.layer, g) == Members(w.layer, g) - {c}
              && (forall h :: h != g ==> Members(s.world.layer, h) == Members(w.layer, h))
  {
    if c in w.connections then
      var conn := w.connections[c];
      Step(World(GroupDiscard(w.layer, conn.Group(), c), w.connections - {c}, w.crashed), [])
    else
      Step(w, [])
  }

  /**
    `receive`: a decoded text frame from the client of channel `c`. A tracking
    consumer publishes the position to its own group; an order consumer defines no
    handler for inbound frames and publishes nothing. When the frame is not an
    object the tracking handler raises: its consumer stops, without leaving its
    group. The registry never changes.
   */
  function Receive(w: World, c: ChannelName, data: Json): (s: Step)
    ensures s.world.layer == w.layer
    ensures c in w.connections && w.connections[c].kind.LocationConsumer? && data.JObject? ==>
              s.world == w && s.sent == [GroupSend(w.connections[c].Group(), LocationReceive(data).value)]
    ensures c in w.connections && w.connections[c].kind.LocationConsumer? && !data.JObject? ==>
              && s.sent == []
              && s.world.connections == w.connections - {c}
              && s.world.crashed == w.crashed[c := w.connections[c]]
    ensures c !in w.connections || w.connections[c].kind.OrderConsumer? ==>
              s.world == w && s.sent == []
  {
    if c in w.connections && w.connections[c].kind.LocationConsumer? then
      match LocationReceive(data)
      case Ok(msg) => Step(w, [GroupSend(w.connections[c].Group(), msg)])
      case Err(_) => Step(World(w.layer, w.connections - {c}, w.crashed[c := w.connections[c]]), [])
    else
      Step(w, [])
  }

  /** A save of `order` (created or updated): exactly one status event, no membership change. */
  function OrderSaved(w: World, order: Order, created: bool): (s: Step)
    ensures s.world == w
    ensures |s.sent| == 1 && s.sent[0] == Signals.OrderStatusNotification(order, created)
  {
    Step(w, [Signals.OrderStatusNotification(order, created)])
  }

  /**
    The channel layer delivering one group send: each member whose consumer is
    live runs its handler; a crashed member's message is left unread.
   */
  function Deliver(w: World, send: GroupSend): (out: map<ChannelName, Result<Json, HandlerError>>)
    ensures out.Keys <= Members(w.layer, send.group)
    ensures out.Keys !! w.crashed.Keys
  {
    map c | c in Members(w.layer, send.group) && c in w.connections && c !in w.crashed :: Handle(w.connections[c].kind, send.message)
  }

  lemma {:induction false} InitialConsistent()
    ensures Consistent(Initial)
  {
  }

  lemma {:induction false} ConnectPreservesConsistency(w: World, path: string, c: ChannelName)
    requires Consistent(w) && c !in w.connections && c !in w.crashed
    ensures Consistent(Connect(w, path, c).world)
  {
    var w' := Connect(w, path, c).world;
    if Resolve(path).Some? {
      var conn := ConnectionFor(Resolve(path).value);
      forall d, g ensures d in Members(w'.layer, g) <==> JoinedBy(w', d, g) {
        if g == conn.Group() {
          assert Members(w'.layer, g) == Members(w.layer, g) + {c};
        } else {
          assert Members(w'.layer, g) == Members(w.layer, g);
        }
      }
    }
  }

  lemma {:induction false} DisconnectPreservesConsistency(w: World, c: ChannelName)
    requires Consistent(w)
    ensures Consistent(Disconnect(w, c).world)
  {
    var w' := Disconnect(w, c).world;
    if c in w.connections {
      var g0 := w.connections[c].Group();
      forall d, g ensures d in Members(w'.layer, g) <==> JoinedBy(w', d, g) {
        if g == g0 {
          assert Members(w'.layer, g) == Members(w.layer, g) - {c};
        } else {
          assert Members(w'.layer, g) == Members(w.layer, g);
          assert c in Members(w.layer, g0);
        }
      }
    }
  }

  lemma {:induction false} ReceivePreservesConsistency(w: World, c: ChannelName, data: Json)
    requires Consistent(w)
    ensures Consistent(Receive(w, c, data).world)
  {
    var w' := Receive(w, c, data).world;
    if c in w.connections && w.connections[c].kind.LocationConsumer? && !data.JObject? {
      forall d, g ensures d in Members(w'.layer, g) <==> JoinedBy(w', d, g) {
        assert JoinedBy(w', d, g) <==> JoinedBy(w, d, g);
      }
    }
  }

  /**
    In a consistent world a group's members are exactly the consumers that
    joined it, live or crashed; a send to it reaches the live ones; a group
    nobody joined receives nothing.
   */
  lemma {:induction false} MembersAreJoinedConnections(w: World, g: GroupName)
    requires Consistent(w)
    ensures Members(w.layer, g) ==
              (set c | c in w.connections && w.connections[c].Group() == g) +
              (set c | c in w.crashed && w.crashed[c].Group() == g)
    ensures Deliver(w, GroupSend(g, map[])).Keys == set c | c in w.connections && w.connections[c].Group() == g
  {
  }

  /**
    A position received on a tracking connection reaches every live member of
    that tracking room, the sender included, as `{type: "location_update",
    latitude, longitude}` with the values the sender sent.
   */
  lemma {:induction false} PositionReachesWholeRoom(w: World, c: ChannelName, data: Json)
    requires Consistent(w)
    requires c in w.connections && w.connections[c].kind.LocationConsumer?
    requires data.JObject?
    ensures var s := Receive(w, c, data);
            var out := Deliver(w, s.sent[0]);
            && out.Keys == Members(w.layer, w.connections[c].Group()) - w.crashed.Keys
            && c in out
            && forall d :: d in out ==>
                 out[d] == Ok(JObject(map["type" := JString(LocationUpdateType),
                                          "latitude" := Get(data.fields, "latitude"),
                                          "longitude" := Get(data.fields, "longitude")]))
  {
    var conn := w.connections[c];
    var s := Receive(w, c, data);
    var out := Deliver(w, s.sent[0]);
    forall d | d in out
      ensures out[d] == Ok(JObject(map["type" := JString(LocationUpdateType),
                                       "latitude" := Get(data.fields, "latitude"),
                                       "longitude" := Get(data.fields, "longitude")]))
    {
      var other := w.connections[d];
      assert d in Members(w.layer, conn.Group());
      GroupForInjective(other.kind, other.roomId, conn.kind, conn.roomId);
      PublishedPositionRoundTrips(data);
    }
    assert c in Members(w.layer, conn.Group());
  }

  /**
    A tracking client that sends a frame which is not an object stops its
    consumer: the channel stays a member of its room, yet no later send to any
    group reaches it, and a later `disconnect` for it changes nothing.
   */
  lemma {:induction false} CrashedConsumerStaysSubscribed(w: World, c: ChannelName, data: Json, send: GroupSend)
    requires Consistent(w)
    requires c in w.connections && w.connections[c].kind.LocationConsumer?
    requires !data.JObject?
    ensures var w' := Receive(w, c, data).world;
            && Consistent(w')
            && c in Members(w'.layer, w.connections[c].Group())
            && c !in Deliver(w', send)
            && Disconnect(w', c).world == w'
  {
    ReceivePreservesConsistency(w, c, data);
    assert c in Members(w.layer, w.connections[c].Group());
  }

  /**
    A save of an order reaches exactly the order consumers connected for that
    order's identifier, each as `{type: "order_status", status, message}`; no
    tracking consumer receives it.
   */
  lemma {:induction false} SaveReachesOrderWatchers(w: World, order: Order, created: bool)
    requires Consistent(w)
    ensures var out := Deliver(w, OrderSaved(w, order, created).sent[0]);
            && (forall d :: d in out <==> d in w.connections && w.connections[d] == Connection(OrderConsumer, order.id))
            && forall d :: d in out ==>
                 out[d] == Ok(JObject(map["type" := JString(OrderStatusFrameType),
                                          "status" := JString(order.status),
                                          "message" := JString(Signals.StatusMessage(order.status))]))
  {
    var send := OrderSaved(w, order, created).sent[0];
    var out := Deliver(w, send);
    forall d ensures d in out <==> d in w.connections && w.connections[d] == Connection(OrderConsumer, order.id) {
      if d in out {
        var other := w.connections[d];
        GroupForInjective(other.kind, other.roomId, OrderConsumer, order.id);
      }
    }
    forall d | d in out
      ensures out[d] == Ok(JObject(map["type" := JString(OrderStatusFrameType),
                                       "status" := JString(order.status),
                                       "message" := JString(Signals.StatusMessage(order.status))]))
    {
      var other := w.connections[d];
      GroupForInjective(other.kind, other.roomId, OrderConsumer, order.id);
      Signals.NotificationHandledByOrderConsumer(order, created);
    }
  }

  /**
    Connecting and then disconnecting the same fresh channel leaves every group
    and the set of live connections as they were.
   */
  lemma {:induction false} ConnectThenDisconnectRestores(w: World, path: string, c: ChannelName)
    requires Consistent(w) && c !in w.connections && c !in w.crashed
    ensures var w' := Disconnect(Connect(w, path, c).world, c).world;
            && w'.connections == w.connections
            && w'.crashed == w.crashed
            && forall g :: Members(w'.layer, g) == Members(w.layer, g)
  {
    var w1 := Connect(w, path, c).world;
    var w2 := Disconnect(w1, c).world;
    if Resolve(path).Some? {
      var conn := ConnectionFor(Resolve(path).value);
      assert w1.connections[c] == conn;
      assert w2.connections == w.connections;
      forall g ensures Members(w2.layer, g) == Members(w.layer, g) {
        assert c !in Members(w.layer, g);
      }
    }
  }

  /**
    An order page subscribed through `ws/orders/<id>/` receives the event of
    every later save of that order.
   */
  lemma {:induction false} SubscribedOrderPageSeesSaves(w: World, c: ChannelName, order: Order, created: bool)
    requires Consistent(w) && c !in w.connections && c !in w.crashed
    requires ValidId(order.id)
    ensures var w' := Connect(w, PathOf(OrderRoute(order.id)), c).world;
            var out := Deliver(w', OrderSaved(w', order, created).sent[0]);
            c in out && out[c] == Ok(JObject(map["type" := JString(OrderStatusFrameType),
                                                 "status" := JString(order.status),
                                                 "message" := JString(Signals.StatusMessage(order.status))]))
  {
    ResolvePathOf(OrderRoute(order.id));
    var w' := Connect(w, PathOf(OrderRoute(order.id)), c).world;
    ConnectPreservesConsistency(w, PathOf(OrderRoute(order.id)), c);
    SaveReachesOrderWatchers(w', order, created);
  }
}
