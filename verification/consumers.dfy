/**
  The two WebSocket consumers, as pure functions of their inputs:
  - the tracking consumer (delivery/consumers.py) joins `location_<partner_id>`,
    republishes every position its client sends to that group, and forwards each
    `location_update` group message to its client;
  - the order consumer (orders/consumers.py) joins `order_<order_id>`, never
    publishes, and forwards each `order_status_update` group message to its client.
  Group messages are dispatched, as Channels does, to the handler named by the
  message's "type"; the outbound frame is the JSON object the handler serialises.
 */
module Consumers {
  import opened Wrappers
  import opened JsonValues
  import opened ChannelLayer

  datatype ConsumerKind = OrderConsumer | LocationConsumer

  const LocationUpdateType: string := "location_update"
  const OrderStatusUpdateType: string := "order_status_update"
  const OrderStatusFrameType: string := "order_status"

  /** Why a handler raised instead of producing a frame or a message. */
  datatype HandlerError =
    | NotAnObject                 // the inbound JSON has no `.get` (it is not a dict)
    | MissingType                 // the group message carries no string "type"
    | NoHandler(msgType: string)  // the consumer has no method for that type
    | MissingKey(key: string)     // the handler indexed a key the message lacks

  function OrderGroup(orderId: string): GroupName {
    "order_" + orderId
  }

  function LocationGroup(partnerId: string): GroupName {
    "location_" + partnerId
  }

  /**
    The group a consumer of `kind` joins for the identifier its route bound: the
    kind's prefix followed by the identifier itself.
   */
  function GroupFor(kind: ConsumerKind, id: string): (g: GroupName)
    ensures |g| > |id| && g[|g| - |id|..] == id
    ensures kind.OrderConsumer? ==> g[..|g| - |id|] == "order_"
    ensures kind.LocationConsumer? ==> g[..|g| - |id|] == "location_"
  {
    match kind
    case OrderConsumer => OrderGroup(id)
    case LocationConsumer => LocationGroup(id)
  }

  /** Order groups start with 'o', tracking groups with 'l'. */
  lemma GroupFirstLetter(kind: ConsumerKind, id: string)
    ensures |GroupFor(kind, id)| > 0
    ensures GroupFor(kind, id)[0] == (if kind.OrderConsumer? then 'o' else 'l')
  {
  }

  /**
    A group name determines the consumer kind and the identifier it was built from:
    order rooms and tracking rooms never share a group.
   */
  lemma {:induction false} GroupForInjective(k1: ConsumerKind, id1: string, k2: ConsumerKind, id2: string)
    requires GroupFor(k1, id1) == GroupFor(k2, id2)
    ensures k1 == k2 && id1 == id2
  {
    if k1 != k2 {
      // Groups of different kinds differ in their first letter.
      GroupFirstLetter(k1, id1);
      GroupFirstLetter(k2, id2);
      assert false;
    } else {
      var n := if k1.OrderConsumer? then |"order_"| else |"location_"|;
      assert GroupFor(k1, id1)[n..] == id1;
      assert GroupFor(k2, id2)[n..] == id2;
    }
  }

  /** The group message a tracking consumer publishes for one position sample. */
  function LocationMessage(latitude: Json, longitude: Json): Message {
    map["type" := JString(LocationUpdateType), "latitude" := latitude, "longitude" := longitude]
  }

  /**
    `LocationConsumer.receive`: the decoded client text must be a JSON object; its
    "latitude" and "longitude" are copied unchanged into the group message, and a
    missing key becomes null.
   */
  function LocationReceive(data: Json): (r: Result<Message, HandlerError>)
    ensures r.Ok? <==> data.JObject?
    ensures r.Ok? ==> r.value.Keys == {"type", "latitude", "longitude"}
    ensures r.Ok? ==> r.value["type"] == JString(LocationUpdateType)
    ensures r.Ok? ==> r.value["latitude"] == (if "latitude" in data.fields then data.fields["latitude"] else JNull)
    ensures r.Ok? ==> r.value["longitude"] == (if "longitude" in data.fields then data.fields["longitude"] else JNull)
  {
    match data
    case JObject(fields) => Ok(LocationMessage(Get(fields, "latitude"), Get(fields, "longitude")))
    case _ => Err(NotAnObject)
  }

  /**
    `LocationConsumer.location_update`: the frame sent to the client is exactly
    `{type: "location_update", latitude, longitude}` with both values copied from
    the group message; a message lacking either key makes the handler raise.
   */
  function LocationUpdate(event: Message): (r: Result<Json, HandlerError>)
    ensures r.Ok? <==> "latitude" in event && "longitude" in event
    ensures r.Ok? ==> r.value.JObject? && r.value.fields.Keys == {"type", "latitude", "longitude"}
    ensures r.Ok? ==> r.value.fields["type"] == JString(LocationUpdateType)
    ensures r.Ok? ==> r.value.fields["latitude"] == event["latitude"]
    ensures r.Ok? ==> r.value.fields["longitude"] == event["longitude"]
  {
    if "latitude" !in event then Err(MissingKey("latitude"))
    else if "longitude" !in event then Err(MissingKey("longitude"))
    else Ok(JObject(map["type" := JString(LocationUpdateType),
                        "latitude" := event["latitude"],
                        "longitude" := event["longitude"]]))
  }

  /**
    `OrderConsumer.order_status_update`: the frame sent to the client is exactly
    `{type: "order_status", status, message}` with both values copied from the
    group message.
   */
  function OrderStatusUpdate(event: Message): (r: Result<Json, HandlerError>)
    ensures r.Ok? <==> "status" in event && "message" in event
    ensures r.Ok? ==> r.value.JObject? && r.value.fields.Keys == {"type", "status", "message"}
    ensures r.Ok? ==> r.value.fields["type"] == JString(OrderStatusFrameType)
    ensures r.Ok? ==> r.value.fields["status"] == event["status"]
    ensures r.Ok? ==> r.value.fields["message"] == event["message"]
  {
    if "status" !in event then Err(MissingKey("status"))
    else if "message" !in event then Err(MissingKey("message"))
    else Ok(JObject(map["type" := JString(OrderStatusFrameType),
                        "status" := event["status"],
                        "message" := event["message"]]))
  }

  /**
    Delivery of a group message to one consumer: the method named by the message's
    type runs, if the consumer defines one. The tracking consumer handles only
    `location_update`, the order consumer only `order_status_update`.
   */
  function Handle(kind: ConsumerKind, event: Message): (r: Result<Json, HandlerError>)
    ensures "type" !in event || !event["type"].JString? ==> r == Err(MissingType)
    ensures (kind.LocationConsumer? && "type" in event && event["type"] == JString(LocationUpdateType))
              ==> r == LocationUpdate(event)
    ensures (kind.OrderConsumer? && "type" in event && event["type"] == JString(OrderStatusUpdateType))
              ==> r == OrderStatusUpdate(event)
    ensures (kind.LocationConsumer? && "type" in event && event["type"] == JString(OrderStatusUpdateType))
              ==> r == Err(NoHandler(OrderStatusUpdateType))
    ensures (kind.OrderConsumer? && "type" in event && event["type"] == JString(LocationUpdateType))
              ==> r == Err(NoHandler(LocationUpdateType))
  {
    if "type" !in event || !event["type"].JString? then Err(MissingType)
    else
      var t := event["type"].s;
      match kind
      case LocationConsumer => if t == LocationUpdateType then LocationUpdate(event) else Err(NoHandler(t))
      case OrderConsumer => if t == OrderStatusUpdateType then OrderStatusUpdate(event) else Err(NoHandler(t))
  }

  /**
    What the tracking consumer publishes, delivered back to a tracking consumer,
    becomes the frame `{type: "location_update", latitude, longitude}` carrying
    the position exactly as the rider's client sent it.
   */
  lemma {:induction false} PublishedPositionRoundTrips(data: Json)
    requires data.JObject?
    ensures LocationReceive(data).Ok?
    ensures Handle(LocationConsumer, LocationReceive(data).value)
            == Ok(JObject(map["type" := JString(LocationUpdateType),
                              "latitude" := Get(data.fields, "latitude"),
                              "longitude" := Get(data.fields, "longitude")]))
  {
  }
}
