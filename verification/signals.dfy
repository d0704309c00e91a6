/**
  The post-save hook of orders/signals.py: every save of an order, whether it
  created the row or updated it, sends one status event to the order's group.
 */
module Signals {
  import opened Wrappers
  import opened JsonValues
  import opened ChannelLayer
  import opened OrderModels
  import opened Consumers

  const StatusMessagePrefix: string := "Order status updated to "

  /**
    The human-readable message of the event for a stored status code: the prefix
    and the choice's label, or the code itself when it is no choice's.
   */
  function StatusMessage(status: string): (m: string)
    ensures |m| >= |StatusMessagePrefix| && m[..|StatusMessagePrefix|] == StatusMessagePrefix
    ensures ParseCode(status).Some? ==> m[|StatusMessagePrefix|..] == Label(ParseCode(status).value)
    ensures ParseCode(status).None? ==> m[|StatusMessagePrefix|..] == status
  {
    StatusMessagePrefix + StatusDisplay(status)
  }

  /**
    `order_status_notification`: the single `group_send` one save performs. The
    `created` flag takes no part in it.
   */
  function OrderStatusNotification(order: Order, created: bool): (s: GroupSend)
    ensures s.group == GroupFor(OrderConsumer, order.id)
    ensures s.message.Keys == {"type", "status", "message"}
    ensures s.message["type"] == JString(OrderStatusUpdateType)
    ensures s.message["status"] == JString(order.status)
    ensures s.message["message"] == JString(StatusMessagePrefix + StatusDisplay(order.status))
  {
    GroupSend(OrderGroup(order.id),
              map["type" := JString(OrderStatusUpdateType),
                  "status" := JString(order.status),
                  "message" := JString(StatusMessage(order.status))])
  }

  /** A creating save and an updating save send the same event. */
  lemma {:induction false} CreatedFlagIgnored(order: Order)
    ensures OrderStatusNotification(order, true) == OrderStatusNotification(order, false)
  {
  }

  /**
    The event reaches the order consumer's `order_status_update` handler, which
    turns it into the client frame `{type: "order_status", status, message}`; for
    a known code the message names the code's display label.
   */
  lemma {:induction false} NotificationHandledByOrderConsumer(order: Order, created: bool)
    ensures Handle(OrderConsumer, OrderStatusNotification(order, created).message)
            == Ok(JObject(map["type" := JString(OrderStatusFrameType),
                              "status" := JString(order.status),
                              "message" := JString(StatusMessage(order.status))]))
    ensures forall s: Status :: order.status == Code(s) ==>
              StatusMessage(order.status) == StatusMessagePrefix + Label(s)
  {
    forall s: Status | order.status == Code(s)
      ensures StatusMessage(order.status) == StatusMessagePrefix + Label(s)
    {
      CodeReadsBack(s);
    }
  }
}
