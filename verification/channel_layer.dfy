/**
  The channel layer seen as a group registry: each group name maps to the set of
  channel names currently subscribed to it. Every operation is one atomic step; the
  layer's own bookkeeping (expiry, capacity, pruning of empty groups) is not modelled,
  so group membership is only ever observed through `Members`.
 */
module ChannelLayer {
  import opened JsonValues

  type GroupName = string
  type ChannelName = string
  type Registry = map<GroupName, set<ChannelName>>

  /** A message handed to the layer: a dict whose "type" names the receiving handler. */
  type Message = map<string, Json>

  /** One call of `group_send(group, message)`. */
  datatype GroupSend = GroupSend(group: GroupName, message: Message)

  const EmptyRegistry: Registry := map[]

  /** The channels currently subscribed to group `g`. */
  function Members(reg: Registry, g: GroupName): set<ChannelName> {
    if g in reg then reg[g] else {}
  }

  /** `group_add(g, c)`: subscribe channel `c` to group `g`; no other group changes. */
  function GroupAdd(reg: Registry, g: GroupName, c: ChannelName): (r: Registry)
    ensures Members(r, g) == Members(reg, g) + {c}
    ensures forall h :: h != g ==> Members(r, h) == Members(reg, h)
  {
    reg[g := Members(reg, g) + {c}]
  }

  /** `group_discard(g, c)`: unsubscribe `c` from `g` (a no-op if it was not a member). */
  function GroupDiscard(reg: Registry, g: GroupName, c: ChannelName): (r: Registry)
    ensures Members(r, g) == Members(reg, g) - {c}
    ensures forall h :: h != g ==> Members(r, h) == Members(reg, h)
  {
    if g in reg then reg[g := reg[g] - {c}] else reg
  }
}
