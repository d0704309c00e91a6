/**
  The order entities of orders/models.py: the seven status codes with their display
  labels, the defaults of a new order, and the `__str__` renderings of `Order` and
  `OrderItem`. The status field is a character field: its choices are enforced by
  form and serializer validation, not by saving, so an order's `status` is held as
  the raw string code.
 */
module OrderModels {
  import opened Wrappers
  import Decimal

  type UserId = nat
  type RestaurantId = nat
  type PartnerId = nat
  type MenuItemId = nat
  /** Timestamps as seconds since the epoch. */
  type Timestamp = int

  datatype Status = Placed | Accepted | Preparing | Ready | Picked | Delivered | Cancelled

  /** `STATUS_CHOICES`, in declaration order. */
  const Choices: seq<Status> := [Placed, Accepted, Preparing, Ready, Picked, Delivered, Cancelled]

  /** The code stored in the database. */
  function Code(s: Status): string {
    match s
    case Placed => "PLACED"
    case Accepted => "ACCEPTED"
    case Preparing => "PREPARING"
    case Ready => "READY"
    case Picked => "PICKED"
    case Delivered => "DELIVERED"
    case Cancelled => "CANCELLED"
  }

  /** The human-readable label shown for a code. */
  function Label(s: Status): string {
    match s
    case Placed => "Placed"
    case Accepted => "Accepted by Restaurant"
    case Preparing => "Preparing"
    case Ready => "Ready for Pickup"
    case Picked => "Picked Up by Rider"
    case Delivered => "Delivered"
    case Cancelled => "Cancelled"
  }

  /** The choice a stored code belongs to, if any. */
  function ParseCode(code: string): (r: Option<Status>)
    ensures r.Some? ==> Code(r.value) == code
    ensures r.None? ==> forall s: Status :: Code(s) != code
  {
    if code == "PLACED" then Some(Placed)
    else if code == "ACCEPTED" then Some(Accepted)
    else if code == "PREPARING" then Some(Preparing)
    else if code == "READY" then Some(Ready)
    else if code == "PICKED" then Some(Picked)
    else if code == "DELIVERED" then Some(Delivered)
    else if code == "CANCELLED" then Some(Cancelled)
    else None
  }

  /** `STATUS_CHOICES` lists every status exactly once: seven choices. */
  lemma {:induction false} ChoicesAreTheSevenStatuses()
    ensures |Choices| == 7
    ensures forall s: Status :: s in Choices
    ensures forall i, j :: 0 <= i < j < |Choices| ==> Choices[i] != Choices[j]
  {
    forall s: Status ensures s in Choices {
      match s
      case Placed => assert Choices[0] == s;
      case Accepted => assert Choices[1] == s;
      case Preparing => assert Choices[2] == s;
      case Ready => assert Choices[3] == s;
      case Picked => assert Choices[4] == s;
      case Delivered => assert Choices[5] == s;
      case Cancelled => assert Choices[6] == s;
    }
  }

  /** Every code reads back as the choice it came from, so no two choices share a code. */
  lemma {:induction false} CodeReadsBack(s: Status)
    ensures ParseCode(Code(s)) == Some(s)
  {
    match s
    case Placed =>
    case Accepted =>
    case Preparing =>
    case Ready =>
    case Picked =>
    case Delivered =>
    case Cancelled =>
  }

  /** Each choice has its own display label. */
  lemma {:induction false} LabelsDistinct(s1: Status, s2: Status)
    requires s1 != s2
    ensures Label(s1) != Label(s2)
  {
    // Labels differ in length, or else ("Preparing", "Delivered", "Cancelled") in their first letter.
    assert |Label(s1)| != |Label(s2)| || Label(s1)[0] != Label(s2)[0];
  }

  /**
    `get_status_display()`: the label of a known code; any other stored value is
    shown as itself.
   */
  function StatusDisplay(code: string): (r: string)
    ensures ParseCode(code).Some? ==> r == Label(ParseCode(code).value)
    ensures ParseCode(code).None? ==> r == code
  {
    match ParseCode(code)
    case Some(s) => Label(s)
    case None => code
  }

  /** The code a new order starts with. */
  const DefaultStatus: string := "PLACED"

  datatype Order = Order(
    id: string,
    customer: UserId,
    restaurant: RestaurantId,
    deliveryPartner: Option<PartnerId>,
    status: string,
    totalCents: int,
    deliveryAddress: string,
    acceptedAt: Option<Timestamp>,
    pickedAt: Option<Timestamp>,
    deliveredAt: Option<Timestamp>)

  /**
    A freshly created order: the field defaults apply, so it is PLACED and none of
    the lifecycle timestamps is set.
   */
  function NewOrder(id: string, customer: UserId, restaurant: RestaurantId,
                    deliveryPartner: Option<PartnerId>, totalCents: int,
                    deliveryAddress: string): (o: Order)
    ensures ParseCode(o.status) == Some(Placed)
    ensures o.acceptedAt.None? && o.pickedAt.None? && o.deliveredAt.None?
    ensures o.id == id && o.customer == customer && o.restaurant == restaurant
    ensures o.deliveryPartner == deliveryPartner && o.totalCents == totalCents
    ensures o.deliveryAddress == deliveryAddress
  {
    Order(id, customer, restaurant, deliveryPartner, DefaultStatus, totalCents,
          deliveryAddress, None, None, None)
  }

  /** `Order.__str__`. */
  function OrderText(o: Order): (t: string)
    ensures |t| == 10 + |o.id| + |o.status|
    ensures t[..7] == "Order #" && t[7..7 + |o.id|] == o.id
    ensures t[7 + |o.id|..10 + |o.id|] == " - " && t[10 + |o.id|..] == o.status
  {
    "Order #" + o.id + " - " + o.status
  }

  /**
    For identifiers of one length (UUIDs, say) the text of an order determines
    both its identifier and its status.
   */
  lemma {:induction false} OrderTextDeterminesIdAndStatus(o1: Order, o2: Order)
    requires |o1.id| == |o2.id|
    requires OrderText(o1) == OrderText(o2)
    ensures o1.id == o2.id && o1.status == o2.status
  {
    var t := OrderText(o1);
    var n := |o1.id|;
    assert t[7..7 + n] == o1.id;
    assert OrderText(o2)[7..7 + n] == o2.id;
    assert t[7 + n + 3..] == o1.status;
    assert OrderText(o2)[7 + n + 3..] == o2.status;
  }

  /** A line of an order: which menu item, how many, and its price when ordered. */
  datatype OrderItem = OrderItem(orderId: string, menuItem: MenuItemId, quantity: int, priceAtTimeCents: int)

  /** `OrderItem.__str__`, given the menu item's name. */
  function OrderItemText(quantity: int, itemName: string): (t: string)
    ensures |t| >= |itemName| + 2
    ensures t[|t| - |itemName| - 2..|t| - |itemName|] == "x " && t[|t| - |itemName|..] == itemName
  {
    Decimal.ShowInt(quantity) + "x " + itemName
  }

  /**
    The text of an order item reads back: the digits before "x " are the quantity
    and the rest is the item's name.
   */
  lemma {:induction false} OrderItemTextReadsBack(quantity: nat, itemName: string)
    ensures var t := OrderItemText(quantity, itemName);
            var k := |Decimal.Show(quantity)|;
            && k + 2 <= |t|
            && Decimal.AllDigits(t[..k])
            && Decimal.Value(t[..k]) == quantity
            && t[k..k + 2] == "x "
            && t[k + 2..] == itemName
  {
    var t := OrderItemText(quantity, itemName);
    var k := |Decimal.Show(quantity)|;
    assert t[..k] == Decimal.Show(quantity);
    Decimal.ValueOfShow(quantity);
  }
}
