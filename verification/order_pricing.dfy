/**
  Order creation through the order serializer (orders/serializers.py): which
  request fields a client may set, how the order's total is computed from the
  menu, and the order items written with each item's price at that moment.
  Money is in integer cents.
 */
module OrderPricing {
  import opened Wrappers
  import opened JsonValues
  import opened OrderModels

  /** The part of a menu item the serializer reads. */
  datatype MenuItem = MenuItem(name: string, priceCents: int)

  /** The menu items that exist, by id. */
  type Menu = map<MenuItemId, MenuItem>

  /** One entry of `items_input`: an optional item id and an optional quantity. */
  datatype ItemInput = ItemInput(id: Option<MenuItemId>, quantity: Option<int>)

  /** An entry resolves when it names an existing menu item; the others are skipped. */
  predicate Resolves(menu: Menu, it: ItemInput) {
    it.id.Some? && it.id.value in menu
  }

  /** A missing quantity is 1. */
  function QuantityOf(it: ItemInput): int {
    it.quantity.GetOr(1)
  }

  /** The entries that resolve, in input order. */
  function Kept(menu: Menu, items: seq<ItemInput>): (r: seq<ItemInput>)
    ensures |r| <= |items|
    ensures forall k :: 0 <= k < |r| ==> Resolves(menu, r[k]) && r[k] in items
  {
    if items == [] then []
    else
      var last := items[|items| - 1];
      Kept(menu, items[..|items| - 1]) + (if Resolves(menu, last) then [last] else [])
  }

  /** The price of the entries that resolve: price times quantity, summed. */
  function Total(menu: Menu, items: seq<ItemInput>): (total: int)
  {
    if items == [] then 0
    else
      var last := items[|items| - 1];
      Total(menu, items[..|items| - 1]) +
        (if Resolves(menu, last) then menu[last.id.value].priceCents * QuantityOf(last) else 0)
  }

  /** The value of the order items written: snapshotted price times quantity, summed. */
  function LineSum(lines: seq<OrderItem>): int {
    if lines == [] then 0
    else LineSum(lines[..|lines| - 1]) + lines[|lines| - 1].priceAtTimeCents * lines[|lines| - 1].quantity
  }

  /** The order item written for a resolved entry, with the item's current price. */
  function LineFor(menu: Menu, orderId: string, it: ItemInput): (line: OrderItem)
    requires Resolves(menu, it)
    ensures line.orderId == orderId && line.menuItem == it.id.value
    ensures line.priceAtTimeCents == menu[it.id.value].priceCents
    ensures line.quantity == if it.quantity.Some? then it.quantity.value else 1
  {
    OrderItem(orderId, it.id.value, QuantityOf(it), menu[it.id.value].priceCents)
  }

  /**
    The fields a client cannot set: those the serializer declares read-only, the
    nested items and the two display names it only renders, and the primary key.
   */
  const ReadOnlyFields: set<string> :=
    {"id", "customer", "total_amount", "status", "accepted_at", "picked_at", "delivered_at",
     "items", "customer_name", "restaurant_name"}

  /**
    The fields the serializer takes from a request: the order's editable model
    fields that are not read-only, and the write-only `items_input`.
   */
  const WritableFields: set<string> :=
    {"restaurant", "delivery_partner", "delivery_address", "items_input"}

  /**
    The request data the serializer passes on: the writable fields the request
    supplies, each with its value; a read-only field or a key the serializer does
    not declare never gets through.
   */
  function Writable(request: map<string, Json>): (data: map<string, Json>)
    ensures data.Keys <= WritableFields && data.Keys !! ReadOnlyFields
    ensures forall k :: k in WritableFields && k in request ==> k in data && data[k] == request[k]
  {
    map k | k in request && k in WritableFields :: request[k]
  }

  /**
    Whatever a client puts under a read-only or undeclared key (a `total_amount`,
    a `status`, a `customer`) leaves the data the serializer passes on unchanged:
    the order's total, status and customer come from `Create`'s own inputs.
   */
  lemma {:induction false} ClientCannotSetServerFields(request: map<string, Json>, extra: map<string, Json>)
    requires forall k :: k in extra ==> k !in WritableFields
    ensures Writable(request + extra) == Writable(request)
  {
    assert Writable(request + extra).Keys == Writable(request).Keys;
  }

  /**
    `OrderSerializer.create`: walks the entries in order, skipping those that do
    not resolve; the total it computes replaces whatever total the caller
    supplied; the order starts PLACED; one order item is written per resolved
    entry, in input order, carrying the price the menu has now.
   */
  method Create(menu: Menu, items: seq<ItemInput>, orderId: string, customer: UserId,
                restaurant: RestaurantId, deliveryPartner: Option<PartnerId>,
                deliveryAddress: string, suppliedTotalCents: int)
    returns (order: Order, lines: seq<OrderItem>)
    ensures order == NewOrder(orderId, customer, restaurant, deliveryPartner, Total(menu, items), deliveryAddress)
    ensures order.totalCents == LineSum(lines)
    ensures |lines| == |Kept(menu, items)|
    ensures forall k :: 0 <= k < |lines| ==> lines[k] == LineFor(menu, orderId, Kept(menu, items)[k])
  {
    var total := 0;
    var pending: seq<ItemInput> := [];
    var i := 0;
    while i < |items|
      invariant 0 <= i <= |items|
      invariant total == Total(menu, items[..i])
      invariant pending == Kept(menu, items[..i])
    {
      var it := items[i];
      assert items[..i + 1][..i] == items[..i];
      if it.id.Some? && it.id.value in menu {
        var price := menu[it.id.value].priceCents;
        total := total + price * QuantityOf(it);
        pending := pending + [it];
      }
      i := i + 1;
    }
    assert items[..i] == items;
    order := NewOrder(orderId, customer, restaurant, deliveryPartner, total, deliveryAddress);
    lines := WriteLines(menu, orderId, pending);
    TotalOfKept(menu, items);
  }

  /** The order items for the kept entries, one each, in order. */
  method WriteLines(menu: Menu, orderId: string, kept: seq<ItemInput>) returns (lines: seq<OrderItem>)
    requires forall k :: 0 <= k < |kept| ==> Resolves(menu, kept[k])
    ensures |lines| == |kept|
    ensures forall k :: 0 <= k < |lines| ==> lines[k] == LineFor(menu, orderId, kept[k])
    ensures LineSum(lines) == Total(menu, kept)
  {
    lines := [];
    var j := 0;
    while j < |kept|
      invariant 0 <= j <= |kept|
      invariant |lines| == j
      invariant forall k :: 0 <= k < j ==> lines[k] == LineFor(menu, orderId, kept[k])
      invariant LineSum(lines) == Total(menu, kept[..j])
    {
      var line := LineFor(menu, orderId, kept[j]);
      assert kept[..j + 1][..j] == kept[..j];
      assert Total(menu, kept[..j + 1]) == Total(menu, kept[..j]) + line.priceAtTimeCents * line.quantity;
      var prev := lines;
      lines := lines + [line];
      assert lines[..|lines| - 1] == prev;
      assert LineSum(lines) == LineSum(prev) + line.priceAtTimeCents * line.quantity;
      j := j + 1;
    }
    assert kept[..j] == kept;
  }

  /** Entries that do not resolve contribute nothing: the total is that of the kept entries. */
  lemma {:induction false} TotalOfKept(menu: Menu, items: seq<ItemInput>)
    ensures Total(menu, Kept(menu, items)) == Total(menu, items)
    decreases |items|
  {
    if items != [] {
      var init, last := items[..|items| - 1], items[|items| - 1];
      TotalOfKept(menu, init);
      if Resolves(menu, last) {
        var r := Kept(menu, items);
        assert r == Kept(menu, init) + [last];
        assert r[..|r| - 1] == Kept(menu, init) && r[|r| - 1] == last;
      } else {
        assert Kept(menu, items) == Kept(menu, init) + [];
        assert Kept(menu, init) + [] == Kept(menu, init);
      }
    }
  }

  /** The total of two baskets together is the sum of their totals. */
  lemma {:induction false} TotalAppend(menu: Menu, a: seq<ItemInput>, b: seq<ItemInput>)
    ensures Total(menu, a + b) == Total(menu, a) + Total(menu, b)
    decreases |b|
  {
    if b == [] {
      assert a + b == a;
    } else {
      var init := b[..|b| - 1];
      assert (a + b)[..|a + b| - 1] == a + init;
      TotalAppend(menu, a, init);
    }
  }

  /** Kept entries of two baskets together are those of each, in order. */
  lemma {:induction false} KeptAppend(menu: Menu, a: seq<ItemInput>, b: seq<ItemInput>)
    ensures Kept(menu, a + b) == Kept(menu, a) + Kept(menu, b)
    decreases |b|
  {
    if b == [] {
      assert a + b == a;
    } else {
      var init := b[..|b| - 1];
      assert (a + b)[..|a + b| - 1] == a + init;
      KeptAppend(menu, a, init);
    }
  }

  /** An empty basket, or one with only unknown items, costs nothing and writes no items. */
  lemma {:induction false} NothingResolvesNothingCharged(menu: Menu, items: seq<ItemInput>)
    requires forall k :: 0 <= k < |items| ==> !Resolves(menu, items[k])
    ensures Total(menu, items) == 0 && Kept(menu, items) == []
    decreases |items|
  {
    if items != [] {
      NothingResolvesNothingCharged(menu, items[..|items| - 1]);
    }
  }

  /** Adding an unknown item to the basket changes neither the total nor the items written. */
  lemma {:induction false} UnknownItemSkipped(menu: Menu, items: seq<ItemInput>, it: ItemInput)
    requires !Resolves(menu, it)
    ensures Total(menu, items + [it]) == Total(menu, items)
    ensures Kept(menu, items + [it]) == Kept(menu, items)
  {
    assert (items + [it])[..|items|] == items;
  }
}
