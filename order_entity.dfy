/** The order entity of the service: its fields, the defaults its two
    constructors set, its setters and its total price. Money amounts are
    whole numbers; the clock reading of the constructor is a parameter. */
module OrderEntity {
  import opened Wrappers
  import opened ShopData

  /** One element of `orderItems`: the product and the quantity ordered.
      OrderItem.java is not part of this model; an item's total is taken
      to be the product's price times the quantity. */
  datatype OrderItem = OrderItem(product: Product, quantity: int)

  function ItemTotal(item: OrderItem): int {
    item.product.price * item.quantity
  }

  /** The reduce of getTotalPrice: Σ item totals, starting from zero. */
  function ItemsTotal(items: seq<OrderItem>): int {
    if items == [] then 0 else ItemTotal(items[0]) + ItemsTotal(items[1..])
  }

  /** The total adds up over runs of items, so it does not depend on how
      the items are grouped. */
  lemma {:induction false} ItemsTotalAppend(a: seq<OrderItem>, b: seq<OrderItem>)
    ensures ItemsTotal(a + b) == ItemsTotal(a) + ItemsTotal(b)
  {
    if a == [] {
      assert a + b == b;
    } else {
      assert (a + b)[0] == a[0];
      assert (a + b)[1..] == a[1..] + b;
      ItemsTotalAppend(a[1..], b);
    }
  }

  /** The stored state of an order; null fields are None. */
  datatype OrderRecord = OrderRecord(
    id: Option<int>,
    userId: Option<int>,
    orderDate: Option<int>,
    status: Option<string>,
    shippingAddress: Option<string>,
    recipientPhone: Option<string>,
    recipientName: Option<string>,
    deliveryNotes: Option<string>,
    shippingMethod: Option<string>,
    shippingCost: int,
    orderItems: seq<OrderItem>)

  /** What `new Order()` holds when the clock reads `now`. */
  function NewOrder(now: int): OrderRecord {
    OrderRecord(None, None, Some(now), Some("NEW"), None, None, None, None, None, 0, [])
  }

  /** getTotalPrice on a stored order. */
  function TotalPrice(o: OrderRecord): (r: int)
    ensures o.orderItems == [] ==> r == 0
  {
    ItemsTotal(o.orderItems)
  }

  /** The total counts the items only: the shipping cost and every other
      field play no part. */
  lemma TotalExcludesShipping(o: OrderRecord, cost: int, shipping: Option<string>)
    ensures TotalPrice(o.(shippingCost := cost, shippingMethod := shipping)) == TotalPrice(o)
    ensures TotalPrice(o) == ItemsTotal(o.orderItems)
  {
  }

  class Order {
    var id: Option<int>
    var userId: Option<int>
    var orderDate: Option<int>
    var status: Option<string>
    var shippingAddress: Option<string>
    var recipientPhone: Option<string>
    var recipientName: Option<string>
    var deliveryNotes: Option<string>
    var shippingMethod: Option<string>
    var shippingCost: int
    var orderItems: seq<OrderItem>

    function State(): OrderRecord
      reads this
    {
      OrderRecord(id, userId, orderDate, status, shippingAddress, recipientPhone, recipientName,
                  deliveryNotes, shippingMethod, shippingCost, orderItems)
    }

    /** `new Order()`: dated now, status NEW, no shipping cost, no items. */
    constructor (now: int)
      ensures State() == NewOrder(now)
    {
      id := None;
      userId := None;
      orderDate := Some(now);
      status := Some("NEW");
      shippingAddress := None;
      recipientPhone := None;
      recipientName := None;
      deliveryNotes := None;
      shippingMethod := None;
      shippingCost := 0;
      orderItems := [];
    }

    /** `new Order(user)`: the same defaults, and the user. */
    constructor ForUser(user: int, now: int)
      ensures State() == NewOrder(now).(userId := Some(user))
    {
      id := None;
      userId := Some(user);
      orderDate := Some(now);
      status := Some("NEW");
      shippingAddress := None;
      recipientPhone := None;
      recipientName := None;
      deliveryNotes := None;
      shippingMethod := None;
      shippingCost := 0;
      orderItems := [];
    }

    /** getTotalPrice */
    function GetTotalPrice(): (r: int)
      reads this
      ensures r == TotalPrice(State())
    {
      ItemsTotal(orderItems)
    }

    // Each setter changes its own field and nothing else.

    method SetId(v: Option<int>)
      modifies this
      ensures State() == old(State()).(id := v)
    {
      id := v;
    }

    method SetUser(v: Option<int>)
      modifies this
      ensures State() == old(State()).(userId := v)
    {
      userId := v;
    }

    method SetOrderDate(v: Option<int>)
      modifies this
      ensures State() == old(State()).(orderDate := v)
    {
      orderDate := v;
    }

    method SetStatus(v: Option<string>)
      modifies this
      ensures State() == old(State()).(status := v)
    {
      status := v;
    }

    method SetOrderItems(v: seq<OrderItem>)
      modifies this
      ensures State() == old(State()).(orderItems := v)
    {
      orderItems := v;
    }

    method SetShippingAddress(v: Option<string>)
      modifies this
      ensures State() == old(State()).(shippingAddress := v)
    {
      shippingAddress := v;
    }

    method SetRecipientPhone(v: Option<string>)
      modifies this
      ensures State() == old(State()).(recipientPhone := v)
    {
      recipientPhone := v;
    }

    method SetRecipientName(v: Option<string>)
      modifies this
      ensures State() == old(State()).(recipientName := v)
    {
      recipientName := v;
    }

    method SetDeliveryNotes(v: Option<string>)
      modifies this
      ensures State() == old(State()).(deliveryNotes := v)
    {
      deliveryNotes := v;
    }

    method SetShippingMethod(v: Option<string>)
      modifies this
      ensures State() == old(State()).(shippingMethod := v)
    {
      shippingMethod := v;
    }

    method SetShippingCost(v: int)
      modifies this
      ensures State() == old(State()).(shippingCost := v)
    {
      shippingCost := v;
    }
  }
}
