/** The order service: turning a user's cart into an order, repeating an
    order, setting its status, deleting it, and the date-range query. The
    clock reading for a new order is a parameter. */
module Orders {
  import opened Wrappers
  import opened ShopData
  import opened Lists
  import opened Sorting
  import opened OrderEntity
  import opened Repositories
  import CartView

  const EmptyCart := "Корзина пуста"
  const OrderNotFound := "Заказ не найден"
  const UserNotFound := "Пользователь не найден"

  /** The body of the order request: field name to value, where a
      value may be JSON null. */
  type DeliveryInfo = map<string, Option<string>>

  // ---------------------------------------------------------------------
  // The shipping tariff

  /** The cost createOrder sets for a shipping method; None for a missing
      or unknown method, which leaves the cost as it was. */
  function Tariff(shipping: Option<string>): (r: Option<int>)
    ensures r.Some? <==> shipping in {Some("EXPRESS"), Some("STANDARD"), Some("PICKUP")}
  {
    if shipping == Some("EXPRESS") then Some(500)
    else if shipping == Some("STANDARD") then Some(250)
    else if shipping == Some("PICKUP") then Some(0)
    else None
  }

  /** The three known methods cost what the cart page announces; for any
      other method the page announces 250 while the service sets nothing. */
  lemma TariffAgreesWithPage(m: string)
    ensures m in {"EXPRESS", "STANDARD", "PICKUP"} ==> Tariff(Some(m)) == Some(CartView.ShippingCost(m))
    ensures m !in {"EXPRESS", "STANDARD", "PICKUP"} ==> Tariff(Some(m)) == None && CartView.ShippingCost(m) == 250
  {
  }

  // ---------------------------------------------------------------------
  // The order built from a cart

  /** One order item per cart item, with the same product and quantity. */
  function ItemsOf(lines: seq<CartLine>): seq<OrderItem> {
    seq(|lines|, i requires 0 <= i < |lines| => OrderItem(lines[i].product, lines[i].quantity))
  }

  /** The order's total is the subtotal the cart page showed for the same
      items. */
  lemma {:induction false} ItemsOfTotal(lines: seq<CartLine>)
    ensures ItemsTotal(ItemsOf(lines)) == CartView.LinesTotal(lines)
  {
    if lines != [] {
      ItemsOfTotal(lines[1..]);
      assert ItemsOf(lines)[1..] == ItemsOf(lines[1..]);
    }
  }

  /** What the five setters on lines 48-62 do with the request body: each
      field takes `deliveryInfo.get(…)`, and a known method sets the cost. */
  function WithDelivery(o: OrderRecord, info: DeliveryInfo): OrderRecord {
    o.(shippingAddress := Lookup(info, "shippingAddress"),
       recipientPhone := Lookup(info, "recipientPhone"),
       recipientName := Lookup(info, "recipientName"),
       deliveryNotes := Lookup(info, "deliveryNotes"),
       shippingMethod := Lookup(info, "shippingMethod"),
       shippingCost := Tariff(Lookup(info, "shippingMethod")).GetOr(o.shippingCost))
  }

  /** The order createOrder builds for the user's items, before the save
      gives it an id. */
  function Placed(userId: int, now: int, info: Option<DeliveryInfo>, lines: seq<CartLine>): OrderRecord {
    var base := NewOrder(now).(userId := Some(userId));
    var delivered := if info.Some? then WithDelivery(base, info.value) else base;
    delivered.(orderItems := ItemsOf(lines))
  }

  /** A placed order is new, belongs to the user, is dated now, carries the
      cart's items and total, and costs the tariff of its method, or 0. */
  lemma PlacedOrder(userId: int, now: int, info: Option<DeliveryInfo>, lines: seq<CartLine>)
    ensures var o := Placed(userId, now, info, lines);
            && o.id == None && o.status == Some("NEW")
            && o.userId == Some(userId) && o.orderDate == Some(now)
            && o.orderItems == ItemsOf(lines)
            && TotalPrice(o) == CartView.LinesTotal(lines)
  {
    ItemsOfTotal(lines);
  }

  /** The cost: the tariff of a known method, and the default 0 for a
      missing body, a missing method or an unknown one. */
  lemma PlacedCost(userId: int, now: int, info: Option<DeliveryInfo>, lines: seq<CartLine>)
    ensures var o := Placed(userId, now, info, lines);
            && (info.None? ==> o.shippingCost == 0 && o.shippingMethod == None && o.deliveryNotes == None)
            && (info.Some? ==> o.shippingMethod == Lookup(info.value, "shippingMethod"))
            && (info.Some? && Lookup(info.value, "shippingMethod") == Some("EXPRESS") ==> o.shippingCost == 500)
            && (info.Some? && Lookup(info.value, "shippingMethod") == Some("STANDARD") ==> o.shippingCost == 250)
            && (info.Some? && Lookup(info.value, "shippingMethod") == Some("PICKUP") ==> o.shippingCost == 0)
            && (Tariff(o.shippingMethod).None? ==> o.shippingCost == 0)
  {
  }

  /** The order reorder builds from an earlier one: a new order of the
      user with the old delivery fields, cost and items, except the
      delivery notes, which are not copied. */
  function Reordered(previous: OrderRecord, userId: int, now: int): OrderRecord {
    NewOrder(now).(userId := Some(userId),
                   shippingAddress := previous.shippingAddress,
                   recipientPhone := previous.recipientPhone,
                   recipientName := previous.recipientName,
                   shippingMethod := previous.shippingMethod,
                   shippingCost := previous.shippingCost,
                   orderItems := previous.orderItems)
  }

  /** A repeated order has the earlier one's delivery data, cost, items
      and total, starts over as NEW, and has no delivery notes whatever
      the earlier one had. */
  lemma ReorderCopies(previous: OrderRecord, userId: int, now: int)
    ensures var o := Reordered(previous, userId, now);
            && o.id == None && o.status == Some("NEW") && o.userId == Some(userId) && o.orderDate == Some(now)
            && o.shippingAddress == previous.shippingAddress && o.recipientPhone == previous.recipientPhone
            && o.recipientName == previous.recipientName && o.shippingMethod == previous.shippingMethod
            && o.shippingCost == previous.shippingCost && o.orderItems == previous.orderItems
            && TotalPrice(o) == TotalPrice(previous)
            && o.deliveryNotes == None
            && (previous.deliveryNotes.Some? ==> o.deliveryNotes != previous.deliveryNotes)
  {
  }

  // ---------------------------------------------------------------------
  // The date-range query

  function DateOf(o: OrderRecord): int {
    o.orderDate.GetOr(0)
  }

  /** The filter of getOrdersBetweenDates: a date, neither before the
      start nor after the end. */
  predicate InRange(o: OrderRecord, start: int, end: int) {
    o.orderDate.Some? && start <= o.orderDate.value <= end
  }

  function InRangeTest(start: int, end: int): OrderRecord -> bool {
    o => InRange(o, start, end)
  }

  /** `Comparator.comparing(Order::getOrderDate).reversed()`, as "a may
      come before b". */
  function NewestFirst(a: OrderRecord, b: OrderRecord): bool {
    DateOf(a) >= DateOf(b)
  }

  /** getOrdersBetweenDates over the list findAll returns. */
  function OrdersBetween(all: seq<OrderRecord>, start: int, end: int): seq<OrderRecord> {
    SortBy(Filter(all, InRangeTest(start, end)), NewestFirst)
  }

  /** Exactly the dated orders in the closed range are returned, each as
      often as it is stored. */
  lemma OrdersBetweenMembers(all: seq<OrderRecord>, start: int, end: int)
    ensures forall o :: o in OrdersBetween(all, start, end) <==> o in all && InRange(o, start, end)
    ensures multiset(OrdersBetween(all, start, end)) == multiset(Filter(all, InRangeTest(start, end)))
  {
    var kept := Filter(all, InRangeTest(start, end));
    FilterMembers(all, InRangeTest(start, end));
    forall o ensures o in OrdersBetween(all, start, end) <==> o in kept {
      assert o in multiset(OrdersBetween(all, start, end)) <==> o in multiset(kept);
    }
  }

  /** Both ends of the range are included. */
  lemma OrdersBetweenInclusive(all: seq<OrderRecord>, start: int, end: int, o: OrderRecord)
    requires o in all && o.orderDate.Some? && (o.orderDate.value == start || o.orderDate.value == end)
    requires start <= end
    ensures o in OrdersBetween(all, start, end)
  {
    OrdersBetweenMembers(all, start, end);
  }

  /** The result runs from the newest order to the oldest, and every
      order in it has a date in the range. */
  lemma OrdersBetweenNewestFirst(all: seq<OrderRecord>, start: int, end: int)
    ensures var r := OrdersBetween(all, start, end);
            && (forall i :: 0 <= i < |r| ==> InRange(r[i], start, end))
            && (forall i, j :: 0 <= i < j < |r| ==> DateOf(r[i]) >= DateOf(r[j]))
  {
    var r := OrdersBetween(all, start, end);
    assert Total(NewestFirst) && Transitive(NewestFirst);
    SortBySorted(Filter(all, InRangeTest(start, end)), NewestFirst);
    OrdersBetweenMembers(all, start, end);
    forall i | 0 <= i < |r| ensures InRange(r[i], start, end) {
      assert r[i] in r;
    }
  }

  // ---------------------------------------------------------------------
  // The service

  class OrderService {
    const orderRepository: OrderRepository
    const cartRepository: CartRepository
    const userRepository: UserRepository

    constructor (orders: OrderRepository, carts: CartRepository, users: UserRepository)
      ensures orderRepository == orders && cartRepository == carts && userRepository == users
    {
      orderRepository := orders;
      cartRepository := carts;
      userRepository := users;
    }

    /** Whether the user has a cart with at least one item. */
    predicate HasItems(userId: int)
      reads this, cartRepository
    {
      userId in cartRepository.carts && cartRepository.carts[userId] != []
    }

    /** createOrder: with no cart or an empty one nothing is saved and
        nothing changes; otherwise the placed order is stored under the
        next id and the cart is emptied. */
    method CreateOrder(userId: int, info: Option<DeliveryInfo>, now: int) returns (r: Result<OrderRecord>)
      requires orderRepository.Valid()
      modifies orderRepository, cartRepository
      ensures orderRepository.Valid()
      ensures r.Err? <==> !old(HasItems(userId))
      ensures r.Err? ==> && r.message == EmptyCart
                         && orderRepository.orders == old(orderRepository.orders)
                         && orderRepository.nextId == old(orderRepository.nextId)
                         && cartRepository.carts == old(cartRepository.carts)
      ensures r.Ok? ==> && r.value == Placed(userId, now, info, old(cartRepository.carts)[userId]).(id := Some(old(orderRepository.nextId)))
                        && orderRepository.orders == old(orderRepository.orders)[old(orderRepository.nextId) := r.value]
                        && orderRepository.nextId == old(orderRepository.nextId) + 1
                        && cartRepository.carts == old(cartRepository.carts)[userId := []]
    {
      if !HasItems(userId) {
        return Err(EmptyCart);
      }
      var lines := cartRepository.carts[userId];
      var order := new Order.ForUser(userId, now);
      if info.Some? {
        SetDelivery(order, info.value);
      }
      order.SetOrderItems(ItemsOf(lines));
      r := Save(order);
      cartRepository.carts := cartRepository.carts[userId := []];
    }

    /** Lines 48-62 of createOrder: the setters the request body drives. */
    static method SetDelivery(order: Order, body: DeliveryInfo)
      modifies order
      ensures order.State() == WithDelivery(old(order.State()), body)
    {
      order.SetShippingAddress(Lookup(body, "shippingAddress"));
      order.SetRecipientPhone(Lookup(body, "recipientPhone"));
      order.SetRecipientName(Lookup(body, "recipientName"));
      order.SetDeliveryNotes(Lookup(body, "deliveryNotes"));
      order.SetShippingMethod(Lookup(body, "shippingMethod"));
      var shipping := Lookup(body, "shippingMethod");
      if shipping == Some("EXPRESS") {
        order.SetShippingCost(500);
      } else if shipping == Some("STANDARD") {
        order.SetShippingCost(250);
      } else if shipping == Some("PICKUP") {
        order.SetShippingCost(0);
      }
    }

    /** `orderRepository.save` of a new order: the next id is assigned to
        the entity and the order is stored under it. */
    method Save(order: Order) returns (r: Result<OrderRecord>)
      requires orderRepository.Valid()
      modifies orderRepository, order
      ensures orderRepository.Valid()
      ensures r == Ok(old(order.State()).(id := Some(old(orderRepository.nextId))))
      ensures orderRepository.orders == old(orderRepository.orders)[old(orderRepository.nextId) := r.value]
      ensures old(orderRepository.nextId) !in old(orderRepository.orders)
      ensures orderRepository.nextId == old(orderRepository.nextId) + 1
    {
      var id := orderRepository.nextId;
      order.SetId(Some(id));
      orderRepository.orders := orderRepository.orders[id := order.State()];
      orderRepository.nextId := id + 1;
      return Ok(order.State());
    }

    /** getOrderById */
    method GetOrderById(id: int) returns (r: Result<OrderRecord>)
      ensures id in orderRepository.orders ==> r == Ok(orderRepository.orders[id])
      ensures id !in orderRepository.orders ==> r == Err(OrderNotFound)
    {
      if id !in orderRepository.orders {
        return Err(OrderNotFound);
      }
      return Ok(orderRepository.orders[id]);
    }

    /** updateOrderStatus: any value is stored, with no check of the
        current status; an unknown id fails and changes nothing. */
    method UpdateOrderStatus(orderId: int, status: Option<string>) returns (r: Outcome)
      requires orderRepository.Valid()
      modifies orderRepository
      ensures orderRepository.Valid() && orderRepository.nextId == old(orderRepository.nextId)
      ensures r == if orderId in old(orderRepository.orders) then Pass else Fail(OrderNotFound)
      ensures orderRepository.orders ==
                if r.Pass? then old(orderRepository.orders)[orderId := old(orderRepository.orders)[orderId].(status := status)]
                else old(orderRepository.orders)
    {
      var found := GetOrderById(orderId);
      if found.Err? {
        return Fail(found.message);
      }
      orderRepository.orders := orderRepository.orders[orderId := found.value.(status := status)];
      return Pass;
    }

    /** reorder: the earlier order must exist (checked first) and so must
        the user; the repeated order is stored under the next id, and the
        earlier order and every cart stay as they were. */
    method Reorder(orderId: int, userId: int, now: int) returns (r: Result<OrderRecord>)
      requires orderRepository.Valid()
      modifies orderRepository
      ensures orderRepository.Valid()
      ensures orderId !in old(orderRepository.orders) ==> r == Err(OrderNotFound)
      ensures orderId in old(orderRepository.orders) && userId !in userRepository.users ==> r == Err(UserNotFound)
      ensures r.Err? ==> orderRepository.orders == old(orderRepository.orders)
                         && orderRepository.nextId == old(orderRepository.nextId)
      ensures r.Ok? ==> && orderId in old(orderRepository.orders) && userId in userRepository.users
                        && r.value == Reordered(old(orderRepository.orders)[orderId], userId, now).(id := Some(old(orderRepository.nextId)))
                        && orderRepository.orders == old(orderRepository.orders)[old(orderRepository.nextId) := r.value]
                        && old(orderRepository.nextId) !in old(orderRepository.orders)
                        && orderRepository.nextId == old(orderRepository.nextId) + 1
      ensures cartRepository.carts == old(cartRepository.carts)
    {
      var found := GetOrderById(orderId);
      if found.Err? {
        return Err(found.message);
      }
      var previous := found.value;
      if userId !in userRepository.users {
        return Err(UserNotFound);
      }
      var order := new Order.ForUser(userId, now);
      order.SetShippingAddress(previous.shippingAddress);
      order.SetRecipientPhone(previous.recipientPhone);
      order.SetRecipientName(previous.recipientName);
      order.SetShippingMethod(previous.shippingMethod);
      order.SetShippingCost(previous.shippingCost);
      order.SetOrderItems(previous.orderItems);
      r := Save(order);
    }

    /** deleteOrder: an unknown id fails; otherwise the order is gone and
        every other order stays. */
    method DeleteOrder(orderId: int) returns (r: Outcome)
      requires orderRepository.Valid()
      modifies orderRepository
      ensures orderRepository.Valid() && orderRepository.nextId == old(orderRepository.nextId)
      ensures r == if orderId in old(orderRepository.orders) then Pass else Fail(OrderNotFound)
      ensures orderRepository.orders == old(orderRepository.orders) - {orderId}
    {
      var found := GetOrderById(orderId);
      if found.Err? {
        return Fail(found.message);
      }
      // The items are cleared and saved, then the order is deleted.
      orderRepository.orders := orderRepository.orders[orderId := found.value.(orderItems := [])];
      orderRepository.orders := orderRepository.orders - {orderId};
      return Pass;
    }
  }
}
