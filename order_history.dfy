/** The order history page: the status and date filters over the fetched
    orders, the labels of status codes and shipping methods, the delivery
    summary lines and the per-order item count. Dates are instants on a
    millisecond time line; parsing them is not part of this model. */
module OrderHistory {
  import opened Wrappers
  import opened ShopData
  import opened Lists
  import AdminPanel

  /** One entry of `order.orderItems`, as far as the page reads it. */
  datatype ItemView = ItemView(quantity: int)

  /** An order as the page receives it; absent string fields are None. */
  datatype OrderView = OrderView(
    id: int,
    status: string,
    orderDate: int,                     // the instant of `new Date(order.orderDate)`
    shippingAddress: Option<string>,
    recipientPhone: Option<string>,
    recipientName: Option<string>,
    shippingMethod: Option<string>,
    deliveryNotes: Option<string>,
    orderItems: Option<seq<ItemView>>)

  /** The filter inputs; '' for a date is None, otherwise the instant of
      `new Date(value)`, the midnight that starts the chosen day. */
  datatype Filters = Filters(status: string, startDate: Option<int>, endDate: Option<int>)

  const NoFilters := Filters("", None, None)

  // ---------------------------------------------------------------------
  // Filtering

  /** The test of `filteredOrders` for one order. */
  predicate Kept(f: Filters, o: OrderView) {
    if f.status != "" && o.status != f.status then false
    else if f.startDate.Some? && o.orderDate < f.startDate.value then false
    else !(f.endDate.Some? && o.orderDate > f.endDate.value)
  }

  function KeptTest(f: Filters): OrderView -> bool {
    o => Kept(f, o)
  }

  function FilteredOrders(orders: seq<OrderView>, f: Filters): seq<OrderView> {
    Filter(orders, KeptTest(f))
  }

  /** An order is listed exactly when it is fetched, has the chosen status
      (if any), and lies within the chosen bounds, both inclusive. */
  lemma FilteredMeaning(orders: seq<OrderView>, f: Filters, o: OrderView)
    ensures o in FilteredOrders(orders, f) <==>
              && o in orders
              && (f.status != "" ==> o.status == f.status)
              && (f.startDate.Some? ==> f.startDate.value <= o.orderDate)
              && (f.endDate.Some? ==> o.orderDate <= f.endDate.value)
  {
    FilterMembers(orders, KeptTest(f));
  }

  /** The listing keeps the fetched order: listing two runs of orders one
      after the other lists each run in turn. */
  lemma FilteredKeepsOrder(a: seq<OrderView>, b: seq<OrderView>, f: Filters)
    ensures FilteredOrders(a + b, f) == FilteredOrders(a, f) + FilteredOrders(b, f)
  {
    FilterAppend(a, b, KeptTest(f));
  }

  /** Without filters every order is listed. */
  lemma NoFiltersListAll(orders: seq<OrderView>)
    ensures FilteredOrders(orders, NoFilters) == orders
  {
    FilterAll(orders, KeptTest(NoFilters));
  }

  /** The end bound is the midnight that starts the chosen day, so an order
      placed later on that same day is not listed. */
  lemma EndDayExcluded(o: OrderView, day: int)
    requires o.orderDate == day * DayMillis + 1
    ensures FilteredOrders([o], Filters("", None, Some(day * DayMillis))) == []
  {
    assert !Kept(Filters("", None, Some(day * DayMillis)), o);
  }

  const DayMillis := 86_400_000

  // ---------------------------------------------------------------------
  // Labels

  const StatusLabels: map<string, string> := map[
    "NEW" := "Новый",
    "PROCESSING" := "Обрабатывается",
    "CONFIRMED" := "Подтвержден",
    "SHIPPED" := "Отправлен",
    "DELIVERED" := "Доставлен",
    "CANCELLED" := "Отменен",
    "COMPLETED" := "Завершён"]

  const MethodLabels: map<string, string> := map[
    "STANDARD" := "Стандартная доставка",
    "EXPRESS" := "Экспресс доставка",
    "PICKUP" := "Самовывоз"]

  /** `map[key] || key`: the label of a known key, else the key itself. */
  function Label(labels: map<string, string>, key: string): string {
    if key in labels && labels[key] != "" then labels[key] else key
  }

  /** getStatusText */
  function StatusText(status: string): string {
    Label(StatusLabels, status)
  }

  /** getShippingMethodText */
  function ShippingMethodText(shipping: string): string {
    Label(MethodLabels, shipping)
  }

  /** Seven codes are known, each with its own label. */
  lemma StatusTextCases(status: string)
    ensures StatusLabels.Keys == {"NEW", "PROCESSING", "CONFIRMED", "SHIPPED", "DELIVERED", "CANCELLED", "COMPLETED"}
    ensures status in StatusLabels ==> StatusText(status) == StatusLabels[status] && StatusText(status) != status
    ensures status !in StatusLabels ==> StatusText(status) == status
  {
  }

  /** Distinct known codes show distinct labels. */
  lemma StatusTextInjective(a: string, b: string)
    requires a in StatusLabels && b in StatusLabels && a != b
    ensures StatusText(a) != StatusText(b)
  {
  }

  /** Every status the administration panel can set has a label here. */
  lemma AdminStatusesLabelled(i: int)
    requires 0 <= i < |AdminPanel.StatusOptions|
    ensures AdminPanel.StatusOptions[i] in StatusLabels
    ensures StatusText(AdminPanel.StatusOptions[i]) != AdminPanel.StatusOptions[i]
  {
  }

  /** Three methods are known; anything else shows as it is. */
  lemma ShippingMethodTextCases(shipping: string)
    ensures MethodLabels.Keys == {"STANDARD", "EXPRESS", "PICKUP"}
    ensures shipping in MethodLabels ==> ShippingMethodText(shipping) == MethodLabels[shipping] && ShippingMethodText(shipping) != shipping
    ensures shipping !in MethodLabels ==> ShippingMethodText(shipping) == shipping
  {
  }

  // ---------------------------------------------------------------------
  // Delivery summary

  const AddressPrefix := "Адрес: "
  const PhonePrefix := "Телефон: "
  const MethodPrefix := "Способ доставки: "
  const NotesPrefix := "Примечания: "

  /** The line for a field when the field is truthy. */
  function LineIf(field: Option<string>, prefix: string, text: string -> string): seq<string> {
    if Truthy(field) then [prefix + text(field.value)] else []
  }

  function Verbatim(s: string): string { s }

  /** The lines of formatDeliveryInfo: address, phone, method and notes, in
      this order, each only when present. */
  function DeliveryLines(o: OrderView): seq<string> {
    LineIf(o.shippingAddress, AddressPrefix, Verbatim)
    + LineIf(o.recipientPhone, PhonePrefix, Verbatim)
    + LineIf(o.shippingMethod, MethodPrefix, ShippingMethodText)
    + LineIf(o.deliveryNotes, NotesPrefix, Verbatim)
  }

  /** formatDeliveryInfo: pushes one line per present field. */
  method FormatDeliveryInfo(o: OrderView) returns (info: seq<string>)
    ensures info == DeliveryLines(o)
  {
    info := [];
    if Truthy(o.shippingAddress) {
      info := info + [AddressPrefix + o.shippingAddress.value];
    }
    if Truthy(o.recipientPhone) {
      info := info + [PhonePrefix + o.recipientPhone.value];
    }
    if Truthy(o.shippingMethod) {
      info := info + [MethodPrefix + ShippingMethodText(o.shippingMethod.value)];
    }
    if Truthy(o.deliveryNotes) {
      info := info + [NotesPrefix + o.deliveryNotes.value];
    }
  }

  function Present(field: Option<string>): nat {
    if Truthy(field) then 1 else 0
  }

  /** One line per present field; the recipient's name and the items play
      no part. */
  lemma DeliveryLinesShape(o: OrderView, name: Option<string>, items: Option<seq<ItemView>>)
    ensures |DeliveryLines(o)| == Present(o.shippingAddress) + Present(o.recipientPhone)
                                  + Present(o.shippingMethod) + Present(o.deliveryNotes)
    ensures DeliveryLines(o.(recipientName := name, orderItems := items)) == DeliveryLines(o)
  {
  }

  /** The address, when present, comes first; the notes, when present,
      come last; an order without those four fields has no lines. */
  lemma DeliveryLinesOrder(o: OrderView)
    ensures Truthy(o.shippingAddress) ==> DeliveryLines(o)[0] == AddressPrefix + o.shippingAddress.value
    ensures Truthy(o.deliveryNotes) ==>
              DeliveryLines(o)[|DeliveryLines(o)| - 1] == NotesPrefix + o.deliveryNotes.value
    ensures (!Truthy(o.shippingAddress) && !Truthy(o.recipientPhone) && !Truthy(o.shippingMethod)
             && !Truthy(o.deliveryNotes)) ==> DeliveryLines(o) == []
  {
  }

  // ---------------------------------------------------------------------
  // Item count

  function QuantitySum(items: seq<ItemView>): int {
    if items == [] then 0 else items[0].quantity + QuantitySum(items[1..])
  }

  /** `reduce((sum, item) => sum + item.quantity, acc)`, folded from the left. */
  function FoldQuantity(items: seq<ItemView>, acc: int): int {
    if items == [] then acc else FoldQuantity(items[1..], acc + items[0].quantity)
  }

  /** The left fold is the start value plus the sum of the quantities. */
  lemma {:induction false} FoldQuantityIsSum(items: seq<ItemView>, acc: int)
    ensures FoldQuantity(items, acc) == acc + QuantitySum(items)
  {
    if items != [] {
      FoldQuantityIsSum(items[1..], acc + items[0].quantity);
    }
  }

  /** `order.orderItems?.reduce((sum, item) => sum + item.quantity, 0) || 0`:
      the sum of the quantities, 0 without an item list (a falsy sum of 0
      falls back to the same 0). */
  function ItemCount(o: OrderView): (r: int)
    ensures o.orderItems.None? ==> r == 0
    ensures o.orderItems.Some? ==> r == QuantitySum(o.orderItems.value)
  {
    if o.orderItems.None? then 0
    else
      var sum := (FoldQuantityIsSum(o.orderItems.value, 0); FoldQuantity(o.orderItems.value, 0));
      if sum == 0 then 0 else sum
  }

  /** The sum adds up over runs of items. */
  lemma {:induction false} QuantitySumAppend(a: seq<ItemView>, b: seq<ItemView>)
    ensures QuantitySum(a + b) == QuantitySum(a) + QuantitySum(b)
  {
    if a != [] {
      QuantitySumAppend(a[1..], b);
      assert (a + b)[0] == a[0];
      assert (a + b)[1..] == a[1..] + b;
    } else {
      assert a + b == b;
    }
  }

  /** With positive quantities the count is at least the number of items,
      and it is zero exactly when there are none. */
  lemma {:induction false} ItemCountBounds(items: seq<ItemView>)
    requires forall i :: 0 <= i < |items| ==> items[i].quantity >= 1
    ensures QuantitySum(items) >= |items|
    ensures QuantitySum(items) == 0 <==> items == []
  {
    if items != [] {
      ItemCountBounds(items[1..]);
    }
  }

  // ---------------------------------------------------------------------
  // The page

  /** The reply to GET /orders: an answer with its success flag, or a thrown
      error with the server's error text and the exception message. */
  datatype OrdersReply =
    | Answered(success: bool, orders: Option<seq<OrderView>>, error: Option<string>)
    | Thrown(serverError: Option<string>, message: Option<string>)

  const LoadFailed := "Ошибка загрузки заказов"

  /** The first truthy of two texts, else the page's own message. */
  function FirstText(a: Option<string>, b: Option<string>): (r: string)
    ensures r != ""
    ensures Truthy(a) ==> r == a.value
    ensures !Truthy(a) && Truthy(b) ==> r == b.value
    ensures !Truthy(a) && !Truthy(b) ==> r == LoadFailed
  {
    if Truthy(a) then a.value else if Truthy(b) then b.value else LoadFailed
  }

  /** The filter input that changed. */
  datatype FilterField = StatusField | StartDateField | EndDateField

  class OrderHistoryPage {
    var orders: seq<OrderView>
    var loading: bool
    var error: Option<string>
    var filters: Filters

    constructor ()
      ensures orders == [] && loading && error == None && filters == NoFilters
    {
      orders := [];
      loading := true;
      error := None;
      filters := NoFilters;
    }

    /** The orders on screen. */
    function Listed(): seq<OrderView>
      reads this
    {
      FilteredOrders(orders, filters)
    }

    /** fetchOrders: an answer with success replaces the orders (an absent
        list reads as none); anything else records an error message, which
        is never empty. The loading flag goes off either way. */
    method FetchOrders(reply: OrdersReply)
      modifies this
      ensures !loading && filters == old(filters)
      ensures reply.Answered? && reply.success ==>
                orders == reply.orders.GetOr([]) && error == old(error)
      ensures reply.Answered? && !reply.success ==>
                orders == old(orders) && error == Some(FirstText(reply.error, None))
      ensures reply.Thrown? ==>
                orders == old(orders) && error == Some(FirstText(reply.serverError, reply.message))
      ensures error != old(error) ==> error.Some? && error.value != ""
    {
      match reply {
        case Answered(success, list, message) =>
          if success {
            orders := list.GetOr([]);
          } else {
            error := Some(FirstText(message, None));
          }
        case Thrown(serverError, message) =>
          error := Some(FirstText(serverError, message));
      }
      loading := false;
    }

    /** handleFilterChange: one input changes, the others keep their value.
        A date is None when its input is cleared. */
    method SetStatusFilter(status: string)
      modifies this
      ensures filters == old(filters).(status := status)
      ensures orders == old(orders) && loading == old(loading) && error == old(error)
    {
      filters := filters.(status := status);
    }

    method SetDateFilter(field: FilterField, date: Option<int>)
      requires field != StatusField
      modifies this
      ensures field == StartDateField ==> filters == old(filters).(startDate := date)
      ensures field == EndDateField ==> filters == old(filters).(endDate := date)
      ensures orders == old(orders) && loading == old(loading) && error == old(error)
    {
      if field == StartDateField {
        filters := filters.(startDate := date);
      } else {
        filters := filters.(endDate := date);
      }
    }

    /** clearFilters: all three inputs back to ''; every order shows. */
    method ClearFilters()
      modifies this
      ensures filters == NoFilters
      ensures orders == old(orders) && loading == old(loading) && error == old(error)
      ensures Listed() == orders
    {
      filters := NoFilters;
      NoFiltersListAll(orders);
    }
  }
}
