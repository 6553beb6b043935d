/** The order endpoints that do more than forward a call: the status
    update, which passes the raw status on, and the delivery-info update,
    which merges only the fields the request body names. */
module OrderEndpoints {
  import opened Wrappers
  import opened OrderEntity
  import opened Orders

  /** The reply envelope: the HTTP status and the body's fields. */
  datatype Response = Response(status: int, success: bool, message: Option<string>, error: Option<string>)

  const StatusUpdated := "Статус заказа обновлен"
  const StatusFailed := "Ошибка обновления статуса: "
  const DeliveryUpdated := "Информация о доставке обновлена"
  const DeliveryFailed := "Ошибка обновления информации: "

  function Success(message: string): Response {
    Response(200, true, Some(message), None)
  }

  function Failure(prefix: string, reason: string): Response {
    Response(400, false, None, Some(prefix + reason))
  }

  /** The field a key of the body sets, if it names one. */
  function Pick(info: DeliveryInfo, key: string, current: Option<string>): Option<string> {
    if key in info then info[key] else current
  }

  /** The conditional setters of updateDeliveryInfo: a key that is present
      overwrites its field, even with null; the cost is left alone. */
  function Merged(o: OrderRecord, info: DeliveryInfo): OrderRecord {
    o.(shippingAddress := Pick(info, "shippingAddress", o.shippingAddress),
       recipientPhone := Pick(info, "recipientPhone", o.recipientPhone),
       recipientName := Pick(info, "recipientName", o.recipientName),
       deliveryNotes := Pick(info, "deliveryNotes", o.deliveryNotes),
       shippingMethod := Pick(info, "shippingMethod", o.shippingMethod))
  }

  const DeliveryKeys := {"shippingAddress", "recipientPhone", "recipientName", "deliveryNotes", "shippingMethod"}

  /** Field by field: present keys overwrite, absent keys keep, and the id,
      owner, date, status, cost and items never change. */
  lemma MergedFields(o: OrderRecord, info: DeliveryInfo)
    ensures var m := Merged(o, info);
            && ("shippingAddress" in info ==> m.shippingAddress == info["shippingAddress"])
            && ("shippingAddress" !in info ==> m.shippingAddress == o.shippingAddress)
            && ("recipientPhone" in info ==> m.recipientPhone == info["recipientPhone"])
            && ("recipientPhone" !in info ==> m.recipientPhone == o.recipientPhone)
            && ("recipientName" in info ==> m.recipientName == info["recipientName"])
            && ("recipientName" !in info ==> m.recipientName == o.recipientName)
            && ("deliveryNotes" in info ==> m.deliveryNotes == info["deliveryNotes"])
            && ("deliveryNotes" !in info ==> m.deliveryNotes == o.deliveryNotes)
            && ("shippingMethod" in info ==> m.shippingMethod == info["shippingMethod"])
            && ("shippingMethod" !in info ==> m.shippingMethod == o.shippingMethod)
            && m.id == o.id && m.userId == o.userId && m.orderDate == o.orderDate
            && m.status == o.status && m.shippingCost == o.shippingCost && m.orderItems == o.orderItems
  {
  }

  /** Keys other than the five are ignored, and an empty body changes
      nothing. */
  lemma MergedIgnoresOtherKeys(o: OrderRecord, info: DeliveryInfo, key: string, v: Option<string>)
    requires key !in DeliveryKeys
    ensures Merged(o, info[key := v]) == Merged(o, info)
    ensures Merged(o, map[]) == o
  {
  }

  /** With all five keys present the merge sets the same fields as
      createOrder does, but keeps the old cost: choosing EXPRESS on a
      free order leaves it free. */
  lemma MergedKeepsCost(o: OrderRecord, info: DeliveryInfo)
    requires DeliveryKeys <= info.Keys
    ensures Merged(o, info) == WithDelivery(o, info).(shippingCost := o.shippingCost)
    ensures info["shippingMethod"] == Some("EXPRESS") && o.shippingCost == 0 ==>
              Merged(o, info).shippingCost == 0 && WithDelivery(o, info).shippingCost == 500
  {
  }

  class OrderController {
    const orderService: OrderService

    constructor (orderService: OrderService)
      ensures this.orderService == orderService
    {
      this.orderService := orderService;
    }

    /** PUT /api/orders/{id}/status: the status string goes to the service
        as it is; a failure is reported with the service's message. */
    method UpdateOrderStatus(id: int, status: string) returns (resp: Response)
      requires orderService.orderRepository.Valid()
      modifies orderService.orderRepository
      ensures orderService.orderRepository.Valid()
      ensures orderService.orderRepository.nextId == old(orderService.orderRepository.nextId)
      ensures var before := old(orderService.orderRepository.orders);
              && (id in before ==>
                    resp == Success(StatusUpdated)
                    && orderService.orderRepository.orders == before[id := before[id].(status := Some(status))])
              && (id !in before ==>
                    resp == Failure(StatusFailed, OrderNotFound)
                    && orderService.orderRepository.orders == before)
    {
      var r := orderService.UpdateOrderStatus(id, Some(status));
      if r.Fail? {
        return Failure(StatusFailed, r.message);
      }
      return Success(StatusUpdated);
    }

    /** PUT /api/orders/{id}/delivery-info: the fetched order is merged
        with the body, then saved through the status update with its own
        status. The fetched entity is the one the session manages, so the
        save writes the merged fields. */
    method UpdateDeliveryInfo(id: int, info: DeliveryInfo) returns (resp: Response)
      requires orderService.orderRepository.Valid()
      modifies orderService.orderRepository
      ensures orderService.orderRepository.Valid()
      ensures orderService.orderRepository.nextId == old(orderService.orderRepository.nextId)
      ensures var before := old(orderService.orderRepository.orders);
              && (id in before ==>
                    resp == Success(DeliveryUpdated)
                    && orderService.orderRepository.orders == before[id := Merged(before[id], info)])
              && (id !in before ==>
                    resp == Failure(DeliveryFailed, OrderNotFound)
                    && orderService.orderRepository.orders == before)
    {
      var found := orderService.GetOrderById(id);
      if found.Err? {
        return Failure(DeliveryFailed, found.message);
      }
      var merged := Merged(found.value, info);
      orderService.orderRepository.orders := orderService.orderRepository.orders[id := merged];
      // The order was just found, so this save cannot fail.
      var saved := orderService.UpdateOrderStatus(id, merged.status);
      return Success(DeliveryUpdated);
    }
  }
}
