/** `OrderService`: the order collection, keyed by `_id`, and the stream of
    events emitted to the broker, which the model keeps as an append-only log. */
module OrderService {
  import opened Js
  import opened Nest
  import opened OrderDto
  import opened OrderSchema

  const OrderCreatedTopic := "order.created"
  const OrderDeletedTopic := "order.deleted"
  const DeletedMessage := "Order deleted successfully"

  /** The message payloads: a created order without its price, or a deleted id. */
  datatype OrderEvent =
    | OrderCreated(orderId: string, customerId: real, productId: real, quantity: real,
                   totalAmount: real, status: string)
    | OrderDeleted(orderId: string)

  datatype Emitted = Emitted(topic: string, event: OrderEvent)

  /** What the service throws: an HTTP exception, or a database error that
      surfaces as it is (schema validation, or a clash on `_id`). */
  datatype OrderError = Http(exception: HttpException) | ValidationError(paths: set<string>) | DuplicateKey

  datatype DeleteResult = DeleteResult(message: string)

  function NotFoundMessage(id: string): string {
    "Order with ID \"" + id + "\" not found"
  }

  /** The event `create` emits for the saved order. */
  function CreatedEvent(o: Order): Emitted {
    Emitted(OrderCreatedTopic,
            OrderCreated(o.id, o.customerId, o.productId, o.quantity, o.totalAmount, StatusName(o.status)))
  }

  /** The created event carries the saved order's id, customer, product,
      quantity, total and status name on the `order.created` topic, and
      nothing about the price: orders that differ only in price emit the same event. */
  lemma CreatedEventContents(o: Order, price: real)
    ensures var e := CreatedEvent(o);
      && e.topic == "order.created"
      && e.event == OrderCreated(o.id, o.customerId, o.productId, o.quantity, o.totalAmount, StatusName(o.status))
      && CreatedEvent(o.(price := price)) == e
  {
  }

  class OrderService {
    var orders: map<string, Order>
    var events: seq<Emitted>

    ghost predicate Valid()
      reads this
    {
      forall id :: id in orders ==> orders[id].id == id
    }

    constructor ()
      ensures Valid() && orders == map[] && events == []
    {
      orders := map[];
      events := [];
    }

    /** `create`: save the order under the id Mongoose assigns, then emit one
        `order.created` event; a failed save emits nothing. */
    method Create(d: CreateOrderDto, newId: string) returns (r: Result<Order, OrderError>)
      requires Valid()
      modifies this
      ensures Valid()
      ensures NewOrder(newId, d).Failure? ==>
        r == Failure(ValidationError(InvalidOrderPaths(d)))
        && orders == old(orders) && events == old(events)
      ensures NewOrder(newId, d).Success? && newId in old(orders) ==>
        r == Failure(DuplicateKey) && orders == old(orders) && events == old(events)
      ensures NewOrder(newId, d).Success? && newId !in old(orders) ==>
        var o := NewOrder(newId, d).value;
        && r == Success(o)
        && orders == old(orders)[newId := o]
        && |orders| == |old(orders)| + 1
        && events == old(events) + [CreatedEvent(o)]
    {
      var created := NewOrder(newId, d);
      if created.Failure? {
        return Failure(ValidationError(created.error));
      }
      var order := created.value;
      if order.id in orders {
        return Failure(DuplicateKey);
      }
      orders := orders[order.id := order];
      events := events + [CreatedEvent(order)];
      r := Success(order);
    }

    /** `findById`: the stored order, or NotFound; nothing changes. */
    method FindById(id: string) returns (r: Result<Order, OrderError>)
      requires Valid()
      ensures r.Success? <==> id in orders
      ensures r.Success? ==> r.value == orders[id] && r.value.id == id
      ensures r.Failure? ==> r.error == Http(NotFound(NotFoundMessage(id)))
    {
      if id !in orders {
        return Failure(Http(NotFound(NotFoundMessage(id))));
      }
      r := Success(orders[id]);
    }

    /** `delete`: remove the order and emit `order.deleted`; an unknown id is
        NotFound and emits nothing. Other orders are untouched. */
    method Delete(id: string) returns (r: Result<DeleteResult, OrderError>)
      requires Valid()
      modifies this
      ensures Valid()
      ensures id !in old(orders) ==>
        r == Failure(Http(NotFound(NotFoundMessage(id))))
        && orders == old(orders) && events == old(events)
      ensures id in old(orders) ==>
        && r == Success(DeleteResult(DeletedMessage))
        && orders == old(orders) - {id}
        && events == old(events) + [Emitted(OrderDeletedTopic, OrderDeleted(id))]
      ensures forall k :: k in old(orders) && k != id ==> k in orders && orders[k] == old(orders)[k]
    {
      var deletedCount := if id in orders then 1 else 0;
      orders := orders - {id};
      if deletedCount == 0 {
        return Failure(Http(NotFound(NotFoundMessage(id))));
      }
      events := events + [Emitted(OrderDeletedTopic, OrderDeleted(id))];
      r := Success(DeleteResult(DeletedMessage));
    }
  }

  /** A client's view: an order once created can be found, and deleting it
      twice emits one deletion and then fails. */
  method CreateFindDelete(d: CreateOrderDto)
    requires NewOrder("o1", d).Success?
  {
    var service := new OrderService();
    var created := service.Create(d, "o1");
    assert created.Success? && |service.events| == 1;
    var found := service.FindById("o1");
    assert found == created;
    var first := service.Delete("o1");
    assert first.Success? && |service.events| == 2;
    var second := service.Delete("o1");
    assert second.Failure? && |service.events| == 2;
  }
}
