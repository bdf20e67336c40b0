/** The Mongoose `Order` schema: five required numbers and a status drawn from
    five names, `pending` by default. */
module OrderSchema {
  import opened Js
  import OrderDto

  datatype Status = Pending | Processing | Shipped | Delivered | Cancelled

  function StatusName(s: Status): string {
    match s
    case Pending => "pending"
    case Processing => "processing"
    case Shipped => "shipped"
    case Delivered => "delivered"
    case Cancelled => "cancelled"
  }

  /** The `enum` validator: the status a name stands for, if any. */
  function ParseStatus(name: string): Option<Status> {
    if name == "pending" then Some(Pending)
    else if name == "processing" then Some(Processing)
    else if name == "shipped" then Some(Shipped)
    else if name == "delivered" then Some(Delivered)
    else if name == "cancelled" then Some(Cancelled)
    else None
  }

  /** A stored order; `id` is the `_id` Mongoose assigns. */
  datatype Order = Order(
    id: string,
    customerId: real,
    productId: real,
    price: real,
    quantity: real,
    totalAmount: real,
    status: Status)

  /** Casting one property to Number: numbers pass, null and undefined count
      as missing, anything else fails the cast. */
  datatype NumberCast = Number(value: real) | Missing | CastFailed

  function CastNumber(v: JsValue): NumberCast {
    match v
    case Num(n) => Number(n)
    case Undefined => Missing
    case Null => Missing
    case _ => CastFailed
  }

  function NumberPathError(path: string, v: JsValue): set<string> {
    if CastNumber(v).Number? then {} else {path}
  }

  /** The status an order gets: undefined takes the default 'pending'. */
  function CastStatus(v: JsValue): Option<Status> {
    match v
    case Undefined => Some(Pending)
    case Str(name) => ParseStatus(name)
    case _ => None
  }

  /** The paths of a new order built from `d` that fail the schema. */
  function InvalidOrderPaths(d: OrderDto.CreateOrderDto): set<string> {
    NumberPathError("customerId", d.customerId)
    + NumberPathError("productId", d.productId)
    + NumberPathError("price", d.price)
    + NumberPathError("quantity", d.quantity)
    + NumberPathError("totalAmount", d.totalAmount)
    + (if CastStatus(d.status).Some? then {} else {"status"})
  }

  /** `new Order(d)` followed by validation, with `id` as the assigned `_id`. */
  function NewOrder(id: string, d: OrderDto.CreateOrderDto): (r: Result<Order, set<string>>)
    ensures r.Failure? <==> InvalidOrderPaths(d) != {}
    ensures r.Failure? ==> r.error == InvalidOrderPaths(d)
    ensures r.Success? ==>
      && r.value.id == id
      && Num(r.value.customerId) == d.customerId && Num(r.value.productId) == d.productId
      && Num(r.value.price) == d.price && Num(r.value.quantity) == d.quantity
      && Num(r.value.totalAmount) == d.totalAmount
      && (d.status == Undefined ==> r.value.status == Pending)
      && (d.status.Str? ==> StatusName(r.value.status) == d.status.text)
  {
    var paths := InvalidOrderPaths(d);
    if paths != {} then Failure(paths)
    else
      assert "customerId" !in paths && "productId" !in paths && "price" !in paths;
      assert "quantity" !in paths && "totalAmount" !in paths && "status" !in paths;
      Success(Order(id, CastNumber(d.customerId).value, CastNumber(d.productId).value,
                    CastNumber(d.price).value, CastNumber(d.quantity).value,
                    CastNumber(d.totalAmount).value, CastStatus(d.status).value))
  }

  /** The enum accepts exactly the five status names, each naming one status. */
  lemma StatusNamesRoundTrip(s: Status, name: string)
    ensures ParseStatus(StatusName(s)) == Some(s)
    ensures ParseStatus(name).Some? ==> StatusName(ParseStatus(name).value) == name
    ensures ParseStatus(name).Some? <==> name in OrderDto.StatusValues
  {
  }

  /** Each of the five numeric fields is required: missing, it fails validation. */
  lemma NumbersRequired(id: string, d: OrderDto.CreateOrderDto)
    ensures d.customerId == Undefined ==> "customerId" in InvalidOrderPaths(d)
    ensures d.productId == Undefined ==> "productId" in InvalidOrderPaths(d)
    ensures d.price == Undefined ==> "price" in InvalidOrderPaths(d)
    ensures d.quantity == Undefined ==> "quantity" in InvalidOrderPaths(d)
    ensures d.totalAmount == Undefined ==> "totalAmount" in InvalidOrderPaths(d)
  {
  }

  /** An absent status becomes 'pending'; a present one must be one of the five. */
  lemma StatusDefault(id: string, d: OrderDto.CreateOrderDto)
    ensures d.status == Undefined && NewOrder(id, d).Success? ==> NewOrder(id, d).value.status == Pending
    ensures d.status.Str? && !(d.status.text in OrderDto.StatusValues) ==> "status" in InvalidOrderPaths(d)
  {
  }

  /** The schema ties the total to nothing: a total unrelated to price times
      quantity is stored as given. */
  lemma TotalIsUnconstrained()
    ensures var d := OrderDto.CreateOrderDto(Num(1.0), Num(2.0), Num(10.0), Num(3.0), Num(1.0), Undefined);
      NewOrder("o1", d) == Success(Order("o1", 1.0, 2.0, 10.0, 3.0, 1.0, Pending))
  {
  }
}
