/** `CreateOrderDto` of the order service and the checks its decorators
    declare. No validation pipe is installed, so the service receives bodies
    whether or not they satisfy this predicate. */
module OrderDto {
  import opened Js
  import opened ClassValidator

  const StatusValues := ["pending", "processing", "shipped", "delivered", "cancelled"]

  datatype CreateOrderDto = CreateOrderDto(
    customerId: JsValue,
    productId: JsValue,
    price: JsValue,
    quantity: JsValue,
    totalAmount: JsValue,
    status: JsValue)

  predicate ValidCreateOrderDto(d: CreateOrderDto) {
    && IsNotEmpty(d.customerId)
    && IsNotEmpty(d.productId)
    && IsNotEmpty(d.price)
    && IsNotEmpty(d.quantity)
    && IsNotEmpty(d.totalAmount) && IsNumber(d.totalAmount) && Min(d.totalAmount, 0.0)
    && IsString(d.status) && IsEnum(d.status, StatusValues)
  }

  /** The declared checks, field by field: four fields only non-empty, the
      total a number of at least 0, and a status that is one of the five names. */
  lemma CreateOrderDtoFields(d: CreateOrderDto)
    ensures ValidCreateOrderDto(d) <==>
      && IsNotEmpty(d.customerId) && IsNotEmpty(d.productId)
      && IsNotEmpty(d.price) && IsNotEmpty(d.quantity)
      && d.totalAmount.Num? && d.totalAmount.number >= 0.0
      && d.status.Str? && d.status.text in StatusValues
  {
  }

  /** The status is not optional: a body without it is invalid. */
  lemma StatusRequired(d: CreateOrderDto)
    requires d.status == Undefined
    ensures !ValidCreateOrderDto(d)
  {
  }

  /** Price and quantity carry no sign or range check: a negative price, a
      zero quantity and a non-numeric customer id all pass. */
  lemma NoRangeOnPriceOrQuantity()
    ensures ValidCreateOrderDto(CreateOrderDto(Str("c1"), Num(7.0), Num(-5.0), Num(0.0), Num(0.0), Str("pending")))
  {
  }
}
