/**
 * The order DTOs and the mapper that builds them. The customer's name comes
 * through two navigations that may be missing (the customer, and its user);
 * when either is missing the name is the fixed placeholder.
 */
module OrderMapper {
  import opened Options
  import opened Entities
  import opened Linq

  datatype OrderItemDto = OrderItemDto(
    productId: int,
    productName: string,
    unitPrice: real,
    quantity: int,
    subtotal: real,
    productSku: string,
    selectedSize: string,
    selectedColor: string)

  /** `OrderDto`: the order as the API returns it; it carries no key. */
  datatype OrderDto = OrderDto(
    customerName: string,
    orderDate: Timestamp,
    status: OrderStatus,
    totalAmount: real,
    orderNotes: string,
    orderItems: seq<OrderItemDto>)

  const UnknownCustomer := "Unknown Customer"

  /**
   * An order as the mapper reaches it: the customer navigation (`None` when
   * it was not loaded) and the item collection (`None` when it is null).
   */
  datatype OrderGraph = OrderGraph(order: Order, customer: Option<Customer>, items: Option<seq<OrderItem>>)

  /** `Customer?.AppUser?.FullName ?? "Unknown Customer"`. */
  function CustomerName(customer: Option<Customer>): (r: string)
    ensures customer.Some? && customer.value.appUser.Some? ==> r == customer.value.appUser.value.fullName
    ensures customer.None? || customer.value.appUser.None? ==> r == UnknownCustomer
  {
    match customer
    case None => UnknownCustomer
    case Some(c) =>
      match c.appUser
      case None => UnknownCustomer
      case Some(u) => u.fullName
  }

  /** `ToOrderItemDto`: the line is copied field by field. */
  function ToOrderItemDto(oi: OrderItem): (r: OrderItemDto)
    ensures r.productId == oi.productId && r.productName == oi.productName && r.productSku == oi.productSku
    ensures r.unitPrice == oi.unitPrice && r.quantity == oi.quantity && r.subtotal == oi.subtotal
    ensures r.selectedSize == oi.selectedSize && r.selectedColor == oi.selectedColor
  {
    OrderItemDto(oi.productId, oi.productName, oi.unitPrice, oi.quantity, oi.subtotal,
                 oi.productSku, oi.selectedSize, oi.selectedColor)
  }

  /** `ToOrderDto`: a null item collection maps to an empty list. */
  function ToOrderDto(g: OrderGraph): (r: OrderDto)
    ensures r.customerName == CustomerName(g.customer)
    ensures r.orderDate == g.order.orderDate && r.status == g.order.status
    ensures r.totalAmount == g.order.totalAmount && r.orderNotes == g.order.orderNotes
    ensures g.items.None? ==> r.orderItems == []
    ensures g.items.Some? ==> |r.orderItems| == |g.items.value|
    ensures g.items.Some? ==> forall i | 0 <= i < |g.items.value| :: r.orderItems[i] == ToOrderItemDto(g.items.value[i])
  {
    OrderDto(CustomerName(g.customer), g.order.orderDate, g.order.status, g.order.totalAmount, g.order.orderNotes,
             if g.items.Some? then Select(g.items.value, ToOrderItemDto) else [])
  }

  /** `ToOrderDtoList`: one DTO per order, in order. */
  function ToOrderDtoList(gs: seq<OrderGraph>): (r: seq<OrderDto>)
    ensures |r| == |gs|
    ensures forall i | 0 <= i < |gs| :: r[i] == ToOrderDto(gs[i])
  {
    Select(gs, ToOrderDto)
  }

  function DtoSubtotal(d: OrderItemDto): real { d.subtotal }

  /** The DTO's lines total what the order's lines total. */
  lemma DtoLinesTotal(g: OrderGraph)
    requires g.items.Some?
    ensures SumReal(ToOrderDto(g).orderItems, DtoSubtotal) == SumReal(g.items.value, Subtotal)
  {
    SumRealPointwise(ToOrderDto(g).orderItems, DtoSubtotal, g.items.value, Subtotal);
  }
}
