/**
 * The order service: placing an order from a cart, reading one order or a
 * customer's orders, the administrators' status update, and the paged
 * listing. The guards run in a fixed order and the first one that fails
 * decides the error message; a call that fails saves nothing.
 */
module OrderServices {
  import opened Options
  import opened Entities
  import opened Linq
  import opened ServiceResults
  import opened Paging
  import opened Data
  import opened OrderRepository
  import opened OrderMapper

  const CustomerNotFound := "Customer not found."
  const CartNotFound := "Cart not found."
  const NotYourCart := "Unauthorized access to cart."
  const EmptyCart := "Cannot create order with empty cart."
  const CreateFailed := "Failed to create order from cart."
  const OrderNotFound := "Order not found."
  const NotYourOrder := "Unauthorized access to order."
  const AdminsOnly := "Unauthorized. Only administrators can update order status."
  const ReloadFailed := "Error retrieving updated order."
  const ListingFailed := "An error occurred while retrieving the orders."

  /** An order read with its navigations, as the mapper reaches it. */
  function GraphOf(lo: LoadedOrder): OrderGraph
  {
    OrderGraph(lo.order, lo.customer, Some(lo.items))
  }

  /** An order whose customer navigation is not loaded (a new order, or a listing without that include). */
  function Unloaded(o: Order): OrderGraph
  {
    OrderGraph(o, None, Some(o.orderItems))
  }

  // ---------------------------------------------------------------------------
  // Placing an order

  /** `ValidateCartAndCustomer`: the customer, then the cart, its owner, and its loaded items. */
  function ValidateCartAndCustomer(s: DbState, userId: UserId, cartId: int): (r: ServiceResult<bool>)
    ensures !r.isSuccess ==> |r.errors| == 1
  {
    match CustomerById(s, userId)
    case None => Failure(CustomerNotFound)
    case Some(_) =>
      match CartWithItemsById(s, cartId)
      case None => Failure(CartNotFound)
      case Some(lc) =>
        if lc.cart.customerId != userId then Failure(NotYourCart)
        else if lc.items == [] then Failure(EmptyCart)
        else Success(true)
  }

  /** `CreateOrderAsync`: the order the repository builds gets the caller's notes and is saved. */
  function CreateOrderOutcome(s: DbState, userId: UserId, cartId: int, notes: string, now: Timestamp)
    : Step<ServiceResult<OrderDto>>
  {
    var v := ValidateCartAndCustomer(s, userId, cartId);
    if !v.isSuccess then Step(s, Failure(v.errors[0]))
    else
      var c := CreateOrderStep(s, cartId, now);
      match c.out
      case None => Step(s, Failure(CreateFailed))
      case Some(o) =>
        var placed := o.(orderNotes := notes);
        Step(c.state.(orders := s.orders + [placed]), Success(ToOrderDto(Unloaded(placed))))
  }

  method CreateOrder(db: AppDbContext, userId: UserId, cartId: int, notes: string, now: Timestamp)
    returns (r: ServiceResult<OrderDto>)
    modifies db
    ensures Step(db.State(), r) == CreateOrderOutcome(old(db.State()), userId, cartId, notes, now)
  {
    var v := ValidateCartAndCustomer(db.State(), userId, cartId);
    if !v.isSuccess {
      return Failure(v.errors[0]);
    }
    var order := CreateOrderFromCart(db, cartId, now);
    if order.None? {
      return Failure(CreateFailed);
    }
    var placed := order.value.(orderNotes := notes);
    assert db.orders[|db.orders| - 1 := placed] == old(db.orders) + [placed];
    db.orders := db.orders[|db.orders| - 1 := placed];
    r := Success(ToOrderDto(Unloaded(placed)));
  }

  /** Each guard of `CreateOrderAsync`, in order, with its message; a refused call changes nothing. */
  lemma CreateOrderGuards(s: DbState, userId: UserId, cartId: int, notes: string, now: Timestamp)
    ensures var r := CreateOrderOutcome(s, userId, cartId, notes, now);
      var cart := CartWithItemsById(s, cartId);
      && (CustomerById(s, userId).None? ==> r == Step(s, Failure(CustomerNotFound)))
      && (CustomerById(s, userId).Some? && cart.None? ==> r == Step(s, Failure(CartNotFound)))
      && (CustomerById(s, userId).Some? && cart.Some? && cart.value.cart.customerId != userId ==>
            r == Step(s, Failure(NotYourCart)))
      && (CustomerById(s, userId).Some? && cart.Some? && cart.value.cart.customerId == userId && cart.value.items == [] ==>
            r == Step(s, Failure(EmptyCart)))
      && (r.out.isSuccess <==> ValidateCartAndCustomer(s, userId, cartId).isSuccess)
  {
    if ValidateCartAndCustomer(s, userId, cartId).isSuccess {
      CreateOrderNeedsCart(s, cartId, now);
    }
  }

  /**
   * A validated call stores one order for the caller, with the caller's notes,
   * pending, one line per loaded cart item; the DTO it returns has the
   * placeholder name (the new order's customer is not loaded) and a total that
   * is the sum of its lines' subtotals.
   */
  lemma CreateOrderPlacesOrder(s: DbState, userId: UserId, cartId: int, notes: string, now: Timestamp)
    requires ValidateCartAndCustomer(s, userId, cartId).isSuccess
    ensures var lc := CartWithItemsById(s, cartId).value;
      var o := NewOrder(s.nextId, lc, now).(orderNotes := notes);
      var r := CreateOrderOutcome(s, userId, cartId, notes, now);
      && r.out.isSuccess && r.out.data.Some?
      && r.state.orders == s.orders + [o]
      && o.customerId == userId && o.status == Pending && o.orderNotes == notes
      && |o.orderItems| == |lc.items| > 0
      && r.out.data.value.customerName == UnknownCustomer
      && r.out.data.value.orderNotes == notes
      && r.out.data.value.totalAmount == SumReal(r.out.data.value.orderItems, DtoSubtotal)
  {
    var lc := CartWithItemsById(s, cartId).value;
    var o := NewOrder(s.nextId, lc, now).(orderNotes := notes);
    CreateOrderAppendsOrder(s, cartId, now);
    NewOrderLines(s.nextId, lc, now);
    NewOrderTotalIsSumOfSubtotals(s.nextId, lc, now);
    DtoLinesTotal(Unloaded(o));
  }

  /**
   * A validated call takes the ordered quantities off the products' stock
   * and leaves the cart in place with no items.
   */
  lemma CreateOrderTakesStockAndEmptiesCart(s: DbState, userId: UserId, cartId: int, notes: string, now: Timestamp, pid: int)
    requires ValidateCartAndCustomer(s, userId, cartId).isSuccess
    ensures var lc := CartWithItemsById(s, cartId).value;
      var t := CreateOrderOutcome(s, userId, cartId, notes, now).state;
      var before := FindProduct(s.products, pid);
      var after := FindProduct(t.products, pid);
      && (after.Some? <==> before.Some?)
      && (before.Some? ==> after.value == before.value.(stockQuantity := before.value.stockQuantity - OrderedQuantity(lc.items, pid)))
      && CartWithItemsById(t, cartId) == Some(LoadedCart(lc.cart, []))
  {
    var c := CreateOrderStep(s, cartId, now);
    CreateOrderTakesStock(s, cartId, now, pid);
    CreateOrderEmptiesCart(s, cartId, now);
    var t := CreateOrderOutcome(s, userId, cartId, notes, now).state;
    assert t.(orders := c.state.orders) == c.state;
  }

  // ---------------------------------------------------------------------------
  // Reading orders

  /** `VerifyOrderAccess`: the order must exist; someone other than its customer must be an administrator. */
  function VerifyOrderAccess(s: DbState, orderId: int, userId: UserId): (r: ServiceResult<bool>)
    ensures !r.isSuccess ==> |r.errors| == 1
  {
    match OrderIndexById(s, orderId)
    case None => Failure(OrderNotFound)
    case Some(k) =>
      if s.orders[k].customerId != userId && AdminById(s, userId).None? then Failure(NotYourOrder)
      else Success(true)
  }

  /** `GetOrderByIdAsync(orderId, userId)`, which changes nothing. */
  function GetOrderByIdResult(s: DbState, orderId: int, userId: UserId): (r: ServiceResult<OrderDto>)
    ensures r.isSuccess <==> VerifyOrderAccess(s, orderId, userId).isSuccess
    ensures !r.isSuccess ==> |r.errors| == 1
    ensures r.isSuccess ==> r.data.Some?
  {
    var access := VerifyOrderAccess(s, orderId, userId);
    if !access.isSuccess then Failure(access.errors[0])
    else
      match OrderWithItems(s, orderId)
      case None => Failure(OrderNotFound)
      case Some(lo) => Success(ToOrderDto(GraphOf(lo)))
  }

  /**
   * An order is shown exactly to its customer and to administrators; anyone
   * else is refused, and a missing or soft-deleted order is reported as not
   * found. The DTO names the order's customer and lists the lines whose
   * product is still visible.
   */
  lemma OrderAccessRule(s: DbState, orderId: int, userId: UserId)
    ensures var r := GetOrderByIdResult(s, orderId, userId);
      var k := OrderIndexById(s, orderId);
      && (k.None? ==> r == Failure(OrderNotFound))
      && (k.Some? ==>
            (r.isSuccess <==> s.orders[k.value].customerId == userId || AdminById(s, userId).Some?))
      && (k.Some? && !r.isSuccess ==> r == Failure(NotYourOrder))
      && (r.isSuccess ==>
            var o := s.orders[k.value];
            && r.data.Some?
            && r.data.value.status == o.status && r.data.value.totalAmount == o.totalAmount
            && r.data.value.customerName == CustomerName(UserCustomer(s, o.customerId))
            && |r.data.value.orderItems| == |LoadedLines(s.products, o.orderItems)|)
  {
  }

  /** `GetUserOrdersAsync(userId)`, which changes nothing. */
  function GetUserOrdersResult(s: DbState, userId: UserId): (r: ServiceResult<seq<OrderDto>>)
    ensures r.isSuccess && r.data.Some? && |r.data.value| == |CustomerOrderRows(s, userId)|
  {
    Success(ToOrderDtoList(Select(CustomerOrders(s, userId), GraphOf)))
  }

  /**
   * A customer's order list holds one DTO per live order of theirs, newest
   * first, each naming the customer.
   */
  lemma UserOrdersNewestFirst(s: DbState, userId: UserId)
    ensures var r := GetUserOrdersResult(s, userId);
      var rows := CustomerOrderRows(s, userId);
      && r.isSuccess && r.data.Some?
      && |r.data.value| == |rows|
      && (forall i | 0 <= i < |rows| ::
            && rows[i].customerId == userId && !rows[i].isDeleted
            && r.data.value[i].orderDate == rows[i].orderDate
            && r.data.value[i].customerName == CustomerName(UserCustomer(s, userId)))
      && (forall i, j | 0 <= i < j < |rows| :: r.data.value[i].orderDate >= r.data.value[j].orderDate)
  {
    var rows := CustomerOrderRows(s, userId);
    var dtos := GetUserOrdersResult(s, userId).data.value;
    forall i | 0 <= i < |rows|
      ensures rows[i].customerId == userId && !rows[i].isDeleted
      ensures dtos[i].orderDate == rows[i].orderDate
      ensures dtos[i].customerName == CustomerName(UserCustomer(s, userId))
    {
      assert rows[i] in rows;
    }
    forall i, j | 0 <= i < j < |rows|
      ensures dtos[i].orderDate >= dtos[j].orderDate
    {
      assert OrderDate(rows[i]) >= OrderDate(rows[j]);
    }
  }

  // ---------------------------------------------------------------------------
  // The status update

  /** `ValidateAdminAndOrder`: the caller must be an administrator, then the order must exist. */
  function ValidateAdminAndOrder(s: DbState, userId: UserId, orderId: int): (r: ServiceResult<Order>)
    ensures !r.isSuccess ==> |r.errors| == 1
    ensures r.isSuccess ==> r.data.Some? && OrderIndexById(s, orderId).Some?
  {
    match AdminById(s, userId)
    case None => Failure(AdminsOnly)
    case Some(_) =>
      match OrderIndexById(s, orderId)
      case None => Failure(OrderNotFound)
      case Some(k) => Success(s.orders[k])
  }

  /** `UpdateOrderStatusAsync`: sets the status, saves, and reloads the order with its navigations. */
  function UpdateStatusOutcome(s: DbState, orderId: int, status: OrderStatus, userId: UserId)
    : Step<ServiceResult<OrderDto>>
  {
    var v := ValidateAdminAndOrder(s, userId, orderId);
    if !v.isSuccess then Step(s, Failure(v.errors[0]))
    else
      var k := OrderIndexById(s, orderId).value;
      var t := s.(orders := s.orders[k := s.orders[k].(status := status)]);
      match OrderWithItems(t, orderId)
      case None => Step(t, Failure(ReloadFailed))
      case Some(lo) => Step(t, Success(ToOrderDto(GraphOf(lo))))
  }

  method UpdateOrderStatus(db: AppDbContext, orderId: int, status: OrderStatus, userId: UserId)
    returns (r: ServiceResult<OrderDto>)
    modifies db
    ensures Step(db.State(), r) == UpdateStatusOutcome(old(db.State()), orderId, status, userId)
  {
    var v := ValidateAdminAndOrder(db.State(), userId, orderId);
    if !v.isSuccess {
      return Failure(v.errors[0]);
    }
    var k := OrderIndexById(db.State(), orderId).value;
    db.orders := db.orders[k := db.orders[k].(status := status)];
    var updated := OrderWithItems(db.State(), orderId);
    if updated.None? {
      return Failure(ReloadFailed);
    }
    r := Success(ToOrderDto(GraphOf(updated.value)));
  }

  /** Only an administrator may update, and only an existing order; a refused update changes nothing. */
  lemma UpdateStatusGuards(s: DbState, orderId: int, status: OrderStatus, userId: UserId)
    ensures var r := UpdateStatusOutcome(s, orderId, status, userId);
      && (AdminById(s, userId).None? ==> r == Step(s, Failure(AdminsOnly)))
      && (AdminById(s, userId).Some? && OrderIndexById(s, orderId).None? ==> r == Step(s, Failure(OrderNotFound)))
  {
  }

  /**
   * An allowed update changes the status of that one order and nothing else,
   * the reload always finds the order again, and the DTO shows the new status.
   */
  lemma UpdateStatusSetsOnlyStatus(s: DbState, orderId: int, status: OrderStatus, userId: UserId)
    requires AdminById(s, userId).Some? && OrderIndexById(s, orderId).Some?
    ensures var k := OrderIndexById(s, orderId).value;
      var r := UpdateStatusOutcome(s, orderId, status, userId);
      && r.state == s.(orders := s.orders[k := s.orders[k].(status := status)])
      && r.out.isSuccess && r.out.data.Some?
      && r.out.data.value.status == status
      && r.out.data.value.totalAmount == s.orders[k].totalAmount
      && r.out.data.value.orderNotes == s.orders[k].orderNotes
  {
    var k := OrderIndexById(s, orderId).value;
    var t := s.(orders := s.orders[k := s.orders[k].(status := status)]);
    FirstIndexSamePositions(s.orders, t.orders, (o: Order) => o.id == orderId && !o.isDeleted);
    assert OrderIndexById(t, orderId) == Some(k);
  }

  // ---------------------------------------------------------------------------
  // The paged listing

  function StatusIs(status: OrderStatus): Order -> bool
  {
    (o: Order) => o.status == status
  }

  /** The listing's query: every stored order, or those with the requested status. */
  function ListedOrders(s: DbState, status: Option<OrderStatus>): (r: seq<Order>)
    ensures status.None? ==> r == s.orders
    ensures status.Some? ==> (forall o | o in r :: o in s.orders && o.status == status.value)
    ensures status.Some? ==> (forall o | o in s.orders && o.status == status.value :: o in r)
  {
    if status.Some? then Where(s.orders, StatusIs(status.value)) else s.orders
  }

  /** The rows of one page: newest first, `Skip((page - 1) * pageSize).Take(pageSize)`. */
  function PageRows(s: DbState, page: int, pageSize: int, status: Option<OrderStatus>): seq<Order>
  {
    Take(Skip(OrderByDescending(ListedOrders(s, status), OrderDate), (page - 1) * pageSize), pageSize)
  }

  /** A page the database can serve: SQL Server refuses a negative OFFSET and a FETCH of fewer than one row. */
  predicate ServablePage(page: int, pageSize: int)
  {
    page >= 1 && pageSize >= 1
  }

  /**
   * `GetOrdersAsync(page, pageSize, status)`; the listing does not load
   * customers. A page the database refuses is caught as `ListingFailed`.
   */
  function GetOrdersResult(s: DbState, page: int, pageSize: int, status: Option<OrderStatus>)
    : (r: ServiceResult<PagedResult<OrderDto>>)
    ensures r.isSuccess <==> page >= 1 && pageSize >= 1
    ensures !r.isSuccess ==> r.data.None? && r.errors == [ListingFailed]
    ensures r.isSuccess ==>
      && r.data.Some? && r.errors == []
      && r.data.value.totalCount == |ListedOrders(s, status)|
      && r.data.value.pageIndex == page - 1 && r.data.value.pageSize == pageSize
  {
    if !ServablePage(page, pageSize) then Failure(ListingFailed)
    else
      var rows := PageRows(s, page, pageSize, status);
      Success(NewPagedResult(ToOrderDtoList(Select(rows, Unloaded)), page - 1, pageSize, |ListedOrders(s, status)|))
  }

  /**
   * A page counts every listed order and holds at most `pageSize` of them,
   * one DTO per row, each showing its row's status, which is the requested
   * one when a status was given.
   */
  lemma OrdersPageFigures(s: DbState, page: int, pageSize: int, status: Option<OrderStatus>)
    requires page >= 1 && pageSize >= 1
    ensures var r := GetOrdersResult(s, page, pageSize, status);
      var rows := PageRows(s, page, pageSize, status);
      && r.isSuccess && r.data.Some?
      && r.data.value.totalCount == |ListedOrders(s, status)|
      && r.data.value.pageIndex == page - 1
      && |r.data.value.items| == |rows| <= pageSize
      && (forall i | 0 <= i < |rows| :: r.data.value.items[i].status == rows[i].status)
      && (status.Some? ==> forall i | 0 <= i < |rows| :: rows[i].status == status.value)
  {
    var listed := ListedOrders(s, status);
    var sorted := OrderByDescending(listed, OrderDate);
    var rows := PageRows(s, page, pageSize, status);
    PageOfSorted(sorted, OrderDate, (page - 1) * pageSize, pageSize);
    SameMembers(sorted, listed);
  }

  /**
   * The rows of a servable page are listed orders, newest first; they are
   * exactly the page's slice of the sorted listing, and there are none past
   * the last page.
   */
  lemma OrdersPageIsSlice(s: DbState, page: int, pageSize: int, status: Option<OrderStatus>)
    requires page >= 1 && pageSize >= 1
    ensures var listed := ListedOrders(s, status);
      var sorted := OrderByDescending(listed, OrderDate);
      var rows := PageRows(s, page, pageSize, status);
      var start := (page - 1) * pageSize;
      && (forall i | 0 <= i < |rows| :: rows[i] in listed)
      && (forall i, j | 0 <= i < j < |rows| :: rows[i].orderDate >= rows[j].orderDate)
      && (0 <= start < |sorted| ==> rows == sorted[start..if start + pageSize <= |sorted| then start + pageSize else |sorted|])
      && (start >= |sorted| ==> rows == [])
  {
    var rows := PageRows(s, page, pageSize, status);
    PageOfOrdered(ListedOrders(s, status), OrderDate, (page - 1) * pageSize, pageSize);
    assert forall i, j | 0 <= i < j < |rows| :: OrderDate(rows[i]) >= OrderDate(rows[j]);
  }
}
