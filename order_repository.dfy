/**
 * The order repository: the two order queries and the conversion of a cart
 * into a pending order. The conversion prices every loaded cart item at its
 * product's live effective price (not the price the cart snapshotted), takes
 * the ordered quantities off the products' stock, and removes the loaded items
 * from the cart while keeping the cart row itself.
 */
module OrderRepository {
  import opened Options
  import opened Entities
  import opened Linq
  import opened Data

  // ---------------------------------------------------------------------------
  // Converting a cart into an order

  /** The line total `CreateOrderFromCartAsync` sums: quantity times the live effective price. */
  function LiveLineTotal(li: LoadedItem): real
  {
    li.item.quantity as real * EffectivePrice(li.product)
  }

  /** The order line one loaded cart item becomes; size and color keep their empty defaults. */
  function OrderLine(li: LoadedItem): OrderItem
  {
    var price := EffectivePrice(li.product);
    OrderItem(li.product.id, li.product.name, price, li.item.quantity, price * li.item.quantity as real, li.product.sku, "", "")
  }

  /** The order lines of a cart's loaded items, one per item and in the same order. */
  function OrderLines(items: seq<LoadedItem>): (r: seq<OrderItem>)
    ensures |r| == |items|
    ensures forall i | 0 <= i < |items| :: r[i] == OrderLine(items[i])
  {
    if items == [] then [] else OrderLines(items[..|items| - 1]) + [OrderLine(items[|items| - 1])]
  }

  /**
   * `product.StockQuantity -= quantity` on the tracked product with that key:
   * the first row the product filter lets through.
   */
  function DecrementStock(products: seq<Product>, id: int, quantity: int): (r: seq<Product>)
    ensures |r| == |products|
  {
    if products == [] then []
    else if products[0].id == id && !products[0].isDeleted then
      [products[0].(stockQuantity := products[0].stockQuantity - quantity)] + products[1..]
    else [products[0]] + DecrementStock(products[1..], id, quantity)
  }

  /** The products after the loop has taken every item's quantity off its product. */
  function StockAfter(products: seq<Product>, items: seq<LoadedItem>): (r: seq<Product>)
    ensures |r| == |products|
  {
    if items == [] then products
    else
      var n := |items| - 1;
      DecrementStock(StockAfter(products, items[..n]), items[n].product.id, items[n].item.quantity)
  }

  /** How many units of product `pid` the items order in total. */
  function OrderedQuantity(items: seq<LoadedItem>, pid: int): int
  {
    if items == [] then 0
    else
      var n := |items| - 1;
      OrderedQuantity(items[..n], pid) + (if items[n].product.id == pid then items[n].item.quantity else 0)
  }

  /**
   * `RemoveRange(cart.CartItems)`: the item rows of the cart that the include
   * loaded, i.e. those whose product the filter lets through, go.
   */
  function WithoutLoaded(products: seq<Product>, items: seq<CartItem>, cartId: int): (r: seq<CartItem>)
    ensures |r| <= |items|
    ensures forall ci | ci in r :: ci in items && !(ci.cartId == cartId && FindProduct(products, ci.productId).Some?)
    ensures forall ci | ci in items && !(ci.cartId == cartId && FindProduct(products, ci.productId).Some?) :: ci in r
  {
    if items == [] then []
    else
      var rest := WithoutLoaded(products, items[1..], cartId);
      assert forall x | x in items[1..] :: x in items;
      if items[0].cartId == cartId && FindProduct(products, items[0].productId).Some? then rest
      else [items[0]] + rest
  }

  /** The order `CreateOrderFromCartAsync` builds for a loaded cart; its key is the one the save assigns. */
  function NewOrder(id: int, lc: LoadedCart, now: Timestamp): Order
  {
    Order(id, lc.cart.customerId, now, Pending, SumReal(lc.items, LiveLineTotal), "", None, OrderLines(lc.items), false)
  }

  /** `CreateOrderFromCartAsync(cartId)`: `null` (no change) when the cart is missing or soft-deleted. */
  function CreateOrderStep(s: DbState, cartId: int, now: Timestamp): Step<Option<Order>>
  {
    match CartWithItemsById(s, cartId)
    case None => Step(s, None)
    case Some(lc) =>
      var o := NewOrder(s.nextId, lc, now);
      Step(s.(products := StockAfter(s.products, lc.items),
              orders := s.orders + [o],
              cartItems := WithoutLoaded(s.products, s.cartItems, cartId),
              nextId := s.nextId + 1),
           Some(o))
  }

  /**
   * The `foreach` of `CreateOrderFromCartAsync`: one order line per loaded
   * item, and the item's quantity taken off its tracked product.
   */
  method BuildLines(items: seq<LoadedItem>, stock: seq<Product>) returns (lines: seq<OrderItem>, products: seq<Product>)
    ensures lines == OrderLines(items)
    ensures products == StockAfter(stock, items)
  {
    lines, products := [], stock;
    var i := 0;
    while i < |items|
      invariant 0 <= i <= |items|
      invariant lines == OrderLines(items[..i])
      invariant products == StockAfter(stock, items[..i])
    {
      var li := items[i];
      assert items[..i + 1][..i] == items[..i];
      lines := lines + [OrderLine(li)];
      products := DecrementStock(products, li.product.id, li.item.quantity);
      i := i + 1;
    }
    assert items[..i] == items;
  }

  method CreateOrderFromCart(db: AppDbContext, cartId: int, now: Timestamp) returns (order: Option<Order>)
    modifies db
    ensures Step(db.State(), order) == CreateOrderStep(old(db.State()), cartId, now)
  {
    var found := CartWithItemsById(db.State(), cartId);
    if found.None? {
      return None;
    }
    var cart := found.value;
    var total := SumReal(cart.items, LiveLineTotal);
    var lines, products := BuildLines(cart.items, db.products);
    var id := db.NewId();
    var o := Order(id, cart.cart.customerId, now, Pending, total, "", None, lines, false);
    db.cartItems := WithoutLoaded(db.products, db.cartItems, cartId);
    db.products := products;
    db.orders := db.orders + [o];
    return Some(o);
  }

  // ---------------------------------------------------------------------------
  // Properties of the conversion

  /** An order comes back exactly when the cart is found; otherwise nothing changes. */
  lemma CreateOrderNeedsCart(s: DbState, cartId: int, now: Timestamp)
    ensures CreateOrderStep(s, cartId, now).out.Some? <==> CartWithItemsById(s, cartId).Some?
    ensures CartWithItemsById(s, cartId).None? ==> CreateOrderStep(s, cartId, now) == Step(s, None)
  {
  }

  /** The order is the cart's `NewOrder`, appended to the orders; the carts stay as they were. */
  lemma CreateOrderAppendsOrder(s: DbState, cartId: int, now: Timestamp)
    requires CartWithItemsById(s, cartId).Some?
    ensures var r := CreateOrderStep(s, cartId, now);
      var o := NewOrder(s.nextId, CartWithItemsById(s, cartId).value, now);
      && r.out == Some(o)
      && r.state.orders == s.orders + [o]
      && r.state.carts == s.carts
      && r.state.nextId == s.nextId + 1
  {
  }

  /**
   * The new order belongs to the cart's customer, is pending, has no notes and
   * no payment, and holds one line per loaded cart item, in order, at the live
   * effective price.
   */
  lemma NewOrderLines(id: int, lc: LoadedCart, now: Timestamp)
    ensures var o := NewOrder(id, lc, now);
      && o.id == id && o.customerId == lc.cart.customerId
      && o.status == Pending && o.orderNotes == "" && o.paymentId.None?
      && o.orderDate == now && !o.isDeleted
      && |o.orderItems| == |lc.items|
      && (forall i | 0 <= i < |lc.items| ::
            && o.orderItems[i].productId == lc.items[i].product.id
            && o.orderItems[i].productName == lc.items[i].product.name
            && o.orderItems[i].quantity == lc.items[i].item.quantity
            && o.orderItems[i].unitPrice == EffectivePrice(lc.items[i].product)
            && o.orderItems[i].subtotal == o.orderItems[i].unitPrice * o.orderItems[i].quantity as real)
  {
  }

  /** The order's total (summed from the cart) equals the sum of its lines' subtotals. */
  lemma NewOrderTotalIsSumOfSubtotals(id: int, lc: LoadedCart, now: Timestamp)
    ensures var o := NewOrder(id, lc, now);
      o.totalAmount == SumReal(o.orderItems, Subtotal)
  {
    var lines := OrderLines(lc.items);
    forall i | 0 <= i < |lc.items|
      ensures LiveLineTotal(lc.items[i]) == Subtotal(lines[i])
    {
      var li := lc.items[i];
      assert li.item.quantity as real * EffectivePrice(li.product) == EffectivePrice(li.product) * li.item.quantity as real;
    }
    SumRealPointwise(lc.items, LiveLineTotal, lines, Subtotal);
  }

  /** Taking `quantity` off product `id` changes that product's stock and nothing else any lookup sees. */
  lemma {:induction false} DecrementStockFind(products: seq<Product>, id: int, quantity: int, pid: int)
    ensures var before := FindProduct(products, pid);
      var after := FindProduct(DecrementStock(products, id, quantity), pid);
      && (after.Some? <==> before.Some?)
      && (before.Some? && pid == id ==> after.value == before.value.(stockQuantity := before.value.stockQuantity - quantity))
      && (before.Some? && pid != id ==> after.value == before.value)
  {
    if products != [] {
      var r := DecrementStock(products, id, quantity);
      var h := products[0];
      FindProductCons(products, pid);
      FindProductCons(r, pid);
      if h.id == id && !h.isDeleted {
        assert r[1..] == products[1..];
        if pid == id {
          assert FindProduct(r, pid) == Some(h.(stockQuantity := h.stockQuantity - quantity));
        }
      } else {
        assert r[0] == h;
        assert r[1..] == DecrementStock(products[1..], id, quantity);
        DecrementStockFind(products[1..], id, quantity, pid);
      }
    }
  }

  /** After the loop every product any lookup sees has lost exactly the units the order takes of it. */
  lemma {:induction false} StockAfterFind(products: seq<Product>, items: seq<LoadedItem>, pid: int)
    ensures var before := FindProduct(products, pid);
      var after := FindProduct(StockAfter(products, items), pid);
      && (after.Some? <==> before.Some?)
      && (before.Some? ==> after.value == before.value.(stockQuantity := before.value.stockQuantity - OrderedQuantity(items, pid)))
  {
    if items != [] {
      var n := |items| - 1;
      var mid := StockAfter(products, items[..n]);
      StockAfterFind(products, items[..n], pid);
      DecrementStockFind(mid, items[n].product.id, items[n].item.quantity, pid);
    }
  }

  /**
   * Stock: every product keeps its visibility and every other field, and its
   * stock drops by the total quantity the cart's loaded items hold of it.
   */
  lemma CreateOrderTakesStock(s: DbState, cartId: int, now: Timestamp, pid: int)
    requires CartWithItemsById(s, cartId).Some?
    ensures var items := CartWithItemsById(s, cartId).value.items;
      var before := FindProduct(s.products, pid);
      var after := FindProduct(CreateOrderStep(s, cartId, now).state.products, pid);
      && (after.Some? <==> before.Some?)
      && (before.Some? ==> after.value == before.value.(stockQuantity := before.value.stockQuantity - OrderedQuantity(items, pid)))
  {
    StockAfterFind(s.products, CartWithItemsById(s, cartId).value.items, pid);
  }

  /** A cart none of whose rows has a visible product loads no items. */
  lemma {:induction false} LoadedItemsOfNoneLive(products: seq<Product>, items: seq<CartItem>, cartId: int)
    requires forall i | 0 <= i < |items| :: items[i].cartId != cartId || FindProduct(products, items[i].productId).None?
    ensures LoadedItemsOf(products, items, cartId) == []
  {
    if items != [] {
      LoadedItemsOfNoneLive(products, items[1..], cartId);
    }
  }

  /**
   * The cart stays (same row, still found) but loads no items afterwards; the
   * rows of every other cart are kept.
   */
  lemma CreateOrderEmptiesCart(s: DbState, cartId: int, now: Timestamp)
    requires CartWithItemsById(s, cartId).Some?
    ensures var after := CreateOrderStep(s, cartId, now).state;
      && CartWithItemsById(after, cartId) == Some(LoadedCart(CartWithItemsById(s, cartId).value.cart, []))
      && (forall ci | ci in s.cartItems && ci.cartId != cartId :: ci in after.cartItems)
  {
    var lc := CartWithItemsById(s, cartId).value;
    var after := CreateOrderStep(s, cartId, now).state;
    forall i | 0 <= i < |after.cartItems|
      ensures after.cartItems[i].cartId != cartId || FindProduct(after.products, after.cartItems[i].productId).None?
    {
      assert after.cartItems[i] in after.cartItems;
      StockAfterFind(s.products, lc.items, after.cartItems[i].productId);
    }
    LoadedItemsOfNoneLive(after.products, after.cartItems, cartId);
  }

  // ---------------------------------------------------------------------------
  // The order queries

  /** An order with the navigations the queries include: its customer (if stored) and its lines. */
  datatype LoadedOrder = LoadedOrder(order: Order, customer: Option<Customer>, items: seq<OrderItem>)

  function OrderDate(o: Order): int { o.orderDate }

  function LoadedOrderDate(lo: LoadedOrder): int { lo.order.orderDate }

  /** The customer navigation, with its user: a join on the key, which applies no filter. */
  function LoadOrder(s: DbState, o: Order): (r: LoadedOrder)
    ensures r.order == o && r.items == o.orderItems
  {
    LoadedOrder(o, UserCustomer(s, o.customerId), o.orderItems)
  }

  /** The filter of `GetCustomerOrdersAsync`: the customer's orders that are not soft-deleted. */
  function OfCustomer(customerId: UserId): Order -> bool
  {
    (o: Order) => o.customerId == customerId && !o.isDeleted
  }

  /** The rows `GetCustomerOrdersAsync` returns: exactly the customer's live orders, newest first. */
  function CustomerOrderRows(s: DbState, customerId: UserId): (r: seq<Order>)
    ensures SortedDescending(r, OrderDate)
    ensures multiset(r) == multiset(Where(s.orders, OfCustomer(customerId)))
    ensures forall o | o in r :: o in s.orders && o.customerId == customerId && !o.isDeleted
    ensures forall o | o in s.orders && o.customerId == customerId && !o.isDeleted :: o in r
  {
    var mine := Where(s.orders, OfCustomer(customerId));
    var r := OrderByDescending(mine, OrderDate);
    SameMembers(r, mine);
    r
  }

  /** `GetCustomerOrdersAsync(customerId)`: each row with its navigations. */
  function CustomerOrders(s: DbState, customerId: UserId): (r: seq<LoadedOrder>)
    ensures |r| == |CustomerOrderRows(s, customerId)|
    ensures forall i | 0 <= i < |r| :: r[i] == LoadOrder(s, CustomerOrderRows(s, customerId)[i])
  {
    Select(CustomerOrderRows(s, customerId), (o: Order) => LoadOrder(s, o))
  }

  /** The lines `ThenInclude(i => i.Product)` loads: the required product join drops lines of hidden products. */
  function LoadedLines(products: seq<Product>, lines: seq<OrderItem>): (r: seq<OrderItem>)
    ensures forall oi | oi in r :: oi in lines && FindProduct(products, oi.productId).Some?
    ensures forall oi | oi in lines && FindProduct(products, oi.productId).Some? :: oi in r
  {
    Where(lines, (oi: OrderItem) => FindProduct(products, oi.productId).Some?)
  }

  /** `GetOrderWithItemsAsync(orderId)`: the order with that key unless it is soft-deleted. */
  function OrderWithItems(s: DbState, orderId: int): (r: Option<LoadedOrder>)
    ensures r.Some? <==> OrderIndexById(s, orderId).Some?
    ensures r.Some? ==> r.value.order == s.orders[OrderIndexById(s, orderId).value]
    ensures r.Some? ==> r.value.customer == UserCustomer(s, r.value.order.customerId)
    ensures r.Some? ==> r.value.items == LoadedLines(s.products, r.value.order.orderItems)
  {
    match OrderIndexById(s, orderId)
    case None => None
    case Some(k) =>
      var o := s.orders[k];
      Some(LoadedOrder(o, UserCustomer(s, o.customerId), LoadedLines(s.products, o.orderItems)))
  }
}
