/**
 * The database behind the unit of work: one table per entity set, the lookups
 * the repositories run against them, and the request-scoped context object
 * whose tracked changes a save commits.
 *
 * Tables are sequences in key (insertion) order, so a `FirstOrDefault` is the
 * first match in that order. Payments are keyed by their processor intent id,
 * which a unique index makes a key. Keys come from one counter, standing in
 * for the database's identity columns.
 */
module Data {
  import opened Options
  import opened Entities
  import opened Linq
  import opened GenericRepositories

  datatype DbState = DbState(
    products: seq<Product>,
    carts: seq<Cart>,
    cartItems: seq<CartItem>,
    orders: seq<Order>,
    payments: map<string, Payment>,
    customers: seq<Customer>,
    admins: seq<Admin>,
    nextId: int,
    addedCarts: seq<Cart>)

  /**
   * The key of a row that has been added to the context but not saved: the
   * database assigns keys at the save, and until then the entity's key
   * property keeps its default.
   */
  const UnsavedKey := 0

  /** The new state of the store after an operation, and what the operation returned. */
  datatype Step<T> = Step(state: DbState, out: T)

  /**
   * Every stored key was issued by the counter (so no stored key is the
   * unsaved key), each payment sits under its own intent id, and the context
   * has added no cart yet, as at the start of a request.
   */
  predicate ValidState(s: DbState)
  {
    && s.nextId >= 1
    && s.addedCarts == []
    && (forall i | 0 <= i < |s.carts| :: 1 <= s.carts[i].id < s.nextId)
    && (forall i | 0 <= i < |s.cartItems| :: 1 <= s.cartItems[i].id < s.nextId)
    && (forall i | 0 <= i < |s.orders| :: 1 <= s.orders[i].id < s.nextId)
    && (forall k | k in s.payments :: 1 <= s.payments[k].id < s.nextId && s.payments[k].intentId == k)
  }

  /** Every cart item row refers to a stored cart, as the foreign key demands of a save. */
  predicate ForeignKeysHold(s: DbState)
  {
    forall i | 0 <= i < |s.cartItems| :: ItemHasCart(s, i)
  }

  predicate ItemHasCart(s: DbState, i: int)
    requires 0 <= i < |s.cartItems|
  {
    exists j | 0 <= j < |s.carts| :: s.carts[j].id == s.cartItems[i].cartId
  }

  /** The cart a cart item row refers to. */
  lemma CartOfItem(s: DbState, i: int) returns (j: nat)
    requires ForeignKeysHold(s) && 0 <= i < |s.cartItems|
    ensures j < |s.carts| && s.carts[j].id == s.cartItems[i].cartId
  {
    assert ItemHasCart(s, i);
    j :| 0 <= j < |s.carts| && s.carts[j].id == s.cartItems[i].cartId;
  }

  /** Carts in the order they were added, each under the next key from `first` on. */
  function Keyed(cs: seq<Cart>, first: int): (r: seq<Cart>)
    ensures |r| == |cs|
    ensures forall i | 0 <= i < |cs| :: r[i] == cs[i].(id := first + i)
  {
    seq(|cs|, i requires 0 <= i < |cs| => cs[i].(id := first + i))
  }

  /** What a save does with the carts the context has added: each is inserted under the next key. */
  function InsertAdded(s: DbState): (r: DbState)
    ensures r.addedCarts == []
    ensures r.carts == s.carts + Keyed(s.addedCarts, s.nextId) && r.nextId == s.nextId + |s.addedCarts|
  {
    s.(carts := s.carts + Keyed(s.addedCarts, s.nextId), nextId := s.nextId + |s.addedCarts|, addedCarts := [])
  }

  /**
   * `SaveChangesAsync`: the added carts are inserted, and the whole save is
   * refused when a cart item row would then refer to no cart.
   */
  function SaveChanges(s: DbState): (r: Option<DbState>)
    ensures r.Some? <==> ForeignKeysHold(InsertAdded(s))
    ensures r.Some? ==> r.value == InsertAdded(s)
  {
    var t := InsertAdded(s);
    if ForeignKeysHold(t) then Some(t) else None
  }

  /** A save keeps the foreign keys of a store that already had them when the context added no cart. */
  lemma SaveWithNothingAdded(s: DbState)
    requires s.addedCarts == [] && ForeignKeysHold(s)
    ensures SaveChanges(s) == Some(s)
  {
    assert InsertAdded(s) == s;
  }

  // The soft-delete flag and key of each entity type the generic repository serves.

  function ProductKey(p: Product): int { p.id }
  function ProductIsDeleted(p: Product): bool { p.isDeleted }
  function ProductMarkDeleted(p: Product): Product { p.(isDeleted := true) }
  function ProductFlag(): DeletedFlag<Product> { HasIsDeleted(ProductIsDeleted, ProductMarkDeleted) }

  function OrderKey(o: Order): int { o.id }
  function OrderIsDeleted(o: Order): bool { o.isDeleted }
  function OrderMarkDeleted(o: Order): Order { o.(isDeleted := true) }
  function OrderFlag(): DeletedFlag<Order> { HasIsDeleted(OrderIsDeleted, OrderMarkDeleted) }

  function CustomerKey(c: Customer): UserId { c.id }
  function CustomerIsDeleted(c: Customer): bool { c.isDeleted }
  function CustomerMarkDeleted(c: Customer): Customer { c.(isDeleted := true) }
  function CustomerFlag(): DeletedFlag<Customer> { HasIsDeleted(CustomerIsDeleted, CustomerMarkDeleted) }

  function AdminKey(a: Admin): UserId { a.id }
  function AdminIsDeleted(a: Admin): bool { a.isDeleted }
  function AdminMarkDeleted(a: Admin): Admin { a.(isDeleted := true) }
  function AdminFlag(): DeletedFlag<Admin> { HasIsDeleted(AdminIsDeleted, AdminMarkDeleted) }

  /**
   * A product read by key: the generic `GetByIdAsync`, and equally `FindAsync`,
   * since the product query filter hides soft-deleted rows from both.
   */
  function FindProduct(products: seq<Product>, id: int): (r: Option<Product>)
    ensures r.Some? ==> r.value in products && r.value.id == id && !r.value.isDeleted
    ensures r.None? <==> forall p | p in products :: p.isDeleted || p.id != id
  {
    GetById(products, ProductFlag(), ProductKey, id)
  }

  /** A product lookup looks at the first row, then at the rest. */
  lemma FindProductCons(products: seq<Product>, id: int)
    requires products != []
    ensures FindProduct(products, id) ==
      if products[0].id == id && !products[0].isDeleted then Some(products[0]) else FindProduct(products[1..], id)
  {
  }

  /** `Carts.FindAsync(id)`: carts have no query filter. */
  function CartIndexById(s: DbState, id: int): (r: Option<nat>)
    ensures r.Some? ==> r.value < |s.carts| && s.carts[r.value].id == id
    ensures r.None? <==> forall j | 0 <= j < |s.carts| :: s.carts[j].id != id
  {
    FirstIndex(s.carts, (c: Cart) => c.id == id)
  }

  /** `Set<CartItem>().FindAsync(id)`, or a `FirstOrDefault` by id with no `Include`. */
  function ItemIndexById(s: DbState, id: int): (r: Option<nat>)
    ensures r.Some? ==> r.value < |s.cartItems| && s.cartItems[r.value].id == id
    ensures r.Some? ==> forall j | 0 <= j < r.value :: s.cartItems[j].id != id
    ensures r.None? <==> forall j | 0 <= j < |s.cartItems| :: s.cartItems[j].id != id
  {
    FirstIndex(s.cartItems, (ci: CartItem) => ci.id == id)
  }

  /** The row of a cart that already holds a product. */
  function ItemIndexOfPair(s: DbState, cartId: int, productId: int): (r: Option<nat>)
    ensures r.Some? ==> (r.value < |s.cartItems|
      && s.cartItems[r.value].cartId == cartId && s.cartItems[r.value].productId == productId)
    ensures r.None? <==> forall j | 0 <= j < |s.cartItems| ::
      !(s.cartItems[j].cartId == cartId && s.cartItems[j].productId == productId)
  {
    FirstIndex(s.cartItems, (ci: CartItem) => ci.cartId == cartId && ci.productId == productId)
  }

  /** A cart item joined with its product. */
  datatype LoadedItem = LoadedItem(item: CartItem, product: Product)

  /** A cart as `Include(CartItems).ThenInclude(Product)` loads it. */
  datatype LoadedCart = LoadedCart(cart: Cart, items: seq<LoadedItem>)

  function LoadedQuantity(li: LoadedItem): int { li.item.quantity }

  /** A loaded item's line total at its snapshot price. */
  function LoadedLineTotal(li: LoadedItem): real { SnapshotLineTotal(li.item) }

  /**
   * A cart item read by id with `Include(Product)`: the product navigation is
   * required, so the join drops an item whose product the filter hides.
   */
  function LoadedItemIndexById(s: DbState, id: int): (r: Option<nat>)
    ensures r.Some? ==> (r.value < |s.cartItems| && s.cartItems[r.value].id == id
      && FindProduct(s.products, s.cartItems[r.value].productId).Some?)
    ensures r.None? <==> forall j | 0 <= j < |s.cartItems| ::
      !(s.cartItems[j].id == id && FindProduct(s.products, s.cartItems[j].productId).Some?)
  {
    FirstIndex(s.cartItems, (ci: CartItem) => ci.id == id && FindProduct(s.products, ci.productId).Some?)
  }

  /** `GetCartItemByIdAsync`: the item with its product, when the join keeps it. */
  function LoadedItemById(s: DbState, id: int): (r: Option<LoadedItem>)
    ensures r.Some? ==> (r.value.item in s.cartItems && r.value.item.id == id
      && FindProduct(s.products, r.value.item.productId) == Some(r.value.product))
    ensures r.None? <==> LoadedItemIndexById(s, id).None?
  {
    match LoadedItemIndexById(s, id)
    case None => None
    case Some(k) => Some(LoadedItem(s.cartItems[k], FindProduct(s.products, s.cartItems[k].productId).value))
  }

  /** The items of one cart as the include loads them: in table order, each with its live product. */
  function LoadedItemsOf(products: seq<Product>, items: seq<CartItem>, cartId: int): (r: seq<LoadedItem>)
    ensures |r| <= |items|
    ensures forall li | li in r ::
      li.item in items && li.item.cartId == cartId && FindProduct(products, li.item.productId) == Some(li.product)
    ensures forall ci | ci in items && ci.cartId == cartId && FindProduct(products, ci.productId).Some? ::
      LoadedItem(ci, FindProduct(products, ci.productId).value) in r
  {
    if items == [] then []
    else
      var rest := LoadedItemsOf(products, items[1..], cartId);
      var ci := items[0];
      assert forall x | x in items[1..] :: x in items;
      match FindProduct(products, ci.productId)
      case Some(p) => if ci.cartId == cartId then [LoadedItem(ci, p)] + rest else rest
      case None => rest
  }

  /** Loading the items of a concatenation loads each part in turn. */
  lemma {:induction false} LoadedItemsOfAppend(products: seq<Product>, a: seq<CartItem>, b: seq<CartItem>, cartId: int)
    ensures LoadedItemsOf(products, a + b, cartId) == LoadedItemsOf(products, a, cartId) + LoadedItemsOf(products, b, cartId)
  {
    if a != [] {
      assert (a + b)[0] == a[0];
      assert (a + b)[1..] == a[1..] + b;
      LoadedItemsOfAppend(products, a[1..], b, cartId);
    } else {
      assert a + b == b;
    }
  }

  /** A cart none of whose rows are in the table loads no items. */
  lemma {:induction false} LoadedItemsOfNoMatch(products: seq<Product>, items: seq<CartItem>, cartId: int)
    requires forall i | 0 <= i < |items| :: items[i].cartId != cartId
    ensures LoadedItemsOf(products, items, cartId) == []
  {
    if items != [] {
      LoadedItemsOfNoMatch(products, items[1..], cartId);
    }
  }

  function LoadCart(s: DbState, c: Cart): (r: LoadedCart)
    ensures r.cart == c
  {
    LoadedCart(c, LoadedItemsOf(s.products, s.cartItems, c.id))
  }

  /** `GetCartWithItemsByCustomerIdAsync`: the customer's first cart that is not soft-deleted. */
  function CartWithItemsByCustomer(s: DbState, customerId: UserId): (r: Option<LoadedCart>)
    ensures r.Some? ==> r.value.cart in s.carts && r.value.cart.customerId == customerId && !r.value.cart.isDeleted
    ensures r.Some? ==> r.value == LoadCart(s, r.value.cart)
    ensures r.None? <==> forall c | c in s.carts :: c.customerId != customerId || c.isDeleted
  {
    match FirstOrDefault(s.carts, (c: Cart) => c.customerId == customerId && !c.isDeleted)
    case None => None
    case Some(c) => Some(LoadCart(s, c))
  }

  /** `GetCartWithItemsByIdAsync`: the cart with that key unless it is soft-deleted. */
  function CartWithItemsById(s: DbState, id: int): (r: Option<LoadedCart>)
    ensures r.Some? ==> r.value.cart in s.carts && r.value.cart.id == id && !r.value.cart.isDeleted
    ensures r.Some? ==> r.value == LoadCart(s, r.value.cart)
    ensures r.None? <==> forall c | c in s.carts :: c.id != id || c.isDeleted
  {
    match FirstOrDefault(s.carts, (c: Cart) => c.id == id && !c.isDeleted)
    case None => None
    case Some(c) => Some(LoadCart(s, c))
  }

  /** The user repository's customer lookup (`GetCustomerByUserIdAsync`), which applies no filter. */
  function UserCustomer(s: DbState, userId: UserId): (r: Option<Customer>)
    ensures r.Some? ==> r.value in s.customers && r.value.id == userId
    ensures r.None? <==> forall c | c in s.customers :: c.id != userId
  {
    FirstOrDefault(s.customers, (c: Customer) => c.id == userId)
  }

  /** The generic repository's customer lookup, which hides soft-deleted profiles. */
  function CustomerById(s: DbState, userId: UserId): (r: Option<Customer>)
    ensures r.Some? ==> r.value in s.customers && r.value.id == userId && !r.value.isDeleted
    ensures r.None? <==> forall c | c in s.customers :: c.isDeleted || c.id != userId
  {
    GetById(s.customers, CustomerFlag(), CustomerKey, userId)
  }

  /** The generic repository's admin lookup, which hides soft-deleted profiles. */
  function AdminById(s: DbState, userId: UserId): (r: Option<Admin>)
    ensures r.Some? ==> r.value in s.admins && r.value.id == userId && !r.value.isDeleted
    ensures r.None? <==> forall a | a in s.admins :: a.isDeleted || a.id != userId
  {
    GetById(s.admins, AdminFlag(), AdminKey, userId)
  }

  /** The generic repository's order lookup, which hides soft-deleted orders. */
  function OrderIndexById(s: DbState, id: int): (r: Option<nat>)
    ensures r.Some? ==> r.value < |s.orders| && s.orders[r.value].id == id && !s.orders[r.value].isDeleted
    ensures r.None? <==> forall j | 0 <= j < |s.orders| :: s.orders[j].isDeleted || s.orders[j].id != id
  {
    FirstIndex(s.orders, (o: Order) => o.id == id && !o.isDeleted)
  }

  /**
   * The request-scoped database context. Its fields hold the tables with every
   * change tracked so far applied, except that an added cart waits apart, under
   * the unsaved key and unseen by queries, until a save inserts it; a request
   * that returns without saving leaves the database as it was, which the
   * services model by restoring the state they started from.
   */
  class AppDbContext {
    var products: seq<Product>
    var carts: seq<Cart>
    var cartItems: seq<CartItem>
    var orders: seq<Order>
    var payments: map<string, Payment>
    var customers: seq<Customer>
    var admins: seq<Admin>
    var nextId: int
    var addedCarts: seq<Cart>

    constructor(s: DbState)
      ensures State() == s
    {
      products, carts, cartItems, orders := s.products, s.carts, s.cartItems, s.orders;
      payments, customers, admins, nextId := s.payments, s.customers, s.admins, s.nextId;
      addedCarts := s.addedCarts;
    }

    /** The tables as a value. */
    function State(): DbState
      reads this
    {
      DbState(products, carts, cartItems, orders, payments, customers, admins, nextId, addedCarts)
    }

    /** Drops every tracked change made since `s` was read, as a discarded context does. */
    method Restore(s: DbState)
      modifies this
      ensures State() == s
    {
      products, carts, cartItems, orders := s.products, s.carts, s.cartItems, s.orders;
      payments, customers, admins, nextId := s.payments, s.customers, s.admins, s.nextId;
      addedCarts := s.addedCarts;
    }

    /** `SaveChangesAsync`: false, with nothing committed, when the save is refused. */
    method Save() returns (ok: bool)
      modifies this
      ensures ok <==> SaveChanges(old(State())).Some?
      ensures State() == if ok then SaveChanges(old(State())).value else old(State())
    {
      var t := InsertAdded(State());
      if !ForeignKeysHold(t) {
        return false;
      }
      Restore(t);
      ok := true;
    }

    /** The key the database assigns to the next inserted row. */
    method NewId() returns (id: int)
      modifies this
      ensures id == old(nextId)
      ensures State() == old(State()).(nextId := old(nextId) + 1)
    {
      id := nextId;
      nextId := nextId + 1;
    }
  }
}
