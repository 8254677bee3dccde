/**
 * The cart repository: the writes on a customer's cart and its items, each
 * specified by a function from the store before to the store after (the
 * `...Step` functions) and carried out by a method on the tracked context;
 * and the two read-only queries, item count and product membership.
 *
 * Every write that reaches the end touches the cart's `ModifiedAt` through a
 * `FindAsync` on the cart key, and reports `false` when that key has no cart,
 * with the changes made before that point still tracked.
 */
module CartRepository {
  import opened Options
  import opened Entities
  import opened Linq
  import opened GenericRepositories
  import opened Data

  // ---------------------------------------------------------------------------
  // Specification of the writes

  /** Sets `ModifiedAt` on the cart with that key; `false` when there is none. */
  function TouchStep(s: DbState, cartId: int, now: Timestamp): (r: Step<bool>)
    ensures r.out <==> CartIndexById(s, cartId).Some?
    ensures r.state.(carts := s.carts) == s && |r.state.carts| == |s.carts|
  {
    match CartIndexById(s, cartId)
    case None => Step(s, false)
    case Some(k) => Step(s.(carts := s.carts[k := s.carts[k].(modifiedAt := now)]), true)
  }

  /** Touching a cart changes no cart's key. */
  lemma TouchKeepsCartKeys()
    ensures forall s: DbState, cartId: int, now: Timestamp, j | 0 <= j < |s.carts| ::
      TouchStep(s, cartId, now).state.carts[j].id == s.carts[j].id
  {
  }

  function RemoveAt<T>(s: seq<T>, k: nat): (r: seq<T>)
    requires k < |s|
    ensures |r| == |s| - 1
    ensures forall j | 0 <= j < k :: r[j] == s[j]
    ensures forall j | k <= j < |r| :: r[j] == s[j + 1]
  {
    s[..k] + s[k + 1..]
  }

  /** The item `AddItemToCartAsync` inserts: the product's effective price is snapshotted. */
  function NewCartItem(id: int, cartId: int, product: Product, quantity: int): CartItem
  {
    CartItem(id, cartId, product.id, quantity, EffectivePrice(product))
  }

  /** `AddItemToCartAsync(cartId, productId, quantity)`. */
  function AddItemStep(s: DbState, cartId: int, productId: int, quantity: int, now: Timestamp): Step<bool>
  {
    match ItemIndexOfPair(s, cartId, productId)
    case Some(k) =>
      TouchStep(s.(cartItems := s.cartItems[k := s.cartItems[k].(quantity := s.cartItems[k].quantity + quantity)]), cartId, now)
    case None =>
      match FindProduct(s.products, productId)
      case None => Step(s, false)
      case Some(p) =>
        TouchStep(s.(cartItems := s.cartItems + [NewCartItem(s.nextId, cartId, p, quantity)], nextId := s.nextId + 1), cartId, now)
  }

  /** `UpdateCartItemQuantityAsync(cartItemId, quantity)`. */
  function UpdateQuantityStep(s: DbState, cartItemId: int, quantity: int, now: Timestamp): Step<bool>
  {
    match ItemIndexById(s, cartItemId)
    case None => Step(s, false)
    case Some(k) =>
      var ci := s.cartItems[k];
      var items := if quantity <= 0 then RemoveAt(s.cartItems, k) else s.cartItems[k := ci.(quantity := quantity)];
      TouchStep(s.(cartItems := items), ci.cartId, now)
  }

  /** `RemoveCartItemAsync(cartItemId)`: nothing happens unless the item's cart is found. */
  function RemoveItemStep(s: DbState, cartItemId: int, now: Timestamp): Step<bool>
  {
    match ItemIndexById(s, cartItemId)
    case None => Step(s, false)
    case Some(k) =>
      var touched := TouchStep(s, s.cartItems[k].cartId, now);
      if !touched.out then touched
      else Step(touched.state.(cartItems := RemoveAt(s.cartItems, k)), true)
  }

  function CartIdOf(ci: CartItem): int { ci.cartId }

  predicate HasItems(s: DbState, cartId: int)
  {
    exists j | 0 <= j < |s.cartItems| :: s.cartItems[j].cartId == cartId
  }

  /** `ClearCartAsync(cartId)`: every item row of that cart goes; `false` when there was none. */
  function ClearStep(s: DbState, cartId: int, now: Timestamp): Step<bool>
  {
    if !HasItems(s, cartId) then Step(s, false)
    else TouchStep(s.(cartItems := WithoutKey(s.cartItems, CartIdOf, cartId)), cartId, now)
  }

  /** `IncreaseCartItemQuantityAsync(cartItemId)`: one more, if the live stock allows it. */
  function IncreaseStep(s: DbState, cartItemId: int, now: Timestamp): Step<bool>
  {
    match LoadedItemIndexById(s, cartItemId)
    case None => Step(s, false)
    case Some(k) =>
      var ci := s.cartItems[k];
      var p := FindProduct(s.products, ci.productId).value;
      if p.stockQuantity <= ci.quantity then Step(s, false)
      else TouchStep(s.(cartItems := s.cartItems[k := ci.(quantity := ci.quantity + 1)]), ci.cartId, now)
  }

  /** `DecreaseCartItemQuantityAsync(cartItemId)`: one fewer, or the item goes when at most one is left. */
  function DecreaseStep(s: DbState, cartItemId: int, now: Timestamp): Step<bool>
  {
    match ItemIndexById(s, cartItemId)
    case None => Step(s, false)
    case Some(k) =>
      var ci := s.cartItems[k];
      if ci.quantity <= 1 then RemoveItemStep(s, cartItemId, now)
      else TouchStep(s.(cartItems := s.cartItems[k := ci.(quantity := ci.quantity - 1)]), ci.cartId, now)
  }

  /** The cart `GetOrCreateCartAsync` adds when the customer has none. */
  function NewCart(id: int, customerId: UserId, now: Timestamp): Cart
  {
    Cart(id, customerId, now, now, false)
  }

  /**
   * `GetOrCreateCartAsync(customerId)`: a new cart is only added to the
   * context, not saved, so it comes back under the unsaved key.
   */
  function GetOrCreateStep(s: DbState, customerId: UserId, now: Timestamp): Step<LoadedCart>
  {
    match CartWithItemsByCustomer(s, customerId)
    case Some(lc) => Step(s, lc)
    case None =>
      var c := NewCart(UnsavedKey, customerId, now);
      Step(s.(addedCarts := s.addedCarts + [c]), LoadedCart(c, []))
  }

  // ---------------------------------------------------------------------------
  // The read-only queries

  /** `GetCartItemCountAsync`: the summed quantities of the customer's loaded cart items. */
  function CartItemCount(s: DbState, customerId: UserId): (r: int)
    ensures CartWithItemsByCustomer(s, customerId).None? ==> r == 0
    ensures CartWithItemsByCustomer(s, customerId).Some? ==>
      r == SumInt(CartWithItemsByCustomer(s, customerId).value.items, LoadedQuantity)
  {
    match CartWithItemsByCustomer(s, customerId)
    case None => 0
    case Some(lc) => if lc.items == [] then 0 else SumInt(lc.items, LoadedQuantity)
  }

  /** `IsProductInCartAsync`: some loaded item of the customer's cart is for that product. */
  function IsProductInCart(s: DbState, customerId: UserId, productId: int): (r: bool)
    ensures r <==> (CartWithItemsByCustomer(s, customerId).Some? &&
      exists li | li in CartWithItemsByCustomer(s, customerId).value.items :: li.item.productId == productId)
  {
    match CartWithItemsByCustomer(s, customerId)
    case None => false
    case Some(lc) =>
      var r := Any(lc.items, (li: LoadedItem) => li.item.productId == productId);
      assert r ==> exists j | 0 <= j < |lc.items| :: lc.items[j].item.productId == productId;
      r
  }

  // ---------------------------------------------------------------------------
  // The writes on the tracked context

  method TouchCart(db: AppDbContext, cartId: int, now: Timestamp) returns (ok: bool)
    modifies db
    ensures Step(db.State(), ok) == TouchStep(old(db.State()), cartId, now)
  {
    var k := CartIndexById(db.State(), cartId);
    if k.None? {
      return false;
    }
    db.carts := db.carts[k.value := db.carts[k.value].(modifiedAt := now)];
    return true;
  }

  method AddItemToCart(db: AppDbContext, cartId: int, productId: int, quantity: int, now: Timestamp) returns (ok: bool)
    modifies db
    ensures Step(db.State(), ok) == AddItemStep(old(db.State()), cartId, productId, quantity, now)
  {
    var existing := ItemIndexOfPair(db.State(), cartId, productId);
    if existing.Some? {
      var k := existing.value;
      db.cartItems := db.cartItems[k := db.cartItems[k].(quantity := db.cartItems[k].quantity + quantity)];
    } else {
      var product := FindProduct(db.products, productId);
      if product.None? {
        return false;
      }
      var id := db.NewId();
      db.cartItems := db.cartItems + [NewCartItem(id, cartId, product.value, quantity)];
    }
    ok := TouchCart(db, cartId, now);
  }

  method UpdateCartItemQuantity(db: AppDbContext, cartItemId: int, quantity: int, now: Timestamp) returns (ok: bool)
    modifies db
    ensures Step(db.State(), ok) == UpdateQuantityStep(old(db.State()), cartItemId, quantity, now)
  {
    var found := ItemIndexById(db.State(), cartItemId);
    if found.None? {
      return false;
    }
    var k := found.value;
    var ci := db.cartItems[k];
    if quantity <= 0 {
      db.cartItems := RemoveAt(db.cartItems, k);
    } else {
      db.cartItems := db.cartItems[k := ci.(quantity := quantity)];
    }
    ok := TouchCart(db, ci.cartId, now);
  }

  method RemoveCartItem(db: AppDbContext, cartItemId: int, now: Timestamp) returns (ok: bool)
    modifies db
    ensures Step(db.State(), ok) == RemoveItemStep(old(db.State()), cartItemId, now)
  {
    var found := ItemIndexById(db.State(), cartItemId);
    if found.None? {
      return false;
    }
    var k := found.value;
    ok := TouchCart(db, db.cartItems[k].cartId, now);
    if ok {
      db.cartItems := RemoveAt(db.cartItems, k);
    }
  }

  method ClearCart(db: AppDbContext, cartId: int, now: Timestamp) returns (ok: bool)
    modifies db
    ensures Step(db.State(), ok) == ClearStep(old(db.State()), cartId, now)
  {
    if !HasItems(db.State(), cartId) {
      return false;
    }
    db.cartItems := WithoutKey(db.cartItems, CartIdOf, cartId);
    ok := TouchCart(db, cartId, now);
  }

  method IncreaseCartItemQuantity(db: AppDbContext, cartItemId: int, now: Timestamp) returns (ok: bool)
    modifies db
    ensures Step(db.State(), ok) == IncreaseStep(old(db.State()), cartItemId, now)
  {
    var found := LoadedItemIndexById(db.State(), cartItemId);
    if found.None? {
      return false;
    }
    var k := found.value;
    var ci := db.cartItems[k];
    var product := FindProduct(db.products, ci.productId).value;
    if product.stockQuantity <= ci.quantity {
      return false;
    }
    db.cartItems := db.cartItems[k := ci.(quantity := ci.quantity + 1)];
    assert db.State() == old(db.State()).(cartItems := old(db.cartItems)[k := ci.(quantity := ci.quantity + 1)]);
    ok := TouchCart(db, ci.cartId, now);
  }

  method DecreaseCartItemQuantity(db: AppDbContext, cartItemId: int, now: Timestamp) returns (ok: bool)
    modifies db
    ensures Step(db.State(), ok) == DecreaseStep(old(db.State()), cartItemId, now)
  {
    var found := ItemIndexById(db.State(), cartItemId);
    if found.None? {
      return false;
    }
    var k := found.value;
    var ci := db.cartItems[k];
    if ci.quantity <= 1 {
      ok := RemoveCartItem(db, cartItemId, now);
      return;
    }
    db.cartItems := db.cartItems[k := ci.(quantity := ci.quantity - 1)];
    ok := TouchCart(db, ci.cartId, now);
  }

  method GetOrCreateCart(db: AppDbContext, customerId: UserId, now: Timestamp) returns (cart: LoadedCart)
    modifies db
    ensures Step(db.State(), cart) == GetOrCreateStep(old(db.State()), customerId, now)
  {
    var existing := CartWithItemsByCustomer(db.State(), customerId);
    if existing.Some? {
      return existing.value;
    }
    var c := NewCart(UnsavedKey, customerId, now);
    db.addedCarts := db.addedCarts + [c];
    cart := LoadedCart(c, []);
  }

  // ---------------------------------------------------------------------------
  // Properties of the writes

  /** No two item rows hold the same product for the same cart. */
  ghost predicate UniquePairs(items: seq<CartItem>)
  {
    forall i, j | 0 <= i < j < |items| ::
      !(items[i].cartId == items[j].cartId && items[i].productId == items[j].productId)
  }

  /** Every item row holds at least one unit. */
  ghost predicate PositiveQuantities(items: seq<CartItem>)
  {
    forall i | 0 <= i < |items| :: items[i].quantity >= 1
  }

  /** An add to a stored cart files its item under a key some cart has, as the foreign key demands. */
  lemma AddKeepsForeignKeys(s: DbState, cartId: int, productId: int, quantity: int, now: Timestamp)
    requires ForeignKeysHold(s) && CartIndexById(s, cartId).Some?
    ensures ForeignKeysHold(AddItemStep(s, cartId, productId, quantity, now).state)
  {
    TouchKeepsCartKeys();
    var t := AddItemStep(s, cartId, productId, quantity, now).state;
    var c := CartIndexById(s, cartId).value;
    forall i | 0 <= i < |t.cartItems|
      ensures ItemHasCart(t, i)
    {
      if i < |s.cartItems| && t.cartItems[i].cartId == s.cartItems[i].cartId {
        var j := CartOfItem(s, i);
        assert t.carts[j].id == t.cartItems[i].cartId;
      } else {
        assert t.cartItems[i].cartId == cartId;
        assert t.carts[c].id == cartId;
      }
    }
  }

  /**
   * Adding a product the cart already holds grows that row by the requested
   * quantity and adds no row; only the cart's `ModifiedAt` changes besides.
   */
  lemma AddRepeatedProductMerges(s: DbState, cartId: int, productId: int, quantity: int, now: Timestamp)
    requires ItemIndexOfPair(s, cartId, productId).Some?
    ensures var k := ItemIndexOfPair(s, cartId, productId).value;
      var r := AddItemStep(s, cartId, productId, quantity, now);
      && r.state.cartItems == s.cartItems[k := s.cartItems[k].(quantity := s.cartItems[k].quantity + quantity)]
      && r.state.(carts := s.carts, cartItems := s.cartItems) == s
      && (r.out <==> CartIndexById(s, cartId).Some?)
  {
  }

  /**
   * A product the cart does not hold yet gets one new row, whose price is the
   * discount price when the product is on sale and has one, else the list price.
   */
  lemma AddNewProductSnapshotsPrice(s: DbState, cartId: int, productId: int, quantity: int, now: Timestamp)
    requires ItemIndexOfPair(s, cartId, productId).None?
    requires FindProduct(s.products, productId).Some?
    ensures var p := FindProduct(s.products, productId).value;
      var r := AddItemStep(s, cartId, productId, quantity, now);
      && r.state.cartItems == s.cartItems + [CartItem(s.nextId, cartId, productId, quantity,
           if p.isOnSale && p.discountPrice.Some? then p.discountPrice.value else p.price)]
      && r.state.nextId == s.nextId + 1
      && (r.out <==> CartIndexById(s, cartId).Some?)
  {
  }

  /** A product that is missing (or soft-deleted) and not in the cart yet is refused with no change. */
  lemma AddUnknownProductChangesNothing(s: DbState, cartId: int, productId: int, quantity: int, now: Timestamp)
    requires ItemIndexOfPair(s, cartId, productId).None?
    requires forall p | p in s.products :: p.isDeleted || p.id != productId
    ensures AddItemStep(s, cartId, productId, quantity, now) == Step(s, false)
  {
  }

  /**
   * An add never creates a second row for a (cart, product) pair, and after it
   * the pair has a row unless the product could not be found.
   */
  lemma AddKeepsPairsUnique(s: DbState, cartId: int, productId: int, quantity: int, now: Timestamp)
    requires UniquePairs(s.cartItems)
    ensures UniquePairs(AddItemStep(s, cartId, productId, quantity, now).state.cartItems)
    ensures ItemIndexOfPair(s, cartId, productId).Some? || FindProduct(s.products, productId).Some? ==>
      ItemIndexOfPair(AddItemStep(s, cartId, productId, quantity, now).state, cartId, productId).Some?
  {
    var r := AddItemStep(s, cartId, productId, quantity, now);
    match ItemIndexOfPair(s, cartId, productId)
    case Some(k) =>
      assert forall j | 0 <= j < |s.cartItems| ::
        r.state.cartItems[j].cartId == s.cartItems[j].cartId && r.state.cartItems[j].productId == s.cartItems[j].productId;
    case None =>
      match FindProduct(s.products, productId)
      case None =>
      case Some(p) =>
        var items := r.state.cartItems;
        assert items == s.cartItems + [NewCartItem(s.nextId, cartId, p, quantity)];
        assert items[|s.cartItems|].cartId == cartId && items[|s.cartItems|].productId == productId;
  }

  /**
   * Updating to a quantity of zero or less removes the row; any other quantity
   * becomes the row's quantity exactly.
   */
  lemma UpdateSetsOrRemoves(s: DbState, cartItemId: int, quantity: int, now: Timestamp)
    requires ItemIndexById(s, cartItemId).Some?
    ensures var k := ItemIndexById(s, cartItemId).value;
      var r := UpdateQuantityStep(s, cartItemId, quantity, now);
      && (quantity <= 0 ==> r.state.cartItems == RemoveAt(s.cartItems, k))
      && (quantity > 0 ==> r.state.cartItems == s.cartItems[k := s.cartItems[k].(quantity := quantity)])
      && r.state.(carts := s.carts, cartItems := s.cartItems) == s
      && (r.out <==> CartIndexById(s, s.cartItems[k].cartId).Some?)
  {
  }

  /** With distinct item keys, a removed item can no longer be found by its key. */
  lemma RemovedItemIsGone(items: seq<CartItem>, k: nat)
    requires k < |items|
    requires forall i, j | 0 <= i < j < |items| :: items[i].id != items[j].id
    ensures forall ci | ci in RemoveAt(items, k) :: ci.id != items[k].id
  {
    var r := RemoveAt(items, k);
    forall ci | ci in r
      ensures ci.id != items[k].id
    {
      var j :| 0 <= j < |r| && r[j] == ci;
      if j < k {
        assert ci == items[j];
      } else {
        assert ci == items[j + 1];
      }
    }
  }

  /**
   * Increase refuses, with no change at all, when the live stock does not
   * exceed the current quantity; otherwise it adds exactly one, so a success
   * leaves the quantity within the stock.
   */
  lemma IncreaseRespectsStock(s: DbState, cartItemId: int, now: Timestamp)
    ensures var r := IncreaseStep(s, cartItemId, now);
      match LoadedItemIndexById(s, cartItemId)
      case None => r == Step(s, false)
      case Some(k) =>
        var ci := s.cartItems[k];
        var stock := FindProduct(s.products, ci.productId).value.stockQuantity;
        && (stock <= ci.quantity ==> r == Step(s, false))
        && (stock > ci.quantity ==>
              r.state.cartItems == s.cartItems[k := ci.(quantity := ci.quantity + 1)]
              && r.state.cartItems[k].quantity <= stock
              && (r.out <==> CartIndexById(s, ci.cartId).Some?))
  {
  }

  /**
   * Decrease removes the row when at most one unit is left (if its cart is
   * found) and otherwise subtracts exactly one.
   */
  lemma DecreaseRemovesOrSubtracts(s: DbState, cartItemId: int, now: Timestamp)
    requires ItemIndexById(s, cartItemId).Some?
    ensures var k := ItemIndexById(s, cartItemId).value;
      var ci := s.cartItems[k];
      var r := DecreaseStep(s, cartItemId, now);
      && (ci.quantity <= 1 ==> r == RemoveItemStep(s, cartItemId, now))
      && (ci.quantity <= 1 && CartIndexById(s, ci.cartId).Some? ==> r.state.cartItems == RemoveAt(s.cartItems, k))
      && (ci.quantity <= 1 && CartIndexById(s, ci.cartId).None? ==> r == Step(s, false))
      && (ci.quantity > 1 ==> r.state.cartItems == s.cartItems[k := ci.(quantity := ci.quantity - 1)])
  {
  }

  /** Decrease never takes a row from one unit or more to fewer than one. */
  lemma DecreaseKeepsQuantitiesPositive(s: DbState, cartItemId: int, now: Timestamp)
    requires PositiveQuantities(s.cartItems)
    ensures PositiveQuantities(DecreaseStep(s, cartItemId, now).state.cartItems)
  {
    match ItemIndexById(s, cartItemId)
    case None =>
    case Some(k) =>
      var r := DecreaseStep(s, cartItemId, now);
      if s.cartItems[k].quantity <= 1 {
        if CartIndexById(s, s.cartItems[k].cartId).Some? {
          assert r.state.cartItems == RemoveAt(s.cartItems, k);
        }
      }
  }

  /**
   * Clear with no rows for the cart reports false and changes nothing;
   * otherwise exactly the cart's rows go and every other cart's rows stay.
   */
  lemma ClearRemovesExactlyThatCart(s: DbState, cartId: int, now: Timestamp)
    ensures var r := ClearStep(s, cartId, now);
      && (!HasItems(s, cartId) ==> r == Step(s, false))
      && (forall ci | ci in r.state.cartItems :: ci in s.cartItems)
      && (forall ci | ci in s.cartItems && ci.cartId != cartId :: ci in r.state.cartItems)
      && (HasItems(s, cartId) ==> forall ci | ci in r.state.cartItems :: ci.cartId != cartId)
      && (r.out <==> HasItems(s, cartId) && CartIndexById(s, cartId).Some?)
  {
  }

  /** Clearing changes no cart's key, owner or flag. */
  lemma ClearKeepsCartKeys(s: DbState, cartId: int, now: Timestamp)
    ensures var t := ClearStep(s, cartId, now).state;
      && |t.carts| == |s.carts|
      && forall j | 0 <= j < |s.carts| ::
           t.carts[j].id == s.carts[j].id && t.carts[j].customerId == s.carts[j].customerId
           && t.carts[j].isDeleted == s.carts[j].isDeleted
  {
    if HasItems(s, cartId) {
      match CartIndexById(s.(cartItems := WithoutKey(s.cartItems, CartIdOf, cartId)), cartId)
      case None =>
      case Some(m) =>
    }
  }

  /**
   * After clearing the cart the customer's cart lookup finds, the customer's
   * item count is zero, whether or not the cart had items.
   */
  lemma ClearThenCountIsZero(s: DbState, customerId: UserId, now: Timestamp)
    requires CartWithItemsByCustomer(s, customerId).Some?
    ensures var c := CartWithItemsByCustomer(s, customerId).value.cart;
      CartItemCount(ClearStep(s, c.id, now).state, customerId) == 0
  {
    var c := CartWithItemsByCustomer(s, customerId).value.cart;
    var t := ClearStep(s, c.id, now).state;
    var p := (x: Cart) => x.customerId == customerId && !x.isDeleted;
    ClearKeepsCartKeys(s, c.id, now);
    assert forall j | 0 <= j < |s.carts| :: t.carts[j].id == s.carts[j].id && p(t.carts[j]) == p(s.carts[j]);
    FirstIndexSamePositions(s.carts, t.carts, p);
    var c2 := CartWithItemsByCustomer(t, customerId).value.cart;
    assert c2.id == c.id;
    if HasItems(s, c.id) {
      forall i | 0 <= i < |t.cartItems| ensures t.cartItems[i].cartId != c.id {
        assert t.cartItems[i] in t.cartItems;
      }
    } else {
      assert t == s;
    }
    LoadedItemsOfNoMatch(t.products, t.cartItems, c.id);
  }

  /**
   * Get-or-create returns the customer's existing cart and changes nothing, or
   * adds exactly one new, empty cart for that customer under the unsaved key.
   * No query sees that cart before a save, so a second call before a save adds
   * a second one.
   */
  lemma GetOrCreateExistingOrFresh(s: DbState, customerId: UserId, now: Timestamp)
    ensures var r := GetOrCreateStep(s, customerId, now);
      && (CartWithItemsByCustomer(s, customerId).Some? ==>
            r == Step(s, CartWithItemsByCustomer(s, customerId).value))
      && (CartWithItemsByCustomer(s, customerId).None? ==>
            && r.out == LoadedCart(NewCart(UnsavedKey, customerId, now), [])
            && r.state == s.(addedCarts := s.addedCarts + [r.out.cart])
            && CartWithItemsByCustomer(r.state, customerId).None?
            && GetOrCreateStep(r.state, customerId, now).state.addedCarts == s.addedCarts + [r.out.cart, r.out.cart])
  {
  }

  /**
   * Once a save has inserted the new cart, the customer's cart is found under
   * the key the save gave it, and a further get-or-create changes nothing.
   */
  lemma {:induction false} SavedNewCartIsFound(s: DbState, customerId: UserId, now: Timestamp)
    requires s.addedCarts == [] && CartWithItemsByCustomer(s, customerId).None?
    ensures var saved := InsertAdded(GetOrCreateStep(s, customerId, now).state);
      && saved == s.(carts := s.carts + [NewCart(s.nextId, customerId, now)], nextId := s.nextId + 1)
      && CartWithItemsByCustomer(saved, customerId).Some?
      && CartWithItemsByCustomer(saved, customerId).value.cart == NewCart(s.nextId, customerId, now)
      && GetOrCreateStep(saved, customerId, now).state == saved
  {
    var c := NewCart(s.nextId, customerId, now);
    var added := GetOrCreateStep(s, customerId, now).state;
    assert Keyed(added.addedCarts, s.nextId) == [c];
    FirstOrDefaultAppendToMiss(s.carts, c, (x: Cart) => x.customerId == customerId && !x.isDeleted);
  }

  // ---------------------------------------------------------------------------
  // The writes keep the store's keys

  /** Some row of `s` has this key and this cart key. */
  ghost predicate HasRow(s: seq<CartItem>, id: int, cartId: int)
  {
    exists j | 0 <= j < |s| :: s[j].id == id && s[j].cartId == cartId
  }

  /** Every row of `t` has the key and the cart key of some row of `s`. */
  ghost predicate RowsFrom(t: seq<CartItem>, s: seq<CartItem>)
  {
    forall i | 0 <= i < |t| :: HasRow(s, t[i].id, t[i].cartId)
  }

  /**
   * `t` issues no key, keeps every cart's key in place, and holds only item
   * rows with the keys of rows of `s`; orders and payments are untouched.
   */
  ghost predicate KeepsKeys(s: DbState, t: DbState)
  {
    && |t.carts| == |s.carts| && (forall j | 0 <= j < |s.carts| :: t.carts[j].id == s.carts[j].id)
    && t.nextId == s.nextId && t.orders == s.orders && t.payments == s.payments && t.addedCarts == s.addedCarts
    && RowsFrom(t.cartItems, s.cartItems)
  }

  /** A write that keeps the keys keeps a valid store valid and its foreign keys in force. */
  lemma KeepsKeysKeepsStore(s: DbState, t: DbState)
    requires ValidState(s) && ForeignKeysHold(s) && KeepsKeys(s, t)
    ensures ValidState(t) && ForeignKeysHold(t)
  {
    forall i | 0 <= i < |t.cartItems|
      ensures 1 <= t.cartItems[i].id < t.nextId && ItemHasCart(t, i)
    {
      assert HasRow(s.cartItems, t.cartItems[i].id, t.cartItems[i].cartId);
      var j :| 0 <= j < |s.cartItems| && s.cartItems[j].id == t.cartItems[i].id && s.cartItems[j].cartId == t.cartItems[i].cartId;
      var c := CartOfItem(s, j);
      assert t.carts[c].id == t.cartItems[i].cartId;
    }
  }

  lemma RowsFromRemoveAt(s: seq<CartItem>, k: nat)
    requires k < |s|
    ensures RowsFrom(RemoveAt(s, k), s)
  {
    var r := RemoveAt(s, k);
    forall i | 0 <= i < |r| ensures HasRow(s, r[i].id, r[i].cartId) {
      var j := if i < k then i else i + 1;
      assert s[j].id == r[i].id && s[j].cartId == r[i].cartId;
    }
  }

  lemma RowsFromUpdate(s: seq<CartItem>, k: nat, x: CartItem)
    requires k < |s| && x.id == s[k].id && x.cartId == s[k].cartId
    ensures RowsFrom(s[k := x], s)
  {
    var r := s[k := x];
    forall i | 0 <= i < |r| ensures HasRow(s, r[i].id, r[i].cartId) {
      assert s[i].id == r[i].id && s[i].cartId == r[i].cartId;
    }
  }

  lemma RowsFromWithout(s: seq<CartItem>, cartId: int)
    ensures RowsFrom(WithoutKey(s, CartIdOf, cartId), s)
  {
    var r := WithoutKey(s, CartIdOf, cartId);
    forall i | 0 <= i < |r| ensures HasRow(s, r[i].id, r[i].cartId) {
      assert r[i] in r;
      var j :| 0 <= j < |s| && s[j] == r[i];
      assert s[j].id == r[i].id && s[j].cartId == r[i].cartId;
    }
  }

  lemma RowsFromSelf(s: seq<CartItem>)
    ensures RowsFrom(s, s)
  {
    forall i | 0 <= i < |s| ensures HasRow(s, s[i].id, s[i].cartId) {
      assert s[i].id == s[i].id && s[i].cartId == s[i].cartId;
    }
  }

  lemma UpdateKeepsKeys(s: DbState, cartItemId: int, quantity: int, now: Timestamp)
    ensures KeepsKeys(s, UpdateQuantityStep(s, cartItemId, quantity, now).state)
  {
    TouchKeepsCartKeys();
    match ItemIndexById(s, cartItemId)
    case None =>
      RowsFromSelf(s.cartItems);
    case Some(k) =>
      RowsFromRemoveAt(s.cartItems, k);
      RowsFromUpdate(s.cartItems, k, s.cartItems[k].(quantity := quantity));
  }

  lemma RemoveKeepsKeys(s: DbState, cartItemId: int, now: Timestamp)
    ensures KeepsKeys(s, RemoveItemStep(s, cartItemId, now).state)
  {
    TouchKeepsCartKeys();
    RowsFromSelf(s.cartItems);
    match ItemIndexById(s, cartItemId)
    case None =>
    case Some(k) =>
      RowsFromRemoveAt(s.cartItems, k);
  }

  lemma IncreaseKeepsKeys(s: DbState, cartItemId: int, now: Timestamp)
    ensures KeepsKeys(s, IncreaseStep(s, cartItemId, now).state)
  {
    TouchKeepsCartKeys();
    RowsFromSelf(s.cartItems);
    match LoadedItemIndexById(s, cartItemId)
    case None =>
    case Some(k) =>
      RowsFromUpdate(s.cartItems, k, s.cartItems[k].(quantity := s.cartItems[k].quantity + 1));
  }

  lemma DecreaseKeepsKeys(s: DbState, cartItemId: int, now: Timestamp)
    ensures KeepsKeys(s, DecreaseStep(s, cartItemId, now).state)
  {
    TouchKeepsCartKeys();
    match ItemIndexById(s, cartItemId)
    case None =>
      RowsFromSelf(s.cartItems);
    case Some(k) =>
      if s.cartItems[k].quantity <= 1 {
        RemoveKeepsKeys(s, cartItemId, now);
      } else {
        RowsFromUpdate(s.cartItems, k, s.cartItems[k].(quantity := s.cartItems[k].quantity - 1));
      }
  }

  lemma ClearKeepsKeys(s: DbState, cartId: int, now: Timestamp)
    ensures KeepsKeys(s, ClearStep(s, cartId, now).state)
  {
    TouchKeepsCartKeys();
    RowsFromSelf(s.cartItems);
    RowsFromWithout(s.cartItems, cartId);
  }

  /**
   * Update, remove, clear, increase and decrease issue no key and file no row
   * under a new cart key, so each keeps a valid store valid and its foreign
   * keys in force.
   */
  lemma CartWritesKeepStore(s: DbState, cartItemId: int, cartId: int, quantity: int, now: Timestamp)
    requires ValidState(s) && ForeignKeysHold(s)
    ensures var t := UpdateQuantityStep(s, cartItemId, quantity, now).state; ValidState(t) && ForeignKeysHold(t)
    ensures var t := RemoveItemStep(s, cartItemId, now).state; ValidState(t) && ForeignKeysHold(t)
    ensures var t := ClearStep(s, cartId, now).state; ValidState(t) && ForeignKeysHold(t)
    ensures var t := IncreaseStep(s, cartItemId, now).state; ValidState(t) && ForeignKeysHold(t)
    ensures var t := DecreaseStep(s, cartItemId, now).state; ValidState(t) && ForeignKeysHold(t)
  {
    UpdateKeepsKeys(s, cartItemId, quantity, now);
    KeepsKeysKeepsStore(s, UpdateQuantityStep(s, cartItemId, quantity, now).state);
    RemoveKeepsKeys(s, cartItemId, now);
    KeepsKeysKeepsStore(s, RemoveItemStep(s, cartItemId, now).state);
    ClearKeepsKeys(s, cartId, now);
    KeepsKeysKeepsStore(s, ClearStep(s, cartId, now).state);
    IncreaseKeepsKeys(s, cartItemId, now);
    KeepsKeysKeepsStore(s, IncreaseStep(s, cartItemId, now).state);
    DecreaseKeepsKeys(s, cartItemId, now);
    KeepsKeysKeepsStore(s, DecreaseStep(s, cartItemId, now).state);
  }
}
