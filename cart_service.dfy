/**
 * `CartService`: the nine cart operations a customer calls. Each resolves the
 * customer from the user id, runs its guard checks in order, calls the cart
 * repository and saves; the result is a `ServiceResult` carrying the cart as
 * reloaded after the save.
 *
 * Each operation is specified by a function from the store before to the store
 * after and the result (`...Outcome`) and carried out by a method on the
 * context. A save commits what the context tracks; an operation that returns
 * before saving leaves the store as it was.
 */
module CartServices {
  import opened Options
  import opened Entities
  import opened Linq
  import opened Text
  import opened ServiceResults
  import opened Data
  import opened CartRepository
  import opened CartDtos
  import opened CartMapper

  const UserIdRequired := "User ID is required."
  const NoCustomerProfile := "Customer account not found. Please set up your customer profile first."
  const ProductNotFound := "Product not found."
  const CustomerNotFound := "Customer account not found"
  const CartNotFound := "Cart not found"
  const ItemNotFound := "Cart item not found."
  const NotYourItem := "Cart item does not belong to your cart"
  const CannotIncrease := "Cannot increase quantity. Not enough items available in stock."
  const AddFailed := "Failed to add item to cart. Please try again later."

  function StockMessage(stock: int): string
  {
    "Not enough stock available. Only " + IntToString(stock) + " items left."
  }

  /**
   * The cart reloaded by key after a save, as a DTO; when the reload finds
   * nothing, a DTO holding only the key and the customer id.
   */
  function RefreshedDto(s: DbState, cart: Cart): CartDto
  {
    match CartWithItemsById(s, cart.id)
    case Some(lc) => LoadedCartDto(lc)
    case None => EmptyCartDto().(id := cart.id, customerId := cart.customerId)
  }

  // ---------------------------------------------------------------------------
  // The four guards shared by update, remove, increase and decrease

  /** The customer's cart and the requested item, or the first guard that failed. */
  datatype Owned = Owned(cart: LoadedCart, item: LoadedItem) | Refused(error: string)

  /**
   * The customer must exist, have a cart, the item must be found (joined with
   * its product) and lie in that cart; checked in this order.
   */
  function ResolveOwnedItem(s: DbState, userId: UserId, cartItemId: int): Owned
  {
    match UserCustomer(s, userId)
    case None => Refused(CustomerNotFound)
    case Some(customer) =>
      match CartWithItemsByCustomer(s, customer.id)
      case None => Refused(CartNotFound)
      case Some(lc) =>
        match LoadedItemById(s, cartItemId)
        case None => Refused(ItemNotFound)
        case Some(li) => if li.item.cartId != lc.cart.id then Refused(NotYourItem) else Owned(lc, li)
  }

  /** The guards one lookup at a time. */
  method FindOwnedItem(db: AppDbContext, userId: UserId, cartItemId: int) returns (r: Owned)
    ensures r == ResolveOwnedItem(db.State(), userId, cartItemId)
  {
    var customer := UserCustomer(db.State(), userId);
    if customer.None? {
      return Refused(CustomerNotFound);
    }
    var cart := CartWithItemsByCustomer(db.State(), customer.value.id);
    if cart.None? {
      return Refused(CartNotFound);
    }
    var cartItem := LoadedItemById(db.State(), cartItemId);
    if cartItem.None? {
      return Refused(ItemNotFound);
    }
    if cartItem.value.item.cartId != cart.value.cart.id {
      return Refused(NotYourItem);
    }
    r := Owned(cart.value, cartItem.value);
  }

  /**
   * The item is accepted exactly when every guard passes; an item found in
   * another cart is refused as not the customer's.
   */
  lemma OwnedItemGuards(s: DbState, userId: UserId, cartItemId: int)
    ensures var r := ResolveOwnedItem(s, userId, cartItemId);
      && (r.Owned? <==> (UserCustomer(s, userId).Some? && CartWithItemsByCustomer(s, userId).Some?
            && LoadedItemById(s, cartItemId).Some?
            && LoadedItemById(s, cartItemId).value.item.cartId == CartWithItemsByCustomer(s, userId).value.cart.id))
      && (r.Owned? ==> (&& r.cart == CartWithItemsByCustomer(s, userId).value
                        && r.item == LoadedItemById(s, cartItemId).value
                        && r.cart.cart.customerId == userId))
      && (UserCustomer(s, userId).None? ==> r == Refused(CustomerNotFound))
      && (UserCustomer(s, userId).Some? && CartWithItemsByCustomer(s, userId).None? ==> r == Refused(CartNotFound))
      && ((UserCustomer(s, userId).Some? && CartWithItemsByCustomer(s, userId).Some? && LoadedItemById(s, cartItemId).None?)
            ==> r == Refused(ItemNotFound))
  {
  }

  // ---------------------------------------------------------------------------
  // Specification of the operations

  /** `GetCartAsync`: get-or-create, never saved; the store is left as it was. */
  function GetCartResult(s: DbState, userId: UserId, now: Timestamp): ServiceResult<CartDto>
  {
    if userId == "" then Failure(UserIdRequired)
    else
      match UserCustomer(s, userId)
      case None => Failure(NoCustomerProfile)
      case Some(customer) => Success(LoadedCartDto(GetOrCreateStep(s, customer.id, now).out))
  }

  /**
   * The add of `AddToCartAsync` once it holds a cart, `got`: the item goes
   * under the cart's key as read, the save follows, and a refused save is
   * caught as `AddFailed` with nothing stored.
   */
  function AddAndSave(s: DbState, got: Step<LoadedCart>, productId: int, quantity: int, now: Timestamp)
    : Step<ServiceResult<CartDto>>
  {
    var added := AddItemStep(got.state, got.out.cart.id, productId, quantity, now).state;
    match SaveChanges(added)
    case None => Step(s, Failure(AddFailed))
    case Some(saved) => Step(saved, Success(RefreshedDto(saved, got.out.cart)))
  }

  /** `AddToCartAsync`: the product checks run before the customer is looked up. */
  function AddToCartOutcome(s: DbState, userId: UserId, productId: int, quantity: int, now: Timestamp)
    : Step<ServiceResult<CartDto>>
  {
    match FindProduct(s.products, productId)
    case None => Step(s, Failure(ProductNotFound))
    case Some(p) =>
      if p.stockQuantity < quantity then Step(s, Failure(StockMessage(p.stockQuantity)))
      else
        match UserCustomer(s, userId)
        case None => Step(s, Failure(CustomerNotFound))
        case Some(customer) => AddAndSave(s, GetOrCreateStep(s, customer.id, now), productId, quantity, now)
  }

  /**
   * The stock check of `UpdateCartItemQuantityAsync`: only when the quantity
   * grows, and only when the product is found.
   */
  predicate UpdateExceedsStock(s: DbState, ci: CartItem, quantity: int)
  {
    quantity > ci.quantity &&
    match FindProduct(s.products, ci.productId)
    case None => false
    case Some(p) => p.stockQuantity < quantity
  }

  function UpdateOutcome(s: DbState, userId: UserId, cartItemId: int, quantity: int, now: Timestamp)
    : Step<ServiceResult<CartDto>>
  {
    match ResolveOwnedItem(s, userId, cartItemId)
    case Refused(e) => Step(s, Failure(e))
    case Owned(lc, li) =>
      if UpdateExceedsStock(s, li.item, quantity) then
        Step(s, Failure(StockMessage(FindProduct(s.products, li.item.productId).value.stockQuantity)))
      else
        var t := UpdateQuantityStep(s, cartItemId, quantity, now).state;
        Step(t, Success(RefreshedDto(t, lc.cart)))
  }

  function RemoveOutcome(s: DbState, userId: UserId, cartItemId: int, now: Timestamp): Step<ServiceResult<CartDto>>
  {
    match ResolveOwnedItem(s, userId, cartItemId)
    case Refused(e) => Step(s, Failure(e))
    case Owned(lc, _) =>
      var t := RemoveItemStep(s, cartItemId, now).state;
      Step(t, Success(RefreshedDto(t, lc.cart)))
  }

  /** `ClearCartAsync`: no cart counts as cleared, and the repository's answer is ignored. */
  function ClearOutcome(s: DbState, userId: UserId, now: Timestamp): Step<ServiceResult<bool>>
  {
    match UserCustomer(s, userId)
    case None => Step(s, Failure(CustomerNotFound))
    case Some(customer) =>
      match CartWithItemsByCustomer(s, customer.id)
      case None => Step(s, Success(true))
      case Some(lc) => Step(ClearStep(s, lc.cart.id, now).state, Success(true))
  }

  /** `IncreaseCartItemQuantityAsync`: a refused increment is reported and not saved. */
  function IncreaseOutcome(s: DbState, userId: UserId, cartItemId: int, now: Timestamp): Step<ServiceResult<CartDto>>
  {
    match ResolveOwnedItem(s, userId, cartItemId)
    case Refused(e) => Step(s, Failure(e))
    case Owned(lc, _) =>
      var inc := IncreaseStep(s, cartItemId, now);
      if !inc.out then Step(s, Failure(CannotIncrease))
      else Step(inc.state, Success(RefreshedDto(inc.state, lc.cart)))
  }

  function DecreaseOutcome(s: DbState, userId: UserId, cartItemId: int, now: Timestamp): Step<ServiceResult<CartDto>>
  {
    match ResolveOwnedItem(s, userId, cartItemId)
    case Refused(e) => Step(s, Failure(e))
    case Owned(lc, _) =>
      var t := DecreaseStep(s, cartItemId, now).state;
      Step(t, Success(RefreshedDto(t, lc.cart)))
  }

  /** `GetCartItemCountAsync`: no user or no customer is a count of zero, not a failure. */
  function CountResult(s: DbState, userId: UserId): ServiceResult<int>
  {
    if userId == "" then Success(0)
    else
      match UserCustomer(s, userId)
      case None => Success(0)
      case Some(customer) => Success(CartItemCount(s, customer.id))
  }

  /** `IsProductInCartAsync`: no user or no customer answers false, not a failure. */
  function InCartResult(s: DbState, userId: UserId, productId: int): ServiceResult<bool>
  {
    if userId == "" then Success(false)
    else
      match UserCustomer(s, userId)
      case None => Success(false)
      case Some(customer) => Success(IsProductInCart(s, customer.id, productId))
  }

  // ---------------------------------------------------------------------------
  // The operations on the context

  method GetCart(db: AppDbContext, userId: UserId, now: Timestamp) returns (r: ServiceResult<CartDto>)
    modifies db
    ensures db.State() == old(db.State())
    ensures r == GetCartResult(old(db.State()), userId, now)
  {
    if userId == "" {
      return Failure(UserIdRequired);
    }
    var customer := UserCustomer(db.State(), userId);
    if customer.None? {
      return Failure(NoCustomerProfile);
    }
    var before := db.State();
    var cart := GetOrCreateCart(db, customer.value.id, now);
    db.Restore(before);
    r := Success(LoadedCartDto(cart));
  }

  method AddToCart(db: AppDbContext, userId: UserId, productId: int, quantity: int, now: Timestamp)
    returns (r: ServiceResult<CartDto>)
    modifies db
    ensures Step(db.State(), r) == AddToCartOutcome(old(db.State()), userId, productId, quantity, now)
  {
    var product := FindProduct(db.products, productId);
    if product.None? {
      return Failure(ProductNotFound);
    }
    if product.value.stockQuantity < quantity {
      return Failure(StockMessage(product.value.stockQuantity));
    }
    var customer := UserCustomer(db.State(), userId);
    if customer.None? {
      return Failure(CustomerNotFound);
    }
    var before := db.State();
    var cart := GetOrCreateCart(db, customer.value.id, now);
    var _ := AddItemToCart(db, cart.cart.id, productId, quantity, now);
    var saved := db.Save();
    if !saved {
      db.Restore(before);
      return Failure(AddFailed);
    }
    r := Success(RefreshedDto(db.State(), cart.cart));
  }

  method UpdateCartItemQuantity(db: AppDbContext, userId: UserId, cartItemId: int, quantity: int, now: Timestamp)
    returns (r: ServiceResult<CartDto>)
    modifies db
    ensures Step(db.State(), r) == UpdateOutcome(old(db.State()), userId, cartItemId, quantity, now)
  {
    var owned := FindOwnedItem(db, userId, cartItemId);
    if owned.Refused? {
      return Failure(owned.error);
    }
    var ci := owned.item.item;
    if quantity > ci.quantity {
      var product := FindProduct(db.products, ci.productId);
      if product.Some? && product.value.stockQuantity < quantity {
        return Failure(StockMessage(product.value.stockQuantity));
      }
    }
    var _ := CartRepository.UpdateCartItemQuantity(db, cartItemId, quantity, now);
    r := Success(RefreshedDto(db.State(), owned.cart.cart));
  }

  method RemoveCartItem(db: AppDbContext, userId: UserId, cartItemId: int, now: Timestamp)
    returns (r: ServiceResult<CartDto>)
    modifies db
    ensures Step(db.State(), r) == RemoveOutcome(old(db.State()), userId, cartItemId, now)
  {
    var owned := FindOwnedItem(db, userId, cartItemId);
    if owned.Refused? {
      return Failure(owned.error);
    }
    var _ := CartRepository.RemoveCartItem(db, cartItemId, now);
    r := Success(RefreshedDto(db.State(), owned.cart.cart));
  }

  method ClearCart(db: AppDbContext, userId: UserId, now: Timestamp) returns (r: ServiceResult<bool>)
    modifies db
    ensures Step(db.State(), r) == ClearOutcome(old(db.State()), userId, now)
  {
    var customer := UserCustomer(db.State(), userId);
    if customer.None? {
      return Failure(CustomerNotFound);
    }
    var cart := CartWithItemsByCustomer(db.State(), customer.value.id);
    if cart.None? {
      return Success(true);
    }
    var _ := CartRepository.ClearCart(db, cart.value.cart.id, now);
    r := Success(true);
  }

  method IncreaseCartItemQuantity(db: AppDbContext, userId: UserId, cartItemId: int, now: Timestamp)
    returns (r: ServiceResult<CartDto>)
    modifies db
    ensures Step(db.State(), r) == IncreaseOutcome(old(db.State()), userId, cartItemId, now)
  {
    var owned := FindOwnedItem(db, userId, cartItemId);
    if owned.Refused? {
      return Failure(owned.error);
    }
    var before := db.State();
    var increased := CartRepository.IncreaseCartItemQuantity(db, cartItemId, now);
    if !increased {
      db.Restore(before);
      return Failure(CannotIncrease);
    }
    r := Success(RefreshedDto(db.State(), owned.cart.cart));
  }

  method DecreaseCartItemQuantity(db: AppDbContext, userId: UserId, cartItemId: int, now: Timestamp)
    returns (r: ServiceResult<CartDto>)
    modifies db
    ensures Step(db.State(), r) == DecreaseOutcome(old(db.State()), userId, cartItemId, now)
  {
    var owned := FindOwnedItem(db, userId, cartItemId);
    if owned.Refused? {
      return Failure(owned.error);
    }
    var _ := CartRepository.DecreaseCartItemQuantity(db, cartItemId, now);
    r := Success(RefreshedDto(db.State(), owned.cart.cart));
  }

  method GetCartItemCount(db: AppDbContext, userId: UserId) returns (r: ServiceResult<int>)
    ensures r == CountResult(db.State(), userId)
  {
    if userId == "" {
      return Success(0);
    }
    var customer := UserCustomer(db.State(), userId);
    if customer.None? {
      return Success(0);
    }
    r := Success(CartItemCount(db.State(), customer.value.id));
  }

  method IsProductInCartQuery(db: AppDbContext, userId: UserId, productId: int) returns (r: ServiceResult<bool>)
    ensures r == InCartResult(db.State(), userId, productId)
  {
    if userId == "" {
      return Success(false);
    }
    var customer := UserCustomer(db.State(), userId);
    if customer.None? {
      return Success(false);
    }
    r := Success(IsProductInCart(db.State(), customer.value.id, productId));
  }

  // ---------------------------------------------------------------------------
  // Properties of the operations

  /**
   * Reading the cart fails for an empty user id or an unknown customer and
   * otherwise always yields a cart of that customer: the existing one as
   * loaded, or a new empty one. It never changes the store.
   */
  lemma GetCartGuards(s: DbState, userId: UserId, now: Timestamp)
    ensures var r := GetCartResult(s, userId, now);
      && (userId == "" ==> r == Failure(UserIdRequired))
      && (userId != "" && UserCustomer(s, userId).None? ==> r == Failure(NoCustomerProfile))
      && (userId != "" && UserCustomer(s, userId).Some? ==>
            && r.isSuccess && r.data.Some? && r.data.value.customerId == userId
            && (CartWithItemsByCustomer(s, userId).Some? ==>
                  r.data.value == LoadedCartDto(CartWithItemsByCustomer(s, userId).value))
            && (CartWithItemsByCustomer(s, userId).None? ==>
                  r.data.value.items == [] && r.data.value.id == UnsavedKey))
  {
    if userId != "" && UserCustomer(s, userId).Some? {
      GetOrCreateExistingOrFresh(s, userId, now);
    }
  }

  /**
   * A missing product or a requested quantity above the stock fails before the
   * customer is looked up, whoever asks, and changes nothing. As written, an
   * add succeeds exactly when the checks pass and the customer already has a
   * cart; a customer without one gets `AddFailed` (see `FirstAddAsWrittenFails`).
   */
  lemma AddToCartChecksProductFirst(s: DbState, userId: UserId, productId: int, quantity: int, now: Timestamp)
    requires ValidState(s) && ForeignKeysHold(s)
    ensures var r := AddToCartOutcome(s, userId, productId, quantity, now);
      && (FindProduct(s.products, productId).None? ==> r == Step(s, Failure(ProductNotFound)))
      && (FindProduct(s.products, productId).Some? && FindProduct(s.products, productId).value.stockQuantity < quantity ==>
            r == Step(s, Failure(StockMessage(FindProduct(s.products, productId).value.stockQuantity))))
      && (r.out.isSuccess <==>
            (FindProduct(s.products, productId).Some? && FindProduct(s.products, productId).value.stockQuantity >= quantity
             && UserCustomer(s, userId).Some? && CartWithItemsByCustomer(s, userId).Some?))
      && (!r.out.isSuccess ==> r.state == s)
  {
    if FindProduct(s.products, productId).Some? && FindProduct(s.products, productId).value.stockQuantity >= quantity
       && UserCustomer(s, userId).Some? {
      if CartWithItemsByCustomer(s, userId).Some? {
        ExistingCartAddSaves(s, userId, productId, quantity, now);
      } else {
        FirstAddAsWrittenFails(s, userId, productId, quantity, now);
      }
    }
  }

  /** For a customer who has a cart, the add's save goes through and keeps the foreign keys. */
  lemma ExistingCartAddSaves(s: DbState, userId: UserId, productId: int, quantity: int, now: Timestamp)
    requires ValidState(s) && ForeignKeysHold(s)
    requires CartWithItemsByCustomer(s, userId).Some?
    ensures var lc := CartWithItemsByCustomer(s, userId).value;
      var added := AddItemStep(s, lc.cart.id, productId, quantity, now).state;
      && SaveChanges(added) == Some(added)
      && ForeignKeysHold(added)
  {
    var lc := CartWithItemsByCustomer(s, userId).value;
    var k :| 0 <= k < |s.carts| && s.carts[k] == lc.cart;
    assert CartIndexById(s, lc.cart.id).Some?;
    AddKeepsForeignKeys(s, lc.cart.id, productId, quantity, now);
    SaveWithNothingAdded(AddItemStep(s, lc.cart.id, productId, quantity, now).state);
  }

  /**
   * The stock check compares only the requested quantity: adding a product
   * already in the customer's cart merges into its row even when the sum
   * exceeds the stock, and a quantity of zero or less is not refused.
   */
  lemma AddToCartIgnoresQuantityInCart(s: DbState, userId: UserId, productId: int, quantity: int, now: Timestamp)
    requires ValidState(s) && ForeignKeysHold(s)
    requires UserCustomer(s, userId).Some? && CartWithItemsByCustomer(s, userId).Some?
    requires FindProduct(s.products, productId).Some? && FindProduct(s.products, productId).value.stockQuantity >= quantity
    requires ItemIndexOfPair(s, CartWithItemsByCustomer(s, userId).value.cart.id, productId).Some?
    ensures var k := ItemIndexOfPair(s, CartWithItemsByCustomer(s, userId).value.cart.id, productId).value;
      var r := AddToCartOutcome(s, userId, productId, quantity, now);
      && r.out.isSuccess
      && |r.state.cartItems| == |s.cartItems|
      && r.state.cartItems[k].quantity == s.cartItems[k].quantity + quantity
  {
    var c := UserCustomer(s, userId).value;
    GetOrCreateExistingOrFresh(s, c.id, now);
    ExistingCartAddSaves(s, userId, productId, quantity, now);
  }

  /**
   * An item that lies in another customer's cart is refused by update,
   * remove, increase and decrease alike, and nothing changes.
   */
  lemma ForeignItemRefused(s: DbState, userId: UserId, cartItemId: int, quantity: int, now: Timestamp)
    requires UserCustomer(s, userId).Some? && CartWithItemsByCustomer(s, userId).Some?
    requires LoadedItemById(s, cartItemId).Some?
    requires LoadedItemById(s, cartItemId).value.item.cartId != CartWithItemsByCustomer(s, userId).value.cart.id
    ensures UpdateOutcome(s, userId, cartItemId, quantity, now) == Step(s, Failure(NotYourItem))
    ensures RemoveOutcome(s, userId, cartItemId, now) == Step(s, Failure(NotYourItem))
    ensures IncreaseOutcome(s, userId, cartItemId, now) == Step(s, Failure(NotYourItem))
    ensures DecreaseOutcome(s, userId, cartItemId, now) == Step(s, Failure(NotYourItem))
  {
  }

  /**
   * Update re-checks stock only for a larger quantity: it fails with the
   * stock message, changing nothing, exactly when the quantity grows beyond
   * a found product's stock; otherwise it applies the repository update.
   */
  lemma UpdateChecksStockOnlyWhenGrowing(s: DbState, userId: UserId, cartItemId: int, quantity: int, now: Timestamp)
    requires ResolveOwnedItem(s, userId, cartItemId).Owned?
    ensures var li := ResolveOwnedItem(s, userId, cartItemId).item;
      var r := UpdateOutcome(s, userId, cartItemId, quantity, now);
      && (quantity <= li.item.quantity ==> !UpdateExceedsStock(s, li.item, quantity))
      && (UpdateExceedsStock(s, li.item, quantity) ==>
            r == Step(s, Failure(StockMessage(li.product.stockQuantity))))
      && (!UpdateExceedsStock(s, li.item, quantity) ==>
            r.out.isSuccess && r.state == UpdateQuantityStep(s, cartItemId, quantity, now).state)
  {
    var li := ResolveOwnedItem(s, userId, cartItemId).item;
    assert LoadedItemById(s, cartItemId) == Some(li);
    assert FindProduct(s.products, li.item.productId) == Some(li.product);
  }

  /**
   * Increase reports the stock failure exactly when the repository refuses
   * the increment, and then changes nothing.
   */
  lemma IncreaseFailsIffRepositoryRefuses(s: DbState, userId: UserId, cartItemId: int, now: Timestamp)
    requires ResolveOwnedItem(s, userId, cartItemId).Owned?
    ensures var r := IncreaseOutcome(s, userId, cartItemId, now);
      && (r.out.isSuccess <==> IncreaseStep(s, cartItemId, now).out)
      && (!r.out.isSuccess ==> r == Step(s, Failure(CannotIncrease)))
      && (r.out.isSuccess ==> r.state == IncreaseStep(s, cartItemId, now).state)
  {
  }

  /**
   * Clearing succeeds for every known customer, with or without a cart and
   * with or without items; a second clear succeeds too, and afterwards the
   * customer's item count is zero.
   */
  lemma ClearTwiceSucceeds(s: DbState, userId: UserId, now: Timestamp, later: Timestamp)
    requires UserCustomer(s, userId).Some?
    ensures var first := ClearOutcome(s, userId, now);
      var second := ClearOutcome(first.state, userId, later);
      && first.out == Success(true) && second.out == Success(true)
      && CartItemCount(first.state, userId) == 0
      && CartItemCount(second.state, userId) == 0
  {
    var first := ClearOutcome(s, userId, now);
    var c := UserCustomer(s, userId).value;
    assert c.id == userId;
    if CartWithItemsByCustomer(s, userId).Some? {
      ClearThenCountIsZero(s, userId, now);
    }
    assert first.state.customers == s.customers;
    if CartWithItemsByCustomer(first.state, userId).Some? {
      ClearThenCountIsZero(first.state, userId, later);
    }
  }

  /**
   * With an empty user id or an unknown customer the count is a successful
   * zero and the membership test a successful false.
   */
  lemma QueriesDefaultWithoutCustomer(s: DbState, userId: UserId, productId: int)
    requires userId == "" || UserCustomer(s, userId).None?
    ensures CountResult(s, userId) == Success(0)
    ensures InCartResult(s, userId, productId) == Success(false)
  {
  }

  /** For a known customer the count is the summed quantity of the loaded cart items. */
  lemma CountIsSummedQuantity(s: DbState, userId: UserId)
    requires userId != "" && UserCustomer(s, userId).Some?
    ensures var r := CountResult(s, userId);
      && r.isSuccess
      && (CartWithItemsByCustomer(s, userId).None? ==> r.data == Some(0))
      && (CartWithItemsByCustomer(s, userId).Some? ==>
            r.data == Some(SumInt(CartWithItemsByCustomer(s, userId).value.items, LoadedQuantity)))
  {
  }

  // ---------------------------------------------------------------------------
  // A customer's first add, as written and as intended

  /**
   * As written, a customer's first add to cart always fails and saves
   * nothing: get-or-create only adds the new cart, so the item is added under
   * the unsaved key, the save then inserts the cart under a fresh key and the
   * item under a cart key no cart has, the foreign key refuses that, and the
   * caught exception becomes `AddFailed`.
   */
  lemma FirstAddAsWrittenFails(s: DbState, userId: UserId, productId: int, quantity: int, now: Timestamp)
    requires ValidState(s) && ForeignKeysHold(s)
    requires UserCustomer(s, userId).Some? && CartWithItemsByCustomer(s, userId).None?
    requires FindProduct(s.products, productId).Some?
    requires FindProduct(s.products, productId).value.stockQuantity >= quantity
    ensures AddToCartOutcome(s, userId, productId, quantity, now) == Step(s, Failure(AddFailed))
  {
    var pending := NewCart(UnsavedKey, userId, now);
    assert GetOrCreateStep(s, userId, now) == Step(s.(addedCarts := [pending]), LoadedCart(pending, []));
    UnsavedAddRefused(s, pending, productId, quantity, now);
  }

  /** The add under the unsaved key stores an item row whose cart key no stored or inserted cart has. */
  lemma UnsavedAddRefused(s: DbState, pending: Cart, productId: int, quantity: int, now: Timestamp)
    requires ValidState(s) && ForeignKeysHold(s) && pending.id == UnsavedKey
    requires FindProduct(s.products, productId).Some?
    ensures SaveChanges(AddItemStep(s.(addedCarts := [pending]), UnsavedKey, productId, quantity, now).state).None?
  {
    var p := FindProduct(s.products, productId).value;
    var got := s.(addedCarts := [pending]);
    NoItemOfUnsavedCart(s);
    assert ItemIndexOfPair(got, UnsavedKey, productId).None?;
    var added := AddItemStep(got, UnsavedKey, productId, quantity, now).state;
    assert added.cartItems == s.cartItems + [NewCartItem(s.nextId, UnsavedKey, p, quantity)];
    var saved := InsertAdded(added);
    assert saved.carts == added.carts + [pending.(id := added.nextId)];
    assert saved.cartItems[|s.cartItems|].cartId == UnsavedKey;
    assert forall j | 0 <= j < |saved.carts| :: saved.carts[j].id != UnsavedKey;
    assert !ItemHasCart(saved, |s.cartItems|);
  }

  /** In a valid store no item row belongs to a cart of key `k` when no cart has it, in particular the unsaved key. */
  lemma NoItemOfUnsavedCart(s: DbState)
    requires ValidState(s) && ForeignKeysHold(s)
    ensures forall i | 0 <= i < |s.cartItems| :: s.cartItems[i].cartId != UnsavedKey && s.cartItems[i].cartId != s.nextId
  {
    forall i | 0 <= i < |s.cartItems|
      ensures s.cartItems[i].cartId != UnsavedKey && s.cartItems[i].cartId != s.nextId
    {
      var j := CartOfItem(s, i);
    }
  }

  /** The store after a customer's first add as intended: the new cart, then its one item. */
  function FirstAddState(s: DbState, userId: UserId, p: Product, quantity: int, now: Timestamp): DbState
  {
    s.(carts := s.carts + [NewCart(s.nextId, userId, now)],
       cartItems := s.cartItems + [NewCartItem(s.nextId + 1, s.nextId, p, quantity)],
       nextId := s.nextId + 2)
  }

  /**
   * Get-or-create as evidently intended: a new cart is saved at once, so it
   * comes back under the key the save gives it.
   */
  function GetOrCreateSavedStep(s: DbState, customerId: UserId, now: Timestamp): Step<LoadedCart>
  {
    match CartWithItemsByCustomer(s, customerId)
    case Some(lc) => Step(s, lc)
    case None =>
      var c := NewCart(s.nextId, customerId, now);
      Step(s.(carts := s.carts + [c], nextId := s.nextId + 1), LoadedCart(c, []))
  }

  /** The intended get-or-create is the repository's followed by a save. */
  lemma GetOrCreateSavedIsSave(s: DbState, customerId: UserId, now: Timestamp)
    requires s.addedCarts == []
    ensures GetOrCreateSavedStep(s, customerId, now).state == InsertAdded(GetOrCreateStep(s, customerId, now).state)
  {
    if CartWithItemsByCustomer(s, customerId).None? {
      SavedNewCartIsFound(s, customerId, now);
    } else {
      assert InsertAdded(s) == s;
    }
  }

  /** `AddToCartAsync` as evidently intended: the new cart is saved before its key is used. */
  function AddToCartCorrected(s: DbState, userId: UserId, productId: int, quantity: int, now: Timestamp)
    : Step<ServiceResult<CartDto>>
  {
    match FindProduct(s.products, productId)
    case None => Step(s, Failure(ProductNotFound))
    case Some(p) =>
      if p.stockQuantity < quantity then Step(s, Failure(StockMessage(p.stockQuantity)))
      else
        match UserCustomer(s, userId)
        case None => Step(s, Failure(CustomerNotFound))
        case Some(customer) => AddAndSave(s, GetOrCreateSavedStep(s, customer.id, now), productId, quantity, now)
  }

  /** The correction changes nothing except for a customer who has no cart yet. */
  lemma AddToCartCorrectedAgrees(s: DbState, userId: UserId, productId: int, quantity: int, now: Timestamp)
    requires UserCustomer(s, userId).None? || CartWithItemsByCustomer(s, userId).Some?
    ensures AddToCartCorrected(s, userId, productId, quantity, now) == AddToCartOutcome(s, userId, productId, quantity, now)
  {
  }

  /** The intended get-or-create for a customer without a cart, then the add of a found product to that cart. */
  lemma NewCartThenAdd(s: DbState, userId: UserId, productId: int, quantity: int, now: Timestamp)
    requires ValidState(s) && ForeignKeysHold(s)
    requires CartWithItemsByCustomer(s, userId).None?
    requires FindProduct(s.products, productId).Some?
    ensures var got := GetOrCreateSavedStep(s, userId, now);
      && got.out.cart == NewCart(s.nextId, userId, now)
      && AddItemStep(got.state, got.out.cart.id, productId, quantity, now).state
         == FirstAddState(s, userId, FindProduct(s.products, productId).value, quantity, now)
  {
    var p := FindProduct(s.products, productId).value;
    var c := NewCart(s.nextId, userId, now);
    var s1 := s.(carts := s.carts + [c], nextId := s.nextId + 1);
    assert GetOrCreateSavedStep(s, userId, now) == Step(s1, LoadedCart(c, []));
    NoItemOfUnsavedCart(s);
    assert ItemIndexOfPair(s1, c.id, productId).None?;
    var t := FirstAddState(s, userId, p, quantity, now);
    assert CartIndexById(t, c.id) == Some(|s.carts|) by {
      assert forall j | 0 <= j < |s.carts| :: t.carts[j].id != c.id;
    }
    assert t.carts[|s.carts| := t.carts[|s.carts|].(modifiedAt := now)] == t.carts;
  }

  lemma FirstAddSteps(s: DbState, userId: UserId, productId: int, quantity: int, now: Timestamp)
    requires ValidState(s) && ForeignKeysHold(s)
    requires UserCustomer(s, userId).Some? && CartWithItemsByCustomer(s, userId).None?
    requires FindProduct(s.products, productId).Some?
    requires FindProduct(s.products, productId).value.stockQuantity >= quantity
    ensures var t := FirstAddState(s, userId, FindProduct(s.products, productId).value, quantity, now);
      AddToCartCorrected(s, userId, productId, quantity, now) == Step(t, Success(RefreshedDto(t, NewCart(s.nextId, userId, now))))
  {
    var p := FindProduct(s.products, productId).value;
    NewCartThenAdd(s, userId, productId, quantity, now);
    FirstAddKeepsForeignKeys(s, userId, p, quantity, now);
    SaveWithNothingAdded(FirstAddState(s, userId, p, quantity, now));
  }

  /** As intended, the new cart is found by its key afterwards and loads exactly the one new item. */
  lemma FirstAddFindsCart(s: DbState, userId: UserId, p: Product, quantity: int, now: Timestamp)
    requires ValidState(s) && ForeignKeysHold(s)
    requires FindProduct(s.products, p.id) == Some(p)
    ensures CartWithItemsById(FirstAddState(s, userId, p, quantity, now), s.nextId)
      == Some(LoadedCart(NewCart(s.nextId, userId, now), [LoadedItem(NewCartItem(s.nextId + 1, s.nextId, p, quantity), p)]))
  {
    var t := FirstAddState(s, userId, p, quantity, now);
    var c := NewCart(s.nextId, userId, now);
    var ni := NewCartItem(s.nextId + 1, s.nextId, p, quantity);
    var found := CartWithItemsById(t, c.id);
    assert t.carts[|s.carts|] == c;
    assert found.value.cart == c by {
      assert forall j | 0 <= j < |s.carts| :: t.carts[j].id != c.id;
    }
    NoItemOfUnsavedCart(s);
    assert t.cartItems == s.cartItems + [ni];
    LoadedItemsOfAppend(t.products, s.cartItems, [ni], c.id);
    LoadedItemsOfNoMatch(t.products, s.cartItems, c.id);
    assert LoadedItemsOf(t.products, [ni], c.id) == [LoadedItem(ni, p)];
    assert found.value == LoadedCart(c, [LoadedItem(ni, p)]);
  }

  lemma FirstAddReload(s: DbState, userId: UserId, p: Product, quantity: int, now: Timestamp)
    requires ValidState(s) && ForeignKeysHold(s)
    requires FindProduct(s.products, p.id) == Some(p)
    ensures RefreshedDto(FirstAddState(s, userId, p, quantity, now), NewCart(s.nextId, userId, now)).items
      == [CartItemDto(s.nextId + 1, p.id, p.name, p.mainImageUrl, quantity, EffectivePrice(p))]
  {
    FirstAddFindsCart(s, userId, p, quantity, now);
    var lc := LoadedCart(NewCart(s.nextId, userId, now), [LoadedItem(NewCartItem(s.nextId + 1, s.nextId, p, quantity), p)]);
    LoadedCartDtoTotals(lc);
  }

  /** The first add as intended issues its two keys from the counter. */
  lemma FirstAddKeepsStoreValid(s: DbState, userId: UserId, p: Product, quantity: int, now: Timestamp)
    requires ValidState(s)
    ensures ValidState(FirstAddState(s, userId, p, quantity, now))
  {
  }

  /** The first add as intended ties its item row to the cart it stores. */
  lemma FirstAddKeepsForeignKeys(s: DbState, userId: UserId, p: Product, quantity: int, now: Timestamp)
    requires ForeignKeysHold(s)
    ensures ForeignKeysHold(FirstAddState(s, userId, p, quantity, now))
  {
    var t := FirstAddState(s, userId, p, quantity, now);
    forall i | 0 <= i < |t.cartItems|
      ensures ItemHasCart(t, i)
    {
      if i < |s.cartItems| {
        var j := CartOfItem(s, i);
        assert t.carts[j].id == t.cartItems[i].cartId;
      } else {
        assert t.carts[|s.carts|].id == t.cartItems[i].cartId;
      }
    }
  }

  /**
   * As intended, with the new cart keyed before its item is added: a
   * customer's first add succeeds, stores the new cart and one item row under
   * that cart's key at the product's effective price, and returns the cart
   * with exactly that item.
   */
  lemma FirstAddStoresItem(s: DbState, userId: UserId, productId: int, quantity: int, now: Timestamp)
    requires ValidState(s) && ForeignKeysHold(s)
    requires UserCustomer(s, userId).Some? && CartWithItemsByCustomer(s, userId).None?
    requires FindProduct(s.products, productId).Some?
    requires FindProduct(s.products, productId).value.stockQuantity >= quantity
    ensures var p := FindProduct(s.products, productId).value;
      var t := FirstAddState(s, userId, p, quantity, now);
      var dto := RefreshedDto(t, NewCart(s.nextId, userId, now));
      && AddToCartCorrected(s, userId, productId, quantity, now) == Step(t, Success(dto))
      && dto.items == [CartItemDto(s.nextId + 1, productId, p.name, p.mainImageUrl, quantity, EffectivePrice(p))]
  {
    var p := FindProduct(s.products, productId).value;
    FirstAddSteps(s, userId, productId, quantity, now);
    FirstAddReload(s, userId, p, quantity, now);
  }
}
