/**
 * The persisted entities of the shop: products, carts, cart items, orders,
 * order items, payments, and the customer/admin profiles that identity
 * resolution returns. Every entity inherits an `IsDeleted` flag from its base
 * entity; the flag is kept where this core reads it (products, carts, orders,
 * customers, admins) and dropped where it never does (cart items, payments).
 * Money is a `real` (C# `decimal` is exact); a timestamp is an opaque integer
 * read from a clock parameter.
 */
module Entities {
  import opened Options

  type UserId = string
  type Timestamp = int

  datatype Gender = Men | Women | Unisex | Kids | Baby

  /** `OrderStatus`: the two members the core names, and every other member by its value. */
  datatype OrderStatus = Pending | Processing | Other(code: int)

  datatype Product = Product(
    id: int,
    name: string,
    description: string,
    price: real,
    discountPrice: Option<real>,
    isOnSale: bool,
    stockQuantity: int,
    sku: string,
    category: int,
    gender: Gender,
    availableSizes: string,
    availableColors: string,
    brand: string,
    mainImageUrl: string,
    additionalImageUrls: string,
    averageRating: real,
    numberOfRatings: int,
    slug: string,
    isFeatured: bool,
    isActive: bool,
    dateCreated: Timestamp,
    tags: string,
    isDeleted: bool)

  datatype Cart = Cart(
    id: int,
    customerId: UserId,
    createdAt: Timestamp,
    modifiedAt: Timestamp,
    isDeleted: bool)

  datatype CartItem = CartItem(
    id: int,
    cartId: int,
    productId: int,
    quantity: int,
    priceAtAddition: real)

  datatype OrderItem = OrderItem(
    productId: int,
    productName: string,
    unitPrice: real,
    quantity: int,
    subtotal: real,
    productSku: string,
    selectedSize: string,
    selectedColor: string)

  datatype Order = Order(
    id: int,
    customerId: UserId,
    orderDate: Timestamp,
    status: OrderStatus,
    totalAmount: real,
    orderNotes: string,
    paymentId: Option<int>,
    orderItems: seq<OrderItem>,
    isDeleted: bool)

  datatype Payment = Payment(
    id: int,
    amount: real,
    intentId: string,
    status: string,
    paymentDate: Timestamp)

  datatype AppUser = AppUser(fullName: string)

  /** A customer profile; its key is the identity user id. */
  datatype Customer = Customer(id: UserId, appUser: Option<AppUser>, isDeleted: bool)

  /** An administrator profile; its key is the identity user id. */
  datatype Admin = Admin(id: UserId, isDeleted: bool)

  /**
   * The unit price a product sells at right now: the discount price when the
   * product is on sale and has one, the list price otherwise.
   */
  function EffectivePrice(p: Product): (r: real)
    ensures p.isOnSale && p.discountPrice.Some? ==> r == p.discountPrice.value
    ensures !(p.isOnSale && p.discountPrice.Some?) ==> r == p.price
  {
    if p.isOnSale && p.discountPrice.Some? then p.discountPrice.value else p.price
  }

  /** Line total of a cart item at its snapshot price (`Quantity * PriceAtAddition`). */
  function SnapshotLineTotal(ci: CartItem): real
  {
    ci.quantity as real * ci.priceAtAddition
  }

  function ItemQuantity(ci: CartItem): int
  {
    ci.quantity
  }

  function Subtotal(oi: OrderItem): real
  {
    oi.subtotal
  }

}
