/**
 * `CartMapper`: a cart entity graph, in which the cart, its item collection,
 * each item and each item's product may be null, mapped to its DTO.
 */
module CartMapper {
  import opened Options
  import opened Entities
  import opened Linq
  import opened Data
  import opened CartDtos

  /** A cart item with its (possibly unloaded) product navigation. */
  datatype ItemGraph = ItemGraph(item: CartItem, product: Option<Product>)

  /** A cart with its (possibly unloaded) item collection. */
  datatype CartGraph = CartGraph(cart: Cart, items: Option<seq<Option<ItemGraph>>>)

  function ProductNameOf(product: Option<Product>): string
  {
    if product.Some? then product.value.name else ""
  }

  function ProductImageOf(product: Option<Product>): string
  {
    if product.Some? then product.value.mainImageUrl else ""
  }

  /** `ToCartItemDto`. */
  function ToCartItemDto(n: Option<ItemGraph>): (r: CartItemDto)
    ensures n.None? ==> r == EmptyCartItemDto()
    ensures n.Some? ==> (&& r.id == n.value.item.id
                         && r.productId == n.value.item.productId
                         && r.quantity == n.value.item.quantity
                         && r.unitPrice == n.value.item.priceAtAddition)
    ensures n.Some? && n.value.product.None? ==> r.productName == "" && r.productImageUrl == ""
    ensures n.Some? && n.value.product.Some? ==>
      r.productName == n.value.product.value.name && r.productImageUrl == n.value.product.value.mainImageUrl
  {
    match n
    case None => EmptyCartItemDto()
    case Some(g) =>
      CartItemDto(g.item.id, g.item.productId, ProductNameOf(g.product), ProductImageOf(g.product),
                  g.item.quantity, g.item.priceAtAddition)
  }

  /** `ToCartDto`: one item DTO per item, in order; no collection gives no items. */
  function ToCartDto(c: Option<CartGraph>): (r: CartDto)
    ensures c.None? ==> r == EmptyCartDto()
    ensures c.Some? ==> (&& r.id == c.value.cart.id
                         && r.customerId == c.value.cart.customerId
                         && r.createdAt == c.value.cart.createdAt
                         && r.modifiedAt == c.value.cart.modifiedAt)
    ensures c.Some? && c.value.items.None? ==> r.items == []
    ensures c.Some? && c.value.items.Some? ==>
      |r.items| == |c.value.items.value|
      && forall i | 0 <= i < |r.items| :: r.items[i] == ToCartItemDto(c.value.items.value[i])
  {
    match c
    case None => EmptyCartDto()
    case Some(g) =>
      CartDto(g.cart.id, g.cart.customerId, g.cart.createdAt, g.cart.modifiedAt,
              if g.items.Some? then Select(g.items.value, ToCartItemDto) else [])
  }

  function ItemGraphOf(li: LoadedItem): Option<ItemGraph>
  {
    Some(ItemGraph(li.item, Some(li.product)))
  }

  /** The graph a cart loaded with its items and their products forms. */
  function GraphOf(lc: LoadedCart): CartGraph
  {
    CartGraph(lc.cart, Some(Select(lc.items, ItemGraphOf)))
  }

  /** The DTO of a loaded cart. */
  function LoadedCartDto(lc: LoadedCart): CartDto
  {
    ToCartDto(Some(GraphOf(lc)))
  }

  /**
   * The DTO of a loaded cart lists its items in order, each at its snapshot
   * price and with its product's name and image; so its totals are the summed
   * quantities and the summed snapshot line totals of the cart.
   */
  lemma LoadedCartDtoTotals(lc: LoadedCart)
    ensures var d := LoadedCartDto(lc);
      && d.id == lc.cart.id && d.customerId == lc.cart.customerId
      && |d.items| == |lc.items|
      && (forall i | 0 <= i < |d.items| ::
            d.items[i] == CartItemDto(lc.items[i].item.id, lc.items[i].item.productId, lc.items[i].product.name,
                                      lc.items[i].product.mainImageUrl, lc.items[i].item.quantity,
                                      lc.items[i].item.priceAtAddition))
      && TotalItems(d) == SumInt(lc.items, LoadedQuantity)
      && TotalPrice(d) == SumReal(lc.items, LoadedLineTotal)
  {
    var d := LoadedCartDto(lc);
    SumIntPointwise(d.items, DtoQuantity, lc.items, LoadedQuantity);
    forall i | 0 <= i < |d.items|
      ensures ItemTotalPrice(d.items[i]) == LoadedLineTotal(lc.items[i])
    {
      assert lc.items[i].item.priceAtAddition * lc.items[i].item.quantity as real
        == lc.items[i].item.quantity as real * lc.items[i].item.priceAtAddition;
    }
    SumRealPointwise(d.items, ItemTotalPrice, lc.items, LoadedLineTotal);
  }

  /** A cart whose items were not loaded, or with no items, maps to a DTO totalling nothing. */
  lemma UnloadedItemsTotalNothing(c: CartGraph)
    requires c.items.None? || c.items == Some([])
    ensures TotalItems(ToCartDto(Some(c))) == 0 && TotalPrice(ToCartDto(Some(c))) == 0.0
  {
  }
}
