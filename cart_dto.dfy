/**
 * The cart as the API returns it, with its two computed totals.
 */
module CartDtos {
  import opened Entities
  import opened Linq

  datatype CartItemDto = CartItemDto(
    id: int,
    productId: int,
    productName: string,
    productImageUrl: string,
    quantity: int,
    unitPrice: real)

  datatype CartDto = CartDto(
    id: int,
    customerId: UserId,
    createdAt: Timestamp,
    modifiedAt: Timestamp,
    items: seq<CartItemDto>)

  /** The value of `default(DateTime)`. */
  const DefaultTimestamp: Timestamp := 0

  /** `new CartItemDto()`. */
  function EmptyCartItemDto(): CartItemDto
  {
    CartItemDto(0, 0, "", "", 0, 0.0)
  }

  /** `new CartDto()`. */
  function EmptyCartDto(): CartDto
  {
    CartDto(0, "", DefaultTimestamp, DefaultTimestamp, [])
  }

  /** `CartItemDto.TotalPrice`: unit price times quantity. */
  function ItemTotalPrice(i: CartItemDto): (r: real)
    ensures i.quantity >= 0 && i.unitPrice >= 0.0 ==> r >= 0.0
    ensures i.quantity == 0 ==> r == 0.0
  {
    i.unitPrice * i.quantity as real
  }

  function DtoQuantity(i: CartItemDto): int
  {
    i.quantity
  }

  /** `CartDto.TotalPrice`: the line totals summed. */
  function TotalPrice(d: CartDto): (r: real)
    ensures d.items == [] ==> r == 0.0
    ensures NonNegativeItems(d.items) ==> r >= 0.0
  {
    TotalsNonNegative(d.items);
    SumReal(d.items, ItemTotalPrice)
  }

  /** `CartDto.TotalItems`: the quantities summed. */
  function TotalItems(d: CartDto): (r: int)
    ensures d.items == [] ==> r == 0
    ensures NonNegativeItems(d.items) ==> r >= 0
  {
    TotalsNonNegative(d.items);
    SumInt(d.items, DtoQuantity)
  }

  /** One more item adds its quantity to `TotalItems` and its line total to `TotalPrice`. */
  lemma AppendItemTotals(d: CartDto, x: CartItemDto)
    ensures TotalItems(d.(items := d.items + [x])) == TotalItems(d) + x.quantity
    ensures TotalPrice(d.(items := d.items + [x])) == TotalPrice(d) + x.unitPrice * x.quantity as real
  {
    SumIntAppend(d.items, [x], DtoQuantity);
    SumRealAppend(d.items, [x], ItemTotalPrice);
  }

  /** Totals of two item lists put together are the sums of their totals. */
  lemma ConcatTotals(d: CartDto, more: seq<CartItemDto>)
    ensures TotalItems(d.(items := d.items + more)) == TotalItems(d) + TotalItems(d.(items := more))
    ensures TotalPrice(d.(items := d.items + more)) == TotalPrice(d) + TotalPrice(d.(items := more))
  {
    SumIntAppend(d.items, more, DtoQuantity);
    SumRealAppend(d.items, more, ItemTotalPrice);
  }

  /** No item has a negative quantity or price. */
  predicate NonNegativeItems(items: seq<CartItemDto>)
  {
    forall i | 0 <= i < |items| :: items[i].quantity >= 0 && items[i].unitPrice >= 0.0
  }

  /** With no negative quantities or prices, neither sum is negative. */
  lemma {:induction false} TotalsNonNegative(items: seq<CartItemDto>)
    ensures NonNegativeItems(items) ==> SumInt(items, DtoQuantity) >= 0
    ensures NonNegativeItems(items) ==> SumReal(items, ItemTotalPrice) >= 0.0
  {
    if items != [] && NonNegativeItems(items) {
      var n := |items| - 1;
      assert forall i | 0 <= i < n :: items[..n][i] == items[i];
      TotalsNonNegative(items[..n]);
    }
  }
}
