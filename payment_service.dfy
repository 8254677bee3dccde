/**
 * The payment service: opening a payment intent for the customer's cart and,
 * once the processor reports the intent as paid, turning the cart into an
 * order. The payment processor is outside the model: its replies are
 * parameters (`createIntent` answers an intent request for an amount in
 * cents; `lookup` is what it reports for the intent being confirmed).
 */
module PaymentServices {
  import opened Options
  import opened Entities
  import opened Linq
  import opened ServiceResults
  import opened Data
  import opened CartRepository
  import opened CartDtos
  import opened CartMapper

  const CartNotFound := "Cart not found"
  const CartEmpty := "Cart is empty"
  const CreateErrorPrefix := "Error creating payment intent: "
  const PaymentNotFound := "Payment not found"
  const PaymentNotSuccessful := "Payment not successful"
  const CartMissingOrEmpty := "Cart not found or empty"
  const ConfirmErrorPrefix := "Error confirming payment: "

  /** The runtime's message when a decimal does not fit in a `long`. */
  const OverflowMessage := "Value was either too large or too small for an Int64."
  /** The message of the exception a failed save raises (here: a second payment with the same intent id). */
  const SaveFailedMessage := "An error occurred while saving the entity changes. See the inner exception for details."

  const PendingStatus := "pending"
  const SucceededStatus := "succeeded"

  const LongMin := -0x8000_0000_0000_0000
  const LongMax := 0x7FFF_FFFF_FFFF_FFFF

  /** The processor's answer to an intent request. */
  datatype IntentCreation = Created(intentId: string, clientSecret: string) | CreateError(message: string)

  /** The processor's answer when asked for an intent's status. */
  datatype IntentLookup = Retrieved(status: string) | LookupError(message: string)

  datatype PaymentIntentResponseDto = PaymentIntentResponseDto(clientSecret: string, amount: real)

  // ---------------------------------------------------------------------------
  // Amounts in cents

  /** A decimal-to-integer cast: the fraction is dropped, rounding toward zero. */
  function TruncateTowardZero(x: real): (r: int)
    ensures x >= 0.0 ==> r >= 0 && r as real <= x < r as real + 1.0
    ensures x < 0.0 ==> r <= 0 && r as real - 1.0 < x <= r as real
  {
    if x >= 0.0 then x.Floor else -((-x).Floor)
  }

  /** `(long)(amount * 100)`: the truncated cents, or `None` where the cast overflows. */
  function ToCents(amount: real): (r: Option<int>)
    ensures r.Some? <==> LongMin <= TruncateTowardZero(amount * 100.0) <= LongMax
    ensures r.Some? ==> r.value == TruncateTowardZero(amount * 100.0)
  {
    var c := TruncateTowardZero(amount * 100.0);
    if LongMin <= c <= LongMax then Some(c) else None
  }

  /** An amount in whole cents converts exactly; any other non-negative one loses less than a cent. */
  lemma CentsOfAmount(amount: real, cents: int)
    requires amount >= 0.0 && LongMin <= TruncateTowardZero(amount * 100.0) <= LongMax
    ensures ToCents(amount).Some?
    ensures amount * 100.0 == cents as real ==> ToCents(amount) == Some(cents)
    ensures 0.0 <= amount - ToCents(amount).value as real / 100.0 < 0.01
  {
  }

  // ---------------------------------------------------------------------------
  // Opening an intent

  /**
   * The cart total at the prices snapshotted when the items were added: the
   * `TotalPrice` of the cart as the customer is shown it.
   */
  function CartTotal(lc: LoadedCart): (r: real)
    ensures r == TotalPrice(LoadedCartDto(lc))
  {
    LoadedCartDtoTotals(lc);
    SumReal(lc.items, LoadedLineTotal)
  }

  /** `CreatePaymentIntentAsync(dto, customerId)`. */
  function CreateIntentOutcome(s: DbState, customerId: UserId, createIntent: int -> IntentCreation, now: Timestamp)
    : Step<ServiceResult<PaymentIntentResponseDto>>
  {
    match CartWithItemsByCustomer(s, customerId)
    case None => Step(s, Failure(CartNotFound))
    case Some(lc) =>
      if lc.items == [] then Step(s, Failure(CartEmpty))
      else
        var total := CartTotal(lc);
        match ToCents(total)
        case None => Step(s, Failure(CreateErrorPrefix + OverflowMessage))
        case Some(cents) =>
          match createIntent(cents)
          case CreateError(m) => Step(s, Failure(CreateErrorPrefix + m))
          case Created(intentId, secret) =>
            if intentId in s.payments then Step(s, Failure(CreateErrorPrefix + SaveFailedMessage))
            else
              var p := Payment(s.nextId, total, intentId, PendingStatus, now);
              Step(s.(payments := s.payments[intentId := p], nextId := s.nextId + 1),
                   Success(PaymentIntentResponseDto(secret, total)))
  }

  method CreatePaymentIntent(db: AppDbContext, customerId: UserId, createIntent: int -> IntentCreation, now: Timestamp)
    returns (r: ServiceResult<PaymentIntentResponseDto>)
    modifies db
    ensures Step(db.State(), r) == CreateIntentOutcome(old(db.State()), customerId, createIntent, now)
  {
    var cart := CartWithItemsByCustomer(db.State(), customerId);
    if cart.None? {
      return Failure(CartNotFound);
    }
    if cart.value.items == [] {
      return Failure(CartEmpty);
    }
    var total := CartTotal(cart.value);
    var cents := ToCents(total);
    if cents.None? {
      return Failure(CreateErrorPrefix + OverflowMessage);
    }
    var intent := createIntent(cents.value);
    if intent.CreateError? {
      return Failure(CreateErrorPrefix + intent.message);
    }
    if intent.intentId in db.payments {
      return Failure(CreateErrorPrefix + SaveFailedMessage);
    }
    var id := db.NewId();
    db.payments := db.payments[intent.intentId := Payment(id, total, intent.intentId, PendingStatus, now)];
    r := Success(PaymentIntentResponseDto(intent.clientSecret, total));
  }

  /** No cart, or a cart with no loaded items, is refused before the processor is asked; no failure records a payment. */
  lemma CreateIntentGuards(s: DbState, customerId: UserId, createIntent: int -> IntentCreation, now: Timestamp)
    ensures var r := CreateIntentOutcome(s, customerId, createIntent, now);
      var cart := CartWithItemsByCustomer(s, customerId);
      && (cart.None? ==> r == Step(s, Failure(CartNotFound)))
      && (cart.Some? && cart.value.items == [] ==> r == Step(s, Failure(CartEmpty)))
      && (!r.out.isSuccess ==> r.state == s && |r.out.errors| == 1)
      && (r.out.isSuccess ==> cart.Some? && cart.value.items != [])
  {
  }

  /**
   * A successful request asks the processor for the cart total in truncated
   * cents and records one pending payment under the returned intent id, for
   * the same total the response reports; nothing else is changed.
   */
  lemma CreateIntentRecordsPending(s: DbState, customerId: UserId, createIntent: int -> IntentCreation, now: Timestamp)
    requires CartWithItemsByCustomer(s, customerId).Some?
    ensures var lc := CartWithItemsByCustomer(s, customerId).value;
      var r := CreateIntentOutcome(s, customerId, createIntent, now);
      var total := CartTotal(lc);
      r.out.isSuccess ==>
        && ToCents(total).Some?
        && createIntent(ToCents(total).value).Created?
        && var id := createIntent(ToCents(total).value).intentId;
        && id !in s.payments
        && r.state == s.(payments := s.payments[id := Payment(s.nextId, total, id, PendingStatus, now)], nextId := s.nextId + 1)
        && r.out.data == Some(PaymentIntentResponseDto(createIntent(ToCents(total).value).clientSecret, total))
  {
  }

  // ---------------------------------------------------------------------------
  // Confirming a payment

  /** An order line at the price snapshotted in the cart; the cart carries no size or colour. */
  function PaidLine(li: LoadedItem): (r: OrderItem)
    ensures r.productId == li.item.productId && r.productName == li.product.name && r.productSku == li.product.sku
    ensures r.unitPrice == li.item.priceAtAddition && r.quantity == li.item.quantity
    ensures r.subtotal == SnapshotLineTotal(li.item)
  {
    OrderItem(li.item.productId, li.product.name, li.item.priceAtAddition, li.item.quantity,
              li.item.quantity as real * li.item.priceAtAddition, li.product.sku, "", "")
  }

  function PaidLines(items: seq<LoadedItem>): (r: seq<OrderItem>)
    ensures |r| == |items|
    ensures forall i | 0 <= i < |items| :: r[i] == PaidLine(items[i])
  {
    if items == [] then [] else PaidLines(items[..|items| - 1]) + [PaidLine(items[|items| - 1])]
  }

  /** The order a confirmed payment pays for: processing, linked to the payment, for the amount paid. */
  function PaidOrder(id: int, customerId: UserId, payment: Payment, lc: LoadedCart, now: Timestamp): Order
  {
    Order(id, customerId, now, Processing, payment.amount, "", Some(payment.id), PaidLines(lc.items), false)
  }

  /** `ConfirmPaymentAndCreateOrderAsync(dto, customerId)`. */
  function ConfirmOutcome(s: DbState, customerId: UserId, intentId: string, lookup: IntentLookup, now: Timestamp)
    : Step<ServiceResult<int>>
  {
    if intentId !in s.payments then Step(s, Failure(PaymentNotFound))
    else
      match lookup
      case LookupError(m) => Step(s, Failure(ConfirmErrorPrefix + m))
      case Retrieved(status) =>
        if status != SucceededStatus then Step(s, Failure(PaymentNotSuccessful))
        else
          match CartWithItemsByCustomer(s, customerId)
          case None => Step(s, Failure(CartMissingOrEmpty))
          case Some(lc) =>
            if lc.items == [] then Step(s, Failure(CartMissingOrEmpty))
            else
              Step(ClearStep(PaidState(s, customerId, intentId, lc, now), lc.cart.id, now).state, Success(s.nextId))
  }

  /** The store once the payment is marked paid and the order added, before the cart is cleared. */
  function PaidState(s: DbState, customerId: UserId, intentId: string, lc: LoadedCart, now: Timestamp): DbState
    requires intentId in s.payments
  {
    var paid := s.payments[intentId].(status := SucceededStatus, paymentDate := now);
    s.(payments := s.payments[intentId := paid], nextId := s.nextId + 1,
       orders := s.orders + [PaidOrder(s.nextId, customerId, paid, lc, now)])
  }

  /** The loop over the cart's items that builds the order's lines. */
  method BuildPaidLines(items: seq<LoadedItem>) returns (lines: seq<OrderItem>)
    ensures lines == PaidLines(items)
  {
    lines := [];
    var i := 0;
    while i < |items|
      invariant 0 <= i <= |items|
      invariant lines == PaidLines(items[..i])
    {
      assert items[..i + 1][..i] == items[..i];
      lines := lines + [PaidLine(items[i])];
      i := i + 1;
    }
    assert items[..i] == items;
  }

  method ConfirmPaymentAndCreateOrder(db: AppDbContext, customerId: UserId, intentId: string, lookup: IntentLookup, now: Timestamp)
    returns (r: ServiceResult<int>)
    modifies db
    ensures Step(db.State(), r) == ConfirmOutcome(old(db.State()), customerId, intentId, lookup, now)
  {
    var start := db.State();
    if intentId !in db.payments {
      return Failure(PaymentNotFound);
    }
    if lookup.LookupError? {
      return Failure(ConfirmErrorPrefix + lookup.message);
    }
    if lookup.status != SucceededStatus {
      return Failure(PaymentNotSuccessful);
    }
    var payment := db.payments[intentId].(status := SucceededStatus, paymentDate := now);
    db.payments := db.payments[intentId := payment];
    var cart := CartWithItemsByCustomer(db.State(), customerId);
    assert cart == CartWithItemsByCustomer(start, customerId);
    if cart.None? || cart.value.items == [] {
      // returns before saving: the tracked payment change is dropped
      db.Restore(start);
      return Failure(CartMissingOrEmpty);
    }
    r := AddPaidOrder(db, start, customerId, intentId, cart.value, now);
  }

  /** The rest of a confirmation: the order is built from the cart's lines and added, and the cart cleared. */
  method AddPaidOrder(db: AppDbContext, start: DbState, customerId: UserId, intentId: string, lc: LoadedCart, now: Timestamp)
    returns (r: ServiceResult<int>)
    requires intentId in start.payments
    requires db.State() == start.(payments := start.payments[intentId := start.payments[intentId].(status := SucceededStatus, paymentDate := now)])
    modifies db
    ensures r == Success(start.nextId)
    ensures db.State() == ClearStep(PaidState(start, customerId, intentId, lc, now), lc.cart.id, now).state
  {
    var payment := db.payments[intentId];
    var lines := BuildPaidLines(lc.items);
    var id := db.NewId();
    var order := Order(id, customerId, now, Processing, payment.amount, "", Some(payment.id), lines, false);
    db.orders := db.orders + [order];
    assert db.State() == PaidState(start, customerId, intentId, lc, now);
    var _ := ClearCart(db, lc.cart.id, now);
    r := Success(id);
  }

  /** Each refusal of a confirmation, in order; a refused confirmation changes nothing and creates no order. */
  lemma ConfirmGuards(s: DbState, customerId: UserId, intentId: string, lookup: IntentLookup, now: Timestamp)
    ensures var r := ConfirmOutcome(s, customerId, intentId, lookup, now);
      var cart := CartWithItemsByCustomer(s, customerId);
      && (intentId !in s.payments ==> r == Step(s, Failure(PaymentNotFound)))
      && (intentId in s.payments && lookup.Retrieved? && lookup.status != SucceededStatus ==>
            r == Step(s, Failure(PaymentNotSuccessful)))
      && (intentId in s.payments && lookup == Retrieved(SucceededStatus) && (cart.None? || cart.value.items == []) ==>
            r == Step(s, Failure(CartMissingOrEmpty)))
      && (!r.out.isSuccess ==> r.state == s)
      && (r.out.isSuccess <==> intentId in s.payments && lookup == Retrieved(SucceededStatus) && cart.Some? && cart.value.items != [])
  {
  }

  /**
   * A confirmed payment is marked succeeded and paid for one new order:
   * processing, linked to the payment, totalling the amount paid (not
   * recomputed from the cart), one line per loaded cart item at its
   * snapshotted price.
   */
  lemma ConfirmCreatesPaidOrder(s: DbState, customerId: UserId, intentId: string, now: Timestamp)
    requires intentId in s.payments
    requires CartWithItemsByCustomer(s, customerId).Some? && CartWithItemsByCustomer(s, customerId).value.items != []
    ensures var lc := CartWithItemsByCustomer(s, customerId).value;
      var p := s.payments[intentId];
      var r := ConfirmOutcome(s, customerId, intentId, Retrieved(SucceededStatus), now);
      && r.out == Success(s.nextId)
      && r.state.payments == s.payments[intentId := p.(status := SucceededStatus, paymentDate := now)]
      && r.state.orders == s.orders + [PaidOrder(s.nextId, customerId, p, lc, now)]
      && r.state.nextId == s.nextId + 1
  {
    var lc := CartWithItemsByCustomer(s, customerId).value;
    var paid := s.payments[intentId].(status := SucceededStatus, paymentDate := now);
    var placed := PaidState(s, customerId, intentId, lc, now);
    ClearKeepsCartKeys(placed, lc.cart.id, now);
    assert PaidOrder(s.nextId, customerId, paid, lc, now) == PaidOrder(s.nextId, customerId, s.payments[intentId], lc, now);
  }

  /** The order's own fields: what a paid order records about its payment and its lines. */
  lemma PaidOrderFields(id: int, customerId: UserId, payment: Payment, lc: LoadedCart, now: Timestamp)
    ensures var o := PaidOrder(id, customerId, payment, lc, now);
      && o.status == Processing && o.paymentId == Some(payment.id) && o.totalAmount == payment.amount
      && o.customerId == customerId && o.orderDate == now && !o.isDeleted
      && |o.orderItems| == |lc.items|
      && (forall i | 0 <= i < |lc.items| ::
            && o.orderItems[i].unitPrice == lc.items[i].item.priceAtAddition
            && o.orderItems[i].quantity == lc.items[i].item.quantity
            && o.orderItems[i].subtotal == SnapshotLineTotal(lc.items[i].item))
  {
  }

  /** A confirmation empties the customer's cart and leaves every product, stock included, as it was. */
  lemma ConfirmClearsCartKeepsStock(s: DbState, customerId: UserId, intentId: string, now: Timestamp)
    requires intentId in s.payments
    requires CartWithItemsByCustomer(s, customerId).Some? && CartWithItemsByCustomer(s, customerId).value.items != []
    ensures var t := ConfirmOutcome(s, customerId, intentId, Retrieved(SucceededStatus), now).state;
      && t.products == s.products
      && CartItemCount(t, customerId) == 0
  {
    var lc := CartWithItemsByCustomer(s, customerId).value;
    var placed := PaidState(s, customerId, intentId, lc, now);
    assert CartWithItemsByCustomer(placed, customerId) == Some(lc);
    ClearThenCountIsZero(placed, customerId, now);
  }

  /** A paid order's lines add up to the cart total at the snapshotted prices. */
  lemma PaidLinesTotal(lc: LoadedCart)
    ensures SumReal(PaidLines(lc.items), Subtotal) == CartTotal(lc)
  {
    SumRealPointwise(lc.items, LoadedLineTotal, PaidLines(lc.items), Subtotal);
  }

  /** Opening an intent, whatever its outcome, leaves the customer's cart as it was. */
  lemma CreateIntentKeepsCart(s: DbState, customerId: UserId, createIntent: int -> IntentCreation, now: Timestamp)
    ensures CartWithItemsByCustomer(CreateIntentOutcome(s, customerId, createIntent, now).state, customerId)
         == CartWithItemsByCustomer(s, customerId)
  {
  }

  /**
   * Opening an intent and then confirming it with the cart unchanged gives an
   * order whose total is the sum of its lines' subtotals.
   */
  lemma IntentThenConfirmTotalsAgree(s: DbState, customerId: UserId, createIntent: int -> IntentCreation, now: Timestamp, later: Timestamp)
    requires CreateIntentOutcome(s, customerId, createIntent, now).out.isSuccess
    ensures var lc := CartWithItemsByCustomer(s, customerId).value;
      var total := CartTotal(lc);
      var intentId := createIntent(ToCents(total).value).intentId;
      var t := CreateIntentOutcome(s, customerId, createIntent, now).state;
      var c := ConfirmOutcome(t, customerId, intentId, Retrieved(SucceededStatus), later);
      && c.out.isSuccess
      && c.state.orders == t.orders + [PaidOrder(t.nextId, customerId, t.payments[intentId], lc, later)]
      && t.payments[intentId].amount == SumReal(PaidLines(lc.items), Subtotal)
  {
    var lc := CartWithItemsByCustomer(s, customerId).value;
    var total := CartTotal(lc);
    CreateIntentGuards(s, customerId, createIntent, now);
    CreateIntentRecordsPending(s, customerId, createIntent, now);
    CreateIntentKeepsCart(s, customerId, createIntent, now);
    var t := CreateIntentOutcome(s, customerId, createIntent, now).state;
    var intentId := createIntent(ToCents(total).value).intentId;
    ConfirmCreatesPaidOrder(t, customerId, intentId, later);
    PaidLinesTotal(lc);
  }
}
