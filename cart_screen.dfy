/** screens/CartScreen.js over the flat cart: the totals, the pre-payment stock
    validation, and the checkout sequence (card gate, payment, per-line stock
    decrement, clear). Network replies are parameters: one reply per request. */
module CartScreen {
  import opened Wrappers
  import opened FlatCart
  import CartItem

  /** The fixed shipping cost added to every order. */
  const ShippingCost: real := 5.0

  /** The amount shown for one item: `precio * quantity`. */
  function ItemTotal(item: FlatItem): real {
    item.precio * item.quantity as real
  }

  /** `calculateSubtotal`: the `reduce` from 0 over the items, first item first. */
  function Subtotal(cart: seq<FlatItem>): real
    decreases |cart|
  {
    if cart == [] then 0.0 else Subtotal(cart[..|cart| - 1]) + ItemTotal(cart[|cart| - 1])
  }

  /** `calculateTotal`: subtotal plus shipping. */
  function Total(cart: seq<FlatItem>): real {
    Subtotal(cart) + ShippingCost
  }

  /** `Math.round`: to the nearest integer, halves rounded up. */
  function RoundHalfUp(x: real): (r: int)
    ensures r as real - 0.5 <= x < r as real + 0.5
  {
    (x + 0.5).Floor
  }

  /** The amount sent for payment, in cents: `Math.round(total * 100)`. */
  function AmountMinorUnits(cart: seq<FlatItem>): int {
    RoundHalfUp(Total(cart) * 100.0)
  }

  /** The subtotal of a concatenation is the sum of the subtotals. */
  lemma {:induction false} SubtotalOfConcat(a: seq<FlatItem>, b: seq<FlatItem>)
    ensures Subtotal(a + b) == Subtotal(a) + Subtotal(b)
    decreases |b|
  {
    if b == [] {
      assert a + b == a;
    } else {
      var n := |b| - 1;
      assert (a + b)[..|a + b| - 1] == a + b[..n];
      SubtotalOfConcat(a, b[..n]);
    }
  }

  /** The subtotal is the sum of the per-item totals: 0 for an empty cart, and
      appending an item adds exactly its `precio * quantity`; the total is
      always 5 more than the subtotal. */
  lemma SubtotalSumsItems(cart: seq<FlatItem>, item: FlatItem)
    ensures Subtotal([]) == 0.0 && Total([]) == ShippingCost
    ensures Subtotal(cart + [item]) == Subtotal(cart) + item.precio * item.quantity as real
    ensures Total(cart) - Subtotal(cart) == 5.0
  {
    assert (cart + [item])[..|cart|] == cart;
  }

  /** A worked cart: 2 at 10 and 1 at 5 give subtotal 25, total 30 and 3000 cents. */
  lemma WorkedExample()
    ensures Subtotal([FlatItem("a", "A", 10.0, 2), FlatItem("b", "B", 5.0, 1)]) == 25.0
    ensures Total([FlatItem("a", "A", 10.0, 2), FlatItem("b", "B", 5.0, 1)]) == 30.0
    ensures AmountMinorUnits([FlatItem("a", "A", 10.0, 2), FlatItem("b", "B", 5.0, 1)]) == 3000
  {
    var c := [FlatItem("a", "A", 10.0, 2), FlatItem("b", "B", 5.0, 1)];
    assert c[..1] == [c[0]] && c[..1][..0] == [];
  }

  /** The amount is the total in cents, within half a cent; a total that is a
      whole number of cents is sent exactly. */
  lemma AmountIsTotalInCents(cart: seq<FlatItem>, n: int)
    ensures -0.5 <= AmountMinorUnits(cart) as real - Total(cart) * 100.0 <= 0.5
    ensures Total(cart) * 100.0 == n as real ==> AmountMinorUnits(cart) == n
  {
  }

  // ---------------------------------------------------------------------------
  // Stock validation before the payment modal opens (`validateCart`).

  /** The reply to `GET /productos/<id>`: the request rejected, or a body with
      its `success` flag and the product's `existencia`. */
  datatype LookupReply = LookupThrew | Lookup(success: bool, existencia: int)

  /** The requests `validateCart` issues: one product read per item, in order. */
  function ValidationReads(cart: seq<FlatItem>): seq<Request> {
    seq(|cart|, k requires 0 <= k < |cart| => ReadProduct(cart[k].id))
  }

  /** An item is short when its reply succeeded and reports less stock than the
      item's quantity; a reply with `success` false never makes an item short. */
  predicate Short(item: FlatItem, reply: LookupReply) {
    reply.Lookup? && reply.success && reply.existencia < item.quantity
  }

  /** `validationResults.filter(result => !result.valid)`: the short items, in order. */
  function InvalidItems(cart: seq<FlatItem>, replies: seq<LookupReply>): (r: seq<FlatItem>)
    requires |replies| == |cart|
    ensures |r| == 0 <==> forall k :: 0 <= k < |cart| ==> !Short(cart[k], replies[k])
  {
    if cart == [] then []
    else (if Short(cart[0], replies[0]) then [cart[0]] else []) + InvalidItems(cart[1..], replies[1..])
  }

  /** `Promise.all` rejects when any one lookup rejects. */
  predicate AnyThrew(replies: seq<LookupReply>) {
    exists k :: 0 <= k < |replies| && replies[k].LookupThrew?
  }

  /** `validateCart`: false when a lookup rejected (the catch) or when some item
      is short; true otherwise. */
  function ValidateCart(cart: seq<FlatItem>, replies: seq<LookupReply>): (ok: bool)
    requires |replies| == |cart|
    ensures ok <==> forall k :: 0 <= k < |cart| ==> Accepted(cart[k], replies[k])
  {
    !AnyThrew(replies) && |InvalidItems(cart, replies)| == 0
  }

  /** A reply with `success` false accepts its item whatever stock it reports. */
  lemma UnsuccessfulReplyAcceptsItem(cart: seq<FlatItem>, replies: seq<LookupReply>, k: nat, e: int, e': int)
    requires |replies| == |cart| && k < |cart| && replies[k] == Lookup(false, e)
    ensures ValidateCart(cart, replies) == ValidateCart(cart, replies[k := Lookup(false, e')])
    ensures ValidateCart(cart, replies) == ValidateCart(cart, replies[k := Lookup(true, cart[k].quantity)])
  {
    var r1, r2 := replies[k := Lookup(false, e')], replies[k := Lookup(true, cart[k].quantity)];
    assert forall j :: 0 <= j < |cart| ==> (Accepted(cart[j], replies[j]) <==> Accepted(cart[j], r1[j]));
    assert forall j :: 0 <= j < |cart| ==> (Accepted(cart[j], replies[j]) <==> Accepted(cart[j], r2[j]));
  }

  /** An item passes validation: its lookup answered and it is not short. */
  predicate Accepted(item: FlatItem, reply: LookupReply) {
    reply.Lookup? && !Short(item, reply)
  }

  // ---------------------------------------------------------------------------
  // The checkout sequence (`handleCheckout`).

  /** How the payment step ended: creating the intent rejected; confirming it
      rejected; confirming it returned an `error`; or confirming returned the
      intent's status (or no intent at all). */
  datatype PaymentReply =
    | IntentRequestFailed
    | ConfirmThrew
    | ConfirmError(message: string)
    | ConfirmResolved(status: Option<string>)

  /** How one line's stock update went. `ReadFailed`: the read rejected or its
      body held no product; the line's own catch swallows that. `ReadOk`: the
      current stock was read and a write of the decremented stock was issued;
      `writeAccepted` false means that write rejected, which the line's catch
      does NOT see, because the write's promise is returned without `await`. */
  datatype StockReply = ReadFailed | ReadOk(existencia: int, writeAccepted: bool)

  /** Everything the screen asks of the outside world, in issue order. */
  datatype Request =
    | ReadProduct(id: string)
    | CreatePaymentIntent(amount: int)
    | ConfirmPayment
    | WriteStock(id: string, existencia: int)
    | Cart(request: CartRequest)
    | GoBack

  /** Which branch of `handleCheckout` ended the attempt. `ErrorCaught` is the
      outer catch ("error processing the payment"); `NotSucceeded` means no error
      and no succeeded intent, so nothing is shown. */
  datatype Outcome = CardIncomplete | ErrorCaught | PaymentError(message: string) | NotSucceeded | Succeeded

  datatype Run = Run(outcome: Outcome, requests: seq<Request>)

  /** The requests for one line: read the product, then write `existencia - quantity`. */
  function LineUpdate(item: FlatItem, reply: StockReply): seq<Request> {
    [ReadProduct(item.id)] + match reply
      case ReadFailed => []
      case ReadOk(e, _) => [WriteStock(item.id, e - item.quantity)]
  }

  /** The per-line updates of all lines, first line first. */
  function StockUpdates(cart: seq<FlatItem>, replies: seq<StockReply>): seq<Request>
    requires |replies| == |cart|
    decreases |cart|
  {
    if cart == [] then []
    else
      var n := |cart| - 1;
      StockUpdates(cart[..n], replies[..n]) + LineUpdate(cart[n], replies[n])
  }

  predicate WriteRejected(reply: StockReply) {
    reply.ReadOk? && !reply.writeAccepted
  }

  /** Whether `Promise.all` over the updates rejects: some write rejected. */
  function AnyWriteRejected(replies: seq<StockReply>): (r: bool)
    ensures r <==> exists k :: 0 <= k < |replies| && WriteRejected(replies[k])
    decreases |replies|
  {
    if replies == [] then false
    else
      var n := |replies| - 1;
      AnyWriteRejected(replies[..n]) || WriteRejected(replies[n])
  }

  /** One checkout attempt: the branch taken and the requests issued. The
      clear, and the return to the previous screen, are issued from the success
      alert. */
  function Checkout(cart: seq<FlatItem>, cardComplete: bool, payment: PaymentReply,
                    replies: seq<StockReply>): (r: Run)
    requires |replies| == |cart|
    ensures !cardComplete <==> r.outcome == CardIncomplete
    ensures !cardComplete ==> r.requests == []
    ensures cardComplete ==> |r.requests| > 0 && r.requests[0] == CreatePaymentIntent(AmountMinorUnits(cart))
  {
    if !cardComplete then Run(CardIncomplete, [])
    else
      var intent := [CreatePaymentIntent(AmountMinorUnits(cart))];
      match payment
      case IntentRequestFailed => Run(ErrorCaught, intent)
      case ConfirmThrew => Run(ErrorCaught, intent + [ConfirmPayment])
      case ConfirmError(m) => Run(PaymentError(m), intent + [ConfirmPayment])
      case ConfirmResolved(status) =>
        if status != Some("Succeeded") then Run(NotSucceeded, intent + [ConfirmPayment])
        else
          var updated := intent + [ConfirmPayment] + StockUpdates(cart, replies);
          if AnyWriteRejected(replies) then Run(ErrorCaught, updated)
          else Run(Succeeded, updated + [Cart(ClearCart), GoBack])
  }

  /** The per-line updates issue only reads and writes: no cart request. */
  lemma {:induction false} UpdatesOnlyTouchStock(cart: seq<FlatItem>, replies: seq<StockReply>)
    requires |replies| == |cart|
    ensures forall q :: q in StockUpdates(cart, replies) ==> q.ReadProduct? || q.WriteStock?
    decreases |cart|
  {
    if cart != [] {
      var n := |cart| - 1;
      UpdatesOnlyTouchStock(cart[..n], replies[..n]);
    }
  }

  /** The cart is cleared only on the succeeded-payment branch, and there exactly
      when no stock write rejected: a failed read is swallowed, a rejected write
      is not. On every other branch neither the cart nor any stock is written. */
  lemma ClearOnlyAfterSucceededPayment(cart: seq<FlatItem>, cardComplete: bool, payment: PaymentReply,
                                       replies: seq<StockReply>)
    requires |replies| == |cart|
    ensures Cart(ClearCart) in Checkout(cart, cardComplete, payment, replies).requests
            <==> Checkout(cart, cardComplete, payment, replies).outcome == Succeeded
    ensures Checkout(cart, cardComplete, payment, replies).outcome == Succeeded
            <==> cardComplete && payment == ConfirmResolved(Some("Succeeded")) && !AnyWriteRejected(replies)
    ensures (exists q :: q in Checkout(cart, cardComplete, payment, replies).requests && q.WriteStock?)
            ==> cardComplete && payment == ConfirmResolved(Some("Succeeded"))
  {
    UpdatesOnlyTouchStock(cart, replies);
  }

  /** Line `k`'s read succeeded and its write is `WriteStock(id, v)`. */
  predicate DecrementOf(cart: seq<FlatItem>, replies: seq<StockReply>, k: int, id: string, v: int)
    requires |replies| == |cart|
  {
    0 <= k < |cart| && replies[k].ReadOk? && cart[k].id == id
    && v == replies[k].existencia - cart[k].quantity
  }

  /** The stock writes are exactly one per line whose read succeeded, each
      carrying the stock read minus that line's quantity. */
  lemma {:induction false} WritesAreDecrements(cart: seq<FlatItem>, replies: seq<StockReply>, id: string, v: int)
    requires |replies| == |cart|
    ensures WriteStock(id, v) in StockUpdates(cart, replies)
            <==> exists k :: DecrementOf(cart, replies, k, id, v)
    decreases |cart|
  {
    if cart != [] {
      var n := |cart| - 1;
      var front, last := StockUpdates(cart[..n], replies[..n]), LineUpdate(cart[n], replies[n]);
      assert StockUpdates(cart, replies) == front + last;
      WritesAreDecrements(cart[..n], replies[..n], id, v);
      assert WriteStock(id, v) in last <==> DecrementOf(cart, replies, n, id, v);
      if WriteStock(id, v) in front {
        var k :| DecrementOf(cart[..n], replies[..n], k, id, v);
        assert DecrementOf(cart, replies, k, id, v);
      }
      if k :| DecrementOf(cart, replies, k, id, v) {
        if k < n {
          assert DecrementOf(cart[..n], replies[..n], k, id, v);
        }
      }
    }
  }

  // ---------------------------------------------------------------------------
  // The cart rows' own controls.

  /** The row's minus button: `updateQuantity(id, quantity - 1)`, with no guard. */
  function MinusPressed(item: FlatItem): CartRequest {
    UpdateQuantity(item.id, item.quantity - 1)
  }

  /** The row's plus button: `updateQuantity(id, quantity + 1)`. */
  function PlusPressed(item: FlatItem): CartRequest {
    UpdateQuantity(item.id, item.quantity + 1)
  }

  /** Unlike the stepper component, this screen's minus button is never
      disabled: from quantity 1 it asks the provider for quantity 0, a request
      the stepper component cannot make. */
  lemma MinusFromOneRequestsZero(item: FlatItem)
    requires item.quantity == 1
    ensures MinusPressed(item) == UpdateQuantity(item.id, 0)
    ensures CartItem.MinusRequest(item.quantity) == None
    ensures PlusPressed(item) == UpdateQuantity(item.id, 2)
  {
  }

  /** The screen's state: the cart snapshot it reads from the provider, the
      payment modal, the card field's completeness, the processing flag, and the
      requests issued so far. */
  class Screen {
    const cart: seq<FlatItem>
    var modalVisible: bool
    var cardComplete: bool
    var isProcessing: bool
    var requests: seq<Request>

    constructor (cart: seq<FlatItem>)
      ensures this.cart == cart && requests == []
      ensures !modalVisible && !cardComplete && !isProcessing
    {
      this.cart := cart;
      modalVisible, cardComplete, isProcessing := false, false, false;
      requests := [];
    }

    /** `onCardChange`: the card field reports whether the card data is complete. */
    method OnCardChange(complete: bool)
      modifies this
      ensures cardComplete == complete
      ensures modalVisible == old(modalVisible) && isProcessing == old(isProcessing) && requests == old(requests)
    {
      cardComplete := complete;
    }

    /** `openPaymentModal`: validate the cart, and open the modal only when
      validation passed. */
    method OpenPaymentModal(replies: seq<LookupReply>)
      requires |replies| == |cart|
      modifies this
      ensures requests == old(requests) + ValidationReads(cart)
      ensures modalVisible == (old(modalVisible) || ValidateCart(cart, replies))
      ensures cardComplete == old(cardComplete) && isProcessing == old(isProcessing)
    {
      requests := requests + ValidationReads(cart);
      if ValidateCart(cart, replies) {
        modalVisible := true;
      }
    }

    /** The stock updates after a succeeded payment, one line after the other:
        read the product, write its stock minus the line's quantity. Reports
        whether some write rejected. */
    method UpdateStock(replies: seq<StockReply>) returns (rejected: bool)
      requires |replies| == |cart|
      modifies this
      ensures requests == old(requests) + StockUpdates(cart, replies)
      ensures rejected == AnyWriteRejected(replies)
      ensures cardComplete == old(cardComplete) && modalVisible == old(modalVisible)
      ensures isProcessing == old(isProcessing)
    {
      rejected := false;
      var i := 0;
      while i < |cart|
        invariant 0 <= i <= |cart|
        invariant requests == old(requests) + StockUpdates(cart[..i], replies[..i])
        invariant rejected == AnyWriteRejected(replies[..i])
        invariant cardComplete == old(cardComplete) && modalVisible == old(modalVisible)
        invariant isProcessing == old(isProcessing)
      {
        assert cart[..i + 1][..i] == cart[..i] && replies[..i + 1][..i] == replies[..i];
        requests := requests + [ReadProduct(cart[i].id)];
        match replies[i] {
          case ReadFailed =>
          case ReadOk(e, accepted) =>
            requests := requests + [WriteStock(cart[i].id, e - cart[i].quantity)];
            if !accepted {
              rejected := true;
            }
        }
        i := i + 1;
      }
      assert cart[..|cart|] == cart && replies[..|cart|] == replies;
    }

    /** `handleCheckout`. */
    method HandleCheckout(payment: PaymentReply, replies: seq<StockReply>) returns (outcome: Outcome)
      requires |replies| == |cart|
      modifies this
      ensures outcome == Checkout(cart, old(cardComplete), payment, replies).outcome
      ensures requests == old(requests) + Checkout(cart, old(cardComplete), payment, replies).requests
      ensures isProcessing == (outcome == CardIncomplete && old(isProcessing))
      ensures modalVisible == (outcome != Succeeded && old(modalVisible))
      ensures cardComplete == old(cardComplete)
    {
      if !cardComplete {
        outcome := CardIncomplete;
        return;
      }
      isProcessing := true;
      var amount := RoundHalfUp(Total(cart) * 100.0);
      requests := requests + [CreatePaymentIntent(amount)];
      match payment {
        case IntentRequestFailed =>
          outcome := ErrorCaught;
        case ConfirmThrew =>
          requests := requests + [ConfirmPayment];
          outcome := ErrorCaught;
        case ConfirmError(m) =>
          requests := requests + [ConfirmPayment];
          outcome := PaymentError(m);
        case ConfirmResolved(status) =>
          requests := requests + [ConfirmPayment];
          if status != Some("Succeeded") {
            outcome := NotSucceeded;
          } else {
            var rejected := UpdateStock(replies);
            if rejected {
              outcome := ErrorCaught;
            } else {
              requests := requests + [Cart(ClearCart), GoBack];
              modalVisible := false;
              outcome := Succeeded;
            }
          }
      }
      isProcessing := false;
    }
  }
}
