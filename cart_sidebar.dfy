/**
 * The checkout panel of src/components/pos/CartSidebar.tsx: the discount
 * dialog (a percent accepted only within [0, 100]), the checkout button
 * (blocked on an empty cart), the payment dialog (cash below the total is
 * refused; change is given for cash only; the cart is cleared only when a
 * payment goes through) and the per-line quantity stepper.
 */
module CartSidebar {
  import opened CartContext

  datatype PaymentMethod = Cash | Transfer | Pos

  /** The method's name as the code spells it ('cash', 'transfer', 'pos'). */
  function MethodName(m: PaymentMethod): string
  {
    match m
    case Cash => "cash"
    case Transfer => "transfer"
    case Pos => "pos"
  }

  /**
   * The contents of a numeric text field as `parseFloat` reads it: empty,
   * a number, or text that does not start with a number.
   */
  datatype Entry = Blank | Number(value: real) | Garbage

  /** `parseFloat(text) || 0`: the number entered, or 0 when there is none. */
  function ParseOrZero(e: Entry): real
  {
    if e.Number? then e.value else 0.0
  }

  /** What a press of "Complete Payment" reports: a refusal, or the completed sale's receipt, method and change. */
  datatype PaymentOutcome = Insufficient | Completed(receiptNo: string, via: PaymentMethod, change: real)

  /** `handleApplyDiscount`: the discount percent after applying the entered text. */
  function AppliedDiscount(current: real, entry: Entry): (r: real)
    ensures 0.0 <= current <= 100.0 ==> 0.0 <= r <= 100.0
    ensures r == current || r == ParseOrZero(entry)
  {
    var disc := ParseOrZero(entry);
    if 0.0 <= disc <= 100.0 then disc else current
  }

  /** `handlePayment`'s decision: refuse cash below the total, otherwise complete with the change due. */
  function Settle(via: PaymentMethod, received: real, total: real, receiptNo: string): (r: PaymentOutcome)
    ensures r.Insufficient? <==> via == Cash && received < total
    ensures r.Completed? ==> r.receiptNo == receiptNo && r.via == via && r.change >= 0.0
  {
    if via == Cash && received < total then Insufficient
    else Completed(receiptNo, via, if via == Cash then received - total else 0.0)
  }

  /** The decrement button: disabled at quantity one or less, otherwise one less for that line's id. */
  function SteppedDown(items: seq<LineItem>, k: nat): (r: seq<LineItem>)
    requires k < |items|
    ensures PositiveQuantities(items) ==> PositiveQuantities(r)
  {
    if items[k].quantity <= 1 then items
    else
      UpdatedKeepsInvariants(items, items[k].id, items[k].quantity - 1);
      WithQuantity(items, items[k].id, items[k].quantity - 1)
  }

  /** The increment button: one more for that line's id. */
  function SteppedUp(items: seq<LineItem>, k: nat): (r: seq<LineItem>)
    requires k < |items|
    ensures PositiveQuantities(items) ==> PositiveQuantities(r)
  {
    if items[k].quantity + 1 < 1 then items
    else
      UpdatedKeepsInvariants(items, items[k].id, items[k].quantity + 1);
      WithQuantity(items, items[k].id, items[k].quantity + 1)
  }

  /** The sidebar's own state, over the shared cart. */
  class Panel {
    const cart: CartStore
    var showPayment: bool
    var paymentMethod: PaymentMethod
    var amountReceived: Entry
    var showDiscount: bool
    var tempDiscount: Entry

    /** Dialogs closed, cash selected, no amount entered, the discount field showing the current percent. */
    constructor (cart: CartStore)
      ensures this.cart == cart
      ensures !showPayment && paymentMethod == Cash && amountReceived == Blank
      ensures !showDiscount && tempDiscount == Number(cart.discountPercent)
    {
      this.cart := cart;
      showPayment := false;
      paymentMethod := Cash;
      amountReceived := Blank;
      showDiscount := false;
      tempDiscount := Number(cart.discountPercent);
    }

    /** The discount button, or the discount dialog being dismissed. */
    method ShowDiscountDialog(open: bool)
      modifies this`showDiscount
      ensures showDiscount == open
    {
      showDiscount := open;
    }

    /** The payment dialog being dismissed (opening it goes through `Checkout`). */
    method ClosePayment()
      modifies this`showPayment
      ensures !showPayment
    {
      showPayment := false;
    }

    /** Typing in the discount field, or pressing one of the 5/10/15/20 presets. */
    method EnterDiscount(e: Entry)
      modifies this`tempDiscount
      ensures tempDiscount == e
    {
      tempDiscount := e;
    }

    /** Choosing cash, transfer or POS in the payment dialog. */
    method ChooseMethod(m: PaymentMethod)
      modifies this`paymentMethod
      ensures paymentMethod == m
    {
      paymentMethod := m;
    }

    /** Typing in the amount-received field. */
    method EnterAmount(e: Entry)
      modifies this`amountReceived
      ensures amountReceived == e
    {
      amountReceived := e;
    }

    /** `handleApplyDiscount`: a percent within [0, 100] is applied and closes the dialog; any other is ignored. */
    method ApplyDiscount() returns (applied: bool)
      modifies cart`discountPercent, this`showDiscount
      ensures applied <==> 0.0 <= ParseOrZero(tempDiscount) <= 100.0
      ensures cart.discountPercent == AppliedDiscount(old(cart.discountPercent), tempDiscount)
      ensures showDiscount == (if applied then false else old(showDiscount))
    {
      var disc := ParseOrZero(tempDiscount);
      if 0.0 <= disc && disc <= 100.0 {
        cart.SetDiscountPercent(disc);
        showDiscount := false;
        return true;
      }
      return false;
    }

    /** `handleCheckout`: an empty cart does not open the payment step. */
    method Checkout() returns (started: bool)
      modifies this`showPayment
      ensures started <==> cart.items != []
      ensures showPayment == (if started then true else old(showPayment))
    {
      if |cart.items| == 0 {
        return false;
      }
      showPayment := true;
      return true;
    }

    /**
     * `handlePayment` with `receiptNo` for the clock-derived receipt number:
     * a refused payment changes nothing; a completed one clears the cart,
     * closes the dialog and empties the amount field.
     */
    method Pay(receiptNo: string) returns (outcome: PaymentOutcome)
      requires cart.Valid()
      modifies this, cart
      ensures outcome == Settle(old(paymentMethod), ParseOrZero(old(amountReceived)), old(cart.Prices().total), receiptNo)
      ensures outcome.Insufficient? ==> unchanged(this) && unchanged(cart)
      ensures outcome.Completed? ==>
                && cart.items == [] && cart.discountPercent == 0.0 && cart.taxRate == old(cart.taxRate)
                && !showPayment && amountReceived == Blank
                && paymentMethod == old(paymentMethod) && showDiscount == old(showDiscount)
                && tempDiscount == old(tempDiscount)
      ensures cart.Valid()
    {
      var received := ParseOrZero(amountReceived);
      var total := cart.Prices().total;
      if paymentMethod == Cash && received < total {
        return Insufficient;
      }
      var change := if paymentMethod == Cash then received - total else 0.0;
      outcome := Completed(receiptNo, paymentMethod, change);
      cart.ClearCart();
      showPayment := false;
      amountReceived := Blank;
    }

    /** The minus button of line `k`. */
    method StepDown(k: nat)
      requires cart.Valid() && k < |cart.items|
      modifies cart`items
      ensures cart.Valid()
      ensures cart.items == SteppedDown(old(cart.items), k)
    {
      var line := cart.items[k];
      if line.quantity <= 1 {
        return;
      }
      cart.UpdateQuantity(line.id, line.quantity - 1);
    }

    /** The plus button of line `k`. */
    method StepUp(k: nat)
      requires cart.Valid() && k < |cart.items|
      modifies cart`items
      ensures cart.Valid()
      ensures cart.items == SteppedUp(old(cart.items), k)
    {
      var line := cart.items[k];
      cart.UpdateQuantity(line.id, line.quantity + 1);
    }
  }

  /** A percent outside [0, 100] leaves the discount as it was. */
  lemma DiscountOutOfRange(current: real, entry: Entry)
    requires ParseOrZero(entry) < 0.0 || ParseOrZero(entry) > 100.0
    ensures AppliedDiscount(current, entry) == current
  {
  }

  /** A percent within [0, 100] becomes the discount; text that is not a number counts as 0. */
  lemma DiscountInRange(current: real, entry: Entry)
    ensures 0.0 <= ParseOrZero(entry) <= 100.0 ==> AppliedDiscount(current, entry) == ParseOrZero(entry)
    ensures !entry.Number? ==> AppliedDiscount(current, entry) == 0.0
  {
  }

  /** Cash at least the total is accepted with change received − total; exactly the total gives no change. */
  lemma CashChange(received: real, total: real, receiptNo: string)
    ensures Settle(Cash, received, total, receiptNo).Insufficient? <==> received < total
    ensures received >= total ==> Settle(Cash, received, total, receiptNo).change == received - total
    ensures received == total ==> Settle(Cash, received, total, receiptNo).change == 0.0
  {
  }

  /** Transfer and POS payments always go through with no change, whatever amount was typed. */
  lemma NonCashSettles(via: PaymentMethod, received: real, total: real, receiptNo: string)
    requires via != Cash
    ensures Settle(via, received, total, receiptNo) == Completed(receiptNo, via, 0.0)
  {
  }

  /** The worked example: a total of 29025 paid with 30000 in cash gives 975 change. */
  lemma CashExample(receiptNo: string)
    ensures Settle(Cash, 30000.0, 29025.0, receiptNo) == Completed(receiptNo, Cash, 975.0)
  {
  }

  /** The stepper: minus never goes below one and takes exactly one off above it; plus adds exactly one. */
  lemma {:induction false} StepperEffect(items: seq<LineItem>, k: nat)
    requires k < |items|
    ensures items[k].quantity <= 1 ==> SteppedDown(items, k) == items
    ensures items[k].quantity > 1 ==> SteppedDown(items, k)[k].quantity == items[k].quantity - 1
    ensures items[k].quantity >= 0 ==> SteppedUp(items, k)[k].quantity == items[k].quantity + 1
    ensures |SteppedDown(items, k)| == |items| == |SteppedUp(items, k)|
  {
  }
}
