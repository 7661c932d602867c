/** The cart page (apps/web/src/pages/Cart.tsx): order totals, the CVV check,
    the quantity buttons, and the checkout flow over the page's state. */
module CartPage {
  import opened Wrappers
  import opened Catalog
  import AuthContext

  /** A cart line (apps/web/src/types/index.ts): a product and its quantity. */
  datatype CartItem = CartItem(id: int, name: string, price: Money, image: string, quantity: int)

  /** The actions the page dispatches to the cart context, whose reducer is
      not part of this model: REMOVE_ITEM, UPDATE_QUANTITY and CLEAR_CART. */
  datatype CartAction = Remove(id: int) | SetQuantity(id: int, quantity: int) | Clear

  /** The action a quantity button dispatches for the requested quantity. */
  function QuantityAction(id: int, quantity: int): (a: CartAction)
    ensures a.Remove? <==> quantity < 1
    ensures a.Remove? ==> a.id == id
    ensures a.SetQuantity? ==> a.id == id && a.quantity == quantity && a.quantity >= 1
    ensures !a.Clear?
  {
    if quantity < 1 then Remove(id) else SetQuantity(id, quantity)
  }

  /** Asking for a quantity below one dispatches a removal of the line; any other
      quantity is set as asked, so no dispatched update ever sets a quantity below one. */
  lemma QuantityRedirect(id: int, quantity: int)
    ensures quantity < 1 <==> QuantityAction(id, quantity) == Remove(id)
    ensures quantity >= 1 <==> QuantityAction(id, quantity) == SetQuantity(id, quantity)
    ensures QuantityAction(id, quantity).SetQuantity? ==> QuantityAction(id, quantity).quantity >= 1
  {
  }

  /** The minus button on a line holding one unit dispatches a removal of that line. */
  lemma DecrementLastUnitRemoves(item: CartItem)
    requires item.quantity == 1
    ensures QuantityAction(item.id, item.quantity - 1) == Remove(item.id)
  {
  }

  /** Price times quantity of one line. */
  function LineTotal(item: CartItem): Money {
    item.price * item.quantity as real
  }

  /** The `reduce` over the cart: the sum of every line's price times quantity. */
  function Subtotal(items: seq<CartItem>): (r: Money)
    ensures (forall i :: 0 <= i < |items| ==> items[i].price >= 0.0 && items[i].quantity >= 0) ==> r >= 0.0
  {
    if items == [] then 0.0 else Subtotal(items[..|items| - 1]) + LineTotal(items[|items| - 1])
  }

  /** The subtotal of two carts laid end to end is the sum of their subtotals. */
  lemma {:induction false} SubtotalAppend(a: seq<CartItem>, b: seq<CartItem>)
    ensures Subtotal(a + b) == Subtotal(a) + Subtotal(b)
  {
    if b != [] {
      assert (a + b)[..|a + b| - 1] == a + b[..|b| - 1];
      SubtotalAppend(a, b[..|b| - 1]);
    } else {
      assert a + b == a;
    }
  }

  /** Ten percent tax on the subtotal. */
  function Tax(subtotal: Money): (r: Money)
    ensures 10.0 * r == subtotal
    ensures subtotal >= 0.0 ==> 0.0 <= r <= subtotal
  {
    subtotal * 0.1
  }

  /** The subtotal with its tax added. */
  function Total(subtotal: Money): (r: Money)
    ensures r == subtotal * 1.1
    ensures subtotal >= 0.0 ==> r >= subtotal
  {
    subtotal + Tax(subtotal)
  }

  /** The checkout total of a cart. */
  function CartTotal(items: seq<CartItem>): (r: Money)
    ensures r == Subtotal(items) * 1.1
    ensures (forall i :: 0 <= i < |items| ==> items[i].price >= 0.0 && items[i].quantity >= 0) ==>
      0.0 <= Subtotal(items) <= r
  {
    Total(Subtotal(items))
  }

  /** Tax is the difference between total and subtotal, and the total is
      eleven tenths of the subtotal, never below it for non-negative lines. */
  lemma TotalsRelation(items: seq<CartItem>)
    ensures CartTotal(items) - Subtotal(items) == Tax(Subtotal(items))
    ensures CartTotal(items) == Subtotal(items) * 1.1
    ensures (forall i :: 0 <= i < |items| ==> items[i].price >= 0.0 && items[i].quantity >= 0) ==>
      0.0 <= Subtotal(items) <= CartTotal(items)
  {
  }

  /** One cart line priced 10.00 with quantity 2: subtotal 20, tax 2, total 22. */
  lemma TotalsExample(item: CartItem)
    requires item.price == 10.0 && item.quantity == 2
    ensures Subtotal([item]) == 20.0 && Tax(Subtotal([item])) == 2.0 && CartTotal([item]) == 22.0
  {
    assert [item][..0] == [];
  }

  const CvvError := "CVV must be 3 or 4 digits"

  /** The CVV check's verdict and, on rejection, its message. */
  datatype CvvCheck = CvvCheck(valid: bool, error: Option<string>)

  /** A string's `length` in JavaScript: UTF-16 code units, two for each
      character outside the Basic Multilingual Plane. */
  function Utf16Length(s: string): (n: nat)
    ensures |s| <= n <= 2 * |s|
    ensures (forall i :: 0 <= i < |s| ==> s[i] as int < 0x1_0000) ==> n == |s|
  {
    if s == [] then 0
    else Utf16Length(s[..|s| - 1]) + (if s[|s| - 1] as int < 0x1_0000 then 1 else 2)
  }

  /** Accepts a CVV by its length alone, whatever its characters are. */
  function ValidateCvv(cvv: string): (r: CvvCheck)
    ensures r.valid <==> 3 <= Utf16Length(cvv) <= 4
    ensures r.valid ==> r.error == None
    ensures !r.valid ==> r.error == Some(CvvError)
  {
    var length := Utf16Length(cvv);
    if length < 3 || length > 4 then CvvCheck(false, Some(CvvError)) else CvvCheck(true, None)
  }

  /** "12" is rejected; "123" and also "abc" are accepted, since no character
      is checked. Two emoji are four code units long and are accepted; three
      are six and are rejected. */
  lemma CvvExamples()
    ensures !ValidateCvv("12").valid && ValidateCvv("12").error == Some(CvvError)
    ensures ValidateCvv("123").valid && ValidateCvv("abc").valid
    ensures ValidateCvv("\U{1F600}\U{1F600}").valid
    ensures !ValidateCvv("\U{1F600}\U{1F600}\U{1F600}").valid
  {
    var one, two, three := "\U{1F600}", "\U{1F600}\U{1F600}", "\U{1F600}\U{1F600}\U{1F600}";
    assert two[..1] == one && three[..2] == two && one[..0] == [];
  }

  /** One entry of the purchase request. */
  datatype PurchaseItem = PurchaseItem(productId: int, name: string, price: Money, quantity: int)

  /** The request sent to the purchase service, with the session token. */
  datatype PurchaseRequest = PurchaseRequest(items: seq<PurchaseItem>, total: Money, token: Option<string>)

  /** The request entry for one cart line. */
  function Entry(item: CartItem): PurchaseItem {
    PurchaseItem(item.id, item.name, item.price, item.quantity)
  }

  /** `formattedItems`: one entry per cart line, in cart order. */
  function FormatItems(items: seq<CartItem>): (r: seq<PurchaseItem>)
    ensures |r| == |items|
    ensures forall i :: 0 <= i < |items| ==>
      r[i] == PurchaseItem(items[i].id, items[i].name, items[i].price, items[i].quantity)
  {
    if items == [] then [] else FormatItems(items[..|items| - 1]) + [Entry(items[|items| - 1])]
  }

  /** The subtotal a receiver of the request would compute from its entries. */
  function RequestSubtotal(entries: seq<PurchaseItem>): Money {
    if entries == [] then 0.0
    else RequestSubtotal(entries[..|entries| - 1]) + EntryTotal(entries[|entries| - 1])
  }

  /** Price times quantity of one request entry. */
  function EntryTotal(entry: PurchaseItem): Money {
    entry.price * entry.quantity as real
  }

  /** The request's total agrees with its entries: pricing the entries gives
      back the cart's subtotal, and the total adds ten percent to it. */
  lemma {:induction false} RequestMatchesCart(items: seq<CartItem>)
    ensures RequestSubtotal(FormatItems(items)) == Subtotal(items)
    ensures Total(RequestSubtotal(FormatItems(items))) == CartTotal(items)
  {
    if items != [] {
      var init, last := items[..|items| - 1], items[|items| - 1];
      var entries := FormatItems(items);
      assert RequestSubtotal(entries) == RequestSubtotal(FormatItems(init)) + EntryTotal(Entry(last)) by {
        assert entries == FormatItems(init) + [Entry(last)];
        assert entries[..|entries| - 1] == FormatItems(init);
      }
      assert EntryTotal(Entry(last)) == LineTotal(last);
      RequestMatchesCart(init);
    }
  }

  /** The purchase service's answer: the new purchase's id, or an error message. */
  datatype PurchaseOutcome = Accepted(purchaseId: int) | Rejected(message: string)

  /** A call to `navigate`. */
  datatype Navigation = Navigation(path: string, from: string)

  const LoginRedirect := Navigation("/login", "/cart")
  const CheckoutFailure := "Failed to process checkout"

  /** What the page renders. */
  datatype CartView =
    | Confirmation(transactionId: Option<int>)
    | EmptyCart
    | CartForm(checkoutError: Option<string>, validationError: Option<string>,
               subtotal: Money, tax: Money, total: Money,
               checkoutDisabled: bool, buttonLabel: string)

  /** The `Cart` component: the cart, auth and form values it reads, the state
      it keeps, and logs of what it dispatches, navigates to and submits. */
  class Cart {
    var items: seq<CartItem>
    var isAuthenticated: bool
    var token: Option<string>
    var cvv: string

    var isCheckingOut: bool
    var checkoutError: Option<string>
    var transactionId: Option<int>
    var checkoutSuccess: bool
    var validationError: Option<string>

    var dispatched: seq<CartAction>
    var navigations: seq<Navigation>
    var submitted: seq<PurchaseRequest>

    constructor (items: seq<CartItem>, isAuthenticated: bool, token: Option<string>)
      ensures this.items == items && this.isAuthenticated == isAuthenticated && this.token == token
      ensures cvv == "" && !isCheckingOut && checkoutError == None && transactionId == None
      ensures !checkoutSuccess && validationError == None
      ensures dispatched == [] && navigations == [] && submitted == []
    {
      this.items := items;
      this.isAuthenticated := isAuthenticated;
      this.token := token;
      cvv := "";
      isCheckingOut := false;
      checkoutError := None;
      transactionId := None;
      checkoutSuccess := false;
      validationError := None;
      dispatched := [];
      navigations := [];
      submitted := [];
    }

    /** What the page shows: the confirmation after a purchase, the empty-cart
        view, or the cart with its summary and a checkout button that is
        disabled while a purchase is being submitted. */
    function View(): (v: CartView)
      reads this
      ensures checkoutSuccess ==> v == Confirmation(transactionId)
      ensures v == EmptyCart <==> !checkoutSuccess && items == []
      ensures v.CartForm? <==> !checkoutSuccess && items != []
      ensures v.CartForm? ==>
        && v.checkoutError == OrNull(checkoutError) && v.validationError == OrNull(validationError)
        && v.subtotal == Subtotal(items) && v.tax == Tax(Subtotal(items))
        && v.total == CartTotal(items) && v.total == v.subtotal + v.tax
        && v.checkoutDisabled == isCheckingOut
        && v.buttonLabel == (if isCheckingOut then "Processing..." else "Checkout")
    {
      if checkoutSuccess then Confirmation(transactionId)
      else if |items| == 0 then EmptyCart
      else CartForm(OrNull(checkoutError), OrNull(validationError), Subtotal(items), Tax(Subtotal(items)),
                    CartTotal(items), isCheckingOut,
                    if isCheckingOut then "Processing..." else "Checkout")
    }

    /** Typing into the CVV field. */
    method EditCvv(value: string)
      modifies this`cvv
      ensures cvv == value
    {
      cvv := value;
    }

    /** `updateQuantity`. */
    method UpdateQuantity(id: int, quantity: int)
      modifies this`dispatched
      ensures dispatched == old(dispatched) + [QuantityAction(id, quantity)]
    {
      dispatched := dispatched + [QuantityAction(id, quantity)];
    }

    /** `removeItem`. */
    method RemoveItem(id: int)
      modifies this`dispatched
      ensures dispatched == old(dispatched) + [Remove(id)]
    {
      dispatched := dispatched + [Remove(id)];
    }

    /** `handleCheckout` up to the purchase call: the auth gate, the CVV check,
        then the reset of the checkout state and the request. Returns whether
        a purchase was submitted. */
    method BeginCheckout() returns (started: bool)
      modifies this`navigations, this`validationError, this`isCheckingOut,
               this`checkoutError, this`transactionId, this`checkoutSuccess, this`submitted
      ensures started <==> isAuthenticated && ValidateCvv(cvv).valid
      ensures !isAuthenticated ==>
        && navigations == old(navigations) + [LoginRedirect]
        && validationError == old(validationError)
      ensures isAuthenticated ==> navigations == old(navigations)
      ensures isAuthenticated && !started ==> validationError == Some(CvvError)
      ensures !started ==>
        && submitted == old(submitted) && isCheckingOut == old(isCheckingOut)
        && checkoutError == old(checkoutError) && transactionId == old(transactionId)
        && checkoutSuccess == old(checkoutSuccess)
      ensures started ==>
        && validationError == None && isCheckingOut
        && checkoutError == None && transactionId == None && !checkoutSuccess
        && submitted == old(submitted) + [PurchaseRequest(FormatItems(items), CartTotal(items), token)]
    {
      if !isAuthenticated {
        navigations := navigations + [LoginRedirect];
        return false;
      }
      validationError := None;
      var check := ValidateCvv(cvv);
      if !check.valid {
        validationError := check.error;
        return false;
      }
      isCheckingOut := true;
      checkoutError := None;
      transactionId := None;
      checkoutSuccess := false;
      submitted := submitted + [PurchaseRequest(FormatItems(items), CartTotal(items), token)];
      started := true;
    }

    /** `handleCheckout` after the purchase call settles. */
    method CompleteCheckout(outcome: PurchaseOutcome)
      requires isCheckingOut
      modifies this`isCheckingOut, this`checkoutError, this`transactionId,
               this`checkoutSuccess, this`dispatched
      ensures !isCheckingOut
      ensures outcome.Accepted? ==>
        && transactionId == Some(outcome.purchaseId) && checkoutSuccess
        && dispatched == old(dispatched) + [Clear] && checkoutError == old(checkoutError)
      ensures outcome.Rejected? ==>
        && checkoutError == Some(if outcome.message == "" then CheckoutFailure else outcome.message)
        && dispatched == old(dispatched)
        && transactionId == old(transactionId) && checkoutSuccess == old(checkoutSuccess)
    {
      match outcome {
        case Accepted(id) =>
          transactionId := Some(id);
          checkoutSuccess := true;
          dispatched := dispatched + [Clear];
        case Rejected(message) =>
          checkoutError := Some(if message == "" then CheckoutFailure else message);
      }
      isCheckingOut := false;
    }

    /** `handleCheckout` as one step, the purchase service answering `outcome`. */
    method HandleCheckout(outcome: PurchaseOutcome)
      modifies this`navigations, this`validationError, this`isCheckingOut,
               this`checkoutError, this`transactionId, this`checkoutSuccess,
               this`submitted, this`dispatched
      ensures isAuthenticated && ValidateCvv(cvv).valid ==> !isCheckingOut
      ensures !(isAuthenticated && ValidateCvv(cvv).valid) ==> isCheckingOut == old(isCheckingOut)
      ensures isAuthenticated ==> navigations == old(navigations)
      ensures !isAuthenticated ==>
        && navigations == old(navigations) + [LoginRedirect]
        && submitted == old(submitted) && dispatched == old(dispatched)
        && validationError == old(validationError)
        && checkoutError == old(checkoutError) && transactionId == old(transactionId)
        && checkoutSuccess == old(checkoutSuccess)
      ensures isAuthenticated && !ValidateCvv(cvv).valid ==>
        && validationError == Some(CvvError)
        && submitted == old(submitted) && dispatched == old(dispatched)
        && checkoutError == old(checkoutError) && transactionId == old(transactionId)
        && checkoutSuccess == old(checkoutSuccess)
      ensures isAuthenticated && ValidateCvv(cvv).valid ==>
        && submitted == old(submitted) + [PurchaseRequest(FormatItems(items), CartTotal(items), token)]
        && validationError == None
        && (outcome.Accepted? ==>
              && checkoutSuccess && transactionId == Some(outcome.purchaseId)
              && checkoutError == None && dispatched == old(dispatched) + [Clear]
              && View() == Confirmation(Some(outcome.purchaseId)))
        && (outcome.Rejected? ==>
              && !checkoutSuccess && transactionId == None && dispatched == old(dispatched)
              && checkoutError == Some(if outcome.message == "" then CheckoutFailure else outcome.message)
              && (items != [] ==> View().CartForm? && View().checkoutError == checkoutError))
    {
      var started := BeginCheckout();
      if started {
        CompleteCheckout(outcome);
      }
    }

    /** A click on the checkout button, which exists only on the cart form and
        does nothing while disabled: at most one purchase is in flight. */
    method ClickCheckout() returns (started: bool)
      requires View().CartForm?
      modifies this`navigations, this`validationError, this`isCheckingOut,
               this`checkoutError, this`transactionId, this`checkoutSuccess, this`submitted
      ensures old(isCheckingOut) ==>
        && !started && submitted == old(submitted) && navigations == old(navigations)
        && validationError == old(validationError) && isCheckingOut
        && checkoutError == old(checkoutError) && transactionId == old(transactionId)
        && checkoutSuccess == old(checkoutSuccess)
      ensures !old(isCheckingOut) ==> (started <==> isAuthenticated && ValidateCvv(cvv).valid)
      ensures !old(isCheckingOut) && !isAuthenticated ==>
        && navigations == old(navigations) + [LoginRedirect]
        && validationError == old(validationError)
      ensures !old(isCheckingOut) && isAuthenticated ==> navigations == old(navigations)
      ensures !old(isCheckingOut) && isAuthenticated && !started ==> validationError == Some(CvvError)
      ensures !started ==>
        && submitted == old(submitted) && isCheckingOut == old(isCheckingOut)
        && checkoutError == old(checkoutError) && transactionId == old(transactionId)
        && checkoutSuccess == old(checkoutSuccess)
      ensures started ==>
        && validationError == None && isCheckingOut
        && checkoutError == None && transactionId == None && !checkoutSuccess
        && submitted == old(submitted) + [PurchaseRequest(FormatItems(items), CartTotal(items), token)]
    {
      if isCheckingOut {
        return false;
      }
      started := BeginCheckout();
    }
  }

  /** Checkout on a page fed by an auth session (the cart page's `token!`):
      whatever the service answers, a purchase is sent only for an
      authenticated session with a valid CVV, at most one is sent, and it
      always carries the session's token. */
  method CheckoutWithSession(auth: AuthContext.AuthProvider, items: seq<CartItem>, cvv: string,
                             outcome: PurchaseOutcome)
    returns (sent: seq<PurchaseRequest>)
    requires auth.Valid()
    ensures |sent| <= 1
    ensures |sent| == 1 <==> auth.isAuthenticated && ValidateCvv(cvv).valid
    ensures forall r :: r in sent ==> r.token.Some? && r.token == auth.token
  {
    var page := new Cart(items, auth.isAuthenticated, auth.token);
    page.EditCvv(cvv);
    page.HandleCheckout(outcome);
    sent := page.submitted;
  }
}
