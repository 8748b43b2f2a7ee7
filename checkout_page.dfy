/** The checkout page (src/app/checkout/page.tsx): which view it shows, the
    order of the checks `handleSubmit` makes, the order it builds from the
    cart, and the cart being emptied only once the order exists. */
module CheckoutPage {
  import opened Wrappers
  import opened Types
  import opened Utils
  import opened CartStore
  import opened Pricing

  // ---------------------------------------------------------------------
  // The form
  // ---------------------------------------------------------------------

  datatype ShippingInfo = ShippingInfo(address: string, city: string, postalCode: string, country: string)
  datatype PaymentInfo = PaymentInfo(cardNumber: string, expiryDate: string, cvv: string, cardholderName: string)

  /** The form's initial values (src/app/checkout/page.tsx:35-47). */
  const InitialShipping := ShippingInfo("", "", "", "France")
  const InitialPayment := PaymentInfo("", "", "", "")

  // ---------------------------------------------------------------------
  // The view
  // ---------------------------------------------------------------------

  datatype View = Loading | EmptyCart | LoginRequired | CheckoutForm

  /** The early returns of the page (src/app/checkout/page.tsx:54-103):
      loading until hydrated, then the empty cart, and only then the
      authentication check. */
  function CheckoutView(isHydrated: bool, items: seq<CartItem>, isAuthenticated: bool): (v: View)
    ensures v == Loading <==> !isHydrated
    ensures v == EmptyCart <==> isHydrated && items == []
    ensures v == LoginRequired <==> isHydrated && items != [] && !isAuthenticated
    ensures v == CheckoutForm <==> isHydrated && items != [] && isAuthenticated
  {
    if !isHydrated then Loading
    else if |items| == 0 then EmptyCart
    else if !isAuthenticated then LoginRequired
    else CheckoutForm
  }

  // ---------------------------------------------------------------------
  // The order
  // ---------------------------------------------------------------------

  datatype OrderLine = OrderLine(productId: int, quantity: int, unitPrice: int)

  datatype OrderPayload = OrderPayload(
    items: seq<OrderLine>,
    shippingAddress: string,
    billingAddress: string,
    notes: string)

  /** `items.map(...)` (src/app/checkout/page.tsx:127-131): one order line
      per cart line, in cart order. */
  function OrderLines(items: seq<CartItem>): (r: seq<OrderLine>)
    ensures |r| == |items|
    ensures forall k :: 0 <= k < |items| ==>
      r[k] == OrderLine(items[k].product.id, items[k].quantity, items[k].product.price)
  {
    if items == [] then []
    else [OrderLine(items[0].product.id, items[0].quantity, items[0].product.price)] + OrderLines(items[1..])
  }

  /** What the order lines are worth at their unit prices. */
  function LinesTotal(lines: seq<OrderLine>): int {
    if lines == [] then 0 else lines[0].unitPrice * lines[0].quantity + LinesTotal(lines[1..])
  }

  /** The order is worth exactly the cart's subtotal, and it carries as many
      articles as the cart. */
  lemma {:induction false} OrderMatchesCart(items: seq<CartItem>)
    ensures LinesTotal(OrderLines(items)) == TotalPrice(items)
    ensures |OrderLines(items)| == |items|
  {
    if items != [] {
      OrderMatchesCart(items[1..]);
      assert OrderLines(items)[1..] == OrderLines(items[1..]);
    }
  }

  /** `${address}, ${city} ${postalCode}, ${country}`
      (src/app/checkout/page.tsx:132-133). */
  function FormatAddress(s: ShippingInfo): string {
    s.address + ", " + s.city + " " + s.postalCode + ", " + s.country
  }

  const NotesPrefix := "Paiement par carte se terminant par "

  /** The notes name the card by its last four characters
      (src/app/checkout/page.tsx:134), or the whole number when it is
      shorter. */
  function PaymentNotes(cardNumber: string): (r: string)
    ensures |r| == |NotesPrefix| + (if |cardNumber| < 4 then |cardNumber| else 4)
    ensures r[..|NotesPrefix|] == NotesPrefix
    ensures |cardNumber| >= 4 ==> r[|NotesPrefix|..] == cardNumber[|cardNumber| - 4..]
    ensures |cardNumber| < 4 ==> r[|NotesPrefix|..] == cardNumber
  {
    NotesPrefix + SliceFrom(cardNumber, -4)
  }

  function BuildOrder(items: seq<CartItem>, s: ShippingInfo, p: PaymentInfo): (o: OrderPayload)
    ensures o.items == OrderLines(items)
    ensures o.shippingAddress == o.billingAddress
    ensures o.shippingAddress == s.address + ", " + s.city + " " + s.postalCode + ", " + s.country
    ensures o.notes == PaymentNotes(p.cardNumber)
  {
    OrderPayload(OrderLines(items), FormatAddress(s), FormatAddress(s), PaymentNotes(p.cardNumber))
  }

  // ---------------------------------------------------------------------
  // handleSubmit (src/app/checkout/page.tsx:105-148)
  // ---------------------------------------------------------------------

  predicate ShippingComplete(s: ShippingInfo) {
    s.address != "" && s.city != "" && s.postalCode != ""
  }

  predicate PaymentComplete(p: PaymentInfo) {
    p.cardNumber != "" && p.expiryDate != "" && p.cvv != "" && p.cardholderName != ""
  }

  datatype Decision = MissingShipping | MissingPayment | RedirectToLogin | Create(order: OrderPayload)

  /** The checks in the order the handler makes them. The country is not
      checked. */
  function SubmitDecision(items: seq<CartItem>, s: ShippingInfo, p: PaymentInfo, isAuthenticated: bool): (d: Decision)
    ensures d == MissingShipping <==> !ShippingComplete(s)
    ensures d == MissingPayment <==> ShippingComplete(s) && !PaymentComplete(p)
    ensures d == RedirectToLogin <==> ShippingComplete(s) && PaymentComplete(p) && !isAuthenticated
    ensures d.Create? <==> ShippingComplete(s) && PaymentComplete(p) && isAuthenticated
    ensures d.Create? ==> d.order == BuildOrder(items, s, p)
  {
    if s.address == "" || s.city == "" || s.postalCode == "" then MissingShipping
    else if p.cardNumber == "" || p.expiryDate == "" || p.cvv == "" || p.cardholderName == "" then MissingPayment
    else if !isAuthenticated then RedirectToLogin
    else Create(BuildOrder(items, s, p))
  }

  /** The initial form never creates an order. */
  lemma InitialFormRejected(items: seq<CartItem>, isAuthenticated: bool)
    ensures SubmitDecision(items, InitialShipping, InitialPayment, isAuthenticated) == MissingShipping
  {
  }

  /** The form, and with it the submit button, is only rendered for an
      authenticated customer, so the handler's own login check never fires
      from the page: it is a second guard behind the view's. */
  lemma FormNeverRedirects(isHydrated: bool, items: seq<CartItem>, isAuthenticated: bool, s: ShippingInfo, p: PaymentInfo)
    requires CheckoutView(isHydrated, items, isAuthenticated) == CheckoutForm
    ensures SubmitDecision(items, s, p, isAuthenticated) != RedirectToLogin
  {
  }

  /** The handler. `created` is what the order service answers: the new
      order's id, or `None` when it fails. It is only consulted when an
      order is sent. */
  method HandleSubmit(cart: Cart, s: ShippingInfo, p: PaymentInfo, isAuthenticated: bool, created: Option<int>)
    returns (decision: Decision, redirect: Option<Route>)
    requires cart.Valid()
    modifies cart
    ensures cart.Valid()
    ensures decision == SubmitDecision(old(cart.items), s, p, isAuthenticated)
    ensures decision == RedirectToLogin ==> redirect == Some(LoginRoute)
    ensures decision.Create? && created.Some? ==>
      cart.items == [] && redirect == Some(OrderRoute(created.value))
    ensures !(decision.Create? && created.Some?) ==> cart.items == old(cart.items)
    ensures decision != RedirectToLogin && !(decision.Create? && created.Some?) ==> redirect == None
  {
    redirect := None;
    decision := SubmitDecision(cart.items, s, p, isAuthenticated);
    if decision == MissingShipping || decision == MissingPayment {
      return;
    }
    if decision == RedirectToLogin {
      redirect := Some(LoginRoute);
      return;
    }
    if created.Some? {
      cart.ClearCart();
      redirect := Some(OrderRoute(created.value));
    }
  }

  /** The summary beside the form (src/app/checkout/page.tsx:49-51). */
  function CheckoutTotal(items: seq<CartItem>): (r: int)
    ensures TotalPrice(items) >= FreeShippingThreshold ==> r == TotalPrice(items)
    ensures TotalPrice(items) < FreeShippingThreshold ==> r == TotalPrice(items) + StandardShipping
  {
    OrderTotal(TotalPrice(items))
  }
}
