/** The cart page (src/app/cart/page.tsx): the handlers its controls call,
    the stock conditions that disable the plus control and raise a warning,
    and the order summary it shows. */
module CartPage {
  import opened Wrappers
  import opened Types
  import opened CartStore
  import opened Pricing
  import opened CheckoutPage

  // ---------------------------------------------------------------------
  // Handlers
  // ---------------------------------------------------------------------

  /** `handleUpdateQuantity(productId, newQuantity)`
      (src/app/cart/page.tsx:27-34): a quantity that is not positive removes
      the line, any other replaces its quantity. */
  method HandleUpdateQuantity(cart: Cart, productId: int, newQuantity: int)
    requires cart.Valid()
    modifies cart
    ensures cart.Valid()
    ensures newQuantity <= 0 ==> cart.items == Removed(old(cart.items), productId)
    ensures newQuantity > 0 ==> cart.items == SetQuantity(old(cart.items), productId, newQuantity)
  {
    if newQuantity <= 0 {
      cart.RemoveItem(productId);
    } else {
      cart.UpdateQuantity(productId, newQuantity);
    }
  }

  /** The page's own guard adds nothing: it gives what the store's
      `updateQuantity` alone gives, for every quantity. */
  lemma HandlerAgreesWithStore(items: seq<CartItem>, productId: int, newQuantity: int)
    ensures UpdatedQuantity(items, productId, newQuantity) ==
      (if newQuantity <= 0 then Removed(items, productId) else SetQuantity(items, productId, newQuantity))
  {
  }

  /** `handleRemoveItem(productId, label)` (src/app/cart/page.tsx:36-39). */
  method HandleRemoveItem(cart: Cart, productId: int)
    requires cart.Valid()
    modifies cart
    ensures cart.Valid()
    ensures cart.items == Removed(old(cart.items), productId)
  {
    cart.RemoveItem(productId);
  }

  /** `handleClearCart()` (src/app/cart/page.tsx:41-44). */
  method HandleClearCart(cart: Cart)
    modifies cart
    ensures cart.Valid() && cart.items == []
  {
    cart.ClearCart();
  }

  // ---------------------------------------------------------------------
  // The quantity controls of one line
  // ---------------------------------------------------------------------

  /** The quantity the minus control asks for (src/app/cart/page.tsx:135). */
  function MinusRequest(item: CartItem): int {
    item.quantity - 1
  }

  /** The quantity the plus control asks for (src/app/cart/page.tsx:148). */
  function PlusRequest(item: CartItem): int {
    item.quantity + 1
  }

  /** The plus control is disabled (src/app/cart/page.tsx:149). */
  predicate PlusDisabled(item: CartItem) {
    item.quantity >= item.product.stock
  }

  /** The insufficient-stock warning is shown (src/app/cart/page.tsx:180). */
  predicate StockWarning(item: CartItem) {
    item.quantity > item.product.stock
  }

  /** Pressing minus on the line at `k`. */
  method PressMinus(cart: Cart, k: nat)
    requires cart.Valid() && k < |cart.items|
    modifies cart
    ensures cart.Valid()
    ensures cart.items == UpdatedQuantity(old(cart.items), old(cart.items)[k].product.id, MinusRequest(old(cart.items)[k]))
  {
    var item := cart.items[k];
    HandleUpdateQuantity(cart, item.product.id, MinusRequest(item));
  }

  /** Pressing plus on the line at `k`, which the page only allows while the
      control is enabled. */
  method PressPlus(cart: Cart, k: nat)
    requires cart.Valid() && k < |cart.items| && !PlusDisabled(cart.items[k])
    modifies cart
    ensures cart.Valid()
    ensures cart.items == UpdatedQuantity(old(cart.items), old(cart.items)[k].product.id, PlusRequest(old(cart.items)[k]))
  {
    var item := cart.items[k];
    HandleUpdateQuantity(cart, item.product.id, PlusRequest(item));
  }

  /** Minus on a line of quantity 1 (or less) removes exactly that line and
      keeps the others in order; on a larger quantity it lowers that line by
      one and touches nothing else. */
  lemma MinusOnLine(items: seq<CartItem>, k: nat)
    requires DistinctIds(items) && k < |items|
    ensures items[k].quantity <= 1 ==>
      UpdatedQuantity(items, items[k].product.id, MinusRequest(items[k])) == items[..k] + items[k + 1..]
    ensures items[k].quantity > 1 ==>
      var r := UpdatedQuantity(items, items[k].product.id, MinusRequest(items[k]));
      |r| == |items| && r[k] == items[k].(quantity := items[k].quantity - 1) &&
      forall j :: 0 <= j < |items| && j != k ==> r[j] == items[j]
  {
    var id := items[k].product.id;
    if items[k].quantity <= 1 {
      RemoveExistingLine(items, k);
    } else {
      UpdatePositive(items, id, items[k].quantity - 1);
      var r := UpdatedQuantity(items, id, MinusRequest(items[k]));
      forall j | 0 <= j < |items| && j != k ensures r[j] == items[j] {
        assert items[j].product.id != id;
      }
    }
  }

  /** The warning implies the disabled control, and the two differ exactly
      on a line whose quantity equals the stock. Pressing plus while it is
      enabled never leads to the warning, so the warning only appears for
      quantities reached another way (`addItem` does not check stock). */
  lemma StockControls(item: CartItem)
    ensures StockWarning(item) ==> PlusDisabled(item)
    ensures PlusDisabled(item) && !StockWarning(item) <==> item.quantity == item.product.stock
    ensures !PlusDisabled(item) ==> !StockWarning(item.(quantity := PlusRequest(item)))
  {
  }

  // ---------------------------------------------------------------------
  // The summary
  // ---------------------------------------------------------------------

  /** `article${totalItems > 1 ? 's' : ''}` (src/app/cart/page.tsx:58, 199). */
  function ArticleWord(totalItems: int): (r: string)
    ensures r == "article" || r == "articles"
    ensures r == "articles" <==> totalItems > 1
  {
    "article" + (if totalItems > 1 then "s" else "")
  }

  /** What the order summary shows (src/app/cart/page.tsx:46-47, 198-220). */
  datatype Summary = Summary(
    totalItems: int,
    subtotal: int,
    shipping: int,
    freeShippingHint: Option<int>,
    total: int)

  /** The summary, which the page renders only for a cart with lines. */
  function CartSummary(items: seq<CartItem>): (r: Summary)
    ensures r.totalItems == TotalItems(items) && r.subtotal == TotalPrice(items)
    ensures r.shipping == 0 <==> r.subtotal >= FreeShippingThreshold
    ensures r.subtotal < FreeShippingThreshold ==> r.shipping == StandardShipping
    ensures r.freeShippingHint.Some? <==> r.shipping != 0
    ensures r.freeShippingHint.Some? ==> r.subtotal + r.freeShippingHint.value == FreeShippingThreshold
    ensures r.total == r.subtotal + r.shipping
  {
    var subtotal := TotalPrice(items);
    Summary(TotalItems(items), subtotal, ShippingCost(subtotal), FreeShippingRemainder(subtotal),
      subtotal + (if subtotal >= FreeShippingThreshold then 0 else StandardShipping))
  }

  /** What the page's body shows: the empty-cart panel when there are no
      lines, the lines and their summary otherwise. */
  datatype CartView = EmptyCartPanel | LinesWithSummary(summary: Summary)

  /** `items.length === 0 ? ... : ...` (src/app/cart/page.tsx:64-262). */
  function ViewOf(items: seq<CartItem>): (v: CartView)
    ensures v == EmptyCartPanel <==> items == []
    ensures v.LinesWithSummary? ==> v.summary == CartSummary(items)
  {
    if |items| == 0 then EmptyCartPanel else LinesWithSummary(CartSummary(items))
  }

  /** A cleared cart shows the empty-cart panel and no summary, and a cart
      with lines shows the same total the checkout page charges. */
  lemma ViewAfterClearAndTotals(items: seq<CartItem>)
    ensures ViewOf([]) == EmptyCartPanel
    ensures items != [] ==> ViewOf(items).summary.total == CheckoutTotal(items)
  {
  }
}
