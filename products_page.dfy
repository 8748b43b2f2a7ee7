/** The catalogue page (src/app/products/page.tsx): the filter applied to
    the loaded products (a case-insensitive search on the name and the
    description, and optional price bounds), the reset of the filters, and
    the add-to-cart button. The bounds are typed as text and read with
    `parseFloat`; the model takes that reading as a parameter `parse`, in
    cents, whose `None` stands for `NaN`, with which every comparison is
    false. */
module ProductsPage {
  import opened Wrappers
  import opened Types
  import opened Utils
  import opened CartStore

  // ---------------------------------------------------------------------
  // The filter (src/app/products/page.tsx:25-33)
  // ---------------------------------------------------------------------

  /** `t` occurs in `s` at index `i`. */
  predicate OccursAt(s: string, t: string, i: int) {
    0 <= i <= |s| - |t| && s[i..i + |t|] == t
  }

  /** `s.includes(t)`. */
  predicate Contains(s: string, t: string) {
    exists i :: 0 <= i <= |s| - |t| && OccursAt(s, t, i)
  }

  /** Every string includes the empty string. */
  lemma ContainsEmpty(s: string)
    ensures Contains(s, "")
  {
    assert OccursAt(s, "", 0);
  }

  /** The search term matches the name, or the description when there is
      one, ignoring case (src/app/products/page.tsx:26-27). */
  predicate MatchesSearch(p: Product, term: string) {
    var t := Lower(term);
    Contains(Lower(p.name), t) || (p.description.Some? && Contains(Lower(p.description.value), t))
  }

  /** `!minPrice || product.price >= parseFloat(minPrice)`
      (src/app/products/page.tsx:29). */
  predicate MatchesMin(p: Product, minPrice: string, parse: string -> Option<int>) {
    minPrice == "" || (parse(minPrice).Some? && p.price >= parse(minPrice).value)
  }

  /** `!maxPrice || product.price <= parseFloat(maxPrice)`
      (src/app/products/page.tsx:30). */
  predicate MatchesMax(p: Product, maxPrice: string, parse: string -> Option<int>) {
    maxPrice == "" || (parse(maxPrice).Some? && p.price <= parse(maxPrice).value)
  }

  /** The filter's callback (src/app/products/page.tsx:25-32). */
  predicate Keep(p: Product, term: string, minPrice: string, maxPrice: string, parse: string -> Option<int>) {
    MatchesSearch(p, term) && MatchesMin(p, minPrice, parse) && MatchesMax(p, maxPrice, parse)
  }

  /** `products.filter(...)`. */
  function Filter(ps: seq<Product>, term: string, minPrice: string, maxPrice: string, parse: string -> Option<int>): (r: seq<Product>)
    ensures |r| <= |ps|
    ensures forall p :: p in r <==> p in ps && Keep(p, term, minPrice, maxPrice, parse)
  {
    if ps == [] then []
    else if Keep(ps[0], term, minPrice, maxPrice, parse) then [ps[0]] + Filter(ps[1..], term, minPrice, maxPrice, parse)
    else Filter(ps[1..], term, minPrice, maxPrice, parse)
  }

  /** `products?.filter(...) || []`: nothing while the products are not
      loaded. */
  function FilteredProducts(products: Option<seq<Product>>, term: string, minPrice: string, maxPrice: string,
                            parse: string -> Option<int>): (r: seq<Product>)
    ensures products.None? ==> r == []
    ensures products.Some? ==> forall p :: p in r <==> p in products.value && Keep(p, term, minPrice, maxPrice, parse)
  {
    if products.Some? then Filter(products.value, term, minPrice, maxPrice, parse) else []
  }

  /** `r` is `s` with some elements left out, the others in their order. */
  predicate SubsequenceOf<T(==)>(r: seq<T>, s: seq<T>)
    decreases |s|
  {
    if r == [] then true
    else if s == [] then false
    else (r[0] == s[0] && SubsequenceOf(r[1..], s[1..])) || SubsequenceOf(r, s[1..])
  }

  /** The filtered list keeps the products' order. */
  lemma {:induction false} FilterIsSubsequence(ps: seq<Product>, term: string, minPrice: string, maxPrice: string,
                                               parse: string -> Option<int>)
    ensures SubsequenceOf(Filter(ps, term, minPrice, maxPrice, parse), ps)
  {
    if ps != [] {
      FilterIsSubsequence(ps[1..], term, minPrice, maxPrice, parse);
    }
  }

  /** Each kept product appears as often as in the catalogue, each other
      product not at all. */
  lemma {:induction false} FilterCounts(ps: seq<Product>, term: string, minPrice: string, maxPrice: string,
                                        parse: string -> Option<int>)
    ensures forall p ::
              multiset(Filter(ps, term, minPrice, maxPrice, parse))[p] ==
              (if Keep(p, term, minPrice, maxPrice, parse) then multiset(ps)[p] else 0)
  {
    if ps != [] {
      FilterCounts(ps[1..], term, minPrice, maxPrice, parse);
      assert ps == [ps[0]] + ps[1..];
    }
  }

  /** With the filters reset (src/app/products/page.tsx:100-104, 206-210)
      every loaded product is shown, in order. */
  lemma {:induction false} ResetShowsAll(ps: seq<Product>, parse: string -> Option<int>)
    ensures FilteredProducts(Some(ps), "", "", "", parse) == ps
  {
    if ps != [] {
      ContainsEmpty(Lower(ps[0].name));
      assert Lower("") == "";
      assert Keep(ps[0], "", "", "", parse);
      ResetShowsAll(ps[1..], parse);
      assert ps == [ps[0]] + ps[1..];
    }
  }

  /** The search ignores the case of the term: an upper-case letter in it
      matches the same products as its lower-case form. */
  lemma SearchIgnoresCase(p: Product, term: string)
    ensures MatchesSearch(p, term) <==> MatchesSearch(p, Lower(term))
  {
    var t := Lower(term);
    assert Lower(t) == t;
  }

  /** A bound that cannot be read as a number keeps no product at all,
      rather than being ignored. */
  lemma {:induction false} UnreadableBoundKeepsNothing(ps: seq<Product>, term: string, minPrice: string, maxPrice: string,
                                    parse: string -> Option<int>)
    requires minPrice != "" && parse(minPrice).None?
    ensures Filter(ps, term, minPrice, maxPrice, parse) == []
  {
    if ps != [] {
      assert !MatchesMin(ps[0], minPrice, parse);
      UnreadableBoundKeepsNothing(ps[1..], term, minPrice, maxPrice, parse);
    }
  }

  /** The "no product found" panel (src/app/products/page.tsx:195). */
  predicate NoResults(products: Option<seq<Product>>, term: string, minPrice: string, maxPrice: string,
                      parse: string -> Option<int>) {
    products.Some? && FilteredProducts(products, term, minPrice, maxPrice, parse) == []
  }

  /** The panel's reset shows every product, so it never shows the panel
      again unless the catalogue itself is empty. */
  lemma ResetClearsNoResults(ps: seq<Product>, parse: string -> Option<int>)
    ensures !NoResults(Some(ps), "", "", "", parse) <==> ps != []
  {
    ResetShowsAll(ps, parse);
  }

  // ---------------------------------------------------------------------
  // Adding to the cart (src/app/products/page.tsx:35-37, 175-186)
  // ---------------------------------------------------------------------

  /** The button is enabled unless the stock is exactly 0. */
  predicate AddEnabled(p: Product) {
    p.stock != 0
  }

  /** `handleAddToCart(product)`: `addItem(product, 1)`. The page only lets
      an enabled button call it. */
  method HandleAddToCart(cart: Cart, p: Product)
    requires cart.Valid() && AddEnabled(p)
    modifies cart
    ensures cart.Valid()
    ensures cart.items == AddLine(old(cart.items), p, DefaultQuantity)
    ensures TotalItems(cart.items) == TotalItems(old(cart.items)) + 1
  {
    AddLineTotals(cart.items, p, DefaultQuantity);
    cart.AddItem(p, DefaultQuantity);
  }
}
