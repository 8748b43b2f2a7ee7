/** The cart store `useCartStore` (src/store/index.ts:88-150): an ordered
    sequence of lines, at most one per product id, that `addItem`,
    `removeItem`, `updateQuantity` and `clearCart` replace wholesale, and the
    two `reduce` folds that total it. The new sequence each mutator computes
    is given by a function below; the class `Cart` holds the store's field
    and its methods assign those functions' results. */
module CartStore {
  import opened Wrappers
  import opened Types

  /** The quantity `addItem` uses when none is given (src/store/index.ts:93). */
  const DefaultQuantity := 1

  // ---------------------------------------------------------------------
  // Lines and their ids
  // ---------------------------------------------------------------------

  predicate HasLine(items: seq<CartItem>, id: int) {
    exists k :: 0 <= k < |items| && items[k].product.id == id
  }

  /** The invariant the store keeps: no two lines share a product id. */
  predicate DistinctIds(items: seq<CartItem>) {
    forall i, j :: 0 <= i < j < |items| ==> items[i].product.id != items[j].product.id
  }

  /** `items.find(item => item.product.id === id)`, as the index of the
      first line with that id. */
  function FindLine(items: seq<CartItem>, id: int): (r: Option<nat>)
    ensures r.Some? <==> HasLine(items, id)
    ensures r.Some? ==> r.value < |items| && items[r.value].product.id == id
    ensures r.Some? ==> forall j :: 0 <= j < r.value ==> items[j].product.id != id
  {
    if items == [] then None
    else if items[0].product.id == id then Some(0)
    else match FindLine(items[1..], id)
      case None => None
      case Some(k) => Some(k + 1)
  }

  // ---------------------------------------------------------------------
  // The new line sequences the mutators store
  // ---------------------------------------------------------------------

  /** The `items.map` of `addItem` (src/store/index.ts:99-103): every line
      with the id gains `q`, keeping its own product snapshot; the others
      are untouched. */
  function Increment(items: seq<CartItem>, id: int, q: int): (r: seq<CartItem>)
    ensures |r| == |items|
    ensures forall k :: 0 <= k < |items| ==>
      r[k].product == items[k].product &&
      r[k].quantity == (if items[k].product.id == id then items[k].quantity + q else items[k].quantity)
  {
    if items == [] then []
    else
      var head := if items[0].product.id == id
        then items[0].(quantity := items[0].quantity + q) else items[0];
      [head] + Increment(items[1..], id, q)
  }

  /** `addItem(product, quantity)` (src/store/index.ts:93-110). No bound is
      placed on `q`: zero, negative and over-stock quantities are stored as
      given. */
  function AddLine(items: seq<CartItem>, p: Product, q: int): (r: seq<CartItem>)
    ensures !HasLine(items, p.id) ==> r == items + [CartItem(p, q)]
    ensures HasLine(items, p.id) ==> |r| == |items|
    ensures HasLine(r, p.id)
  {
    match FindLine(items, p.id)
    case Some(k) =>
      var r := Increment(items, p.id, q);
      assert r[k].product.id == p.id;
      r
    case None =>
      var r := items + [CartItem(p, q)];
      assert r[|items|].product.id == p.id;
      r
  }

  /** The `items.filter` of `removeItem` (src/store/index.ts:112-116). */
  function Removed(items: seq<CartItem>, id: int): (r: seq<CartItem>)
    ensures !HasLine(r, id)
    ensures !HasLine(items, id) ==> r == items
    ensures |r| <= |items|
  {
    if items == [] then []
    else if items[0].product.id == id then Removed(items[1..], id)
    else [items[0]] + Removed(items[1..], id)
  }

  /** The `items.map` of `updateQuantity` (src/store/index.ts:124-128):
      every line with the id gets quantity `q`. */
  function SetQuantity(items: seq<CartItem>, id: int, q: int): (r: seq<CartItem>)
    ensures |r| == |items|
    ensures forall k :: 0 <= k < |items| ==>
      r[k].product == items[k].product &&
      r[k].quantity == (if items[k].product.id == id then q else items[k].quantity)
  {
    if items == [] then []
    else
      var head := if items[0].product.id == id then items[0].(quantity := q) else items[0];
      [head] + SetQuantity(items[1..], id, q)
  }

  /** `updateQuantity(id, q)` (src/store/index.ts:118-129): a quantity of
      zero or less removes the line. */
  function UpdatedQuantity(items: seq<CartItem>, id: int, q: int): (r: seq<CartItem>)
    ensures q <= 0 ==> r == Removed(items, id)
    ensures q > 0 ==> |r| == |items|
  {
    if q <= 0 then Removed(items, id) else SetQuantity(items, id, q)
  }

  // ---------------------------------------------------------------------
  // The totals (src/store/index.ts:135-144)
  // ---------------------------------------------------------------------

  /** `getTotalItems`: the sum of the quantities. */
  function TotalItems(items: seq<CartItem>): (r: int)
    ensures items == [] ==> r == 0
  {
    if items == [] then 0 else items[0].quantity + TotalItems(items[1..])
  }

  /** `getTotalPrice`: the sum of unit price times quantity, taking each
      line's price from its own product snapshot. */
  function TotalPrice(items: seq<CartItem>): (r: int)
    ensures items == [] ==> r == 0
  {
    if items == [] then 0
    else items[0].product.price * items[0].quantity + TotalPrice(items[1..])
  }

  /** The number of lines with a given id. */
  function CountLines(items: seq<CartItem>, id: int): nat {
    if items == [] then 0
    else (if items[0].product.id == id then 1 else 0) + CountLines(items[1..], id)
  }

  /** The sum of the unit prices of the lines with a given id. */
  function MatchingPrices(items: seq<CartItem>, id: int): int {
    if items == [] then 0
    else (if items[0].product.id == id then items[0].product.price else 0) + MatchingPrices(items[1..], id)
  }

  // ---------------------------------------------------------------------
  // addItem
  // ---------------------------------------------------------------------

  /** Adding a product that already has a line grows that line by `q`; the
      line keeps its first product snapshot and its position, and every
      other line is unchanged. */
  lemma AddToExistingLine(items: seq<CartItem>, p: Product, q: int, k: nat)
    requires DistinctIds(items)
    requires k < |items| && items[k].product.id == p.id
    ensures |AddLine(items, p, q)| == |items|
    ensures AddLine(items, p, q)[k] == CartItem(items[k].product, items[k].quantity + q)
    ensures forall j :: 0 <= j < |items| && j != k ==> AddLine(items, p, q)[j] == items[j]
  {
    var r := AddLine(items, p, q);
    assert r == Increment(items, p.id, q);
    forall j | 0 <= j < |items| && j != k ensures r[j] == items[j] {
      if j < k {
        assert items[j].product.id != items[k].product.id;
      } else {
        assert items[k].product.id != items[j].product.id;
      }
    }
  }

  /** `addItem` keeps the product ids pairwise distinct. */
  lemma AddLinePreservesDistinct(items: seq<CartItem>, p: Product, q: int)
    requires DistinctIds(items)
    ensures DistinctIds(AddLine(items, p, q))
  {
    var r := AddLine(items, p, q);
    if !HasLine(items, p.id) {
      forall i, j | 0 <= i < j < |r| ensures r[i].product.id != r[j].product.id {
        if j == |items| {
          assert r[i] == items[i];
        }
      }
    }
  }

  /** Growing every line with an id by `q` raises the item count by `q`
      per such line. */
  lemma {:induction false} IncrementItems(items: seq<CartItem>, id: int, q: int)
    ensures TotalItems(Increment(items, id, q)) == TotalItems(items) + q * CountLines(items, id)
  {
    if items != [] {
      var r := Increment(items, id, q);
      assert r[1..] == Increment(items[1..], id, q);
      IncrementItems(items[1..], id, q);
      var rest := CountLines(items[1..], id);
      if items[0].product.id == id {
        assert r[0].quantity == items[0].quantity + q;
        assert CountLines(items, id) == 1 + rest;
        assert q * (1 + rest) == q + q * rest;
      } else {
        assert r[0] == items[0];
      }
    }
  }

  /** Growing every line with an id by `q` raises the price total by `q`
      times each such line's snapshot price. */
  lemma {:induction false} IncrementPrice(items: seq<CartItem>, id: int, q: int)
    ensures TotalPrice(Increment(items, id, q)) == TotalPrice(items) + q * MatchingPrices(items, id)
  {
    if items != [] {
      var r := Increment(items, id, q);
      assert r[1..] == Increment(items[1..], id, q);
      IncrementPrice(items[1..], id, q);
      var h := items[0];
      var rest := MatchingPrices(items[1..], id);
      if h.product.id == id {
        assert r[0] == h.(quantity := h.quantity + q);
        assert h.product.price * (h.quantity + q) == h.product.price * h.quantity + q * h.product.price;
        assert MatchingPrices(items, id) == h.product.price + rest;
        assert q * (h.product.price + rest) == q * h.product.price + q * rest;
      } else {
        assert r[0] == h;
      }
    }
  }

  /** In a cart whose ids are distinct, a present id has exactly one line. */
  lemma {:induction false} UniqueLine(items: seq<CartItem>, k: nat)
    requires DistinctIds(items)
    requires k < |items|
    ensures CountLines(items, items[k].product.id) == 1
    ensures MatchingPrices(items, items[k].product.id) == items[k].product.price
  {
    var id := items[k].product.id;
    if k == 0 {
      assert !HasLine(items[1..], id) by {
        forall j | 0 <= j < |items[1..]| ensures items[1..][j].product.id != id {
          assert items[1..][j] == items[j + 1];
        }
      }
      NoLineNoPrices(items[1..], id);
    } else {
      assert items[0].product.id != id;
      UniqueLine(items[1..], k - 1);
    }
  }

  lemma {:induction false} NoLineNoPrices(items: seq<CartItem>, id: int)
    requires !HasLine(items, id)
    ensures CountLines(items, id) == 0
    ensures MatchingPrices(items, id) == 0
  {
    if items != [] {
      assert items[0].product.id != id;
      assert !HasLine(items[1..], id) by {
        forall j | 0 <= j < |items[1..]| ensures items[1..][j].product.id != id {
          assert items[1..][j] == items[j + 1];
        }
      }
      NoLineNoPrices(items[1..], id);
    }
  }

  /** The totals of a one-line cart. */
  lemma SingleLineTotals(x: CartItem)
    ensures TotalItems([x]) == x.quantity
    ensures TotalPrice([x]) == x.product.price * x.quantity
  {
    assert [x][1..] == [];
  }

  /** The totals of a concatenation are the sums of the totals. */
  lemma {:induction false} TotalsOfAppend(a: seq<CartItem>, b: seq<CartItem>)
    ensures TotalItems(a + b) == TotalItems(a) + TotalItems(b)
    ensures TotalPrice(a + b) == TotalPrice(a) + TotalPrice(b)
  {
    if a != [] {
      assert (a + b)[1..] == a[1..] + b;
      TotalsOfAppend(a[1..], b);
    } else {
      assert a + b == b;
    }
  }

  /** After `addItem(p, q)` on a cart with distinct ids the item count has
      grown by exactly `q`, and the price total by `q` times the unit price
      of the line that received it: the existing line's snapshot price, or
      `p.price` for a new line. */
  lemma AddLineTotals(items: seq<CartItem>, p: Product, q: int)
    requires DistinctIds(items)
    ensures TotalItems(AddLine(items, p, q)) == TotalItems(items) + q
    ensures !HasLine(items, p.id) ==>
      TotalPrice(AddLine(items, p, q)) == TotalPrice(items) + q * p.price
    ensures forall k :: 0 <= k < |items| && items[k].product.id == p.id ==>
      TotalPrice(AddLine(items, p, q)) == TotalPrice(items) + q * items[k].product.price
  {
    match FindLine(items, p.id)
    case Some(k) =>
      forall k' | 0 <= k' < |items| && items[k'].product.id == p.id
        ensures k' == k
      {
        assert !(k' < k) && !(k < k');
      }
      ExistingLineTotals(items, p, q, k);
    case None =>
      var line := [CartItem(p, q)];
      TotalsOfAppend(items, line);
      SingleLineTotals(CartItem(p, q));
      assert p.price * q == q * p.price;
  }

  lemma ExistingLineTotals(items: seq<CartItem>, p: Product, q: int, k: nat)
    requires DistinctIds(items)
    requires k < |items| && items[k].product.id == p.id
    ensures TotalItems(AddLine(items, p, q)) == TotalItems(items) + q
    ensures TotalPrice(AddLine(items, p, q)) == TotalPrice(items) + q * items[k].product.price
  {
    assert AddLine(items, p, q) == Increment(items, p.id, q);
    IncrementItems(items, p.id, q);
    IncrementPrice(items, p.id, q);
    UniqueLine(items, k);
    var c := CountLines(items, p.id);
    assert q * c == q;
  }

  /** `addItem(p, q1)`, ..., `addItem(p, qn)` applied in turn. */
  function AddAll(items: seq<CartItem>, p: Product, qs: seq<int>): seq<CartItem>
    decreases |qs|
  {
    if qs == [] then items else AddLine(AddAll(items, p, qs[..|qs| - 1]), p, qs[|qs| - 1])
  }

  function Sum(qs: seq<int>): int {
    if qs == [] then 0 else Sum(qs[..|qs| - 1]) + qs[|qs| - 1]
  }

  /** Adding the same product several times to a cart that lacks it leaves
      the original lines as they were, followed by exactly one line for the
      product whose quantity is the sum of the added quantities. */
  lemma {:induction false} RepeatedAdds(items: seq<CartItem>, p: Product, qs: seq<int>)
    requires DistinctIds(items) && !HasLine(items, p.id)
    requires qs != []
    ensures AddAll(items, p, qs) == items + [CartItem(p, Sum(qs))]
    ensures DistinctIds(AddAll(items, p, qs))
  {
    var prefix := qs[..|qs| - 1];
    var q := qs[|qs| - 1];
    if prefix == [] {
      assert Sum(qs) == q;
      AddLinePreservesDistinct(items, p, q);
    } else {
      RepeatedAdds(items, p, prefix);
      var before := items + [CartItem(p, Sum(prefix))];
      assert before[|items|].product.id == p.id;
      AddToExistingLine(before, p, q, |items|);
      var after := AddLine(before, p, q);
      assert after == items + [CartItem(p, Sum(prefix) + q)];
      AddLinePreservesDistinct(before, p, q);
    }
  }

  // ---------------------------------------------------------------------
  // removeItem, updateQuantity, clearCart
  // ---------------------------------------------------------------------

  /** Removing the id of line `k` from a cart with distinct ids drops that
      line and keeps all the others in order. */
  lemma {:induction false} RemoveExistingLine(items: seq<CartItem>, k: nat)
    requires DistinctIds(items)
    requires k < |items|
    ensures Removed(items, items[k].product.id) == items[..k] + items[k + 1..]
  {
    var id := items[k].product.id;
    if k == 0 {
      assert !HasLine(items[1..], id) by {
        forall j | 0 <= j < |items[1..]| ensures items[1..][j].product.id != id {
          assert items[1..][j] == items[j + 1];
        }
      }
    } else {
      assert items[0].product.id != id;
      RemoveExistingLine(items[1..], k - 1);
      assert items[1..][..k - 1] + items[1..][k..] == items[1..k] + items[k + 1..];
      assert items[..k] == [items[0]] + items[1..k];
    }
  }

  /** `removeItem` is idempotent, and keeps the ids distinct. */
  lemma RemovedIdempotent(items: seq<CartItem>, id: int)
    requires DistinctIds(items)
    ensures Removed(Removed(items, id), id) == Removed(items, id)
    ensures DistinctIds(Removed(items, id))
  {
    match FindLine(items, id)
    case None =>
    case Some(k) =>
      RemoveExistingLine(items, k);
      var r := items[..k] + items[k + 1..];
      forall i, j | 0 <= i < j < |r| ensures r[i].product.id != r[j].product.id {
        var i' := if i < k then i else i + 1;
        var j' := if j < k then j else j + 1;
        assert r[i] == items[i'] && r[j] == items[j'];
      }
  }

  /** Removing a line lowers the totals by that line's share. */
  lemma RemovedTotals(items: seq<CartItem>, k: nat)
    requires DistinctIds(items)
    requires k < |items|
    ensures TotalItems(Removed(items, items[k].product.id)) == TotalItems(items) - items[k].quantity
    ensures TotalPrice(Removed(items, items[k].product.id))
         == TotalPrice(items) - items[k].product.price * items[k].quantity
  {
    RemoveExistingLine(items, k);
    SplitTotals(items[..k], items[k], items[k + 1..]);
    assert items == items[..k] + [items[k]] + items[k + 1..];
  }

  lemma SplitTotals(pre: seq<CartItem>, x: CartItem, post: seq<CartItem>)
    ensures TotalItems(pre + [x] + post) == TotalItems(pre + post) + x.quantity
    ensures TotalPrice(pre + [x] + post) == TotalPrice(pre + post) + x.product.price * x.quantity
  {
    TotalsOfAppend(pre + [x], post);
    TotalsOfAppend(pre, [x]);
    TotalsOfAppend(pre, post);
    SingleLineTotals(x);
  }

  /** `updateQuantity` with a positive quantity overwrites exactly the
      matching line's quantity; on an absent id it changes nothing. */
  lemma UpdatePositive(items: seq<CartItem>, id: int, q: int)
    requires DistinctIds(items)
    requires q > 0
    ensures !HasLine(items, id) ==> UpdatedQuantity(items, id, q) == items
    ensures forall k :: 0 <= k < |items| && items[k].product.id == id ==>
      UpdatedQuantity(items, id, q)[k] == CartItem(items[k].product, q)
    ensures forall k :: 0 <= k < |items| && items[k].product.id != id ==>
      UpdatedQuantity(items, id, q)[k] == items[k]
    ensures DistinctIds(UpdatedQuantity(items, id, q))
  {
    var r := UpdatedQuantity(items, id, q);
    if !HasLine(items, id) {
      assert forall k :: 0 <= k < |items| ==> r[k] == items[k];
    }
  }

  /** Two lines, A at 10.00 EUR times 2 and B at 5.00 EUR times 1, hold three
      items worth 25.00 EUR. */
  lemma TotalsExample()
    ensures var a := Product(1, "A", None, 1000, 10, "", "");
      var b := Product(2, "B", None, 500, 10, "", "");
      var cart := [CartItem(a, 2), CartItem(b, 1)];
      TotalItems(cart) == 3 && TotalPrice(cart) == 2500
  {
  }

  // ---------------------------------------------------------------------
  // The store
  // ---------------------------------------------------------------------

  /** `useCartStore`: its field `items`, which every mutator replaces. */
  class Cart {
    var items: seq<CartItem>

    ghost predicate Valid()
      reads this
    {
      DistinctIds(items)
    }

    /** The store starts with no lines (src/store/index.ts:91). */
    constructor ()
      ensures Valid() && items == []
    {
      items := [];
    }

    /** `addItem(product, quantity)` (src/store/index.ts:93-110). */
    method AddItem(product: Product, quantity: int)
      requires Valid()
      modifies this
      ensures Valid()
      ensures items == AddLine(old(items), product, quantity)
    {
      AddLinePreservesDistinct(items, product, quantity);
      var existing := FindLine(items, product.id);
      if existing.Some? {
        items := Increment(items, product.id, quantity);
      } else {
        items := items + [CartItem(product, quantity)];
      }
    }

    /** `removeItem(productId)` (src/store/index.ts:112-116). */
    method RemoveItem(productId: int)
      requires Valid()
      modifies this
      ensures Valid()
      ensures items == Removed(old(items), productId)
    {
      RemovedIdempotent(items, productId);
      items := Removed(items, productId);
    }

    /** `updateQuantity(productId, quantity)` (src/store/index.ts:118-129):
        dispatches to `removeItem` when the quantity is not positive. */
    method UpdateQuantity(productId: int, quantity: int)
      requires Valid()
      modifies this
      ensures Valid()
      ensures items == UpdatedQuantity(old(items), productId, quantity)
    {
      if quantity <= 0 {
        RemoveItem(productId);
        return;
      }
      UpdatePositive(items, productId, quantity);
      items := SetQuantity(items, productId, quantity);
    }

    /** `clearCart()` (src/store/index.ts:131-133). */
    method ClearCart()
      modifies this
      ensures Valid()
      ensures items == [] && TotalItems(items) == 0 && TotalPrice(items) == 0
    {
      items := [];
    }
  }
}
