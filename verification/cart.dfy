/**
 * The quotation cart of the home page: a list of products, each with a quantity,
 * keyed by `product_id`. Every handler returns a new list.
 */
module Cart {
  import opened Wrappers
  import opened Seqs
  import opened Products

  /** `{ ...product, quantity }`. */
  datatype CartItem = CartItem(product: Product, quantity: int)

  function IdOf(item: CartItem): string
  {
    item.product.product_id
  }

  predicate InCart(cart: seq<CartItem>, id: string)
  {
    exists k :: 0 <= k < |cart| && IdOf(cart[k]) == id
  }

  /** No two items share a `product_id`. */
  predicate DistinctIds(cart: seq<CartItem>)
  {
    forall a, b :: 0 <= a < b < |cart| ==> IdOf(cart[a]) != IdOf(cart[b])
  }

  /** Every quantity is at least one. */
  predicate PositiveQuantities(cart: seq<CartItem>)
  {
    forall k :: 0 <= k < |cart| ==> cart[k].quantity >= 1
  }

  predicate Valid(cart: seq<CartItem>)
  {
    DistinctIds(cart) && PositiveQuantities(cart)
  }

  /** The total quantity held under `id` (the quantity of its item, in a valid cart). */
  function QuantityOf(cart: seq<CartItem>, id: string): int
  {
    if cart == [] then 0
    else QuantityOf(cart[..|cart| - 1], id) + (if IdOf(cart[|cart| - 1]) == id then cart[|cart| - 1].quantity else 0)
  }

  /** `handleAddToCart`: one more of a product already in the cart, else the product appended with quantity one. */
  function AddToCart(cart: seq<CartItem>, product: Product): (r: seq<CartItem>)
    ensures InCart(cart, product.product_id) ==>
      |r| == |cart| && forall k :: 0 <= k < |cart| ==>
        r[k] == if IdOf(cart[k]) == product.product_id then cart[k].(quantity := cart[k].quantity + 1) else cart[k]
    ensures !InCart(cart, product.product_id) ==> r == cart + [CartItem(product, 1)]
    ensures InCart(r, product.product_id)
  {
    if InCart(cart, product.product_id) then
      seq(|cart|, k requires 0 <= k < |cart| =>
        if IdOf(cart[k]) == product.product_id then cart[k].(quantity := cart[k].quantity + 1) else cart[k])
    else
      var r := cart + [CartItem(product, 1)];
      assert IdOf(r[|cart|]) == product.product_id;
      r
  }

  /** `handleUpdateQuantity`: below one is refused; otherwise the item's quantity is replaced. */
  function UpdateQuantity(cart: seq<CartItem>, id: string, newQuantity: int): (r: seq<CartItem>)
    ensures newQuantity < 1 ==> r == cart
    ensures |r| == |cart|
    ensures newQuantity >= 1 ==> forall k :: 0 <= k < |cart| ==>
      r[k] == if IdOf(cart[k]) == id then cart[k].(quantity := newQuantity) else cart[k]
  {
    if newQuantity < 1 then cart
    else seq(|cart|, k requires 0 <= k < |cart| => if IdOf(cart[k]) == id then cart[k].(quantity := newQuantity) else cart[k])
  }

  /** `handleUpdatePrice`: the item's price is replaced, whatever the new value. */
  function UpdatePrice(cart: seq<CartItem>, id: string, newPrice: string): (r: seq<CartItem>)
    ensures |r| == |cart|
    ensures forall k :: 0 <= k < |cart| ==>
      r[k] == if IdOf(cart[k]) == id then cart[k].(product := cart[k].product.(price := newPrice)) else cart[k]
  {
    seq(|cart|, k requires 0 <= k < |cart| =>
      if IdOf(cart[k]) == id then cart[k].(product := cart[k].product.(price := newPrice)) else cart[k])
  }

  /** The filter predicate of `handleRemoveItem`: the item does not hold `id`. */
  function KeepsOtherThan(id: string): CartItem -> bool
  {
    (p: CartItem) => IdOf(p) != id
  }

  /** `handleRemoveItem`. */
  function RemoveItem(cart: seq<CartItem>, id: string): (r: seq<CartItem>)
    ensures !InCart(r, id)
    ensures forall x :: x in r <==> x in cart && IdOf(x) != id
    ensures IsSubsequence(r, cart)
  {
    FilterIsSubsequence(cart, KeepsOtherThan(id));
    var r := Filter(cart, KeepsOtherThan(id));
    assert forall k :: 0 <= k < |r| ==> r[k] in r;
    r
  }

  // ---------------------------------------------------------------------------
  // What the handlers preserve.

  /** Adding keeps ids distinct and quantities positive, and adds exactly one to the product's quantity. */
  lemma AddToCartValid(cart: seq<CartItem>, product: Product)
    requires Valid(cart)
    ensures Valid(AddToCart(cart, product))
    ensures QuantityOf(AddToCart(cart, product), product.product_id) == QuantityOf(cart, product.product_id) + 1
  {
    var id := product.product_id;
    var r := AddToCart(cart, product);
    if InCart(cart, id) {
      QuantityOfMap(cart, r, id, 1);
    } else {
      QuantityOfAppend(cart, CartItem(product, 1), id);
    }
  }

  /** Adding leaves every other product's quantity as it was. */
  lemma AddToCartOthers(cart: seq<CartItem>, product: Product, other: string)
    requires Valid(cart)
    requires other != product.product_id
    ensures QuantityOf(AddToCart(cart, product), other) == QuantityOf(cart, other)
  {
    var r := AddToCart(cart, product);
    if InCart(cart, product.product_id) {
      QuantityOfMap(cart, r, product.product_id, 1);
    } else {
      QuantityOfAppend(cart, CartItem(product, 1), other);
    }
  }

  lemma {:induction false} QuantityOfAppend(cart: seq<CartItem>, x: CartItem, id: string)
    ensures QuantityOf(cart + [x], id) == QuantityOf(cart, id) + (if IdOf(x) == id then x.quantity else 0)
  {
    assert (cart + [x])[..|cart|] == cart;
  }

  /**
   * When `r` is `cart` with the quantity of the item holding `id` raised by `d`
   * (and nothing else changed), the quantity under `id` rises by `d` in a cart
   * with distinct ids, and every other id keeps its quantity.
   */
  lemma {:induction false} QuantityOfMap(cart: seq<CartItem>, r: seq<CartItem>, id: string, d: int)
    requires |r| == |cart| && DistinctIds(cart)
    requires forall k :: 0 <= k < |cart| ==>
      (IdOf(r[k]) == IdOf(cart[k])) && (r[k].quantity == if IdOf(cart[k]) == id then cart[k].quantity + d else cart[k].quantity)
    ensures QuantityOf(r, id) == QuantityOf(cart, id) + (if InCart(cart, id) then d else 0)
    ensures forall other :: other != id ==> QuantityOf(r, other) == QuantityOf(cart, other)
  {
    if cart != [] {
      var n := |cart| - 1;
      QuantityOfMap(cart[..n], r[..n], id, d);
      if IdOf(cart[n]) == id {
        assert !InCart(cart[..n], id);
      } else if InCart(cart, id) {
        var k :| 0 <= k < |cart| && IdOf(cart[k]) == id;
        assert cart[..n][k] == cart[k];
      } else {
        assert !InCart(cart[..n], id);
      }
    }
  }

  /** Quantity changes keep a cart valid and set the product's quantity, when accepted. */
  lemma UpdateQuantityValid(cart: seq<CartItem>, id: string, newQuantity: int)
    requires Valid(cart)
    ensures Valid(UpdateQuantity(cart, id, newQuantity))
    ensures newQuantity >= 1 && InCart(cart, id) ==> QuantityOf(UpdateQuantity(cart, id, newQuantity), id) == newQuantity
  {
    if newQuantity >= 1 && InCart(cart, id) {
      var k :| 0 <= k < |cart| && IdOf(cart[k]) == id;
      QuantityOfMap(cart, UpdateQuantity(cart, id, newQuantity), id, newQuantity - cart[k].quantity);
      QuantityOfSingle(cart, k);
    }
  }

  /** In a cart with distinct ids, the quantity under an item's id is that item's quantity. */
  lemma {:induction false} QuantityOfSingle(cart: seq<CartItem>, k: nat)
    requires DistinctIds(cart) && k < |cart|
    ensures QuantityOf(cart, IdOf(cart[k])) == cart[k].quantity
  {
    var n := |cart| - 1;
    if k < n {
      QuantityOfSingle(cart[..n], k);
      assert cart[..n][k] == cart[k];
    } else {
      QuantityOfAbsent(cart[..n], IdOf(cart[k]));
    }
  }

  lemma {:induction false} QuantityOfAbsent(cart: seq<CartItem>, id: string)
    requires !InCart(cart, id)
    ensures QuantityOf(cart, id) == 0
  {
    if cart != [] {
      var n := |cart| - 1;
      assert forall k :: 0 <= k < n ==> cart[..n][k] == cart[k];
      QuantityOfAbsent(cart[..n], id);
    }
  }

  /** Price changes keep a cart valid, keep every quantity and change no other field. */
  lemma UpdatePriceValid(cart: seq<CartItem>, id: string, newPrice: string)
    requires Valid(cart)
    ensures Valid(UpdatePrice(cart, id, newPrice))
    ensures forall k :: 0 <= k < |cart| ==> UpdatePrice(cart, id, newPrice)[k].quantity == cart[k].quantity
  {
  }

  /** Removal keeps a cart valid; with distinct ids it deletes exactly the one item. */
  lemma {:induction false} RemoveItemValid(cart: seq<CartItem>, id: string)
    requires Valid(cart)
    ensures Valid(RemoveItem(cart, id))
    ensures InCart(cart, id) ==> |RemoveItem(cart, id)| == |cart| - 1
    ensures !InCart(cart, id) ==> RemoveItem(cart, id) == cart
  {
    var r := RemoveItem(cart, id);
    SubsequenceValid(r, cart);
    if InCart(cart, id) {
      var k :| 0 <= k < |cart| && IdOf(cart[k]) == id;
      RemoveAt(cart, k);
    } else {
      FilterAll(cart, KeepsOtherThan(id));
    }
  }

  lemma {:induction false} SubsequenceValid(r: seq<CartItem>, cart: seq<CartItem>)
    requires IsSubsequence(r, cart) && Valid(cart)
    ensures Valid(r)
  {
    if r != [] && cart != [] {
      if r[0] == cart[0] {
        SubsequenceValid(r[1..], cart[1..]);
        SubsequenceMembers(r[1..], cart[1..]);
        forall b | 0 < b < |r|
          ensures IdOf(r[0]) != IdOf(r[b])
        {
          assert r[b] in r[1..];
          var j :| 0 <= j < |cart[1..]| && cart[1..][j] == r[b];
          assert cart[j + 1] == r[b];
        }
      } else {
        SubsequenceValid(r, cart[1..]);
      }
    }
  }

  /** Removal looks at the first item, then at the rest. */
  lemma RemoveItemCons(cart: seq<CartItem>, id: string)
    requires cart != []
    ensures RemoveItem(cart, id) == (if IdOf(cart[0]) != id then [cart[0]] else []) + RemoveItem(cart[1..], id)
  {
  }

  /** Removing the id held at `k` deletes that item and keeps the others in order. */
  lemma {:induction false} RemoveAt(cart: seq<CartItem>, k: nat)
    requires DistinctIds(cart) && k < |cart|
    ensures RemoveItem(cart, IdOf(cart[k])) == cart[..k] + cart[k + 1..]
  {
    if k == 0 {
      RemoveHead(cart);
    } else {
      DistinctTail(cart);
      RemoveAt(cart[1..], k - 1);
      assert cart[1..][k - 1] == cart[k];
      assert IdOf(cart[0]) != IdOf(cart[k]);
      RemoveAtStep(cart, k);
    }
  }

  lemma DistinctTail(cart: seq<CartItem>)
    requires DistinctIds(cart) && cart != []
    ensures DistinctIds(cart[1..])
  {
    forall a, b | 0 <= a < b < |cart[1..]|
      ensures IdOf(cart[1..][a]) != IdOf(cart[1..][b])
    {
      assert cart[1..][a] == cart[a + 1] && cart[1..][b] == cart[b + 1];
    }
  }

  /** With distinct ids, removing the first item's id removes just that item. */
  lemma RemoveHead(cart: seq<CartItem>)
    requires DistinctIds(cart) && cart != []
    ensures RemoveItem(cart, IdOf(cart[0])) == cart[1..]
  {
    var id := IdOf(cart[0]);
    RemoveItemCons(cart, id);
    forall j | 0 <= j < |cart[1..]|
      ensures KeepsOtherThan(id)(cart[1..][j])
    {
      assert cart[1..][j] == cart[j + 1];
    }
    FilterAll(cart[1..], KeepsOtherThan(id));
  }

  /** The inductive step of `RemoveAt`: the first item, holding another id, stays in front. */
  lemma RemoveAtStep(cart: seq<CartItem>, k: nat)
    requires 0 < k < |cart| && IdOf(cart[0]) != IdOf(cart[k])
    requires RemoveItem(cart[1..], IdOf(cart[k])) == cart[1..][..k - 1] + cart[1..][k..]
    ensures RemoveItem(cart, IdOf(cart[k])) == cart[..k] + cart[k + 1..]
  {
    RemoveItemCons(cart, IdOf(cart[k]));
    SplitAround(cart, k);
  }

  lemma SplitAround(s: seq<CartItem>, k: nat)
    requires 0 < k < |s|
    ensures [s[0]] + (s[1..][..k - 1] + s[1..][k..]) == s[..k] + s[k + 1..]
  {
    assert s[..k] == [s[0]] + s[1..][..k - 1];
    assert s[k + 1..] == s[1..][k..];
  }

  /** Adding a product and then removing it is the same as removing it. */
  lemma RemoveAfterAdd(cart: seq<CartItem>, product: Product)
    requires Valid(cart)
    ensures RemoveItem(AddToCart(cart, product), product.product_id) == RemoveItem(cart, product.product_id)
  {
    var id := product.product_id;
    var added := AddToCart(cart, product);
    if InCart(cart, id) {
      RemoveMapped(cart, added, id);
    } else {
      RemoveAppend(cart, CartItem(product, 1), id);
    }
  }

  lemma {:induction false} RemoveAppend(cart: seq<CartItem>, x: CartItem, id: string)
    requires IdOf(x) == id
    ensures RemoveItem(cart + [x], id) == RemoveItem(cart, id)
  {
    if cart == [] {
      assert RemoveItem([x], id) == RemoveItem([], id);
    } else {
      RemoveAppend(cart[1..], x, id);
      assert (cart + [x])[1..] == cart[1..] + [x];
    }
  }

  /** Removing `id` forgets any change made only to items holding `id`. */
  lemma {:induction false} RemoveMapped(cart: seq<CartItem>, r: seq<CartItem>, id: string)
    requires |r| == |cart|
    requires forall k :: 0 <= k < |cart| ==> IdOf(r[k]) == IdOf(cart[k]) && (IdOf(cart[k]) != id ==> r[k] == cart[k])
    ensures RemoveItem(r, id) == RemoveItem(cart, id)
  {
    if cart != [] {
      RemoveMapped(cart[1..], r[1..], id);
      RemoveItemCons(r, id);
      RemoveItemCons(cart, id);
    }
  }
}
