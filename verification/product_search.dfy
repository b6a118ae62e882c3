/**
 * The search tab's instant filter: the catalog narrowed to the products whose
 * name, id or category contains the query, at most fifty of them, and the
 * "added" mark each result carries when the cart already holds its product.
 */
module ProductSearch {
  import opened Seqs
  import opened Products
  import opened Cart

  /** The cap on the number of results shown. */
  const MaxResults: nat := 50

  /** Every catalog product that matches the normalised query, in catalog order. */
  function AllMatches(all: seq<Product>, q: string): (r: seq<Product>)
    ensures IsSubsequence(r, all)
    ensures forall p :: p in r <==> p in all && Matches(p, q)
  {
    FilterIsSubsequence(all, MatchesQuery(q));
    Filter(all, MatchesQuery(q))
  }

  /** The filtering effect: nothing for a blank query, else the first fifty matches. */
  function Search(all: seq<Product>, query: string): (r: seq<Product>)
    ensures |r| <= MaxResults
    ensures NormalizedQuery(query) == "" ==> r == []
    ensures forall p :: p in r ==> p in all && Matches(p, NormalizedQuery(query))
    ensures IsSubsequence(r, all)
  {
    var q := NormalizedQuery(query);
    if q == "" then []
    else
      var matches := AllMatches(all, q);
      var r := Take(matches, MaxResults);
      assert r == matches[..|r|];
      PrefixIsSubsequence(matches, |r|);
      SubsequenceTransitive(r, matches, all);
      assert forall k :: 0 <= k < |r| ==> r[k] in matches;
      r
  }

  lemma {:induction false} PrefixIsSubsequence(s: seq<Product>, n: nat)
    requires n <= |s|
    ensures IsSubsequence(s[..n], s)
    decreases n
  {
    if n > 0 {
      PrefixIsSubsequence(s[1..], n - 1);
      assert s[..n][1..] == s[1..][..n - 1];
    }
  }

  /**
   * For a non-blank query the results are the first `min(50, #matches)` matching
   * products: a prefix of the matches, which is all of them when there are at most fifty.
   */
  lemma SearchIsFirstMatches(all: seq<Product>, query: string)
    requires NormalizedQuery(query) != ""
    ensures var matches := AllMatches(all, NormalizedQuery(query));
      var r := Search(all, query);
      && |r| == Min(MaxResults, |matches|)
      && r == matches[..|r|]
      && (|matches| <= MaxResults ==> r == matches)
  {
  }

  /** A matching catalog product is left out only when the fifty slots are taken. */
  lemma {:induction false} SearchDropsOnlyAtCap(all: seq<Product>, query: string, p: Product)
    requires NormalizedQuery(query) != ""
    requires p in all && Matches(p, NormalizedQuery(query))
    requires p !in Search(all, query)
    ensures |Search(all, query)| == MaxResults
  {
    var matches := AllMatches(all, NormalizedQuery(query));
    SearchIsFirstMatches(all, query);
    assert p in matches;
  }

  /** `cartItems.some(item => item.product_id === product.product_id)`. */
  function IsAdded(cart: seq<CartItem>, product: Product): (r: bool)
    ensures r <==> InCart(cart, product.product_id)
  {
    if cart == [] then false
    else if IdOf(cart[0]) == product.product_id then true
    else
      var rest := IsAdded(cart[1..], product);
      assert InCart(cart[1..], product.product_id) ==> InCart(cart, product.product_id) by {
        if InCart(cart[1..], product.product_id) {
          var k :| 0 <= k < |cart[1..]| && IdOf(cart[1..][k]) == product.product_id;
          assert IdOf(cart[k + 1]) == product.product_id;
        }
      }
      assert InCart(cart, product.product_id) ==> InCart(cart[1..], product.product_id) by {
        if InCart(cart, product.product_id) {
          var k :| 0 <= k < |cart| && IdOf(cart[k]) == product.product_id;
          assert k > 0 && IdOf(cart[1..][k - 1]) == product.product_id;
        }
      }
      rest
  }

  /** A product just added to the cart shows as added; one just removed does not. */
  lemma AddedMarkFollowsCart(cart: seq<CartItem>, product: Product)
    ensures IsAdded(AddToCart(cart, product), product)
    ensures !IsAdded(RemoveItem(cart, product.product_id), product)
  {
  }
}
