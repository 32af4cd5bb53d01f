/** The tab-bar badge of components/CartIcon.js over the flat cart. */
module CartIcon {
  import opened FlatCart

  /** `itemCount`: the `reduce` from 0 that adds each item's `quantity`. */
  function ItemCount(cart: seq<FlatItem>): int
    decreases |cart|
  {
    if cart == [] then 0
    else ItemCount(cart[..|cart| - 1]) + cart[|cart| - 1].quantity
  }

  /** The red badge renders when the count is positive. */
  predicate ShowsBadge(cart: seq<FlatItem>) {
    ItemCount(cart) > 0
  }

  /** An empty cart counts 0, so shows no badge. */
  lemma EmptyCartHasNoBadge()
    ensures ItemCount([]) == 0 && !ShowsBadge([])
  {
  }

  /** With no negative quantity the count is non-negative and at least every
      single quantity; so any item with a positive quantity makes the badge show. */
  lemma {:induction false} CountBoundsEachQuantity(cart: seq<FlatItem>)
    requires forall k :: 0 <= k < |cart| ==> cart[k].quantity >= 0
    ensures ItemCount(cart) >= 0
    ensures forall k :: 0 <= k < |cart| ==> ItemCount(cart) >= cart[k].quantity
    ensures (exists k :: 0 <= k < |cart| && cart[k].quantity > 0) ==> ShowsBadge(cart)
    decreases |cart|
  {
    if cart != [] {
      CountBoundsEachQuantity(cart[..|cart| - 1]);
      forall k | 0 <= k < |cart| - 1 ensures ItemCount(cart) >= cart[k].quantity {
        assert cart[..|cart| - 1][k] == cart[k];
      }
    }
  }
}
