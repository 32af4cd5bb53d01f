/** The totals shown by screens/Productos/CarritoScreen.js over the nested cart. */
module CarritoScreen {
  import opened Catalog
  import opened NestedCart

  /** The "Subtotal" shown for one line: `producto.precio * cantidad`. */
  function LineSubtotal(l: Line): real {
    l.producto.precio * l.cantidad as real
  }

  /** `calcularTotal`: the `reduce` from 0 that adds each line's subtotal, first line first. */
  function CalcularTotal(items: seq<Line>): real
    decreases |items|
  {
    if items == [] then 0.0
    else CalcularTotal(items[..|items| - 1]) + LineSubtotal(items[|items| - 1])
  }

  /** The subtotals as the list renders them, one per line, in order. */
  function DisplayedSubtotals(items: seq<Line>): seq<real> {
    seq(|items|, k requires 0 <= k < |items| => LineSubtotal(items[k]))
  }

  /** The plain sum of a list of amounts, head first. */
  function Sum(xs: seq<real>): real {
    if xs == [] then 0.0 else xs[0] + Sum(xs[1..])
  }

  /** The footer with the total and the "clear" button is rendered only for a non-empty cart. */
  predicate ShowsFooter(items: seq<Line>) {
    |items| > 0
  }

  /** The total of a concatenation is the sum of the totals. */
  lemma {:induction false} TotalOfConcat(a: seq<Line>, b: seq<Line>)
    ensures CalcularTotal(a + b) == CalcularTotal(a) + CalcularTotal(b)
    decreases |b|
  {
    if b == [] {
      assert a + b == a;
    } else {
      var n := |b| - 1;
      assert (a + b)[..|a + b| - 1] == a + b[..n];
      TotalOfConcat(a, b[..n]);
    }
  }

  /** An empty cart totals 0 and a one-line cart totals that line's subtotal. */
  lemma TotalOfSmallCarts(l: Line)
    ensures CalcularTotal([]) == 0.0
    ensures CalcularTotal([l]) == LineSubtotal(l)
  {
    assert [l][..0] == [];
  }

  /** The total equals the sum of the per-line subtotals the list displays. */
  lemma {:induction false} TotalIsSumOfDisplayedSubtotals(items: seq<Line>)
    ensures CalcularTotal(items) == Sum(DisplayedSubtotals(items))
  {
    if items != [] {
      TotalIsSumOfDisplayedSubtotals(items[1..]);
      TotalOfConcat([items[0]], items[1..]);
      assert [items[0]] + items[1..] == items;
      TotalOfSmallCarts(items[0]);
      assert DisplayedSubtotals(items)[1..] == DisplayedSubtotals(items[1..]);
    }
  }

  /** Removing a line with its button lowers the total by exactly that line's
      subtotal, given the reducer's one-line-per-id invariant. */
  lemma RemoveLowersTotalByLineSubtotal(s: CartState, k: nat)
    requires WellFormed(s) && k < |s.items|
    ensures CalcularTotal(Reduce(s, RemoveFromCart(s.items[k].producto.id)).items)
            == CalcularTotal(s.items) - LineSubtotal(s.items[k])
  {
    var items := s.items;
    WithoutUnique(items, k);
    assert items == items[..k] + [items[k]] + items[k + 1..];
    TotalOfConcat(items[..k] + [items[k]], items[k + 1..]);
    TotalOfConcat(items[..k], [items[k]]);
    TotalOfConcat(items[..k], items[k + 1..]);
    TotalOfSmallCarts(items[k]);
  }
}
