/** The badge of screens/Productos/FloatingCartButton.js over the nested cart. */
module FloatingCartButton {
  import opened Catalog
  import opened NestedCart
  import CarritoScreen

  /** `cantidadTotal`: the `reduce` from 0 that adds each line's `cantidad`. */
  function CantidadTotal(items: seq<Line>): int
    decreases |items|
  {
    if items == [] then 0
    else CantidadTotal(items[..|items| - 1]) + items[|items| - 1].cantidad
  }

  /** The button renders nothing when the count is 0. */
  predicate IsHidden(items: seq<Line>) {
    CantidadTotal(items) == 0
  }

  /** The count of a concatenation is the sum of the counts. */
  lemma {:induction false} CountOfConcat(a: seq<Line>, b: seq<Line>)
    ensures CantidadTotal(a + b) == CantidadTotal(a) + CantidadTotal(b)
    decreases |b|
  {
    if b == [] {
      assert a + b == a;
    } else {
      var n := |b| - 1;
      assert (a + b)[..|a + b| - 1] == a + b[..n];
      CountOfConcat(a, b[..n]);
    }
  }

  /** With every line holding at least one unit, the count is at least the
      number of lines. */
  lemma {:induction false} CountAtLeastLines(items: seq<Line>)
    requires Positive(items)
    ensures CantidadTotal(items) >= |items|
    decreases |items|
  {
    if items != [] {
      CountAtLeastLines(items[..|items| - 1]);
    }
  }

  /** Under the reducer's invariant the button is hidden exactly when the cart
      is empty, which is also exactly when the cart screen hides its footer. */
  lemma HiddenIffEmpty(s: CartState)
    requires WellFormed(s)
    ensures IsHidden(s.items) <==> s.items == []
    ensures IsHidden(s.items) <==> !CarritoScreen.ShowsFooter(s.items)
  {
    CountAtLeastLines(s.items);
  }

  /** Replacing one line changes the count by the difference of the two quantities. */
  lemma CountAfterUpdate(items: seq<Line>, k: nat, l: Line)
    requires k < |items|
    ensures CantidadTotal(items[k := l]) == CantidadTotal(items) - items[k].cantidad + l.cantidad
  {
    var a, b := items[..k], items[k + 1..];
    assert items == a + [items[k]] + b;
    assert items[k := l] == a + [l] + b;
    CountOfConcat(a + [items[k]], b);
    CountOfConcat(a, [items[k]]);
    CountOfConcat(a + [l], b);
    CountOfConcat(a, [l]);
    assert [items[k]][..0] == [] && [l][..0] == [];
  }

  /** Every ADD raises the badge count by exactly one; CLEAR brings it to 0. */
  lemma AddRaisesCountByOne(s: CartState, p: Product)
    ensures CantidadTotal(Reduce(s, AddToCart(p)).items) == CantidadTotal(s.items) + 1
    ensures CantidadTotal(Reduce(s, ClearCart).items) == 0
  {
    var i := FindIndex(s.items, p.id);
    if i >= 0 {
      CountAfterUpdate(s.items, i, s.items[i].(cantidad := s.items[i].cantidad + 1));
    } else {
      CountOfConcat(s.items, [Line(p, 1)]);
      assert [Line(p, 1)][..0] == [];
    }
  }
}
