/** The reducer-based cart of screens/Productos/CartContext.js: lines that pair a
    product snapshot with a quantity (`cantidad`), merged by product id. */
module NestedCart {
  import opened Catalog

  /** One cart line: the product as it was first added, and how many. */
  datatype Line = Line(producto: Product, cantidad: int)

  /** The reducer state `{ items }`. */
  datatype CartState = CartState(items: seq<Line>)

  /** The action types the reducer distinguishes; any other `type` is `Unrecognised`. */
  datatype Action =
    | AddToCart(payload: Product)
    | RemoveFromCart(id: string)
    | ClearCart
    | Unrecognised(kind: string)

  /** `initialState`: no lines. */
  const InitialState: CartState := CartState([])

  /** `findIndex` on the product id: the first matching line, or -1. */
  function FindIndex(items: seq<Line>, id: string): (r: int)
    ensures -1 <= r < |items|
    ensures r == -1 <==> forall k :: 0 <= k < |items| ==> items[k].producto.id != id
    ensures r >= 0 ==> items[r].producto.id == id
    ensures r >= 0 ==> forall k :: 0 <= k < r ==> items[k].producto.id != id
  {
    if items == [] then -1
    else if items[0].producto.id == id then 0
    else
      var j := FindIndex(items[1..], id);
      if j == -1 then -1 else j + 1
  }

  /** `items.filter(item => item.producto._id !== id)`. */
  function Without(items: seq<Line>, id: string): (r: seq<Line>)
    ensures |r| <= |items|
    ensures forall l :: l in r <==> l in items && l.producto.id != id
  {
    if items == [] then []
    else (if items[0].producto.id != id then [items[0]] else []) + Without(items[1..], id)
  }

  /** The reducer. ADD increments the first line with the payload's id, keeping
      that line's product snapshot, or appends a new line with quantity 1;
      REMOVE filters out every line with the id; CLEAR returns the initial
      state; anything else returns the state unchanged. */
  function Reduce(s: CartState, a: Action): CartState
  {
    match a
    case AddToCart(p) =>
      var i := FindIndex(s.items, p.id);
      if i >= 0 then CartState(s.items[i := s.items[i].(cantidad := s.items[i].cantidad + 1)])
      else CartState(s.items + [Line(p, 1)])
    case RemoveFromCart(id) => CartState(Without(s.items, id))
    case ClearCart => InitialState
    case Unrecognised(_) => s
  }

  /** Replays a sequence of dispatched actions, first to last. */
  function ReduceAll(s: CartState, actions: seq<Action>): CartState
    decreases |actions|
  {
    if actions == [] then s else ReduceAll(Reduce(s, actions[0]), actions[1..])
  }

  /** At most one line per product id. */
  ghost predicate UniqueIds(items: seq<Line>) {
    forall i, j :: 0 <= i < j < |items| ==> items[i].producto.id != items[j].producto.id
  }

  /** Every line holds at least one unit. */
  ghost predicate Positive(items: seq<Line>) {
    forall k :: 0 <= k < |items| ==> items[k].cantidad >= 1
  }

  /** The invariant of every state reachable from `InitialState`. */
  ghost predicate WellFormed(s: CartState) {
    UniqueIds(s.items) && Positive(s.items)
  }

  /** ADD of a product that already has a line: that line's quantity goes up by
      exactly one, its snapshot is kept, and no other line changes or appears. */
  lemma AddExisting(s: CartState, p: Product, k: nat)
    requires k < |s.items| && s.items[k].producto.id == p.id
    requires UniqueIds(s.items)
    ensures |Reduce(s, AddToCart(p)).items| == |s.items|
    ensures Reduce(s, AddToCart(p)).items[k] == s.items[k].(cantidad := s.items[k].cantidad + 1)
    ensures forall j :: 0 <= j < |s.items| && j != k ==> Reduce(s, AddToCart(p)).items[j] == s.items[j]
  {
    assert FindIndex(s.items, p.id) == k;
  }

  /** ADD of a product with no line appends `{producto, cantidad: 1}` at the end. */
  lemma AddNew(s: CartState, p: Product)
    requires forall k :: 0 <= k < |s.items| ==> s.items[k].producto.id != p.id
    ensures Reduce(s, AddToCart(p)).items == s.items + [Line(p, 1)]
  {
  }

  /** Filtering keeps the relative order: it distributes over concatenation. */
  lemma {:induction false} WithoutOfConcat(a: seq<Line>, b: seq<Line>, id: string)
    ensures Without(a + b, id) == Without(a, id) + Without(b, id)
  {
    if a == [] {
      assert a + b == b;
    } else {
      assert (a + b)[1..] == a[1..] + b;
      WithoutOfConcat(a[1..], b, id);
    }
  }

  /** Removing an id that has no line changes nothing. */
  lemma {:induction false} WithoutAbsent(items: seq<Line>, id: string)
    requires forall k :: 0 <= k < |items| ==> items[k].producto.id != id
    ensures Without(items, id) == items
  {
    if items != [] {
      WithoutAbsent(items[1..], id);
    }
  }

  /** REMOVE is idempotent, and a no-op when the id has no line. */
  lemma RemoveIdempotent(s: CartState, id: string)
    ensures Reduce(Reduce(s, RemoveFromCart(id)), RemoveFromCart(id)) == Reduce(s, RemoveFromCart(id))
    ensures (forall k :: 0 <= k < |s.items| ==> s.items[k].producto.id != id) ==>
              Reduce(s, RemoveFromCart(id)) == s
  {
    var r := Without(s.items, id);
    forall k | 0 <= k < |r| ensures r[k].producto.id != id {
      assert r[k] in r;
    }
    WithoutAbsent(r, id);
    if forall k :: 0 <= k < |s.items| ==> s.items[k].producto.id != id {
      WithoutAbsent(s.items, id);
    }
  }

  /** When line `k` is the only line with `id`, filtering `id` out deletes exactly line `k`. */
  lemma {:induction false} WithoutOnlyAt(items: seq<Line>, id: string, k: nat)
    requires k < |items| && items[k].producto.id == id
    requires forall j :: 0 <= j < |items| && j != k ==> items[j].producto.id != id
    ensures Without(items, id) == items[..k] + items[k + 1..]
  {
    var tail := items[1..];
    if k == 0 {
      WithoutAbsent(tail, id);
    } else {
      assert items[0].producto.id != id;
      assert tail[k - 1] == items[k];
      WithoutOnlyAt(tail, id, k - 1);
      assert tail[..k - 1] == items[1..k];
      assert tail[k..] == items[k + 1..];
      assert items[..k] == [items[0]] + items[1..k];
    }
  }

  /** With one line per id, REMOVE deletes exactly that line. */
  lemma WithoutUnique(items: seq<Line>, k: nat)
    requires k < |items| && UniqueIds(items)
    ensures Without(items, items[k].producto.id) == items[..k] + items[k + 1..]
  {
    WithoutOnlyAt(items, items[k].producto.id, k);
  }

  /** Filtering keeps no duplicate ids and no empty line it did not already have. */
  lemma {:induction false} WithoutWellFormed(items: seq<Line>, id: string)
    requires UniqueIds(items) && Positive(items)
    ensures UniqueIds(Without(items, id)) && Positive(Without(items, id))
  {
    if items != [] {
      WithoutWellFormed(items[1..], id);
      var rest := Without(items[1..], id);
      forall k | 0 <= k < |rest| ensures rest[k] in items[1..] {
        assert rest[k] in rest;
      }
      forall k | 0 <= k < |rest| ensures rest[k].producto.id != items[0].producto.id {
        assert rest[k] in items[1..];
        var j :| 0 <= j < |items[1..]| && items[1..][j] == rest[k];
        assert items[j + 1] == rest[k];
      }
    }
  }

  /** Every action keeps the invariant. */
  lemma ReducePreservesWellFormed(s: CartState, a: Action)
    requires WellFormed(s)
    ensures WellFormed(Reduce(s, a))
  {
    match a
    case AddToCart(p) =>
      var i := FindIndex(s.items, p.id);
      if i < 0 {
        var r := s.items + [Line(p, 1)];
        forall x, y | 0 <= x < y < |r| ensures r[x].producto.id != r[y].producto.id {
          if y == |s.items| { assert r[x] == s.items[x]; }
        }
      }
    case RemoveFromCart(id) =>
      WithoutWellFormed(s.items, id);
    case ClearCart =>
    case Unrecognised(_) =>
  }

  /** From the initial state, any sequence of actions leaves at most one line per
      product id and at least one unit on every line. */
  lemma {:induction false} ReachableWellFormed(s: CartState, actions: seq<Action>)
    requires WellFormed(s)
    ensures WellFormed(ReduceAll(s, actions))
    decreases |actions|
  {
    if actions != [] {
      ReducePreservesWellFormed(s, actions[0]);
      ReachableWellFormed(Reduce(s, actions[0]), actions[1..]);
    }
  }

  /** CLEAR yields the empty state whatever came before; an unrecognised action
      changes nothing. */
  lemma ClearAndUnrecognised(s: CartState, kind: string)
    ensures Reduce(s, ClearCart).items == []
    ensures Reduce(s, Unrecognised(kind)) == s
  {
  }

  /** `CartProvider`: the `useReducer` state behind the context, and the three
      dispatchers it exposes. */
  class CartProvider {
    var state: CartState

    ghost predicate Valid()
      reads this
    {
      WellFormed(state)
    }

    /** The `cartItems` value the provider publishes. */
    function CartItems(): seq<Line>
      reads this
    {
      state.items
    }

    constructor ()
      ensures Valid() && state == InitialState
    {
      state := InitialState;
    }

    method AddToCart(producto: Product)
      requires Valid()
      modifies this
      ensures Valid() && state == Reduce(old(state), Action.AddToCart(producto))
    {
      ReducePreservesWellFormed(state, Action.AddToCart(producto));
      state := Reduce(state, Action.AddToCart(producto));
    }

    method RemoveFromCart(id: string)
      requires Valid()
      modifies this
      ensures Valid() && state == Reduce(old(state), Action.RemoveFromCart(id))
    {
      ReducePreservesWellFormed(state, Action.RemoveFromCart(id));
      state := Reduce(state, Action.RemoveFromCart(id));
    }

    method ClearCart()
      requires Valid()
      modifies this
      ensures Valid() && state == Reduce(old(state), Action.ClearCart)
    {
      state := Reduce(state, Action.ClearCart);
    }
  }
}
