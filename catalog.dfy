/** Products as the catalogue service returns them, the signed-in user, and the
    visibility rule the two catalogue screens share. */
module Catalog {
  import opened Wrappers

  /** A product record: `_id`, `nombre`, `precio`, `existencia`, `categoria`.
      Prices are modelled as reals (the source uses JavaScript numbers). */
  datatype Product = Product(id: string, nombre: string, precio: real, existencia: int, categoria: string)

  /** The authenticated user; only its `role` matters to the core. */
  datatype User = User(name: string, email: string, role: string)

  /** `user?.role === 'admin'`: a missing user is not an administrator. */
  function IsAdmin(user: Option<User>): bool {
    user.Some? && user.value.role == "admin"
  }

  /** The per-product test of the visibility filter: an administrator sees
      everything, a customer only what is in stock. */
  predicate Visible(p: Product, isAdmin: bool) {
    isAdmin || p.existencia > 0
  }

  /** `productos.filter(...)` with the visibility test, order preserved. */
  function VisibleProducts(productos: seq<Product>, isAdmin: bool): (r: seq<Product>)
    ensures |r| <= |productos|
    ensures forall p :: p in r <==> p in productos && Visible(p, isAdmin)
  {
    if productos == [] then []
    else (if Visible(productos[0], isAdmin) then [productos[0]] else [])
         + VisibleProducts(productos[1..], isAdmin)
  }

  /** The low-stock badge ("¡Últimas n!") shows when `existencia <= 5`, zero included. */
  predicate LowStock(p: Product) {
    p.existencia <= 5
  }

  /** `a` can be obtained from `b` by deleting elements: the order of `a` is that of `b`. */
  predicate IsSubsequence<T(==)>(a: seq<T>, b: seq<T>)
    decreases |b|
  {
    if a == [] then true
    else if b == [] then false
    else if a[0] == b[0] then IsSubsequence(a[1..], b[1..])
    else IsSubsequence(a, b[1..])
  }

  /** Prepending an element to `b` keeps `a` a subsequence of it. */
  lemma {:induction false} SubsequenceOfTail<T>(a: seq<T>, b: seq<T>)
    requires b != [] && IsSubsequence(a, b[1..])
    ensures IsSubsequence(a, b)
    decreases |b|, 0
  {
    if a != [] && a[0] == b[0] {
      SubsequenceDropHead(a, b[1..]);
    }
  }

  /** Dropping the first element of a subsequence leaves a subsequence. */
  lemma {:induction false} SubsequenceDropHead<T>(a: seq<T>, c: seq<T>)
    requires a != [] && IsSubsequence(a, c)
    ensures IsSubsequence(a[1..], c)
    decreases |c|, 1
  {
    if a[0] == c[0] {
      if a[1..] != [] {
        SubsequenceOfTail(a[1..], c);
      }
    } else {
      SubsequenceDropHead(a, c[1..]);
      if a[1..] != [] {
        SubsequenceOfTail(a[1..], c);
      }
    }
  }

  /** For an administrator the filter keeps the whole list. */
  lemma {:induction false} AdminSeesEverything(productos: seq<Product>)
    ensures VisibleProducts(productos, true) == productos
  {
    if productos != [] {
      AdminSeesEverything(productos[1..]);
    }
  }

  /** The visible list keeps the catalogue's order: it is a subsequence of it. */
  lemma {:induction false} VisibleIsSubsequence(productos: seq<Product>, isAdmin: bool)
    ensures IsSubsequence(VisibleProducts(productos, isAdmin), productos)
  {
    if productos != [] {
      var rest := VisibleProducts(productos[1..], isAdmin);
      VisibleIsSubsequence(productos[1..], isAdmin);
      if Visible(productos[0], isAdmin) {
        assert VisibleProducts(productos, isAdmin) == [productos[0]] + rest;
      } else {
        assert VisibleProducts(productos, isAdmin) == rest;
        SubsequenceOfTail(rest, productos);
      }
    }
  }

  /** The filter distributes over concatenation; together with its effect on a
      one-element list this determines it completely. */
  lemma {:induction false} VisibleOfConcat(a: seq<Product>, b: seq<Product>, isAdmin: bool)
    ensures VisibleProducts(a + b, isAdmin) == VisibleProducts(a, isAdmin) + VisibleProducts(b, isAdmin)
  {
    if a == [] {
      assert a + b == b;
    } else {
      assert (a + b)[1..] == a[1..] + b;
      VisibleOfConcat(a[1..], b, isAdmin);
    }
  }

  /** A customer's list is exactly the in-stock products: nothing with
      `existencia <= 0` survives, and every in-stock product does. */
  lemma CustomerSeesOnlyInStock(productos: seq<Product>, p: Product)
    ensures p in VisibleProducts(productos, false) <==> p in productos && p.existencia > 0
  {
  }
}
