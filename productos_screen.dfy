/** screens/Productos/ProductosScreen.js: the catalogue list, optionally for one
    category, with the customer/administrator visibility rule. */
module ProductosScreen {
  import opened Wrappers
  import opened Catalog

  const ProductosPathBase: string := "/productos"
  const CategoryPathPrefix: string := "/productos/categoria/"

  /** `route.params?.categoria || null`: a missing or empty category means none. */
  function SelectedCategory(param: Option<string>): Option<string> {
    if param.Some? && param.value != "" then param else None
  }

  /** The endpoint `fetchProductos` reads: the category's list when one is
      selected, the whole catalogue otherwise. */
  function ProductosPath(param: Option<string>): string {
    match SelectedCategory(param)
    case Some(c) => CategoryPathPrefix + c
    case None => ProductosPathBase
  }

  /** Reads the category back out of an endpoint path. */
  function CategoryOfPath(path: string): Option<string> {
    if |path| > |CategoryPathPrefix| && path[..|CategoryPathPrefix|] == CategoryPathPrefix
    then Some(path[|CategoryPathPrefix|..])
    else None
  }

  /** The endpoint determines the selected category: reading it back from the
      path gives the category exactly when one was selected. */
  lemma PathNamesCategory(param: Option<string>)
    ensures CategoryOfPath(ProductosPath(param)) == SelectedCategory(param)
    ensures SelectedCategory(param).None? ==> ProductosPath(param) == "/productos"
  {
    match SelectedCategory(param)
    case Some(c) =>
      var path := CategoryPathPrefix + c;
      assert path[..|CategoryPathPrefix|] == CategoryPathPrefix;
      assert path[|CategoryPathPrefix|..] == c;
    case None =>
  }

  /** The list the screen hands to its `FlatList` as written: the unfiltered
      `productos`; the filtered `visibleProducts` is computed and never used. */
  function RenderedListAsWritten(productos: seq<Product>, user: Option<User>): seq<Product> {
    productos
  }

  /** As written, a signed-out customer is shown a product with no stock. */
  lemma OutOfStockShownToCustomer()
    ensures var p := Product("p1", "Taza", 10.0, 0, "Cocina");
            p in RenderedListAsWritten([p], None) && !IsAdmin(None) && p.existencia <= 0
            && p !in RenderedList([p], None)
  {
    var p := Product("p1", "Taza", 10.0, 0, "Cocina");
    CustomerSeesOnlyInStock([p], p);
  }

  /** The list the screen evidently means to render: `visibleProducts`. */
  function RenderedList(productos: seq<Product>, user: Option<User>): seq<Product> {
    VisibleProducts(productos, IsAdmin(user))
  }

  /** With the intended list, an administrator sees the whole catalogue in order,
      and a customer sees only in-stock products, in catalogue order, every
      low-stock badge among them showing between 1 and 5 units. */
  lemma RenderedListRespectsRole(productos: seq<Product>, user: Option<User>, p: Product)
    ensures IsAdmin(user) ==> RenderedList(productos, user) == productos
    ensures IsSubsequence(RenderedList(productos, user), productos)
    ensures !IsAdmin(user) ==> (p in RenderedList(productos, user) <==> p in productos && p.existencia > 0)
    ensures !IsAdmin(user) && p in RenderedList(productos, user) && LowStock(p) ==> 1 <= p.existencia <= 5
  {
    if IsAdmin(user) {
      AdminSeesEverything(productos);
    }
    VisibleIsSubsequence(productos, IsAdmin(user));
  }

  /** The reply to the catalogue read: the request rejected with a message, or a
      body with its `success` flag and its `data` list (absent when missing). */
  datatype FetchReply = FetchThrew(message: string) | FetchOk(success: bool, data: Option<seq<Product>>)

  const LoadError: string := "No se pudieron cargar los productos."

  /** The screen's state. */
  class Screen {
    const categoria: Option<string>
    var productos: seq<Product>
    var loading: bool
    var error: Option<string>
    var refreshing: bool
    var fetched: seq<string>

    constructor (categoria: Option<string>)
      ensures this.categoria == categoria && productos == [] && loading && error == None
      ensures !refreshing && fetched == []
    {
      this.categoria := categoria;
      productos, loading, error, refreshing, fetched := [], true, None, false, [];
    }

    /** `fetchProductos`: read the endpoint, keep the list on a successful reply
      that carries one (an empty list included), record an error otherwise;
      an earlier error is never cleared. Loading and refreshing end either way. */
    method FetchProductos(reply: FetchReply)
      modifies this
      ensures fetched == old(fetched) + [ProductosPath(categoria)]
      ensures !loading && !refreshing
      ensures productos == (if reply.FetchOk? && reply.success && reply.data.Some?
                            then reply.data.value else old(productos))
      ensures error == (match reply
                        case FetchThrew(m) => Some(m)
                        case FetchOk(ok, data) => if ok && data.Some? then old(error) else Some(LoadError))
    {
      loading := true;
      fetched := fetched + [ProductosPath(categoria)];
      match reply {
        case FetchThrew(m) =>
          error := Some(m);
        case FetchOk(ok, data) =>
          if ok && data.Some? {
            productos := data.value;
          } else {
            error := Some(LoadError);
          }
      }
      loading := false;
      refreshing := false;
    }

    /** `handleRefresh`: raise the refreshing flag, then fetch again. */
    method HandleRefresh(reply: FetchReply)
      modifies this
      ensures fetched == old(fetched) + [ProductosPath(categoria)]
      ensures !loading && !refreshing
      ensures productos == (if reply.FetchOk? && reply.success && reply.data.Some?
                            then reply.data.value else old(productos))
      ensures error == (match reply
                        case FetchThrew(m) => Some(m)
                        case FetchOk(ok, data) => if ok && data.Some? then old(error) else Some(LoadError))
    {
      refreshing := true;
      FetchProductos(reply);
    }
  }
}
