/** screens/BusquedaScreen.js: search results, filtered by role. */
module BusquedaScreen {
  import opened Wrappers
  import opened Catalog

  const SearchPrefix: string := "/productos?search="

  /** The search endpoint: the query appended verbatim, with no URL encoding. */
  function SearchPath(query: string): string {
    SearchPrefix + query
  }

  /** Reads the query back out of a search path. */
  function QueryOfPath(path: string): Option<string> {
    if |path| >= |SearchPrefix| && path[..|SearchPrefix|] == SearchPrefix
    then Some(path[|SearchPrefix|..])
    else None
  }

  /** The query travels unaltered: it is read back exactly, and distinct queries
      give distinct paths. */
  lemma SearchPathRoundTrip(query: string, other: string)
    ensures QueryOfPath(SearchPath(query)) == Some(query)
    ensures SearchPath(query) == SearchPath(other) ==> query == other
  {
    assert SearchPath(query)[..|SearchPrefix|] == SearchPrefix;
    assert SearchPath(query)[|SearchPrefix|..] == query;
    assert SearchPath(other)[|SearchPrefix|..] == other;
  }

  /** "Sin existencias" shows for an administrator on a product with exactly zero stock. */
  predicate ShowsOutOfStockLabel(isAdmin: bool, p: Product) {
    isAdmin && p.existencia == 0
  }

  /** The rendered list is `visibleProducts`: everything for an administrator;
      for a customer exactly the results in stock, in order, so a customer never
      sees a product with no stock nor the "Sin existencias" label, and a
      low-stock badge shown to a customer means 1 to 5 units. */
  lemma RenderedResultsRespectRole(results: seq<Product>, user: Option<User>, p: Product)
    ensures IsAdmin(user) ==> VisibleProducts(results, IsAdmin(user)) == results
    ensures IsSubsequence(VisibleProducts(results, IsAdmin(user)), results)
    ensures !IsAdmin(user) ==> (p in VisibleProducts(results, false) <==> p in results && p.existencia > 0)
    ensures !IsAdmin(user) && p in VisibleProducts(results, false) ==>
              !ShowsOutOfStockLabel(IsAdmin(user), p) && (LowStock(p) ==> 1 <= p.existencia <= 5)
  {
    if IsAdmin(user) {
      AdminSeesEverything(results);
    }
    VisibleIsSubsequence(results, IsAdmin(user));
  }

  /** The reply to the search read, as for the catalogue list. */
  datatype SearchReply = SearchThrew(message: string) | SearchOk(success: bool, data: Option<seq<Product>>)

  const SearchError: string := "No se pudieron cargar los resultados."

  class Screen {
    const query: string
    var productos: seq<Product>
    var loading: bool
    var error: Option<string>
    var fetched: seq<string>

    constructor (query: string)
      ensures this.query == query && productos == [] && loading && error == None && fetched == []
    {
      this.query := query;
      productos, loading, error, fetched := [], true, None, [];
    }

    /** `fetchResultados`: read the search path, keep a list the reply carries,
      record an error otherwise; loading ends either way. */
    method FetchResultados(reply: SearchReply)
      modifies this
      ensures fetched == old(fetched) + [SearchPath(query)]
      ensures !loading
      ensures productos == (if reply.SearchOk? && reply.success && reply.data.Some?
                            then reply.data.value else old(productos))
      ensures error == (match reply
                        case SearchThrew(m) => Some(m)
                        case SearchOk(ok, data) => if ok && data.Some? then old(error) else Some(SearchError))
    {
      fetched := fetched + [SearchPath(query)];
      match reply {
        case SearchThrew(m) =>
          error := Some(m);
        case SearchOk(ok, data) =>
          if ok && data.Some? {
            productos := data.value;
          } else {
            error := Some(SearchError);
          }
      }
      loading := false;
    }
  }
}
