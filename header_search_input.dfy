/** components/HeaderSearchInput.js: the header's search box. */
module HeaderSearchInput {

  /** The characters `trim` removes, restricted to the common ones: space, tab,
      line feed, vertical tab, form feed, carriage return, no-break space and
      the byte-order mark. */
  predicate IsWhitespace(c: char) {
    c == ' ' || c == '\t' || c == '\n' || c == '\U{000B}' || c == '\U{000C}' || c == '\r'
    || c == '\U{00A0}' || c == '\U{FEFF}'
  }

  /** Every character is whitespace (the empty string included). */
  predicate IsBlank(s: string) {
    forall i :: 0 <= i < |s| ==> IsWhitespace(s[i])
  }

  /** Drops leading whitespace. */
  function TrimStart(s: string): (r: string)
    ensures |r| <= |s| && r == s[|s| - |r|..]
    ensures r == [] || !IsWhitespace(r[0])
    ensures forall i :: 0 <= i < |s| - |r| ==> IsWhitespace(s[i])
  {
    if s != [] && IsWhitespace(s[0]) then
      var r := TrimStart(s[1..]);
      assert forall i :: 1 <= i < |s| - |r| ==> s[1..][i - 1] == s[i];
      r
    else s
  }

  /** Drops trailing whitespace. */
  function TrimEnd(s: string): (r: string)
    ensures |r| <= |s| && r == s[..|r|]
    ensures r == [] || !IsWhitespace(r[|r| - 1])
    ensures forall i :: |r| <= i < |s| ==> IsWhitespace(s[i])
  {
    if s != [] && IsWhitespace(s[|s| - 1]) then
      var r := TrimEnd(s[..|s| - 1]);
      assert forall i :: |r| <= i < |s| - 1 ==> s[..|s| - 1][i] == s[i];
      r
    else s
  }

  /** `String.prototype.trim`. */
  function Trim(s: string): string {
    TrimEnd(TrimStart(s))
  }

  /** The trimmed query is empty exactly when the query is blank. */
  lemma TrimEmptyIffBlank(s: string)
    ensures Trim(s) == "" <==> IsBlank(s)
  {
    var t := TrimStart(s);
    if t != [] {
      assert t[0] == s[|s| - |t|];
    }
  }

  /** A navigation the search box triggers. */
  datatype Route = Busqueda(query: string)

  class SearchInput {
    var query: string
    var navigations: seq<Route>

    constructor ()
      ensures query == "" && navigations == []
    {
      query, navigations := "", [];
    }

    /** `onChangeText`: the box's text becomes the query. */
    method SetQuery(text: string)
      modifies this
      ensures query == text && navigations == old(navigations)
    {
      query := text;
    }

    /** `handleSearch`, bound both to the keyboard's submit and to the arrow
      button: a blank query does nothing; otherwise navigate to the results with
      the query as typed, untrimmed, and empty the box. */
    method HandleSearch()
      modifies this
      ensures IsBlank(old(query)) ==> query == old(query) && navigations == old(navigations)
      ensures !IsBlank(old(query)) ==> query == "" && navigations == old(navigations) + [Busqueda(old(query))]
    {
      TrimEmptyIffBlank(query);
      if Trim(query) != "" {
        navigations := navigations + [Busqueda(query)];
        query := "";
      }
    }
  }
}
