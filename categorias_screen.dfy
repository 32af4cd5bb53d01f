/** screens/CategoriasScreen.js: category names turned into cards with an image URL. */
module CategoriasScreen {
  import opened Wrappers

  /** The endpoint `obtenerCategorias` reads. */
  const CategoriasEndpoint: string := "http://192.168.1.65:5000/api/categorias"

  const UploadsBase: string := "http://192.168.1.65:5000/uploads/"
  const ImageSuffix: string := ".jpg"

  /** One category card: the name as received and its image URL. */
  datatype Categoria = Categoria(nombre: string, imagenUrl: string)

  /** `toLowerCase` on one character, for the ASCII letters. */
  function LowerChar(c: char): char {
    if 'A' <= c <= 'Z' then (c as int + 32) as char else c
  }

  /** `toLowerCase`, character by character. */
  function ToLower(s: string): (r: string)
    ensures |r| == |s|
    ensures forall i :: 0 <= i < |s| ==> r[i] == LowerChar(s[i])
  {
    if s == [] then [] else [LowerChar(s[0])] + ToLower(s[1..])
  }

  /** The image URL of a category: the uploads base, the lower-cased name, ".jpg". */
  function ImagenUrl(categoria: string): string {
    UploadsBase + ToLower(categoria) + ImageSuffix
  }

  /** The `map` over the names returned by the categories endpoint. */
  function FormatCategorias(categorias: seq<string>): (r: seq<Categoria>)
    ensures |r| == |categorias|
    ensures forall i :: 0 <= i < |r| ==> r[i] == Categoria(categorias[i], ImagenUrl(categorias[i]))
  {
    if categorias == [] then []
    else [Categoria(categorias[0], ImagenUrl(categorias[0]))] + FormatCategorias(categorias[1..])
  }

  /** Two categories get the same image URL exactly when their lower-cased names
      agree: names differing only in letter case share an image, and no other
      names do. */
  lemma SameUrlIffSameLowercase(a: string, b: string)
    ensures ImagenUrl(a) == ImagenUrl(b) <==> ToLower(a) == ToLower(b)
  {
    if ImagenUrl(a) == ImagenUrl(b) {
      var la, lb := ToLower(a), ToLower(b);
      assert |la| == |lb|;
      var n := |UploadsBase|;
      assert ImagenUrl(a)[n..n + |la|] == la;
      assert ImagenUrl(b)[n..n + |lb|] == lb;
    }
  }

  /** Names that differ only in the case of their letters map to the same URL. */
  lemma CaseVariantsShareUrl(a: string, b: string)
    requires |a| == |b| && forall i :: 0 <= i < |a| ==> LowerChar(a[i]) == LowerChar(b[i])
    ensures ImagenUrl(a) == ImagenUrl(b)
  {
    assert ToLower(a) == ToLower(b);
  }

  /** Lower-casing twice is lower-casing once, so a lower-case name is its own key. */
  lemma ToLowerIdempotent(s: string)
    ensures ToLower(ToLower(s)) == ToLower(s)
  {
    assert forall i :: 0 <= i < |s| ==> LowerChar(LowerChar(s[i])) == LowerChar(s[i]);
  }

  class Screen {
    var categorias: seq<Categoria>
    var loading: bool
    /** The endpoints read so far, oldest first. */
    var fetched: seq<string>

    constructor ()
      ensures categorias == [] && loading && fetched == []
    {
      categorias, loading, fetched := [], true, [];
    }

    /** `obtenerCategorias`: read the category names; on a reply carrying a list
      of names, show their cards; on a failed request keep the current cards.
      Loading ends either way. */
    method ObtenerCategorias(reply: Option<seq<string>>)
      modifies this
      ensures fetched == old(fetched) + [CategoriasEndpoint]
      ensures categorias == (if reply.Some? then FormatCategorias(reply.value) else old(categorias))
      ensures !loading
    {
      fetched := fetched + [CategoriasEndpoint];
      if reply.Some? {
        categorias := FormatCategorias(reply.value);
      }
      loading := false;
    }
  }
}
