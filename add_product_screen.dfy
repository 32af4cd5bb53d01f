/** screens/Productos/AddProductScreen.js: the new-product form, its image list,
    and the multipart body sent to create the product. */
module AddProductScreen {
  import opened Wrappers
  import opened Forms

  /** The form's text fields. */
  datatype Field = Nombre | Descripcion | Precio | Existencia | Categoria | Material | Color

  datatype ProductForm = ProductForm(nombre: string, descripcion: string, precio: string,
                                     existencia: string, categoria: string, material: string,
                                     color: string)

  const EmptyForm: ProductForm := ProductForm("", "", "", "", "", "", "")

  function Get(form: ProductForm, field: Field): string {
    match field
    case Nombre => form.nombre
    case Descripcion => form.descripcion
    case Precio => form.precio
    case Existencia => form.existencia
    case Categoria => form.categoria
    case Material => form.material
    case Color => form.color
  }

  /** `handleChange`: `{ ...formData, [name]: value }`. */
  function SetField(form: ProductForm, field: Field, value: string): (r: ProductForm)
    ensures Get(r, field) == value
    ensures forall other :: other != field ==> Get(r, other) == Get(form, other)
  {
    match field
    case Nombre => form.(nombre := value)
    case Descripcion => form.(descripcion := value)
    case Precio => form.(precio := value)
    case Existencia => form.(existencia := value)
    case Categoria => form.(categoria := value)
    case Material => form.(material := value)
    case Color => form.(color := value)
  }

  /** A picked image, not yet uploaded. */
  datatype Imagen = Imagen(uri: string, uploading: bool)

  /** `Array.prototype.splice(index, 1)` on a copy: a negative index counts from
      the end, an index past the end removes nothing. */
  function Splice(imagenes: seq<Imagen>, index: int): (r: seq<Imagen>)
    ensures 0 <= index < |imagenes| ==> r == imagenes[..index] + imagenes[index + 1..]
    ensures index >= |imagenes| ==> r == imagenes
    ensures -|imagenes| <= index < 0 ==>
              r == imagenes[..|imagenes| + index] + imagenes[|imagenes| + index + 1..]
    ensures index < -|imagenes| && imagenes != [] ==> r == imagenes[1..]
  {
    var start := if index < 0 then (if |imagenes| + index < 0 then 0 else |imagenes| + index)
                 else (if index < |imagenes| then index else |imagenes|);
    if start < |imagenes| then imagenes[..start] + imagenes[start + 1..] else imagenes
  }

  /** Why `crearProducto` stops without sending anything. */
  datatype Rejection = MissingRequiredFields | NoImages

  /** The two gates of `crearProducto`, in order: name, price and stock must be
      filled (the other fields are optional), then at least one image. */
  function CreationGate(form: ProductForm, imagenes: seq<Imagen>): (r: Option<Rejection>)
    ensures r == Some(MissingRequiredFields)
            <==> form.nombre == "" || form.precio == "" || form.existencia == ""
    ensures r == Some(NoImages)
            <==> form.nombre != "" && form.precio != "" && form.existencia != "" && imagenes == []
    ensures r == None <==> Filled(form.nombre) && Filled(form.precio) && Filled(form.existencia) && imagenes != []
  {
    if !Filled(form.nombre) || !Filled(form.precio) || !Filled(form.existencia) then Some(MissingRequiredFields)
    else if |imagenes| == 0 then Some(NoImages)
    else None
  }

  /** One part of the multipart body. */
  datatype Part = TextPart(name: string, value: string) | FilePart(name: string, uri: string, filename: string, mime: string)

  /** A decimal digit as a character. */
  function DigitChar(d: nat): char
    requires d < 10
  {
    ('0' as int + d) as char
  }

  /** A natural number in decimal, as JavaScript writes it into a template. */
  function NatToString(n: nat): (r: string)
    ensures |r| >= 1 && (n < 10 <==> |r| == 1)
    decreases n
  {
    if n < 10 then [DigitChar(n)] else NatToString(n / 10) + [DigitChar(n % 10)]
  }

  /** Distinct numbers are written differently. */
  lemma {:induction false} NatToStringInjective(m: nat, n: nat)
    requires NatToString(m) == NatToString(n)
    ensures m == n
    decreases n
  {
    if m >= 10 && n >= 10 {
      var sm, sn := NatToString(m), NatToString(n);
      assert sm[..|sm| - 1] == NatToString(m / 10) && sn[..|sn| - 1] == NatToString(n / 10);
      assert DigitChar(m % 10) == sm[|sm| - 1] == sn[|sn| - 1] == DigitChar(n % 10);
      NatToStringInjective(m / 10, n / 10);
    }
  }

  /** The file name of the image part at position `index`: `imagen_<index>.jpg`. */
  function ImagePartName(index: nat): string {
    "imagen_" + NatToString(index) + ".jpg"
  }

  /** The text parts, in the order they are appended. `precioText` and
      `existenciaText` are the number-parsed, re-printed price and stock. */
  function TextParts(form: ProductForm, precioText: string, existenciaText: string): seq<Part> {
    [TextPart("nombre", form.nombre), TextPart("descripcion", form.descripcion),
     TextPart("precio", precioText), TextPart("existencia", existenciaText),
     TextPart("categoria", form.categoria), TextPart("material", form.material),
     TextPart("color", form.color)]
  }

  /** The image part for image `index`. */
  function ImagePart(img: Imagen, index: nat): Part {
    FilePart("imagenes", img.uri, ImagePartName(index), "image/jpeg")
  }

  /** The image parts of the first `|imagenes|` images, first image first. */
  function ImageParts(imagenes: seq<Imagen>): (r: seq<Part>)
    decreases |imagenes|
  {
    if imagenes == [] then []
    else ImageParts(imagenes[..|imagenes| - 1]) + [ImagePart(imagenes[|imagenes| - 1], |imagenes| - 1)]
  }

  /** The image parts follow the list: same length, part `i` carries image `i`'s
      URI and the name `imagen_<i>.jpg`, and no two parts share a file name. */
  lemma {:induction false} ImagePartsFollowList(imagenes: seq<Imagen>)
    ensures |ImageParts(imagenes)| == |imagenes|
    ensures forall i :: 0 <= i < |imagenes| ==>
              ImageParts(imagenes)[i] == FilePart("imagenes", imagenes[i].uri, ImagePartName(i), "image/jpeg")
    decreases |imagenes|
  {
    if imagenes != [] {
      var n := |imagenes| - 1;
      ImagePartsFollowList(imagenes[..n]);
      forall i | 0 <= i < n ensures imagenes[..n][i] == imagenes[i] { }
    }
  }

  /** Different positions get different part names. */
  lemma ImagePartNamesDistinct(i: nat, j: nat)
    requires ImagePartName(i) == ImagePartName(j)
    ensures i == j
  {
    var si, sj := NatToString(i), NatToString(j);
    assert |si| == |sj|;
    assert ImagePartName(i)[7..7 + |si|] == si;
    assert ImagePartName(j)[7..7 + |sj|] == sj;
    NatToStringInjective(i, j);
  }

  /** The whole multipart body: the seven text parts, then the images. */
  function MultipartBody(form: ProductForm, precioText: string, existenciaText: string,
                         imagenes: seq<Imagen>): seq<Part>
  {
    TextParts(form, precioText, existenciaText) + ImageParts(imagenes)
  }

  /** The screen's state: the form, the picked images, the busy flag and the
      bodies posted so far. */
  class Screen {
    var formData: ProductForm
    var imagenes: seq<Imagen>
    var creandoProducto: bool
    var posted: seq<seq<Part>>

    constructor ()
      ensures formData == EmptyForm && imagenes == [] && !creandoProducto && posted == []
    {
      formData, imagenes, creandoProducto, posted := EmptyForm, [], false, [];
    }

    method HandleChange(field: Field, value: string)
      modifies this
      ensures formData == SetField(old(formData), field, value)
      ensures imagenes == old(imagenes) && posted == old(posted) && creandoProducto == old(creandoProducto)
    {
      formData := SetField(formData, field, value);
    }

    /** `subirImagen`: the picked image goes to the end of the list. */
    method SubirImagen(uri: string)
      modifies this
      ensures imagenes == old(imagenes) + [Imagen(uri, false)]
      ensures formData == old(formData) && posted == old(posted) && creandoProducto == old(creandoProducto)
    {
      imagenes := imagenes + [Imagen(uri, false)];
    }

    /** `eliminarImagen`: copy the list, splice one element out, store the copy. */
    method EliminarImagen(index: int)
      modifies this
      ensures imagenes == Splice(old(imagenes), index)
      ensures formData == old(formData) && posted == old(posted) && creandoProducto == old(creandoProducto)
    {
      imagenes := Splice(imagenes, index);
    }

    /** `crearProducto`: the two gates, then the body built part by part and posted. */
    method CrearProducto(precioText: string, existenciaText: string) returns (rejection: Option<Rejection>)
      modifies this
      ensures rejection == CreationGate(old(formData), old(imagenes))
      ensures posted == old(posted) + (if rejection.None?
                                       then [MultipartBody(formData, precioText, existenciaText, imagenes)]
                                       else [])
      ensures formData == old(formData) && imagenes == old(imagenes)
      ensures creandoProducto == (rejection.Some? && old(creandoProducto))
    {
      if !Filled(formData.nombre) || !Filled(formData.precio) || !Filled(formData.existencia) {
        return Some(MissingRequiredFields);
      }
      if |imagenes| == 0 {
        return Some(NoImages);
      }
      creandoProducto := true;
      var body := TextParts(formData, precioText, existenciaText);
      var index := 0;
      while index < |imagenes|
        invariant 0 <= index <= |imagenes|
        invariant body == TextParts(formData, precioText, existenciaText) + ImageParts(imagenes[..index])
      {
        assert imagenes[..index + 1][..index] == imagenes[..index];
        body := body + [ImagePart(imagenes[index], index)];
        index := index + 1;
      }
      assert imagenes[..|imagenes|] == imagenes;
      posted := posted + [body];
      creandoProducto := false;
      rejection := None;
    }
  }
}
