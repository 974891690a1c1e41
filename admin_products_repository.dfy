/** `AdminProductsRepositoryImpl`: the administrator's product list, product
    detail, save, file upload and image management. No call here catches
    anything: a failed call reaches the view model as the HTTP client's own
    exception (`Uncaught`). */
module AdminProductsRepository {
  import opened Common
  import opened Text
  import opened Errors
  import ProductDetailRepository

  datatype AdminProductItemDto = AdminProductItemDto(id: int, nombre: string, autor: string, categoria: string, promedio: Option<Double>)
  datatype AdminProductItem = AdminProductItem(id: int, nombre: string, autor: string, categoria: string, promedio: Option<Double>)

  datatype AdminProductImageDto = AdminProductImageDto(id: int, orden: int, url: string)
  datatype AdminProductImage = AdminProductImage(id: int, orden: int, url: string)

  datatype AdminProductDetailDto = AdminProductDetailDto(
    id: Option<int>, nombre: string, descripcion: string, version: string, precio: string,
    autor_id: Option<int>, categoria_id: Option<int>, activo: bool, tiene_archivo: bool,
    imagenes: seq<AdminProductImageDto>)

  /** A product as the edit form reads and writes it; `id` is absent for a new
      product and the price is kept as the text typed. */
  datatype AdminProductDetail = AdminProductDetail(
    id: Option<int>, nombre: string, descripcion: string, version: string, precio: string,
    autorId: Option<int>, categoriaId: Option<int>, activo: bool, tieneArchivo: bool,
    imagenes: seq<AdminProductImage>)

  datatype SaveAdminProductRequestDto = SaveAdminProductRequestDto(
    id: Option<int>, nombre: string, descripcion: string, version: string, precio: string,
    id_autor: Option<int>, id_categoria: Option<int>, activo: bool)
  datatype SaveAdminProductResponseDto = SaveAdminProductResponseDto(id: int)

  /** The query of the product list; an absent parameter is left out. */
  datatype AdminProductsQuery = AdminProductsQuery(page: int, id: Option<int>, nombre: Option<string>, autor: Option<string>, categoria: Option<string>)

  /** One part of a multipart request; the file's bytes are not modelled. */
  datatype Part =
    | TextPart(name: string, value: string, mediaType: string)
    | FilePart(name: string, filename: string, mediaType: string)

  /** The list row mapper: every field copied. */
  function ItemToDomain(d: AdminProductItemDto): (p: AdminProductItem)
    ensures p.id == d.id && p.nombre == d.nombre && p.autor == d.autor
    ensures p.categoria == d.categoria && p.promedio == d.promedio
  {
    AdminProductItem(d.id, d.nombre, d.autor, d.categoria, d.promedio)
  }

  /** The image mapper: id, position and URL copied. */
  function ImageToDomain(d: AdminProductImageDto): (i: AdminProductImage)
    ensures i.id == d.id && i.orden == d.orden && i.url == d.url
  {
    AdminProductImage(d.id, d.orden, d.url)
  }

  /** The detail mapper: every field copied, images in the order received. */
  function DetailToDomain(d: AdminProductDetailDto): (p: AdminProductDetail)
    ensures |p.imagenes| == |d.imagenes|
    ensures forall i :: 0 <= i < |d.imagenes| ==>
              p.imagenes[i].id == d.imagenes[i].id && p.imagenes[i].orden == d.imagenes[i].orden
              && p.imagenes[i].url == d.imagenes[i].url
    ensures p.id == d.id && p.nombre == d.nombre && p.descripcion == d.descripcion
    ensures p.version == d.version && p.precio == d.precio && p.activo == d.activo
    ensures p.autorId == d.autor_id && p.categoriaId == d.categoria_id && p.tieneArchivo == d.tiene_archivo
  {
    AdminProductDetail(d.id, d.nombre, d.descripcion, d.version, d.precio, d.autor_id, d.categoria_id,
      d.activo, d.tiene_archivo, MapSeq(ImageToDomain, d.imagenes))
  }

  /** `getAdminProductsPage`'s query: the id as given, blank text filters left
      out, the others as typed. */
  function AdminProductsQueryFor(page: int, id: Option<int>, nombre: Option<string>, autor: Option<string>, categoria: Option<string>): (q: AdminProductsQuery)
    ensures q.page == page && q.id == id
    ensures q.nombre.None? <==> nombre.None? || IsBlank(nombre.value)
    ensures q.autor.None? <==> autor.None? || IsBlank(autor.value)
    ensures q.categoria.None? <==> categoria.None? || IsBlank(categoria.value)
    ensures q.nombre.Some? ==> q.nombre == nombre
    ensures q.autor.Some? ==> q.autor == autor
    ensures q.categoria.Some? ==> q.categoria == categoria
  {
    AdminProductsQuery(page, id, TakeIfNotBlank(nombre), TakeIfNotBlank(autor), TakeIfNotBlank(categoria))
  }

  /** `getAdminProductsPage`: rows mapped in order, counters copied, `ok` not
      read; a failed call propagates. */
  function GetAdminProductsPage(o: Outcome<RowsResponse<AdminProductItemDto>>): (r: Result<Page<AdminProductItem>>)
    ensures r.Ok? <==> o.Reply?
    ensures r.Ok? ==> r.value.page == o.reply.page && r.value.totalPages == o.reply.totalPages
    ensures r.Ok? ==> |r.value.items| == |o.reply.rows|
                      && forall i :: 0 <= i < |o.reply.rows| ==> r.value.items[i] == ItemToDomain(o.reply.rows[i])
    ensures !o.Reply? ==> r == Err(UncaughtMessage(o))
  {
    match o
    case Reply(res) => Ok(ToPage(res, ItemToDomain))
    case _ => Err(UncaughtMessage(o))
  }

  /** `getProductDetail`: the mapped detail; a failed call propagates. */
  function GetProductDetail(o: Outcome<AdminProductDetailDto>): (r: Result<AdminProductDetail>)
    ensures r.Ok? <==> o.Reply?
    ensures r.Ok? ==> r.value == DetailToDomain(o.reply)
    ensures !o.Reply? ==> r == Err(UncaughtMessage(o))
  {
    match o
    case Reply(dto) => Ok(DetailToDomain(dto))
    case _ => Err(UncaughtMessage(o))
  }

  /** The body `saveProduct` sends. */
  function SaveProductBody(d: AdminProductDetail): (b: SaveAdminProductRequestDto)
    ensures b.id == d.id && b.nombre == d.nombre && b.descripcion == d.descripcion
    ensures b.version == d.version && b.precio == d.precio
    ensures b.id_autor == d.autorId && b.id_categoria == d.categoriaId && b.activo == d.activo
  {
    SaveAdminProductRequestDto(d.id, d.nombre, d.descripcion, d.version, d.precio, d.autorId, d.categoriaId, d.activo)
  }

  /** The eight fields sent are exactly `id`, `nombre`, `descripcion`,
      `version`, `precio`, the author and category ids and `activo`: two
      details give the same body if and only if they agree on those. */
  lemma SaveBodyFields(d: AdminProductDetail, e: AdminProductDetail)
    ensures SaveProductBody(d) == SaveProductBody(e)
            <==> d.id == e.id && d.nombre == e.nombre && d.descripcion == e.descripcion
                 && d.version == e.version && d.precio == e.precio && d.autorId == e.autorId
                 && d.categoriaId == e.categoriaId && d.activo == e.activo
  {
  }

  /** In particular, whether the product has a file and which images it has
      are never sent by a save. */
  lemma SaveBodyIgnoresFileAndImages(d: AdminProductDetail, tieneArchivo: bool, imagenes: seq<AdminProductImage>)
    ensures SaveProductBody(d.(tieneArchivo := tieneArchivo, imagenes := imagenes)) == SaveProductBody(d)
  {
    SaveBodyFields(d.(tieneArchivo := tieneArchivo, imagenes := imagenes), d);
  }

  /** `saveProduct`: the id the server assigned (or kept); a failed call
      propagates. */
  function SaveProduct(o: Outcome<SaveAdminProductResponseDto>): (r: Result<int>)
    ensures r.Ok? <==> o.Reply?
    ensures r.Ok? ==> r.value == o.reply.id
    ensures !o.Reply? ==> r == Err(UncaughtMessage(o))
  {
    match o
    case Reply(resp) => Ok(resp.id)
    case _ => Err(UncaughtMessage(o))
  }

  /** `uploadProductFile`'s parts: the product id as plain text and the file
      as an octet stream. */
  function UploadFileParts(idProducto: int, filename: string): (ps: seq<Part>)
    ensures |ps| == 2
    ensures ps[0] == TextPart("id_producto", LongText(idProducto), "text/plain")
    ensures ps[1] == FilePart("archivo", filename, "application/octet-stream")
  {
    [TextPart("id_producto", LongText(idProducto), "text/plain"), FilePart("archivo", filename, "application/octet-stream")]
  }

  predicate HasPart(ps: seq<Part>, name: string) {
    exists i :: 0 <= i < |ps| && ps[i].name == name
  }

  /** `addProductImage`'s parts: the product id, then the position only when
      one is given, then the image. */
  function AddImageParts(idProducto: int, filename: string, orden: Option<int>): (ps: seq<Part>)
    ensures 2 <= |ps| <= 3
    ensures ps[0] == TextPart("id_producto", LongText(idProducto), "text/plain")
    ensures ps[|ps| - 1] == FilePart("archivo", filename, "image/*")
    ensures orden.None? <==> !HasPart(ps, "orden")
    ensures orden.Some? ==> |ps| == 3 && ps[1] == TextPart("orden", LongText(orden.value), "text/plain")
  {
    var ps := [TextPart("id_producto", LongText(idProducto), "text/plain")]
      + (if orden.Some? then [TextPart("orden", LongText(orden.value), "text/plain")] else [])
      + [FilePart("archivo", filename, "image/*")];
    assert orden.Some? ==> ps[1].name == "orden";
    assert orden.None? ==> ps[0].name != "orden" && ps[1].name != "orden";
    ps
  }

  /** The position part reads back as the number sent. */
  lemma OrdenPartReadsBack(idProducto: int, filename: string, orden: int)
    requires LongMin <= orden <= LongMax
    ensures ToLongOrNull(AddImageParts(idProducto, filename, Some(orden))[1].value) == Some(orden)
  {
    LongTextRoundTrip(orden);
  }

  /** `reorderProductImage` and `deleteProductImage`: the `ok` of the reply is
      not read, so any reply is a success; a failed call propagates. */
  function IgnoreReply(o: Outcome<ProductDetailRepository.SimpleResponseDto>): (r: Result<()>)
    ensures r.Ok? <==> o.Reply?
    ensures !o.Reply? ==> r == Err(UncaughtMessage(o))
  {
    if o.Reply? then Ok(()) else Err(UncaughtMessage(o))
  }

  /** A reordering or deletion that the server refuses with `ok=false` looks
      like a success to the caller. */
  lemma RefusalLooksLikeSuccess(message: Option<string>)
    ensures IgnoreReply(Reply(ProductDetailRepository.SimpleResponseDto(false, message, None))) == Ok(())
  {
  }
}
