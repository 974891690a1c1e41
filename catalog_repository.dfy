/** `CatalogRepositoryImpl.getCatalogPage`: one page of the public catalog,
    filtered by name, author and category. */
module CatalogRepository {
  import opened Common
  import opened Text
  import opened Errors

  datatype CatalogItemDto = CatalogItemDto(
    id: int, nombre: string, autor: string, precio: Double,
    imagen1Id: Option<int>, calificacionPromedio: Option<Double>, compras: int)
  datatype ProductoCatalogo = ProductoCatalogo(
    id: int, nombre: string, autor: string, precio: Double,
    imagenId: Option<int>, calificacionPromedio: Option<Double>, compras: int)

  /** The query parameters sent to the catalog endpoint; an absent filter is
      left out of the URL. */
  datatype CatalogQuery = CatalogQuery(page: int, nombre: Option<string>, autor: Option<string>, categoria: Option<string>)

  /** The row mapper: every field copied, `imagen1Id` as `imagenId`. */
  function ItemToDomain(d: CatalogItemDto): (p: ProductoCatalogo)
    ensures p.id == d.id && p.nombre == d.nombre && p.autor == d.autor && p.precio == d.precio
    ensures p.imagenId == d.imagen1Id && p.calificacionPromedio == d.calificacionPromedio && p.compras == d.compras
  {
    ProductoCatalogo(d.id, d.nombre, d.autor, d.precio, d.imagen1Id, d.calificacionPromedio, d.compras)
  }

  /** Each filter that is absent or blank is not sent; any other is sent as
      typed, surrounding spaces included; the page goes as requested. */
  function CatalogQueryFor(page: int, nombre: Option<string>, autor: Option<string>, categoria: Option<string>): (q: CatalogQuery)
    ensures q.page == page
    ensures q.nombre.None? <==> nombre.None? || IsBlank(nombre.value)
    ensures q.autor.None? <==> autor.None? || IsBlank(autor.value)
    ensures q.categoria.None? <==> categoria.None? || IsBlank(categoria.value)
    ensures q.nombre.Some? ==> q.nombre == nombre
    ensures q.autor.Some? ==> q.autor == autor
    ensures q.categoria.Some? ==> q.categoria == categoria
  {
    CatalogQuery(page, TakeIfNotBlank(nombre), TakeIfNotBlank(autor), TakeIfNotBlank(categoria))
  }

  /** Typing only spaces in a filter searches the same as leaving it empty. */
  lemma BlankFilterIsNoFilter(page: int, blank: string, autor: Option<string>, categoria: Option<string>)
    requires IsBlank(blank)
    ensures CatalogQueryFor(page, Some(blank), autor, categoria) == CatalogQueryFor(page, None, autor, categoria)
  {
  }

  /** `getCatalogPage`: the rows mapped one to one and in order, and the page
      counters copied. The `ok` flag is never read. An HTTP error gives
      "Error en servidor (<code>)", a transport failure the connection message. */
  function GetCatalogPage(o: Outcome<RowsResponse<CatalogItemDto>>): (r: Result<Page<ProductoCatalogo>>)
    ensures r.Ok? <==> o.Reply?
    ensures r.Ok? ==> r.value.page == o.reply.page && r.value.totalPages == o.reply.totalPages
    ensures r.Ok? ==> |r.value.items| == |o.reply.rows|
                      && forall i :: 0 <= i < |o.reply.rows| ==> r.value.items[i] == ItemToDomain(o.reply.rows[i])
    ensures o.Http? ==> r == Err(Some(ServerErrorCatalog(o.code)))
    ensures o.Transport? ==> r == Err(Some(ConnectionError))
  {
    match o
    case Reply(res) => Ok(ToPage(res, ItemToDomain))
    case Http(code, _, _) => Err(Some(ServerErrorCatalog(code)))
    case Transport(_) => Err(Some(ConnectionError))
  }

  /** A reply marked `ok=false` is shown like any other: the flag changes
      nothing in the result. */
  lemma OkFlagIgnored(rows: seq<CatalogItemDto>, page: int, totalPages: int)
    ensures GetCatalogPage(Reply(RowsResponse(false, rows, page, totalPages)))
            == GetCatalogPage(Reply(RowsResponse(true, rows, page, totalPages)))
  {
  }
}
