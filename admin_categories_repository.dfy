/** `AdminCategoriesRepository`: the administrator's category list, save and
    delete. Nothing is caught here: a failed call propagates as the HTTP
    client's exception, and a reply with `ok=false` becomes an
    `IllegalStateException` with the message below. */
module AdminCategoriesRepository {
  import opened Common
  import opened Text
  import opened Errors
  import ProductDetailRepository

  datatype AdminCategoryItemDto = AdminCategoryItemDto(id: int, nombre: string, descripcion: string)
  datatype AdminCategoryItem = AdminCategoryItem(id: int, nombre: string, descripcion: string)
  datatype SaveCategoryRequestDto = SaveCategoryRequestDto(id: Option<int>, nombre: string, descripcion: string)
  datatype SaveCategoryResponseDto = SaveCategoryResponseDto(ok: bool, id: int, message: Option<string>)
  datatype DeleteCategoryRequestDto = DeleteCategoryRequestDto(id_categoria: int)

  /** The list query; every parameter travels as text, an absent one is left out. */
  datatype AdminCategoriesQuery = AdminCategoriesQuery(page: int, id: Option<string>, nombre: Option<string>, descripcion: Option<string>)

  const ListRejected: string := "La API devolvió ok=false al listar categorías"
  const SaveFallback: string := "Error al guardar categoría"
  const DeleteFallback: string := "Error al eliminar categoría"

  /** The list row mapper: id, name and description copied. */
  function ItemToDomain(d: AdminCategoryItemDto): (c: AdminCategoryItem)
    ensures c.id == d.id && c.nombre == d.nombre && c.descripcion == d.descripcion
  {
    AdminCategoryItem(d.id, d.nombre, d.descripcion)
  }

  /** The id filter goes as its decimal text (read back by the server as the
      same number); blank text filters are left out. */
  function AdminCategoriesQueryFor(page: int, id: Option<int>, nombre: Option<string>, descripcion: Option<string>): (q: AdminCategoriesQuery)
    ensures q.page == page
    ensures q.id.None? <==> id.None?
    ensures id.Some? ==> q.id == Some(LongText(id.value))
    ensures q.nombre.None? <==> nombre.None? || IsBlank(nombre.value)
    ensures q.descripcion.None? <==> descripcion.None? || IsBlank(descripcion.value)
    ensures q.nombre.Some? ==> q.nombre == nombre
    ensures q.descripcion.Some? ==> q.descripcion == descripcion
  {
    AdminCategoriesQuery(page, if id.Some? then Some(LongText(id.value)) else None,
      TakeIfNotBlank(nombre), TakeIfNotBlank(descripcion))
  }

  /** The server reads the id filter back as the same number. */
  lemma IdFilterReadsBack(page: int, id: int, nombre: Option<string>, descripcion: Option<string>)
    requires LongMin <= id <= LongMax
    ensures ToLongOrNull(AdminCategoriesQueryFor(page, Some(id), nombre, descripcion).id.value) == Some(id)
  {
    LongTextRoundTrip(id);
  }

  /** `getAdminCategoriesPage`: `ok=false` fails with a fixed message;
      otherwise rows mapped in order and counters copied. */
  function GetAdminCategoriesPage(o: Outcome<RowsResponse<AdminCategoryItemDto>>): (r: Result<Page<AdminCategoryItem>>)
    ensures r.Ok? <==> o.Reply? && o.reply.ok
    ensures r.Ok? ==> r.value.page == o.reply.page && r.value.totalPages == o.reply.totalPages
    ensures r.Ok? ==> |r.value.items| == |o.reply.rows|
                      && forall i :: 0 <= i < |o.reply.rows| ==> r.value.items[i] == ItemToDomain(o.reply.rows[i])
    ensures o.Reply? && !o.reply.ok ==> r == Err(Some(ListRejected))
    ensures !o.Reply? ==> r == Err(UncaughtMessage(o))
  {
    match o
    case Reply(resp) => if !resp.ok then Err(Some(ListRejected)) else Ok(ToPage(resp, ItemToDomain))
    case _ => Err(UncaughtMessage(o))
  }

  /** The body `saveCategory` sends: an absent id creates, a present one updates. */
  function SaveCategoryBody(id: Option<int>, nombre: string, descripcion: string): (b: SaveCategoryRequestDto)
    ensures b.id == id && b.nombre == nombre && b.descripcion == descripcion
  {
    SaveCategoryRequestDto(id, nombre, descripcion)
  }

  /** `saveCategory`: the id of the saved category; `ok=false` fails with the
      reply's message or "Error al guardar categoría". */
  function SaveCategory(o: Outcome<SaveCategoryResponseDto>): (r: Result<int>)
    ensures r.Ok? <==> o.Reply? && o.reply.ok
    ensures r.Ok? ==> r.value == o.reply.id
    ensures o.Reply? && !o.reply.ok ==> r == Err(Some(o.reply.message.GetOr(SaveFallback)))
    ensures !o.Reply? ==> r == Err(UncaughtMessage(o))
  {
    match o
    case Reply(resp) => if !resp.ok then Err(Some(resp.message.GetOr(SaveFallback))) else Ok(resp.id)
    case _ => Err(UncaughtMessage(o))
  }

  /** `deleteCategory`'s request names the category to delete. */
  function DeleteCategoryBody(id: int): (b: DeleteCategoryRequestDto)
    ensures b.id_categoria == id
  {
    DeleteCategoryRequestDto(id)
  }

  /** `deleteCategory`: `ok=false` fails with the reply's message or
      "Error al eliminar categoría". */
  function DeleteCategory(o: Outcome<ProductDetailRepository.SimpleResponseDto>): (r: Result<()>)
    ensures r.Ok? <==> o.Reply? && o.reply.ok
    ensures o.Reply? && !o.reply.ok ==> r == Err(Some(o.reply.message.GetOr(DeleteFallback)))
    ensures !o.Reply? ==> r == Err(UncaughtMessage(o))
  {
    match o
    case Reply(resp) => if !resp.ok then Err(Some(resp.message.GetOr(DeleteFallback))) else Ok(())
    case _ => Err(UncaughtMessage(o))
  }

  /** A rejection the server explains reaches the caller in the server's
      words; only a silent one gets the local fallback. */
  lemma ServerWordsFirst(id: int, msg: string, avg: Option<Double>)
    ensures SaveCategory(Reply(SaveCategoryResponseDto(false, id, Some(msg)))) == Err(Some(msg))
    ensures SaveCategory(Reply(SaveCategoryResponseDto(false, id, None))) == Err(Some(SaveFallback))
    ensures DeleteCategory(Reply(ProductDetailRepository.SimpleResponseDto(false, Some(msg), avg))) == Err(Some(msg))
    ensures DeleteCategory(Reply(ProductDetailRepository.SimpleResponseDto(false, None, avg))) == Err(Some(DeleteFallback))
  {
  }
}
