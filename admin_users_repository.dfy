/** `AdminUsersRepository`: the administrator's user list, a user's detail,
    balance update and deletion. Nothing is caught here: a failed call
    propagates as the HTTP client's exception, and a reply with `ok=false`
    becomes an `IllegalStateException` with the message below. */
module AdminUsersRepository {
  import opened Common
  import opened Text
  import opened Errors
  import ProductDetailRepository

  datatype AdminUserListItemDto = AdminUserListItemDto(id: int, nombre: string, saldo: Option<Double>)
  datatype AdminUserDetailDto = AdminUserDetailDto(ok: bool, id: int, nombre: string, correo: Option<string>, fecha: Option<string>, saldo: Option<string>)
  datatype AdminUserItem = AdminUserItem(id: int, nombre: string, saldo: string)
  datatype AdminUserDetail = AdminUserDetail(id: int, nombre: string, correo: Option<string>, fecha: Option<string>, saldo: Option<string>)
  datatype SaveUserSaldoRequestDto = SaveUserSaldoRequestDto(id: int, saldo: string)
  datatype SaveUserSaldoResponseDto = SaveUserSaldoResponseDto(ok: bool, id: int, message: Option<string>)
  datatype DeleteUserRequestDto = DeleteUserRequestDto(id_usuario: int)

  /** The list query; every parameter travels as text, an absent one is left out. */
  datatype AdminUsersQuery = AdminUsersQuery(page: int, id: Option<string>, nombre: Option<string>, saldo: Option<string>)

  const ListRejected: string := "La API devolvió ok=false al listar usuarios"
  const DetailRejected: string := "No se pudo obtener el detalle del usuario"
  const SaveFallback: string := "Error al guardar usuario"
  const DeleteFallback: string := "Error al eliminar usuario"

  /** The list mapper: the balance is shown as text, and a missing one as the
      empty string. */
  function ItemToDomain(d: AdminUserListItemDto): (u: AdminUserItem)
    ensures u.id == d.id && u.nombre == d.nombre
    ensures d.saldo.None? ==> u.saldo == ""
    ensures d.saldo.Some? ==> u.saldo == d.saldo.value.text
  {
    AdminUserItem(d.id, d.nombre, if d.saldo.Some? then d.saldo.value.text else "")
  }

  /** The detail mapper: every field but `ok` copied, absent ones kept absent. */
  function DetailToDomain(d: AdminUserDetailDto): (u: AdminUserDetail)
    ensures u.id == d.id && u.nombre == d.nombre && u.correo == d.correo
    ensures u.fecha == d.fecha && u.saldo == d.saldo
  {
    AdminUserDetail(d.id, d.nombre, d.correo, d.fecha, d.saldo)
  }

  /** The id filter goes as its decimal text; blank `nombre` and `saldo`
      filters are left out. */
  function AdminUsersQueryFor(page: int, id: Option<int>, nombre: Option<string>, saldo: Option<string>): (q: AdminUsersQuery)
    ensures q.page == page
    ensures q.id.None? <==> id.None?
    ensures id.Some? ==> q.id == Some(LongText(id.value))
    ensures q.nombre.None? <==> nombre.None? || IsBlank(nombre.value)
    ensures q.saldo.None? <==> saldo.None? || IsBlank(saldo.value)
    ensures q.nombre.Some? ==> q.nombre == nombre
    ensures q.saldo.Some? ==> q.saldo == saldo
  {
    AdminUsersQuery(page, if id.Some? then Some(LongText(id.value)) else None,
      TakeIfNotBlank(nombre), TakeIfNotBlank(saldo))
  }

  /** The server reads the id filter back as the same number. */
  lemma IdFilterReadsBack(page: int, id: int, nombre: Option<string>, saldo: Option<string>)
    requires LongMin <= id <= LongMax
    ensures ToLongOrNull(AdminUsersQueryFor(page, Some(id), nombre, saldo).id.value) == Some(id)
  {
    LongTextRoundTrip(id);
  }

  /** `getAdminUsersPage`: `ok=false` fails with a fixed message; otherwise
      rows mapped in order and counters copied. */
  function GetAdminUsersPage(o: Outcome<RowsResponse<AdminUserListItemDto>>): (r: Result<Page<AdminUserItem>>)
    ensures r.Ok? <==> o.Reply? && o.reply.ok
    ensures r.Ok? ==> r.value.page == o.reply.page && r.value.totalPages == o.reply.totalPages
    ensures r.Ok? ==> |r.value.items| == |o.reply.rows|
                      && forall i :: 0 <= i < |o.reply.rows| ==> r.value.items[i] == ItemToDomain(o.reply.rows[i])
    ensures o.Reply? && !o.reply.ok ==> r == Err(Some(ListRejected))
    ensures !o.Reply? ==> r == Err(UncaughtMessage(o))
  {
    match o
    case Reply(resp) => if !resp.ok then Err(Some(ListRejected)) else Ok(ToPage(resp, ItemToDomain))
    case _ => Err(UncaughtMessage(o))
  }

  /** `getUserDetail`: `ok=false` fails with a fixed message; otherwise every
      field of the reply but `ok`. */
  function GetUserDetail(o: Outcome<AdminUserDetailDto>): (r: Result<AdminUserDetail>)
    ensures r.Ok? <==> o.Reply? && o.reply.ok
    ensures r.Ok? ==> r.value.id == o.reply.id && r.value.nombre == o.reply.nombre && r.value.correo == o.reply.correo
                      && r.value.fecha == o.reply.fecha && r.value.saldo == o.reply.saldo
    ensures o.Reply? && !o.reply.ok ==> r == Err(Some(DetailRejected))
    ensures !o.Reply? ==> r == Err(UncaughtMessage(o))
  {
    match o
    case Reply(dto) => if !dto.ok then Err(Some(DetailRejected)) else Ok(DetailToDomain(dto))
    case _ => Err(UncaughtMessage(o))
  }

  /** The body `saveUserSaldo` sends. */
  function SaveUserSaldoBody(id: int, saldo: string): (b: SaveUserSaldoRequestDto)
    ensures b.id == id && b.saldo == saldo
  {
    SaveUserSaldoRequestDto(id, saldo)
  }

  /** `saveUserSaldo`: the id of the saved user; `ok=false` fails with the
      reply's message or "Error al guardar usuario". */
  function SaveUserSaldo(o: Outcome<SaveUserSaldoResponseDto>): (r: Result<int>)
    ensures r.Ok? <==> o.Reply? && o.reply.ok
    ensures r.Ok? ==> r.value == o.reply.id
    ensures o.Reply? && !o.reply.ok ==> r == Err(Some(o.reply.message.GetOr(SaveFallback)))
    ensures !o.Reply? ==> r == Err(UncaughtMessage(o))
  {
    match o
    case Reply(resp) => if !resp.ok then Err(Some(resp.message.GetOr(SaveFallback))) else Ok(resp.id)
    case _ => Err(UncaughtMessage(o))
  }

  /** `deleteUser`'s request names the user to delete. */
  function DeleteUserBody(id: int): (b: DeleteUserRequestDto)
    ensures b.id_usuario == id
  {
    DeleteUserRequestDto(id)
  }

  /** `deleteUser`: `ok=false` fails with the reply's message or
      "Error al eliminar usuario". */
  function DeleteUser(o: Outcome<ProductDetailRepository.SimpleResponseDto>): (r: Result<()>)
    ensures r.Ok? <==> o.Reply? && o.reply.ok
    ensures o.Reply? && !o.reply.ok ==> r == Err(Some(o.reply.message.GetOr(DeleteFallback)))
    ensures !o.Reply? ==> r == Err(UncaughtMessage(o))
  {
    match o
    case Reply(resp) => if !resp.ok then Err(Some(resp.message.GetOr(DeleteFallback))) else Ok(())
    case _ => Err(UncaughtMessage(o))
  }

  /** Every `ok=false` reply of this repository carries a message; only a
      transport failure without one reaches the view model bare. */
  lemma OnlyBareTransportHasNoMessage(o: Outcome<AdminUserDetailDto>)
    ensures GetUserDetail(o).Err? && GetUserDetail(o).message.None? <==> o.Transport? && o.ioMessage.None?
  {
  }
}
