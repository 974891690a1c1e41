/** `ProfileRepositoryImpl`: the client's own profile (read and update) and
    purchase history, each call's outcome reduced to a domain value or one
    display message. */
module ProfileRepository {
  import opened Common
  import opened Text
  import opened Errors

  datatype PerfilClienteDto = PerfilClienteDto(idUsuario: int, nombreUsuario: string, correo: string, saldo: string, numCompras: int)
  datatype PerfilClienteResponseDto = PerfilClienteResponseDto(ok: bool, perfil: Option<PerfilClienteDto>, error: Option<string>)
  datatype ActualizarPerfilRequestDto = ActualizarPerfilRequestDto(nombreUsuario: string, correo: string, contrasena: Option<string>)
  datatype ComprasClienteItemDto = ComprasClienteItemDto(
    id: int, nombre: string, autor: string, precio: Option<Double>,
    imagen1Id: Option<int>, calificacionPromedio: Option<Double>, compras: int)

  datatype PerfilCliente = PerfilCliente(idUsuario: int, nombreUsuario: string, correo: string, saldo: string, numCompras: int)
  datatype CompraPerfil = CompraPerfil(
    id: int, nombre: string, autor: string, precio: Option<Double>,
    imagenId: Option<int>, calificacionPromedio: Option<Double>, compras: int)

  const ProfileFallback: string := "No se pudo obtener el perfil."
  const UpdateFallback: string := "No se pudo actualizar el perfil."
  const ComprasFailed: string := "No se pudieron obtener las compras."

  /** The profile mapper: every field copied. */
  function PerfilToDomain(d: PerfilClienteDto): (p: PerfilCliente)
    ensures p.idUsuario == d.idUsuario && p.nombreUsuario == d.nombreUsuario && p.correo == d.correo
    ensures p.saldo == d.saldo && p.numCompras == d.numCompras
  {
    PerfilCliente(d.idUsuario, d.nombreUsuario, d.correo, d.saldo, d.numCompras)
  }

  /** The purchase row mapper: every field copied, `imagen1Id` as `imagenId`. */
  function CompraToDomain(d: ComprasClienteItemDto): (c: CompraPerfil)
    ensures c.id == d.id && c.nombre == d.nombre && c.autor == d.autor && c.precio == d.precio
    ensures c.imagenId == d.imagen1Id && c.calificacionPromedio == d.calificacionPromedio && c.compras == d.compras
  {
    CompraPerfil(d.id, d.nombre, d.autor, d.precio, d.imagen1Id, d.calificacionPromedio, d.compras)
  }

  /** The mappers lose nothing: distinct rows stay distinct. */
  lemma MappersInjective(a: PerfilClienteDto, b: PerfilClienteDto, c: ComprasClienteItemDto, d: ComprasClienteItemDto)
    ensures PerfilToDomain(a) == PerfilToDomain(b) ==> a == b
    ensures CompraToDomain(c) == CompraToDomain(d) ==> c == d
  {
  }

  /** Shared by `getProfile` and `updateProfile`: a reply that is `ok` and
      carries a profile gives that profile, anything else fails with the
      reply's `error`, or `fallback` when it has none. An HTTP error gives the
      raw error body (no JSON lookup), a transport failure the connection
      message. */
  function ProfileOutcome(o: Outcome<PerfilClienteResponseDto>, fallback: string): (r: Result<PerfilCliente>)
    ensures r.Ok? <==> o.Reply? && o.reply.ok && o.reply.perfil.Some?
    ensures r.Ok? ==> r.value == PerfilToDomain(o.reply.perfil.value)
    ensures o.Reply? && !r.Ok? ==> r.message == Some(o.reply.error.GetOr(fallback))
    ensures o.Http? ==> r.message == Some(RawBodyMessage(o.code, o.errorBody))
    ensures o.Transport? ==> r.message == Some(ConnectionError)
  {
    match o
    case Reply(res) =>
      if !res.ok || res.perfil.None? then Err(Some(res.error.GetOr(fallback)))
      else Ok(PerfilToDomain(res.perfil.value))
    case Http(code, _, body) => Err(Some(RawBodyMessage(code, body)))
    case Transport(_) => Err(Some(ConnectionError))
  }

  /** `getProfile`. */
  function GetProfile(o: Outcome<PerfilClienteResponseDto>): (r: Result<PerfilCliente>)
    ensures r == ProfileOutcome(o, ProfileFallback)
  {
    ProfileOutcome(o, ProfileFallback)
  }

  /** The body `updateProfile` sends: a blank or absent password is sent as
      absent, so the server keeps the old one; name and e-mail go as typed. */
  function UpdateProfileBody(nombreUsuario: string, correo: string, contrasena: Option<string>): (b: ActualizarPerfilRequestDto)
    ensures b.nombreUsuario == nombreUsuario && b.correo == correo
    ensures b.contrasena.None? <==> contrasena.None? || IsBlank(contrasena.value)
    ensures b.contrasena.Some? ==> b.contrasena == contrasena
  {
    ActualizarPerfilRequestDto(nombreUsuario, correo, TakeIfNotBlank(contrasena))
  }

  /** `updateProfile`, given the outcome of the call made with
      `UpdateProfileBody`. */
  function UpdateProfile(o: Outcome<PerfilClienteResponseDto>): (r: Result<PerfilCliente>)
    ensures r == ProfileOutcome(o, UpdateFallback)
  {
    ProfileOutcome(o, UpdateFallback)
  }

  /** An `ok` reply with no profile is a failure too, and what it says is the
      server's `error` when present. */
  lemma OkWithoutProfileFails(error: Option<string>)
    ensures GetProfile(Reply(PerfilClienteResponseDto(true, None, error)))
            == Err(Some(error.GetOr(ProfileFallback)))
    ensures UpdateProfile(Reply(PerfilClienteResponseDto(true, None, error)))
            == Err(Some(error.GetOr(UpdateFallback)))
  {
  }

  /** `getCompras`: an `ok=false` reply fails with a fixed message (the reply
      carries none); otherwise the page counters are copied and the rows mapped
      one to one, in order. */
  function GetCompras(o: Outcome<RowsResponse<ComprasClienteItemDto>>): (r: Result<Page<CompraPerfil>>)
    ensures r.Ok? <==> o.Reply? && o.reply.ok
    ensures r.Ok? ==> r.value.page == o.reply.page && r.value.totalPages == o.reply.totalPages
    ensures r.Ok? ==> |r.value.items| == |o.reply.rows|
                      && forall i :: 0 <= i < |o.reply.rows| ==> r.value.items[i] == CompraToDomain(o.reply.rows[i])
    ensures o.Reply? && !o.reply.ok ==> r == Err(Some(ComprasFailed))
    ensures o.Http? ==> r == Err(Some(RawBodyMessage(o.code, o.errorBody)))
    ensures o.Transport? ==> r == Err(Some(ConnectionError))
  {
    match o
    case Reply(res) =>
      if !res.ok then Err(Some(ComprasFailed)) else Ok(ToPage(res, CompraToDomain))
    case Http(code, _, body) => Err(Some(RawBodyMessage(code, body)))
    case Transport(_) => Err(Some(ConnectionError))
  }

  /** Every failure of this repository carries a message, so a view model's
      own fallback text is never shown for it. */
  lemma FailuresCarryMessage(o: Outcome<PerfilClienteResponseDto>, c: Outcome<RowsResponse<ComprasClienteItemDto>>)
    ensures GetProfile(o).Err? ==> GetProfile(o).message.Some?
    ensures UpdateProfile(o).Err? ==> UpdateProfile(o).message.Some?
    ensures GetCompras(c).Err? ==> GetCompras(c).message.Some?
  {
  }
}
