/** `RankingRepositoryImpl`: the three public rankings (most bought products,
    best buyers, best rated products), one page at a time. */
module RankingRepository {
  import opened Common
  import opened Errors

  datatype ProductoMasCompradoDto = ProductoMasCompradoDto(
    id: int, top: int, nombre: string, autor: string, categoria: string, precio: Option<Double>, compras: int)
  datatype MejorCompradorDto = MejorCompradorDto(id_usuario: int, top: int, nombre: string, compras: int)
  datatype ProductoMejorCalificadoDto = ProductoMejorCalificadoDto(
    id: int, top: int, nombre: string, autor: string, categoria: string, precio: Option<Double>,
    n_calificaciones: int, calif_prom: Double)

  datatype ProductoMasComprado = ProductoMasComprado(
    id: int, top: int, nombre: string, autor: string, categoria: string, precio: Option<Double>, compras: int)
  datatype MejorComprador = MejorComprador(idUsuario: int, top: int, nombre: string, compras: int)
  datatype ProductoMejorCalificado = ProductoMejorCalificado(
    id: int, top: int, nombre: string, autor: string, categoria: string, precio: Option<Double>,
    numCalificaciones: int, promedio: Double)

  const InvalidReply: string := "Respuesta no válida del servidor"

  /** Keeps every field under the same name. */
  function MasCompradoToDomain(d: ProductoMasCompradoDto): (p: ProductoMasComprado)
    ensures p.id == d.id && p.top == d.top && p.nombre == d.nombre && p.autor == d.autor
    ensures p.categoria == d.categoria && p.precio == d.precio && p.compras == d.compras
  {
    ProductoMasComprado(d.id, d.top, d.nombre, d.autor, d.categoria, d.precio, d.compras)
  }

  /** Renames `id_usuario` to `idUsuario`. */
  function CompradorToDomain(d: MejorCompradorDto): (c: MejorComprador)
    ensures c.idUsuario == d.id_usuario && c.top == d.top && c.nombre == d.nombre && c.compras == d.compras
  {
    MejorComprador(d.id_usuario, d.top, d.nombre, d.compras)
  }

  /** Renames `n_calificaciones` to `numCalificaciones` and `calif_prom` to
      `promedio`. */
  function CalificadoToDomain(d: ProductoMejorCalificadoDto): (p: ProductoMejorCalificado)
    ensures p.id == d.id && p.top == d.top && p.nombre == d.nombre && p.autor == d.autor
    ensures p.categoria == d.categoria && p.precio == d.precio
    ensures p.numCalificaciones == d.n_calificaciones && p.promedio == d.calif_prom
  {
    ProductoMejorCalificado(d.id, d.top, d.nombre, d.autor, d.categoria, d.precio, d.n_calificaciones, d.calif_prom)
  }

  /** The renamed fields carry the reply's values: the mappers are one to one,
      so two different rows never show as the same entry. */
  lemma MappersKeepFields(a: ProductoMasCompradoDto, b: MejorCompradorDto, c: ProductoMejorCalificadoDto)
    ensures MasCompradoToDomain(a).compras == a.compras && MasCompradoToDomain(a).id == a.id
    ensures CompradorToDomain(b).idUsuario == b.id_usuario && CompradorToDomain(b).compras == b.compras
    ensures CalificadoToDomain(c).numCalificaciones == c.n_calificaciones && CalificadoToDomain(c).promedio == c.calif_prom
  {
  }

  /** The body shared by the three fetchers: `ok=false` fails with "Respuesta
      no válida del servidor"; otherwise the rows are mapped in order and the
      page counters copied. An HTTP error gives "Error del servidor (<code>)",
      a transport failure the connection message. */
  function RankingPage<D, T>(o: Outcome<RowsResponse<D>>, toDomain: D -> T): (r: Result<Page<T>>)
    ensures r.Ok? <==> o.Reply? && o.reply.ok
    ensures r.Ok? ==> r.value.page == o.reply.page && r.value.totalPages == o.reply.totalPages
    ensures r.Ok? ==> |r.value.items| == |o.reply.rows|
                      && forall i :: 0 <= i < |o.reply.rows| ==> r.value.items[i] == toDomain(o.reply.rows[i])
    ensures o.Reply? && !o.reply.ok ==> r == Err(Some(InvalidReply))
    ensures o.Http? ==> r == Err(Some(ServerError(o.code)))
    ensures o.Transport? ==> r == Err(Some(ConnectionError))
  {
    match o
    case Reply(res) => if !res.ok then Err(Some(InvalidReply)) else Ok(ToPage(res, toDomain))
    case Http(code, _, _) => Err(Some(ServerError(code)))
    case Transport(_) => Err(Some(ConnectionError))
  }

  /** `getProductosMasComprados`. */
  function GetProductosMasComprados(o: Outcome<RowsResponse<ProductoMasCompradoDto>>): (r: Result<Page<ProductoMasComprado>>)
    ensures r == RankingPage(o, MasCompradoToDomain)
  {
    RankingPage(o, MasCompradoToDomain)
  }

  /** `getMejoresCompradores`. */
  function GetMejoresCompradores(o: Outcome<RowsResponse<MejorCompradorDto>>): (r: Result<Page<MejorComprador>>)
    ensures r == RankingPage(o, CompradorToDomain)
  {
    RankingPage(o, CompradorToDomain)
  }

  /** `getProductosMejorCalificados`. */
  function GetProductosMejorCalificados(o: Outcome<RowsResponse<ProductoMejorCalificadoDto>>): (r: Result<Page<ProductoMejorCalificado>>)
    ensures r == RankingPage(o, CalificadoToDomain)
  {
    RankingPage(o, CalificadoToDomain)
  }

  /** The positions the server assigned (`top`) reach the screen in the order
      and number the server sent them, in each of the three rankings. */
  lemma RankPositionsKept(
    a: RowsResponse<ProductoMasCompradoDto>, b: RowsResponse<MejorCompradorDto>, c: RowsResponse<ProductoMejorCalificadoDto>)
    requires a.ok && b.ok && c.ok
    ensures var r := GetProductosMasComprados(Reply(a));
            r.Ok? && |r.value.items| == |a.rows| && forall i :: 0 <= i < |a.rows| ==> r.value.items[i].top == a.rows[i].top
    ensures var r := GetMejoresCompradores(Reply(b));
            r.Ok? && |r.value.items| == |b.rows| && forall i :: 0 <= i < |b.rows| ==> r.value.items[i].top == b.rows[i].top
    ensures var r := GetProductosMejorCalificados(Reply(c));
            r.Ok? && |r.value.items| == |c.rows| && forall i :: 0 <= i < |c.rows| ==> r.value.items[i].top == c.rows[i].top
  {
  }
}
