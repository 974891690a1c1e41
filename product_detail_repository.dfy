/** `ProductDetailRepositoryImpl`: a product's detail page with its comments,
    and the three actions a client takes on it (comment, rate, buy). */
module ProductDetailRepository {
  import opened Common
  import opened Errors

  datatype ProductDetailDto = ProductDetailDto(
    id: int, nombre: string, descripcion: string, precio: Option<Double>,
    saldoCliente: Option<Double>, compras: int, calificacionPromedio: Double,
    autor: string, version: string, categoria: string, fechaPublicacion: Option<string>,
    imagenUrls: seq<string>, mostrarAcciones: bool, urlTtl: string, urlDescargar: string)
  datatype CommentDto = CommentDto(cliente: string, calificacion: int, fecha: Option<string>, descripcion: string)
  datatype ProductDetailResponseDto = ProductDetailResponseDto(ok: bool, producto: ProductDetailDto, comentarios: seq<CommentDto>)
  datatype SimpleResponseDto = SimpleResponseDto(ok: bool, message: Option<string>, calificacionPromedio: Option<Double>)
  datatype PurchaseResponseDto = PurchaseResponseDto(
    ok: bool, message: Option<string>, saldoCliente: Option<Double>,
    clienteCompro: Option<bool>, compras: Option<int>)
  datatype CommentRequestDto = CommentRequestDto(descripcion: string)
  datatype RatingRequestDto = RatingRequestDto(calificacion: int)

  datatype ProductDetail = ProductDetail(
    id: int, nombre: string, descripcion: string, precio: Option<Double>,
    saldoCliente: Option<Double>, compras: int, calificacionPromedio: Double,
    autor: string, version: string, categoria: string, fechaPublicacion: Option<string>,
    imagenUrls: seq<string>, mostrarAcciones: bool, urlTtl: string, urlDescargar: string)
  datatype ProductComment = ProductComment(cliente: string, calificacion: int, fecha: Option<string>, descripcion: string)
  datatype ProductDetailResult = ProductDetailResult(detail: ProductDetail, comments: seq<ProductComment>)

  const InvalidReply: string := "Respuesta no válida del servidor"
  const CommentFallback: string := "No se pudo registrar el comentario."
  const RatingFallback: string := "No se pudo registrar la calificación."
  const PurchaseFallback: string := "No se pudo realizar la compra."

  /** The detail mapper: every field copied under the same name. */
  function DetailToDomain(d: ProductDetailDto): (p: ProductDetail)
    ensures p.id == d.id && p.nombre == d.nombre && p.descripcion == d.descripcion && p.precio == d.precio
    ensures p.saldoCliente == d.saldoCliente && p.compras == d.compras
    ensures p.calificacionPromedio == d.calificacionPromedio && p.autor == d.autor && p.version == d.version
    ensures p.categoria == d.categoria && p.fechaPublicacion == d.fechaPublicacion && p.imagenUrls == d.imagenUrls
    ensures p.mostrarAcciones == d.mostrarAcciones && p.urlTtl == d.urlTtl && p.urlDescargar == d.urlDescargar
  {
    ProductDetail(d.id, d.nombre, d.descripcion, d.precio, d.saldoCliente, d.compras,
      d.calificacionPromedio, d.autor, d.version, d.categoria, d.fechaPublicacion,
      d.imagenUrls, d.mostrarAcciones, d.urlTtl, d.urlDescargar)
  }

  /** The comment mapper: author, rating, date and text copied. */
  function CommentToDomain(c: CommentDto): (m: ProductComment)
    ensures m.cliente == c.cliente && m.calificacion == c.calificacion
    ensures m.fecha == c.fecha && m.descripcion == c.descripcion
  {
    ProductComment(c.cliente, c.calificacion, c.fecha, c.descripcion)
  }

  /** The mappers are one to one: no field is dropped or merged. */
  lemma MappersInjective(a: ProductDetailDto, b: ProductDetailDto, c: CommentDto, d: CommentDto)
    ensures DetailToDomain(a) == DetailToDomain(b) ==> a == b
    ensures CommentToDomain(c) == CommentToDomain(d) ==> c == d
  {
  }

  /** The catch clauses shared by every call here: an HTTP error becomes
      "Error del servidor (<code>)", a transport failure the connection message. */
  function FailureMessage<R>(o: Outcome<R>): (m: string)
    requires !o.Reply?
    ensures o.Http? ==> m == ServerError(o.code)
    ensures o.Transport? ==> m == ConnectionError
  {
    if o.Http? then ServerError(o.code) else ConnectionError
  }

  /** `getProductDetail` (and the private `fetchDetail`, which is the same
      code): an `ok=false` reply fails with "Respuesta no válida del servidor",
      which the catch clauses let through unchanged; otherwise the detail is
      mapped and the comments keep the server's order and number. */
  function GetProductDetail(o: Outcome<ProductDetailResponseDto>): (r: Result<ProductDetailResult>)
    ensures r.Ok? <==> o.Reply? && o.reply.ok
    ensures r.Ok? ==> r.value.detail == DetailToDomain(o.reply.producto)
    ensures r.Ok? ==> |r.value.comments| == |o.reply.comentarios|
                      && forall i :: 0 <= i < |o.reply.comentarios| ==> r.value.comments[i] == CommentToDomain(o.reply.comentarios[i])
    ensures o.Reply? && !o.reply.ok ==> r == Err(Some(InvalidReply))
    ensures !o.Reply? ==> r == Err(Some(FailureMessage(o)))
  {
    match o
    case Reply(res) =>
      if !res.ok then Err(Some(InvalidReply))
      else Ok(ProductDetailResult(DetailToDomain(res.producto), MapSeq(CommentToDomain, res.comentarios)))
    case _ => Err(Some(FailureMessage(o)))
  }

  /** An action whose reply is a `SimpleResponseDto`: `ok` succeeds, `ok=false`
      fails with the reply's message or the action's own fallback. */
  function ActionOutcome(o: Outcome<SimpleResponseDto>, fallback: string): (r: Result<()>)
    ensures r.Ok? <==> o.Reply? && o.reply.ok
    ensures o.Reply? && !o.reply.ok ==> r == Err(Some(o.reply.message.GetOr(fallback)))
    ensures !o.Reply? ==> r == Err(Some(FailureMessage(o)))
  {
    match o
    case Reply(res) => if res.ok then Ok(()) else Err(Some(res.message.GetOr(fallback)))
    case _ => Err(Some(FailureMessage(o)))
  }

  /** The body of `commentOnProduct`: the text as given. */
  function CommentBody(text: string): (b: CommentRequestDto)
    ensures b.descripcion == text
  {
    CommentRequestDto(text)
  }

  /** `commentOnProduct`. */
  function CommentOnProduct(o: Outcome<SimpleResponseDto>): (r: Result<()>)
    ensures r == ActionOutcome(o, CommentFallback)
  {
    ActionOutcome(o, CommentFallback)
  }

  /** The body of `rateProduct`: the rating as given (the view model bounds it). */
  function RatingBody(rating: int): (b: RatingRequestDto)
    ensures b.calificacion == rating
  {
    RatingRequestDto(rating)
  }

  /** `rateProduct`; the new average in the reply is not used. */
  function RateProduct(o: Outcome<SimpleResponseDto>): (r: Result<()>)
    ensures r == ActionOutcome(o, RatingFallback)
  {
    ActionOutcome(o, RatingFallback)
  }

  /** Comment and rating differ only in the fallback they show for a silent
      rejection; a rejection with a message reads the same for both. */
  lemma RejectionMessages(message: Option<string>, avg: Option<Double>)
    ensures CommentOnProduct(Reply(SimpleResponseDto(false, message, avg))) == Err(Some(message.GetOr(CommentFallback)))
    ensures RateProduct(Reply(SimpleResponseDto(false, message, avg))) == Err(Some(message.GetOr(RatingFallback)))
    ensures message.Some? ==> CommentOnProduct(Reply(SimpleResponseDto(false, message, avg)))
                              == RateProduct(Reply(SimpleResponseDto(false, message, avg)))
  {
  }

  /** `buyProduct`: `purchase` is the outcome of the purchase call; only after
      an `ok` purchase is the detail fetched again (`refetch`, through
      `fetchDetail`), and its result, failure included, is the result. */
  function BuyProduct(purchase: Outcome<PurchaseResponseDto>, refetch: Outcome<ProductDetailResponseDto>): (r: Result<ProductDetailResult>)
    ensures purchase.Reply? && purchase.reply.ok ==> r == GetProductDetail(refetch)
    ensures purchase.Reply? && !purchase.reply.ok ==> r == Err(Some(purchase.reply.message.GetOr(PurchaseFallback)))
    ensures !purchase.Reply? ==> r == Err(Some(FailureMessage(purchase)))
  {
    match purchase
    case Reply(res) =>
      if !res.ok then Err(Some(res.message.GetOr(PurchaseFallback)))
      else GetProductDetail(refetch)
    case _ => Err(Some(FailureMessage(purchase)))
  }

  /** A purchase that did not go through never looks at the detail call: its
      result is the same whatever that call would have returned. */
  lemma FailedPurchaseIgnoresRefetch(purchase: Outcome<PurchaseResponseDto>, a: Outcome<ProductDetailResponseDto>, b: Outcome<ProductDetailResponseDto>)
    requires !(purchase.Reply? && purchase.reply.ok)
    ensures BuyProduct(purchase, a) == BuyProduct(purchase, b)
    ensures BuyProduct(purchase, a).Err?
  {
  }

  /** A purchase succeeds exactly when it was accepted and the detail could be
      read again; the detail it returns is the fresh one. */
  lemma PurchaseSucceedsIff(purchase: Outcome<PurchaseResponseDto>, refetch: Outcome<ProductDetailResponseDto>)
    ensures BuyProduct(purchase, refetch).Ok?
            <==> purchase.Reply? && purchase.reply.ok && refetch.Reply? && refetch.reply.ok
    ensures BuyProduct(purchase, refetch).Ok?
            ==> BuyProduct(purchase, refetch).value.detail == DetailToDomain(refetch.reply.producto)
  {
  }
}
