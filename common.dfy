/** Shared shapes of the data layer: optional values, the outcome of one backend
    call, the normalised result a repository hands to a view model, and the
    paginated list reply that every list endpoint of the backend returns. */
module Common {

  datatype Option<+T> = None | Some(value: T) {
    /** Kotlin's elvis operator `x ?: default`. */
    function GetOr(default: T): T {
      match this
      case Some(v) => v
      case None => default
    }
  }

  /** A floating-point value (price, balance, average rating). The core never
      computes with one; it is carried unchanged and, where the source calls
      `toString()` on it, that text is `text`. */
  datatype Double = Double(text: string)

  /** The body of a non-2xx response. `json` is the object org.json reads from
      `raw` (each value as `getString` returns it), or None when `raw` is not a
      JSON object. */
  datatype ErrorBody = ErrorBody(raw: string, json: Option<map<string, string>>)

  /** What one call to the backend ends in, as seen by the code that made it:
      an IOException (network down, DNS, timeout) with its optional message,
      a non-2xx response (Retrofit's HttpException), or a decoded reply. */
  datatype Outcome<+R> =
    | Transport(ioMessage: Option<string>)
    | Http(code: int, statusText: string, errorBody: Option<ErrorBody>)
    | Reply(reply: R)

  /** What a repository call gives back to its caller: a value, or the
      exception it throws, reduced to that exception's (optional) message. */
  datatype Result<+T> = Ok(value: T) | Err(message: Option<string>)

  /** The JSON shape shared by every paginated list endpoint. */
  datatype RowsResponse<+D> = RowsResponse(ok: bool, rows: seq<D>, page: int, totalPages: int)

  /** A fetched page as the repositories publish it. */
  datatype Page<+T> = Page(items: seq<T>, page: int, totalPages: int)

  /** Fixed message for every IOException caught by a repository. */
  const ConnectionError: string := "Error de conexión. Verifica tu internet."

  /** Kotlin's `map` on a list: one result per element, in order. */
  function MapSeq<A, B>(f: A -> B, s: seq<A>): (r: seq<B>)
    ensures |r| == |s|
    ensures forall i :: 0 <= i < |s| ==> r[i] == f(s[i])
  {
    if s == [] then [] else [f(s[0])] + MapSeq(f, s[1..])
  }

  /** A list reply turned into a page: counters copied, rows mapped in order. */
  function ToPage<D, T>(res: RowsResponse<D>, f: D -> T): (p: Page<T>)
    ensures p.page == res.page && p.totalPages == res.totalPages
    ensures |p.items| == |res.rows|
    ensures forall i :: 0 <= i < |res.rows| ==> p.items[i] == f(res.rows[i])
  {
    Page(MapSeq(f, res.rows), res.page, res.totalPages)
  }

  /** Kotlin's `coerceAtLeast(lo)`: the larger of the two. */
  function CoerceAtLeast(x: int, lo: int): (r: int)
    ensures r >= lo && r >= x
    ensures r == x || r == lo
  {
    if x < lo then lo else x
  }

  /** Kotlin's `coerceIn(lo, hi)` for a non-empty range (the only way the core
      calls it): the closest value of the range. */
  function CoerceIn(x: int, lo: int, hi: int): (r: int)
    requires lo <= hi
    ensures lo <= r <= hi
    ensures lo <= x <= hi ==> r == x
    ensures x < lo ==> r == lo
    ensures x > hi ==> r == hi
  {
    if x < lo then lo else if x > hi then hi else x
  }

  /** Range of Kotlin's 32-bit `Int`. */
  const IntMin: int := -0x8000_0000
  const IntMax: int := 0x7FFF_FFFF

  /** Two's-complement wrap-around of an `Int` result. */
  function Wrap32(x: int): (r: int)
    ensures IntMin <= r <= IntMax
    ensures IntMin <= x <= IntMax ==> r == x
    ensures (x - r) % 0x1_0000_0000 == 0
  {
    (x - IntMin) % 0x1_0000_0000 + IntMin
  }
}
