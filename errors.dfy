/** The error texts the repositories build, and what an exception that no
    repository catches looks like to the view model that finally catches it. */
module Errors {
  import opened Common
  import opened Text

  /** "Error del servidor (<code>)." — the raw-body and JSON-body mappers
      (profile, admin profile, authentication) and the file download. The
      code between the parentheses reads back as the HTTP status. */
  function ServerErrorDot(code: int): (m: string)
    ensures |m| > 22 && m[..20] == "Error del servidor (" && m[|m| - 2..] == ")."
    ensures LongMin <= code <= LongMax ==> ToLongOrNull(m[20..|m| - 2]) == Some(code)
  {
    var m := "Error del servidor (" + LongText(code) + ").";
    if LongMin <= code <= LongMax then CodeReadsBack("Error del servidor (", code, ")."); m else m
  }

  /** "Error del servidor (<code>)" without the final period — product detail
      and rankings. */
  function ServerError(code: int): (m: string)
    ensures |m| > 21 && m[..20] == "Error del servidor (" && m[|m| - 1] == ')'
    ensures LongMin <= code <= LongMax ==> ToLongOrNull(m[20..|m| - 1]) == Some(code)
  {
    var m := "Error del servidor (" + LongText(code) + ")";
    if LongMin <= code <= LongMax then CodeReadsBack("Error del servidor (", code, ")"); m else m
  }

  /** "Error en servidor (<code>)" — the catalog. */
  function ServerErrorCatalog(code: int): (m: string)
    ensures |m| > 20 && m[..19] == "Error en servidor (" && m[|m| - 1] == ')'
    ensures LongMin <= code <= LongMax ==> ToLongOrNull(m[19..|m| - 1]) == Some(code)
  {
    var m := "Error en servidor (" + LongText(code) + ")";
    if LongMin <= code <= LongMax then CodeReadsBack("Error en servidor (", code, ")"); m else m
  }

  /** The message of Retrofit's HttpException: "HTTP <code> <status text>";
      the status text ends the message unchanged. */
  function HttpExceptionMessage(code: int, statusText: string): (m: string)
    ensures |m| > 6 + |statusText| && m[..5] == "HTTP "
    ensures m[|m| - |statusText| - 1] == ' ' && m[|m| - |statusText|..] == statusText
    ensures LongMin <= code <= LongMax ==> ToLongOrNull(m[5..|m| - |statusText| - 1]) == Some(code)
  {
    var suffix := " " + statusText;
    var m := "HTTP " + LongText(code) + suffix;
    assert m[|m| - |statusText|..] == statusText && |m| - |suffix| == |m| - |statusText| - 1;
    if LongMin <= code <= LongMax then CodeReadsBack("HTTP ", code, suffix); m else m
  }

  /** The message a view model reads from an exception of a failed call that
      nothing caught on the way: the IOException's own message, or the
      HttpException's. */
  function UncaughtMessage<R>(o: Outcome<R>): (m: Option<string>)
    requires !o.Reply?
    ensures o.Http? ==> m == Some(HttpExceptionMessage(o.code, o.statusText))
    ensures o.Transport? ==> m == o.ioMessage
  {
    match o
    case Transport(msg) => msg
    case Http(code, text, _) => Some(HttpExceptionMessage(code, text))
  }

  /** A call made with no try/catch around it: a decoded reply is the value,
      anything else propagates. */
  function Uncaught<R>(o: Outcome<R>): (r: Result<R>)
    ensures o.Reply? <==> r.Ok?
    ensures o.Reply? ==> r.value == o.reply
    ensures !o.Reply? ==> r.message == UncaughtMessage(o)
  {
    if o.Reply? then Ok(o.reply) else Err(UncaughtMessage(o))
  }

  /** `parseErrorBody` of ProfileRepository (and AuthRepository): the raw error
      body as it came, or "Error del servidor (<code>)." when there is none; no
      JSON is looked at. */
  function RawBodyMessage(code: int, body: Option<ErrorBody>): (m: string)
    ensures body.Some? ==> m == body.value.raw
    ensures body.None? ==> m == ServerErrorDot(code)
  {
    match body
    case Some(b) => b.raw
    case None => ServerErrorDot(code)
  }

  /** The connection message can never be mistaken for a server-error message:
      the user can tell a network failure from an HTTP error. */
  lemma ConnectionIsNotServerError(code: int)
    ensures ConnectionError != ServerErrorDot(code)
    ensures ConnectionError != ServerError(code)
    ensures ConnectionError != ServerErrorCatalog(code)
  {
    ConnectionErrorLetters();
    assert ServerErrorDot(code)[8] == 'l' by { ServerPrefixLetters(ServerErrorDot(code)); }
    assert ServerError(code)[8] == 'l' by { ServerPrefixLetters(ServerError(code)); }
    assert ServerErrorCatalog(code)[6] == 'e' by { CatalogPrefixLetters(ServerErrorCatalog(code)); }
  }

  /** Two letters of the connection message that tell it apart. */
  lemma ConnectionErrorLetters()
    ensures ConnectionError[6] == 'd' && ConnectionError[8] == ' '
  {
  }

  /** The letter at index 8 of any "Error del servidor (" message. */
  lemma ServerPrefixLetters(m: string)
    requires |m| > 20 && m[..20] == "Error del servidor ("
    ensures m[8] == 'l'
  {
    assert m[8] == m[..20][8];
  }

  /** The letter at index 6 of any "Error en servidor (" message. */
  lemma CatalogPrefixLetters(m: string)
    requires |m| > 19 && m[..19] == "Error en servidor ("
    ensures m[6] == 'e'
  {
    assert m[6] == m[..19][6];
  }
}
