/** `AdminProfileRepositoryImpl`: saves the administrator's profile and turns
    a failed call into one display message, reading the server's JSON error
    body when there is one. */
module AdminProfileRepository {
  import opened Common
  import opened Errors

  /** The administrator's profile as sent and as returned by the backend. */
  datatype AdminProfileDto = AdminProfileDto(idUsuario: int, nombre: string, correo: string, contrasena: string)

  /** The keys looked up in an error object, highest priority first. */
  const ErrorKeys: seq<string> := ["error", "errors", "detail"]

  /** Reference reading of the priority rule: the value of the first key of
      `keys` that the object has. */
  function FirstPresent(json: map<string, string>, keys: seq<string>): (v: Option<string>)
    ensures v.Some? <==> exists i :: 0 <= i < |keys| && keys[i] in json
    ensures v.Some? ==> exists i :: 0 <= i < |keys| && keys[i] in json && v.value == json[keys[i]]
                          && forall j :: 0 <= j < i ==> keys[j] !in json
  {
    if keys == [] then None
    else if keys[0] in json then Some(json[keys[0]])
    else
      var rest := FirstPresent(json, keys[1..]);
      if rest.Some? then
        ghost var i :| 0 <= i < |keys[1..]| && keys[1..][i] in json && rest.value == json[keys[1..][i]]
                       && forall j :: 0 <= j < i ==> keys[1..][j] !in json;
        assert keys[i + 1] in json && forall j :: 0 <= j < i + 1 ==> keys[j] !in json by {
          forall j | 0 <= j < i + 1 ensures keys[j] !in json {
            if j > 0 { assert keys[j] == keys[1..][j - 1]; }
          }
        }
        rest
      else
        assert forall i :: 1 <= i < |keys| ==> keys[i] == keys[1..][i - 1];
        rest
  }

  /** `parseErrorBody`: no body gives "Error del servidor (<code>)."; a JSON
      object gives the value of `error`, else `errors`, else `detail`; an object
      with none of them, or a body that is not a JSON object, gives the raw body
      itself. */
  function ParseErrorBody(code: int, body: Option<ErrorBody>): (m: string)
    ensures body.None? ==> m == ServerErrorDot(code)
    ensures body.Some? && body.value.json.None? ==> m == body.value.raw
    ensures body.Some? && body.value.json.Some? && "error" in body.value.json.value
            ==> m == body.value.json.value["error"]
    ensures body.Some? && body.value.json.Some? && "error" !in body.value.json.value
            && "errors" in body.value.json.value
            ==> m == body.value.json.value["errors"]
    ensures body.Some? && body.value.json.Some? && "error" !in body.value.json.value
            && "errors" !in body.value.json.value && "detail" in body.value.json.value
            ==> m == body.value.json.value["detail"]
    ensures body.Some? && body.value.json.Some? && "error" !in body.value.json.value
            && "errors" !in body.value.json.value && "detail" !in body.value.json.value
            ==> m == body.value.raw
  {
    match body
    case None => ServerErrorDot(code)
    case Some(b) =>
      match b.json
      case None => b.raw
      case Some(json) =>
        if "error" in json then json["error"]
        else if "errors" in json then json["errors"]
        else if "detail" in json then json["detail"]
        else b.raw
  }

  /** The `when` chain is the first-present-key rule over `error`, `errors`,
      `detail`, with the raw body as the default. */
  lemma {:induction false} ParseErrorBodyIsFirstPresent(code: int, raw: string, json: map<string, string>)
    ensures ParseErrorBody(code, Some(ErrorBody(raw, Some(json))))
            == FirstPresent(json, ErrorKeys).GetOr(raw)
  {
    var tail1: seq<string> := ["errors", "detail"];
    var tail2: seq<string> := ["detail"];
    assert ErrorKeys[0] == "error" && ErrorKeys[1..] == tail1;
    assert tail1[0] == "errors" && tail1[1..] == tail2;
    assert tail2[0] == "detail" && tail2[1..] == [];
    assert FirstPresent(json, []) == None;
    if "error" !in json && "errors" !in json && "detail" !in json {
      assert FirstPresent(json, tail2) == None;
      assert FirstPresent(json, tail1) == None;
    }
  }

  /** Once an error body is present the status code plays no part. */
  lemma BodyHidesCode(code1: int, code2: int, b: ErrorBody)
    ensures ParseErrorBody(code1, Some(b)) == ParseErrorBody(code2, Some(b))
  {
  }

  /** An `error` key decides the message, whatever else the object holds. */
  lemma ErrorKeyWins(code: int, raw: string, json: map<string, string>, extra: map<string, string>, msg: string)
    ensures ParseErrorBody(code, Some(ErrorBody(raw, Some(json + extra + map["error" := msg])))) == msg
  {
  }

  /** `updateProfile`: the saved profile as the server returns it; an HTTP error
      becomes its parsed message, a transport failure the fixed connection
      message. Every failure carries a message. */
  function UpdateProfile(o: Outcome<AdminProfileDto>): (r: Result<AdminProfileDto>)
    ensures r.Ok? <==> o.Reply?
    ensures r.Ok? ==> r.value == o.reply
    ensures o.Http? ==> r == Err(Some(ParseErrorBody(o.code, o.errorBody)))
    ensures o.Transport? ==> r == Err(Some(ConnectionError))
  {
    match o
    case Reply(dto) => Ok(dto)
    case Http(code, _, body) => Err(Some(ParseErrorBody(code, body)))
    case Transport(_) => Err(Some(ConnectionError))
  }
}
