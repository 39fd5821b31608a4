/** The browser's request layer: classification of an HTTP exchange into a
    value or a typed error, the 404 normalisation of the status query, the
    QR image fetch and the session-creation body. */
module Api {
  import opened Wrappers
  import opened Json
  import Text

  /** What a successful request yields: parsed JSON or the body as text. */
  datatype Data = JsonData(j: Json) | TextData(s: string)

  /** A response body, as `response.text()` sees it and as `response.json()`
      parses it (`None` when it is not valid JSON). */
  datatype Body = Body(text: string, parsed: Option<Json>)

  datatype Response = Response(ok: bool, status: nat, contentType: Option<string>, body: Body)

  /** The outcome of `fetch`: a response, or a rejection with the error's
      name and message (a network failure is a `TypeError`). */
  datatype Fetched = Responded(response: Response) | Rejected(name: string, message: string)

  /** An error thrown by the request layer. `status` and `data` are `None`
      when the error carries no such property. The message is the value the
      error was built from (the browser shows it converted by `String`). */
  datatype ApiError = ApiError(name: string, message: Json, status: Option<int>, data: Option<Data>)

  const ConnectionErrorMessage: string := "Erro de conexão com o servidor. Verifique se o backend está rodando."
  const QrUnavailableMessage: string := "QR code não disponível"
  const WebhookUrl: string := "http://host.docker.internal:8001/webhook"

  /** The TypeError raised by reading property `key` of `null`. */
  function NullRead(key: string): (e: ApiError)
    ensures e.name == "TypeError" && e.status.None? && e.data.None?
  {
    ApiError("TypeError", JStr("Cannot read properties of null (reading '" + key + "')"), None, None)
  }

  /** The response is declared JSON when its content type mentions
      `application/json`. */
  predicate IsJsonType(contentType: Option<string>) {
    contentType.Some? && Text.Includes(contentType.value, "application/json")
  }

  /** The body as the request layer reads it: parsed when declared JSON
      (an unparsable body is an error without status), text otherwise. */
  function ReadBody(r: Response): (d: Result<Data, ApiError>)
    ensures IsJsonType(r.contentType) && r.body.parsed.Some? ==> d == Success(JsonData(r.body.parsed.value))
    ensures IsJsonType(r.contentType) && r.body.parsed.None? ==>
              d == Failure(ApiError("Error", JStr("Invalid JSON response: " + Text.Decimal(r.status)), None, None))
    ensures !IsJsonType(r.contentType) ==> d == Success(TextData(r.body.text))
  {
    if IsJsonType(r.contentType) then
      match r.body.parsed
      case Some(j) => Success(JsonData(j))
      case None => Failure(ApiError("Error", JStr("Invalid JSON response: " + Text.Decimal(r.status)), None, None))
    else Success(TextData(r.body.text))
  }

  /** Reads `data.key` the way the source does on a value that may be text. */
  function Field(d: Data, key: string): Access {
    match d
    case TextData(_) => Undefined
    case JsonData(j) => Get(j, key)
  }

  /** The error for a non-ok response: message from `data.message`, else
      `data.error`, else `HTTP <status>`, carrying the status and the data.
      When the data is `null`, reading `data.message` throws instead. */
  function HttpError(status: nat, d: Data): (e: ApiError)
    ensures d == JsonData(JNull) ==> e == NullRead("message")
    ensures d != JsonData(JNull) ==> e.name == "Error" && e.status == Some(status) && e.data == Some(d)
  {
    var m := Field(d, "message");
    if m.Throws? then NullRead("message")
    else
      var er := Field(d, "error");
      var message :=
        if TruthyAccess(m) then m.v
        else if TruthyAccess(er) then er.v
        else JStr("HTTP " + Text.Decimal(status));
      ApiError("Error", message, Some(status), Some(d))
  }

  /** A network failure (a TypeError mentioning `fetch`) becomes a
      connection error with status 0; every other error passes unchanged. */
  function Rewrap(e: ApiError): (r: ApiError)
    ensures IsNetworkFailure(e) ==> r == ApiError("Error", JStr(ConnectionErrorMessage), Some(0), None)
    ensures !IsNetworkFailure(e) ==> r == e
  {
    if IsNetworkFailure(e) then ApiError("Error", JStr(ConnectionErrorMessage), Some(0), None) else e
  }

  predicate IsNetworkFailure(e: ApiError) {
    e.name == "TypeError" && e.message.JStr? && Text.Includes(e.message.s, "fetch")
  }

  /** `apiRequest`: the value of an ok response, or the error it throws. */
  function ApiRequest(f: Fetched): (r: Result<Data, ApiError>)
    ensures r.Success? <==> f.Responded? && f.response.ok && ReadBody(f.response).Success?
    ensures r.Success? ==> r.value == ReadBody(f.response).value
  {
    match f
    case Rejected(name, message) => Failure(Rewrap(ApiError(name, JStr(message), None, None)))
    case Responded(resp) =>
      match ReadBody(resp)
      case Failure(e) => Failure(Rewrap(e))
      case Success(d) => if resp.ok then Success(d) else Failure(Rewrap(HttpError(resp.status, d)))
  }

  /** The error of a non-ok response takes its message from the data's
      `message`, else `error` property when truthy, else `HTTP <status>`,
      and carries the status and data. */
  lemma HttpErrorMessage(resp: Response, d: Data)
    requires !resp.ok && ReadBody(resp) == Success(d) && d != JsonData(JNull)
    ensures ApiRequest(Responded(resp)).Failure?
    ensures var e := ApiRequest(Responded(resp)).error;
            && e.status == Some(resp.status) && e.data == Some(d)
            && (TruthyAccess(Field(d, "message")) ==> e.message == Field(d, "message").v)
            && (!TruthyAccess(Field(d, "message")) && TruthyAccess(Field(d, "error")) ==> e.message == Field(d, "error").v)
            && (!TruthyAccess(Field(d, "message")) && !TruthyAccess(Field(d, "error")) ==>
                  e.message == JStr("HTTP " + Text.Decimal(resp.status)))
  {
    assert !IsNetworkFailure(HttpError(resp.status, d));
  }

  /** The only errors with a status are those of a non-ok response, which
      carry its status, and network failures, which carry 0. */
  lemma ErrorStatusOrigin(f: Fetched)
    requires ApiRequest(f).Failure? && ApiRequest(f).error.status.Some?
    ensures var s := ApiRequest(f).error.status.value;
            s == 0 || (f.Responded? && !f.response.ok && f.response.status == s)
  {
    match f
    case Rejected(name, message) =>
    case Responded(resp) =>
      match ReadBody(resp)
      case Failure(e) =>
      case Success(d) =>
        if !resp.ok && d != JsonData(JNull) {
          assert !IsNetworkFailure(HttpError(resp.status, d));
        }
  }

  /** A body declared JSON that does not parse is an error without status,
      whether the response was ok or not. */
  lemma InvalidJsonHasNoStatus(resp: Response)
    requires IsJsonType(resp.contentType) && resp.body.parsed.None?
    ensures ApiRequest(Responded(resp)) ==
      Failure(ApiError("Error", JStr("Invalid JSON response: " + Text.Decimal(resp.status)), None, None))
  {
  }

  /** `getSessionStatus`: a 404 means the session is stopped. */
  function GetSessionStatus(f: Fetched): (r: Result<Data, ApiError>)
    ensures r.Failure? ==> r.error.status != Some(404)
    ensures f.Responded? && !f.response.ok && f.response.status == 404
            && ReadBody(f.response).Success? && ReadBody(f.response).value != JsonData(JNull)
            ==> r == Success(JsonData(StatusObject("STOPPED")))
    ensures ApiRequest(f).Success? ==> r == ApiRequest(f)
    ensures ApiRequest(f).Failure? && ApiRequest(f).error.status != Some(404) ==> r == ApiRequest(f)
  {
    var r := ApiRequest(f);
    if r.Failure? && r.error.status == Some(404) then Success(JsonData(StatusObject("STOPPED"))) else r
  }

  /** The QR fetch: `fetch` rejections pass through unchanged, a non-ok
      response is an error without status, an ok response yields its image. */
  datatype QrFetched = QrRejected(name: string, message: string) | QrResponded(ok: bool, image: nat)

  function GetQRCode(q: QrFetched): (r: Result<nat, ApiError>)
    ensures r.Success? <==> q.QrResponded? && q.ok
    ensures r.Success? ==> r.value == q.image
    ensures r.Failure? ==> r.error.status.None?
  {
    match q
    case QrRejected(name, message) => Failure(ApiError(name, JStr(message), None, None))
    case QrResponded(ok, image) =>
      if ok then Success(image) else Failure(ApiError("Error", JStr(QrUnavailableMessage), None, None))
  }

  datatype Webhook = Webhook(url: string, events: seq<string>)

  /** The fields of the session-creation body the gateway acts on. */
  datatype SessionConfig = SessionConfig(
    name: string, start: bool, userId: string, userEmail: string,
    debug: bool, storeEnabled: bool, fullSync: bool, webhooks: seq<Webhook>)

  /** The creation body: the default session, started at once, tagged with
      the phone (or `web` when the phone is empty), with the webhook for
      message and session-status events. */
  function CreateSessionBody(phone: string): (c: SessionConfig)
    ensures c.name == "default" && c.start
    ensures c.userId == (if phone == "" then "web" else phone) && c.userEmail == ""
    ensures c.storeEnabled && !c.fullSync && !c.debug
    ensures c.webhooks == [Webhook(WebhookUrl, ["message", "session.status"])]
  {
    SessionConfig("default", true, if phone == "" then "web" else phone, "",
                  false, true, false, [Webhook(WebhookUrl, ["message", "session.status"])])
  }
}
