/** The registration service: request validation, the outbound headers, the
    request bodies and call configurations of the four downstream services
    (ListUser, GenerateEncryptToken, InsertUserInProcess, SendMail), the
    authorization code, and the error classification that every adapter
    applies to a failed call. The HTTP transport itself is not modelled: a
    downstream call is its configuration (`Call`) and its outcome
    (`CallOutcome`). */
module RegisterUserService {
  import opened Js
  import opened HeaderSchema
  import opened RegisterUserSchema
  import opened Express

  // ---------------------------------------------------------------------------
  // validarRequest

  /** The first error Ajv reports. Its wording is Ajv's and is not modelled. */
  datatype SchemaError = SchemaError(dataPath: string, message: string)

  /** What validation decides: the 400 reply for invalid headers or an invalid
      body, or the body it accepts. */
  datatype Validation = HeadersRejected(reply: Reply) | BodyRejected(reply: Reply) | Accepted(body: Value)

  /** Headers are checked first and an invalid header set is reported without
      looking at the body; the body is checked only under valid headers; an
      accepted body is handed on unchanged. */
  function Validate(headers: Headers, body: Value, isEmail: string -> bool,
                    headerError: SchemaError, bodyError: SchemaError): (r: Validation)
    ensures r.HeadersRejected? <==> !HeadersValid(headers)
    ensures r.BodyRejected? <==> HeadersValid(headers) && !BodyValid(body, isEmail)
    ensures r.Accepted? <==> HeadersValid(headers) && BodyValid(body, isEmail)
    ensures r.Accepted? ==> r.body == body
    ensures r.HeadersRejected? ==> r.reply == Reply(400, ErrorBody("400", headerError.message))
    ensures r.BodyRejected? ==>
      r.reply == Reply(400, ErrorBody("400", bodyError.dataPath + " - " + bodyError.message))
  {
    if !HeadersValid(headers) then
      HeadersRejected(Reply(400, ErrorBody("400", headerError.message)))
    else if !BodyValid(body, isEmail) then
      BodyRejected(Reply(400, ErrorBody("400", bodyError.dataPath + " - " + bodyError.message)))
    else
      Accepted(body)
  }

  /** The state the promise returned by `validarRequest` ends in. On invalid
      headers the executor returns without settling it: it stays pending. */
  datatype Settlement = Pending | Rejected | Resolved(value: Value)

  /** Validates the request and writes the 400 reply onto `res` when it is
      invalid. The handler calls it before anything was sent. */
  method ValidarRequest(headers: Headers, body: Value, isEmail: string -> bool,
                        headerError: SchemaError, bodyError: SchemaError, res: Response)
    returns (p: Settlement)
    requires res.reply == None
    modifies res
    ensures var v := Validate(headers, body, isEmail, headerError, bodyError);
      match v
      case HeadersRejected(reply) =>
        p == Pending && res.statusCode == 400 && res.reply == Some(reply)
      case BodyRejected(reply) =>
        p == Rejected && res.statusCode == 400 && res.reply == Some(reply)
      case Accepted(b) =>
        p == Resolved(b) && res.statusCode == old(res.statusCode) && res.reply == old(res.reply)
  {
    if !HeadersValid(headers) {
      res.Status(400);
      var sent := res.Json(ErrorBody("400", headerError.message));
      p := Pending;
    } else if !BodyValid(body, isEmail) {
      res.Status(400);
      var sent := res.Json(ErrorBody("400", bodyError.dataPath + " - " + bodyError.message));
      p := Rejected;
    } else {
      p := Resolved(body);
    }
  }

  // ---------------------------------------------------------------------------
  // crearRqHeaders

  /** The headers sent to every downstream service. A header the request
      lacks is `undefined` (`None`). */
  datatype RqHeaders = RqHeaders(transactionId: Option<string>, timestamp: Option<string>,
                                 contentType: string, accept: Option<string>,
                                 channelId: Option<string>)

  function HeaderValue(h: Headers, name: string): Option<string> {
    if name in h then Some(h[name]) else None
  }

  function CrearRqHeaders(h: Headers): (r: RqHeaders)
    ensures r.contentType == "application/json"
  {
    RqHeaders(HeaderValue(h, "transaction_id"), HeaderValue(h, "timestamp"), "application/json",
              HeaderValue(h, "accept"), HeaderValue(h, "channel_id"))
  }

  /** Under valid request headers the three trace headers are forwarded
      verbatim, `accept` is forwarded when present, and the content type is
      always JSON. */
  lemma RqHeadersForwarded(h: Headers)
    requires HeadersValid(h)
    ensures var r := CrearRqHeaders(h);
      && r.transactionId == Some(h["transaction_id"])
      && r.timestamp == Some(h["timestamp"])
      && r.channelId == Some(h["channel_id"])
      && r.accept == (if "accept" in h then Some(h["accept"]) else None)
      && r.contentType == "application/json"
  {
  }

  /** No other request header reaches the downstream services: changing one
      leaves the outbound headers as they were. */
  lemma RqHeadersIgnoreOthers(h: Headers, name: string, value: string)
    requires name !in {"transaction_id", "timestamp", "accept", "channel_id"}
    ensures CrearRqHeaders(h[name := value]) == CrearRqHeaders(h)
    ensures CrearRqHeaders(h - {name}) == CrearRqHeaders(h)
  {
  }

  // ---------------------------------------------------------------------------
  // Downstream calls

  datatype Service = ListUser | GenerateEncryptToken | InsertUserInProcess | SendMail

  function ServiceName(s: Service): string {
    match s
    case ListUser => "ListUser"
    case GenerateEncryptToken => "GenerateEncryptToken"
    case InsertUserInProcess => "InsertUserInProcess"
    case SendMail => "SendMail"
  }

  datatype HttpMethod = Get | Post

  /** The per-call timeout of every adapter, in milliseconds. */
  const TimeoutMs: nat := 5000

  /** An adapter's request configuration. The base URL comes from the process
      environment and is not modelled. */
  datatype Call = Call(service: Service, verb: HttpMethod, path: string, headers: RqHeaders,
                       data: Option<Value>, timeoutMs: nat)

  function ListUserConfig(h: RqHeaders, email: string): Call {
    Call(ListUser, Get, "/user/" + email, h, None, TimeoutMs)
  }

  function GenerateEncryptTokenConfig(h: RqHeaders, data: Value): Call {
    Call(GenerateEncryptToken, Post, "/token/encrypt", h, Some(data), TimeoutMs)
  }

  function InsertUserInProcessConfig(h: RqHeaders, data: Value): Call {
    Call(InsertUserInProcess, Post, "/user/in-process", h, Some(data), TimeoutMs)
  }

  function SendMailConfig(h: RqHeaders, data: Value): Call {
    Call(SendMail, Post, "/send/mail", h, Some(data), TimeoutMs)
  }

  /** Why a downstream call failed: the service answered with an error status
      (`error.response`), or the transport failed with an error code such as
      `ECONNREFUSED` or `ECONNABORTED` (the timeout), or with none. */
  datatype Failure = RemoteError(status: int, code: string, message: string) | TransportError(errorCode: Option<string>)

  datatype CallOutcome = Answered(data: Value) | Failed(failure: Failure)

  /** The reply an adapter writes for a failed call. A service's own error is
      forwarded verbatim; a refused connection is 502 with its code, a timeout
      504 with its code, anything else 502 `Bad Gateway`; the message of a
      transport failure names the service. */
  function Classify(service: Service, f: Failure): (r: Reply)
    ensures r.body.ErrorBody?
    ensures f.RemoteError? ==> r == Reply(f.status, ErrorBody(f.code, f.message))
    ensures f.TransportError? ==>
      && (r.status == 504 <==> f.errorCode == Some("ECONNABORTED"))
      && (r.status == 502 <==> f.errorCode != Some("ECONNABORTED"))
      && r.body.code == (if f.errorCode in {Some("ECONNREFUSED"), Some("ECONNABORTED")} then f.errorCode.value
                         else "Bad Gateway")
      && r.body.message == (if r.status == 504 then "Timeout en ms " else "Error al conectar con ms ")
                           + ServiceName(service)
  {
    match f
    case RemoteError(status, code, message) => Reply(status, ErrorBody(code, message))
    case TransportError(code) =>
      if code == Some("ECONNREFUSED") then
        Reply(502, ErrorBody("ECONNREFUSED", "Error al conectar con ms " + ServiceName(service)))
      else if code == Some("ECONNABORTED") then
        Reply(504, ErrorBody("ECONNABORTED", "Timeout en ms " + ServiceName(service)))
      else
        Reply(502, ErrorBody("Bad Gateway", "Error al conectar con ms " + ServiceName(service)))
  }

  /** The four adapters classify alike: for any failure, two services get the
      same status and code, and messages that differ only in the service
      name. */
  lemma {:induction false} ClassifyUniform(s1: Service, s2: Service, f: Failure)
    ensures Classify(s1, f).status == Classify(s2, f).status
    ensures Classify(s1, f).body.code == Classify(s2, f).body.code
    ensures f.RemoteError? ==> Classify(s1, f) == Classify(s2, f)
    ensures f.TransportError? ==>
      var m1, m2 := Classify(s1, f).body.message, Classify(s2, f).body.message;
      |m1| - |ServiceName(s1)| == |m2| - |ServiceName(s2)| >= 0
      && m1[..|m1| - |ServiceName(s1)|] == m2[..|m2| - |ServiceName(s2)|]
  {
    if f.TransportError? {
      var m1, m2 := Classify(s1, f).body.message, Classify(s2, f).body.message;
      var prefix := if Classify(s1, f).status == 504 then "Timeout en ms " else "Error al conectar con ms ";
      assert m1 == prefix + ServiceName(s1) && m2 == prefix + ServiceName(s2);
      assert m1[..|prefix|] == prefix && m2[..|prefix|] == prefix;
    }
  }

  /** The replies the adapters send for the three kinds of transport failure,
      written out for two of the services. */
  lemma TransportReplies()
    ensures Classify(SendMail, TransportError(Some("ECONNABORTED")))
      == Reply(504, ErrorBody("ECONNABORTED", "Timeout en ms SendMail"))
    ensures Classify(GenerateEncryptToken, TransportError(Some("ECONNREFUSED")))
      == Reply(502, ErrorBody("ECONNREFUSED", "Error al conectar con ms GenerateEncryptToken"))
    ensures Classify(GenerateEncryptToken, TransportError(None))
      == Reply(502, ErrorBody("Bad Gateway", "Error al conectar con ms GenerateEncryptToken"))
  {
  }

  /** What an adapter hands back to the controller: the service's parsed
      answer, or, after a failure, the response object it wrote the error to
      (whose `data` property is `undefined`). */
  datatype AdapterReturn = Delivered(data: Value) | ReturnedResponse

  /** One adapter (`enviarRequestListUser`, `enviarRequestGenerateEncryptToken`,
      `enviarRequestInsertUserInProcess`, `enviarRequestSendMail`): on success
      returns the answer and leaves `res` alone; on failure writes the
      classified error onto `res` and returns `res` instead of throwing. The
      handler calls each adapter while nothing was sent. */
  method EnviarRequest(call: Call, outcome: CallOutcome, res: Response) returns (r: AdapterReturn)
    requires res.reply == None
    modifies res
    ensures outcome.Answered? ==>
      r == Delivered(outcome.data) && res.statusCode == old(res.statusCode) && res.reply == old(res.reply)
    ensures outcome.Failed? ==>
      var reply := Classify(call.service, outcome.failure);
      r == ReturnedResponse && res.statusCode == reply.status && res.reply == Some(reply)
  {
    match outcome
    case Answered(data) =>
      r := Delivered(data);
    case Failed(f) =>
      var reply := Classify(call.service, f);
      res.Status(reply.status);
      var sent := res.Json(reply.body);
      r := ReturnedResponse;
  }

  // ---------------------------------------------------------------------------
  // Request bodies

  /** The GenerateEncryptToken request body. */
  function CrearRequestGenerateEncryptToken(email: Value, password: Value, nickname: Value,
                                            age: Value, phone: Value): Value
  {
    var payload := map["email" := email, "password" := password, "nickname" := nickname,
                       "age" := age, "phone" := phone];
    Obj(map["data" := Obj(map["token" := Obj(map["payload" := Obj(payload)])])])
  }

  /** The encryption request holds the five user fields, passed through
      unchanged, under `data.token.payload`, and nothing else. */
  lemma EncryptRequestShape(email: Value, password: Value, nickname: Value, age: Value, phone: Value)
    ensures var r := CrearRequestGenerateEncryptToken(email, password, nickname, age, phone);
      && r.Obj? && r.fields.Keys == {"data"}
      && At(r, ["data"]).value.Obj? && At(r, ["data"]).value.fields.Keys == {"token"}
      && At(r, ["data", "token"]).value.Obj? && At(r, ["data", "token"]).value.fields.Keys == {"payload"}
      && var p := At(r, ["data", "token", "payload"]);
         && p.Some? && p.value.Obj?
         && p.value.fields.Keys == {"email", "password", "nickname", "age", "phone"}
         && p.value.fields["email"] == email && p.value.fields["password"] == password
         && p.value.fields["nickname"] == nickname && p.value.fields["age"] == age
         && p.value.fields["phone"] == phone
  {
  }

  /** `generarAuthCode`: `parseInt(Math.random() * (999999 - 100000) + 100000)`
      for a draw `random` in [0, 1). The code always has six digits; the
      largest code is 999998. */
  function GenerarAuthCode(random: real): (code: int)
    requires 0.0 <= random < 1.0
    ensures 100000 <= code <= 999998
  {
    (random * (999999 - 100000) as real + 100000 as real).Floor
  }

  /** Every six-digit code up to 999998 is drawn by some `random`, so the
      range above is exact. */
  lemma AuthCodeReachable(code: int)
    requires 100000 <= code <= 999998
    ensures var random := (code - 100000) as real / 899999.0;
      0.0 <= random < 1.0 && GenerarAuthCode(random) == code
  {
  }

  /** The InsertUserInProcess request body. */
  function CrearRequestInsertUserInProcess(authCode: int, email: Value, userEncrypted: Option<Value>): Value {
    var data := map["auth_code" := Num(authCode as real), "client_data" := Obj(map["email" := email])];
    Obj(map["data" := Obj(if userEncrypted.Some? then data["user_encrypted" := userEncrypted.value] else data)])
  }

  /** The insert request holds the authorization code, the email under
      `client_data`, and the encrypted user when it is defined
      (`JSON.stringify` drops an `undefined` property), and nothing else. */
  lemma InsertRequestShape(authCode: int, email: Value, userEncrypted: Option<Value>)
    ensures var r := CrearRequestInsertUserInProcess(authCode, email, userEncrypted);
      && r.Obj? && r.fields.Keys == {"data"}
      && At(r, ["data"]).value.Obj?
      && At(r, ["data"]).value.fields.Keys ==
           {"auth_code", "client_data"} + (if userEncrypted.Some? then {"user_encrypted"} else {})
      && At(r, ["data", "auth_code"]) == Some(Num(authCode as real))
      && At(r, ["data", "client_data"]) == Some(Obj(map["email" := email]))
      && At(r, ["data", "user_encrypted"]) == userEncrypted
  {
  }

  /** One `{name, value}` entry of a mail template's parameters. */
  function TemplateParam(name: string, value: Value): Value {
    Obj(map["name" := Str(name), "value" := value])
  }

  /** The SendMail request body. */
  function CrearRequestSendMail(email: Value, nickname: Value, code: string): Value {
    Obj(map["data" := Obj(map[
      "id_template" := Str("verificacionRegistro"),
      "email_info" := Obj(map["from_description" := Str("Juegos Don"), "to" := email,
                              "subject" := Str("Verificación registro")]),
      "list_params" := Obj(map["params" := Arr([TemplateParam("nickname", nickname),
                                                TemplateParam("code", Str(code))])])])])
  }

  /** The mail request has the fixed template, sender and subject, the given
      recipient, and exactly the parameters nickname and code, in that order. */
  lemma MailRequestShape(email: Value, nickname: Value, code: string)
    ensures var r := CrearRequestSendMail(email, nickname, code);
      && At(r, ["data", "id_template"]) == Some(Str("verificacionRegistro"))
      && At(r, ["data", "email_info", "from_description"]) == Some(Str("Juegos Don"))
      && At(r, ["data", "email_info", "to"]) == Some(email)
      && At(r, ["data", "email_info", "subject"]) == Some(Str("Verificación registro"))
      && At(r, ["data", "list_params", "params"]) ==
           Some(Arr([TemplateParam("nickname", nickname), TemplateParam("code", Str(code))]))
  {
  }
}
