/** The registration controller: reads the user fields from the body, validates
    the request, then runs lookup, encryption, code generation, pending
    insert and mail, one after the other, and writes the reply.

    The controller's behaviour is stated twice: `Register` is the pure
    specification, a `Run` giving the calls made in order, the reply the client
    receives and how the handler ends; `RegisterUser` is the handler itself,
    step by step over the shared `Response`, proved to produce that `Run`. */
module RegisterUserController {
  import opened Js
  import opened HeaderSchema
  import opened RegisterUserSchema
  import opened Express
  import opened RegisterUserService

  // ---------------------------------------------------------------------------
  // Reading the body

  const EmailPath: seq<string> := ["data", "client_credentials", "email"]
  const PasswordPath: seq<string> := ["data", "client_credentials", "password"]
  const NicknamePath: seq<string> := ["data", "client_data", "nickname"]
  const AgePath: seq<string> := ["data", "client_data", "age"]
  const PhonePath: seq<string> := ["data", "client_data", "phone"]

  /** The five user fields as read from the body (`undefined` is `None`). */
  datatype Fields = Fields(email: Option<Value>, password: Option<Value>, nickname: Option<Value>,
                           age: Option<Value>, phone: Option<Value>)

  /** `body.data.client_credentials.email` and its four siblings, read before
      validation. The reads throw exactly when the body is `null`, or `data`,
      `client_credentials` or `client_data` is missing or `null`; otherwise
      each field is the value at its path, possibly `undefined`. */
  function ReadFields(body: Value): (r: Result<Fields>)
    ensures r.Ok? <==>
      && body != Null
      && !Nullish(Own(body, "data"))
      && !Nullish(Own(Own(body, "data").value, "client_credentials"))
      && !Nullish(Own(Own(body, "data").value, "client_data"))
    ensures r.Ok? ==> r.value == Fields(At(body, EmailPath), At(body, PasswordPath),
                                        At(body, NicknamePath), At(body, AgePath), At(body, PhonePath))
  {
    AccessAt(body, EmailPath);
    AccessAt(body, PasswordPath);
    AccessAt(body, NicknamePath);
    AccessAt(body, AgePath);
    AccessAt(body, PhonePath);
    assert EmailPath[..1] == NicknamePath[..1] == ["data"];
    assert EmailPath[..2] == PasswordPath[..2] == ["data", "client_credentials"];
    assert NicknamePath[..2] == AgePath[..2] == PhonePath[..2] == ["data", "client_data"];
    var email := Access(Some(body), EmailPath);
    var password := Access(Some(body), PasswordPath);
    var nickname := Access(Some(body), NicknamePath);
    var age := Access(Some(body), AgePath);
    var phone := Access(Some(body), PhonePath);
    if email.Throws? || password.Throws? || nickname.Throws? || age.Throws? || phone.Throws? then Throws
    else Ok(Fields(email.value, password.value, nickname.value, age.value, phone.value))
  }

  /** All five fields are defined and the email is a string. */
  predicate Readable(f: Fields) {
    f.email.Some? && f.email.value.Str? && f.password.Some? && f.nickname.Some?
    && f.age.Some? && f.phone.Some?
  }

  /** A body that satisfies the contract can be read, and its fields are
      defined. */
  lemma ValidBodyReadable(body: Value, isEmail: string -> bool)
    requires BodyValid(body, isEmail)
    ensures ReadFields(body).Ok? && Readable(ReadFields(body).value)
  {
  }

  // ---------------------------------------------------------------------------
  // The run of one request

  /** How the handler's promise ends: it returns normally, the inner `catch`
      returns the error it caught, or it waits forever on the never-settled
      validation promise. */
  datatype End = Done | Swallowed | Suspended

  /** The downstream calls made, in order, the reply the client receives
      (`None`: the request is never answered), and how the handler ends. */
  datatype Run = Run(calls: seq<Call>, reply: Option<Reply>, end: End)

  /** What the handler depends on besides the request: Ajv's email format and
      first errors, the draw of `Math.random()`, and the runtime's number
      formatting. */
  datatype Runtime = Runtime(isEmail: string -> bool, headerError: SchemaError, bodyError: SchemaError,
                             random: real, numeral: real -> string)

  /** How each downstream service answers this request. */
  datatype Downstream = Downstream(listUser: CallOutcome, encrypt: CallOutcome,
                                   insert: CallOutcome, sendMail: CallOutcome)

  function Outcome(ds: Downstream, s: Service): CallOutcome {
    match s
    case ListUser => ds.listUser
    case GenerateEncryptToken => ds.encrypt
    case InsertUserInProcess => ds.insert
    case SendMail => ds.sendMail
  }

  /** The only order in which the services are ever called. */
  const Order: seq<Service> := [ListUser, GenerateEncryptToken, InsertUserInProcess, SendMail]

  const InternalServerError: Reply := Reply(500, ErrorBody("500", "Internal Server Error"))
  const AlreadyRegistered: Reply := Reply(422, ErrorBody("422", "Usuario ya se encuentra registrado"))

  const SuccessPrefix: string := "Hemos enviado un correo a la direccion "
  const SuccessSuffix: string := ". Ingresa el código para continuar con la operación."

  /** The success message embeds the submitted email verbatim. */
  function SuccessMessage(email: string): (m: string)
    ensures |m| == |SuccessPrefix| + |email| + |SuccessSuffix|
    ensures m[..|SuccessPrefix|] == SuccessPrefix
    ensures m[|SuccessPrefix|..|SuccessPrefix| + |email|] == email
    ensures m[|SuccessPrefix| + |email|..] == SuccessSuffix
  {
    SuccessPrefix + email + SuccessSuffix
  }

  /** `respuesta.data.data.encrypted_token` on the GenerateEncryptToken
      answer. */
  function EncryptedToken(answer: Value): Result<Option<Value>> {
    Access(Some(answer), ["data", "encrypted_token"])
  }

  /** `respuesta.data.data.auth_code.toString()` on the InsertUserInProcess
      answer. */
  function StoredAuthCode(answer: Value, numeral: real -> string): Result<string> {
    match Access(Some(answer), ["data", "auth_code"])
    case Throws => Throws
    case Ok(code) => CallToString(code, numeral)
  }

  /** The token is read without error exactly when the answer and its `data`
      are neither `undefined` nor `null`, and it is then the value at
      `data.encrypted_token`; the stored code is `data.auth_code` converted
      to a string, and reading it throws when that value is missing. */
  lemma AnswerReads(answer: Value, numeral: real -> string)
    ensures EncryptedToken(answer).Ok? <==> answer != Null && !Nullish(Own(answer, "data"))
    ensures EncryptedToken(answer).Ok? ==> EncryptedToken(answer).value == At(answer, ["data", "encrypted_token"])
    ensures StoredAuthCode(answer, numeral).Ok? ==>
      At(answer, ["data", "auth_code"]).Some? &&
      StoredAuthCode(answer, numeral) == Stringify(At(answer, ["data", "auth_code"]).value, numeral)
    ensures At(answer, ["data", "auth_code"]).Some? && At(answer, ["data", "auth_code"]).value.Num? ==>
      StoredAuthCode(answer, numeral) == Ok(numeral(At(answer, ["data", "auth_code"]).value.n))
    ensures At(answer, ["data", "auth_code"]).Some? && At(answer, ["data", "auth_code"]).value.Str? ==>
      StoredAuthCode(answer, numeral) == Ok(At(answer, ["data", "auth_code"]).value.s)
  {
    AccessAt(answer, ["data", "encrypted_token"]);
    AccessAt(answer, ["data", "auth_code"]);
    assert ["data", "encrypted_token"][..1] == ["data"] == ["data", "auth_code"][..1];
  }

  /** `run` with call `c` made before the calls of `run`. */
  function Prepend(c: Call, run: Run): Run {
    run.(calls := [c] + run.calls)
  }

  /** The shape of the rest of a run from stage `k` on (0 lookup, 1 encrypt,
      2 insert, 3 mail): it makes at least one call; its calls follow the
      fixed order from `Order[k]`, all with the outbound headers `rq`; every
      call but the last was answered; a failed last call leaves its
      classified error as the reply; and the client gets no reply only when
      the last call was answered with something the handler cannot read. */
  predicate FromStage(run: Run, k: nat, rq: RqHeaders, ds: Downstream) {
    && 1 <= |run.calls| && k + |run.calls| <= |Order|
    && (forall i :: 0 <= i < |run.calls| ==> run.calls[i].service == Order[k + i] && run.calls[i].headers == rq)
    && (forall i :: 0 <= i < |run.calls| - 1 ==> Outcome(ds, run.calls[i].service).Answered?)
    && var last := run.calls[|run.calls| - 1].service;
       && (Outcome(ds, last).Failed? ==>
             run.reply == Some(Classify(last, Outcome(ds, last).failure)) && run.end == Swallowed)
       && (run.reply == None ==> run.end == Swallowed && Outcome(ds, last).Answered?)
  }

  /** A stage whose call was answered and that goes on to the next stage
      keeps the shape. */
  lemma PrependStage(c: Call, run: Run, k: nat, rq: RqHeaders, ds: Downstream)
    requires k < |Order| && FromStage(run, k + 1, rq, ds)
    requires c.service == Order[k] && c.headers == rq && Outcome(ds, c.service).Answered?
    ensures FromStage(Prepend(c, run), k, rq, ds)
  {
    var run' := Prepend(c, run);
    forall i | 0 <= i < |run'.calls|
      ensures run'.calls[i].service == Order[k + i] && run'.calls[i].headers == rq
    {
      if i > 0 {
        assert run'.calls[i] == run.calls[i - 1];
      }
    }
    forall i | 0 <= i < |run'.calls| - 1
      ensures Outcome(ds, run'.calls[i].service).Answered?
    {
      if i > 0 {
        assert run'.calls[i] == run.calls[i - 1];
      }
    }
    assert run'.calls[|run'.calls| - 1] == run.calls[|run.calls| - 1];
  }

  /** Stage 3: the mail, then the success reply. After a failed mail the
      success write is refused, so the mail error stays the reply. */
  function MailStage(rq: RqHeaders, email: string, nickname: Value, code: string, ds: Downstream): (run: Run)
    ensures FromStage(run, 3, rq, ds)
    ensures run.calls[0].data == Some(CrearRequestSendMail(Str(email), nickname, code))
    ensures ds.sendMail.Answered? ==>
      run.reply == Some(Reply(200, SuccessBody(SuccessMessage(email)))) && run.end == Done
  {
    var mail := SendMailConfig(rq, CrearRequestSendMail(Str(email), nickname, code));
    match ds.sendMail
    case Failed(e) => Run([mail], Some(Classify(SendMail, e)), Swallowed)
    case Answered(_) => Run([mail], Some(Reply(200, SuccessBody(SuccessMessage(email)))), Done)
  }

  /** Stage 2: the pending insert with a fresh code; the code then mailed is
      the one the insert answer carries. */
  function InsertStage(rq: RqHeaders, email: string, nickname: Value, userEncrypted: Option<Value>,
                       rt: Runtime, ds: Downstream): (run: Run)
    requires 0.0 <= rt.random < 1.0
    ensures FromStage(run, 2, rq, ds)
    ensures run.calls[0].data ==
      Some(CrearRequestInsertUserInProcess(GenerarAuthCode(rt.random), Str(email), userEncrypted))
    ensures ds.insert.Answered? && StoredAuthCode(ds.insert.data, rt.numeral).Ok? ==> |run.calls| > 1
    // an answer whose code cannot be read leaves the client without a reply
    ensures ds.insert.Answered? && StoredAuthCode(ds.insert.data, rt.numeral).Throws? ==> run.reply == None
    ensures |run.calls| > 1 ==>
      && ds.insert.Answered? && StoredAuthCode(ds.insert.data, rt.numeral).Ok?
      && run.calls[1..] == MailStage(rq, email, nickname, StoredAuthCode(ds.insert.data, rt.numeral).value, ds).calls
  {
    var insert := InsertUserInProcessConfig(rq, CrearRequestInsertUserInProcess(
      GenerarAuthCode(rt.random), Str(email), userEncrypted));
    match ds.insert
    case Failed(e) => Run([insert], Some(Classify(InsertUserInProcess, e)), Swallowed)
    case Answered(stored) =>
      match StoredAuthCode(stored, rt.numeral)
      case Throws => Run([insert], None, Swallowed)
      case Ok(code) =>
        var rest := MailStage(rq, email, nickname, code, ds);
        PrependStage(insert, rest, 2, rq, ds);
        Prepend(insert, rest)
  }

  /** Stage 1: encryption of the submitted fields; the insert then carries
      exactly the token the encryption service returned. */
  function EncryptStage(rq: RqHeaders, f: Fields, rt: Runtime, ds: Downstream): (run: Run)
    requires Readable(f) && 0.0 <= rt.random < 1.0
    ensures FromStage(run, 1, rq, ds)
    ensures run.calls[0].data == Some(CrearRequestGenerateEncryptToken(
      f.email.value, f.password.value, f.nickname.value, f.age.value, f.phone.value))
    ensures ds.encrypt.Answered? && EncryptedToken(ds.encrypt.data).Ok? ==> |run.calls| > 1
    // an answer whose token cannot be read leaves the client without a reply
    ensures ds.encrypt.Answered? && EncryptedToken(ds.encrypt.data).Throws? ==> run.reply == None
    ensures |run.calls| > 1 ==>
      && ds.encrypt.Answered? && EncryptedToken(ds.encrypt.data).Ok?
      && run.calls[1..] == InsertStage(rq, f.email.value.s, f.nickname.value,
                                       EncryptedToken(ds.encrypt.data).value, rt, ds).calls
  {
    var encrypt := GenerateEncryptTokenConfig(rq, CrearRequestGenerateEncryptToken(
      f.email.value, f.password.value, f.nickname.value, f.age.value, f.phone.value));
    match ds.encrypt
    case Failed(e) => Run([encrypt], Some(Classify(GenerateEncryptToken, e)), Swallowed)
    case Answered(token) =>
      match EncryptedToken(token)
      case Throws => Run([encrypt], None, Swallowed)
      case Ok(userEncrypted) =>
        var rest := InsertStage(rq, f.email.value.s, f.nickname.value, userEncrypted, rt, ds);
        PrependStage(encrypt, rest, 1, rq, ds);
        Prepend(encrypt, rest)
  }

  /** Stage 0: the lookup by email. A user it finds is rejected with 422 and
      no later stage runs. */
  function LookupStage(rq: RqHeaders, f: Fields, rt: Runtime, ds: Downstream): (run: Run)
    requires Readable(f) && 0.0 <= rt.random < 1.0
    ensures FromStage(run, 0, rq, ds)
    ensures run.calls[0] == ListUserConfig(rq, f.email.value.s)
    ensures ds.listUser.Answered? && HasOwnProperty(Some(ds.listUser.data), "data") == Ok(true) ==>
      run == Run([ListUserConfig(rq, f.email.value.s)], Some(AlreadyRegistered), Done)
    ensures ds.listUser.Answered? && HasOwnProperty(Some(ds.listUser.data), "data") == Ok(false) ==>
      |run.calls| > 1
    ensures |run.calls| > 1 ==>
      ds.listUser.Answered? && HasOwnProperty(Some(ds.listUser.data), "data") == Ok(false)
    // an answer whose `hasOwnProperty` call throws leaves the client without a reply
    ensures ds.listUser.Answered? && HasOwnProperty(Some(ds.listUser.data), "data").Throws? ==>
      run.reply == None
    ensures |run.calls| > 1 ==> run.calls[1..] == EncryptStage(rq, f, rt, ds).calls
  {
    var lookup := ListUserConfig(rq, f.email.value.s);
    match ds.listUser
    case Failed(e) => Run([lookup], Some(Classify(ListUser, e)), Swallowed)
    case Answered(found) =>
      match HasOwnProperty(Some(found), "data")
      case Throws => Run([lookup], None, Swallowed)
      case Ok(registered) =>
        if registered then Run([lookup], Some(AlreadyRegistered), Done)
        else
          var rest := EncryptStage(rq, f, rt, ds);
          PrependStage(lookup, rest, 0, rq, ds);
          Prepend(lookup, rest)
  }

  /** The specification of one request to `POST /user/register`. */
  function Register(headers: Headers, body: Value, rt: Runtime, ds: Downstream): (run: Run)
    requires 0.0 <= rt.random < 1.0
    // a body missing a nested object fails before validation, with 500
    ensures ReadFields(body).Throws? ==> run == Run([], Some(InternalServerError), Done)
    // invalid headers: 400 with Ajv's first message, and the handler never resumes
    ensures ReadFields(body).Ok? && !HeadersValid(headers) ==>
      run == Run([], Some(Reply(400, ErrorBody("400", rt.headerError.message))), Suspended)
    // valid headers, invalid body: 400 with "<dataPath> - <message>"
    ensures ReadFields(body).Ok? && HeadersValid(headers) && !BodyValid(body, rt.isEmail) ==>
      run == Run([], Some(Reply(400, ErrorBody("400", rt.bodyError.dataPath + " - " + rt.bodyError.message))), Swallowed)
    // a downstream service is called exactly when the request is valid, and then the
    // calls follow the fixed order with the same outbound headers, stop at the first
    // failure, and leave that failure's classified error as the reply
    ensures run.calls != [] <==> HeadersValid(headers) && BodyValid(body, rt.isEmail)
    ensures run.calls != [] ==> FromStage(run, 0, CrearRqHeaders(headers), ds)
    ensures run.calls != [] ==> run.calls[0] == ListUserConfig(CrearRqHeaders(headers), At(body, EmailPath).value.s)
  {
    match ReadFields(body)
    case Throws => Run([], Some(InternalServerError), Done)
    case Ok(f) =>
      match Validate(headers, body, rt.isEmail, rt.headerError, rt.bodyError)
      case HeadersRejected(reply) => Run([], Some(reply), Suspended)
      case BodyRejected(reply) => Run([], Some(reply), Swallowed)
      case Accepted(_) =>
        ValidBodyReadable(body, rt.isEmail);
        LookupStage(CrearRqHeaders(headers), f, rt, ds)
  }

  /** The request is valid. */
  predicate ValidRequest(headers: Headers, body: Value, rt: Runtime) {
    HeadersValid(headers) && BodyValid(body, rt.isEmail)
  }

  /** A valid request is read without error and runs the saga from the
      lookup on. */
  lemma ValidRequestRunsSaga(headers: Headers, body: Value, rt: Runtime, ds: Downstream)
    requires 0.0 <= rt.random < 1.0 && ValidRequest(headers, body, rt)
    ensures ReadFields(body).Ok? && Readable(ReadFields(body).value)
    ensures ReadFields(body).value.email == Some(Str(At(body, EmailPath).value.s))
    ensures Register(headers, body, rt, ds) == LookupStage(CrearRqHeaders(headers), ReadFields(body).value, rt, ds)
  {
    ValidBodyReadable(body, rt.isEmail);
  }

  // ---------------------------------------------------------------------------
  // The handler

  /** The mail and the success reply, on a response nothing was sent on. */
  method SendMailStep(rq: RqHeaders, email: string, nickname: Value, code: string, ds: Downstream,
                      res: Response) returns (calls: seq<Call>, end: End)
    requires res.statusCode == 200 && res.reply == None
    modifies res
    ensures Run(calls, res.reply, end) == MailStage(rq, email, nickname, code, ds)
  {
    var mail := SendMailConfig(rq, CrearRequestSendMail(Str(email), nickname, code));
    calls := [mail];
    var mailed := EnviarRequest(mail, ds.sendMail, res);
    // after a failed mail this second write throws and the inner catch swallows it
    var sent := res.Json(SuccessBody(SuccessMessage(email)));
    end := if sent then Done else Swallowed;
  }

  /** The pending insert and what follows it. */
  method InsertStep(rq: RqHeaders, email: string, nickname: Value, userEncrypted: Option<Value>,
                    rt: Runtime, ds: Downstream, res: Response) returns (calls: seq<Call>, end: End)
    requires 0.0 <= rt.random < 1.0
    requires res.statusCode == 200 && res.reply == None
    modifies res
    ensures Run(calls, res.reply, end) == InsertStage(rq, email, nickname, userEncrypted, rt, ds)
  {
    var authCode := GenerarAuthCode(rt.random);
    var insert := InsertUserInProcessConfig(rq, CrearRequestInsertUserInProcess(authCode, Str(email), userEncrypted));
    calls := [insert];
    var inserted := EnviarRequest(insert, ds.insert, res);
    if inserted.ReturnedResponse? {
      // `res.data` is undefined: reading `auth_code` below it throws
      end := Swallowed;
      return;
    }
    // the stored code replaces the generated one
    var storedCode := StoredAuthCode(inserted.data, rt.numeral);
    if storedCode.Throws? {
      end := Swallowed;
      return;
    }
    var rest;
    rest, end := SendMailStep(rq, email, nickname, storedCode.value, ds, res);
    calls := calls + rest;
  }

  /** The encryption of the submitted fields and what follows it. */
  method EncryptStep(rq: RqHeaders, f: Fields, rt: Runtime, ds: Downstream, res: Response)
    returns (calls: seq<Call>, end: End)
    requires Readable(f) && 0.0 <= rt.random < 1.0
    requires res.statusCode == 200 && res.reply == None
    modifies res
    ensures Run(calls, res.reply, end) == EncryptStage(rq, f, rt, ds)
  {
    var encrypt := GenerateEncryptTokenConfig(rq, CrearRequestGenerateEncryptToken(
      f.email.value, f.password.value, f.nickname.value, f.age.value, f.phone.value));
    calls := [encrypt];
    var encrypted := EnviarRequest(encrypt, ds.encrypt, res);
    if encrypted.ReturnedResponse? {
      end := Swallowed;
      return;
    }
    var userEncrypted := EncryptedToken(encrypted.data);
    if userEncrypted.Throws? {
      end := Swallowed;
      return;
    }
    var rest;
    rest, end := InsertStep(rq, f.email.value.s, f.nickname.value, userEncrypted.value, rt, ds, res);
    calls := calls + rest;
  }

  /** The lookup by email and what follows it. */
  method LookupStep(rq: RqHeaders, f: Fields, rt: Runtime, ds: Downstream, res: Response)
    returns (calls: seq<Call>, end: End)
    requires Readable(f) && 0.0 <= rt.random < 1.0
    requires res.statusCode == 200 && res.reply == None
    modifies res
    ensures Run(calls, res.reply, end) == LookupStage(rq, f, rt, ds)
  {
    var lookup := ListUserConfig(rq, f.email.value.s);
    calls := [lookup];
    var listed := EnviarRequest(lookup, ds.listUser, res);
    if listed.ReturnedResponse? {
      // `res.data` is undefined: calling `hasOwnProperty` on it throws
      end := Swallowed;
      return;
    }
    var registered := HasOwnProperty(Some(listed.data), "data");
    if registered.Throws? {
      end := Swallowed;
      return;
    }
    if registered.value {
      res.Status(422);
      var sent := res.Json(ErrorBody("422", "Usuario ya se encuentra registrado"));
      end := Done;
      return;
    }
    var rest;
    rest, end := EncryptStep(rq, f, rt, ds, res);
    calls := calls + rest;
  }

  /** `registerUser(req, res)` on a fresh response. */
  method RegisterUser(headers: Headers, body: Value, rt: Runtime, ds: Downstream, res: Response)
    returns (calls: seq<Call>, end: End)
    requires 0.0 <= rt.random < 1.0
    requires res.statusCode == 200 && res.reply == None
    modifies res
    ensures Run(calls, res.reply, end) == Register(headers, body, rt, ds)
  {
    calls := [];
    var read := ReadFields(body);
    if read.Throws? {
      // the outer catch
      res.Status(500);
      var sent := res.Json(ErrorBody("500", "Internal Server Error"));
      end := Done;
      return;
    }
    var validated := ValidarRequest(headers, body, rt.isEmail, rt.headerError, rt.bodyError, res);
    if validated.Pending? {
      end := Suspended;
      return;
    } else if validated.Rejected? {
      end := Swallowed;
      return;
    }
    ValidRequestRunsSaga(headers, body, rt, ds);
    calls, end := LookupStep(CrearRqHeaders(headers), read.value, rt, ds, res);
  }

  // ---------------------------------------------------------------------------
  // Properties of the specification

  /** A body without `data`, or whose `data` lacks `client_credentials` or
      `client_data`, gets 500 rather than 400, and nothing is validated or
      called: the fields are read before validation. */
  lemma MissingSectionGives500(headers: Headers, body: Value, rt: Runtime, ds: Downstream, key: string)
    requires 0.0 <= rt.random < 1.0
    requires body.Obj? && "data" in body.fields && body.fields["data"].Obj?
    requires key == "client_credentials" || key == "client_data"
    ensures Register(headers, body.(fields := body.fields - {"data"}), rt, ds) == Run([], Some(InternalServerError), Done)
    ensures var data := body.fields["data"];
      Register(headers, body.(fields := body.fields["data" := data.(fields := data.fields - {key})]), rt, ds)
        == Run([], Some(InternalServerError), Done)
  {
  }

  /** A user the lookup finds is rejected with 422, and encryption, insert
      and mail are never called. */
  lemma FoundUserRejected(headers: Headers, body: Value, rt: Runtime, ds: Downstream)
    requires 0.0 <= rt.random < 1.0 && ValidRequest(headers, body, rt)
    requires ds.listUser.Answered? && Own(ds.listUser.data, "data").Some?
    requires Own(ds.listUser.data, "hasOwnProperty").None?
    ensures Register(headers, body, rt, ds) ==
      Run([ListUserConfig(CrearRqHeaders(headers), At(body, EmailPath).value.s)], Some(AlreadyRegistered), Done)
  {
    ValidRequestRunsSaga(headers, body, rt, ds);
  }

  /** The encryption request carries the submitted fields unchanged; the
      insert carries the generated code, the email and exactly the token the
      encryption service returned; the mail carries the email, the nickname
      and the insert answer's `auth_code` as a string, not the generated
      code. */
  lemma RequestsCarrySubmittedData(headers: Headers, body: Value, rt: Runtime, ds: Downstream)
    requires 0.0 <= rt.random < 1.0
    ensures var run := Register(headers, body, rt, ds);
      && (|run.calls| >= 2 ==>
            run.calls[1].data == Some(CrearRequestGenerateEncryptToken(
              At(body, EmailPath).value, At(body, PasswordPath).value, At(body, NicknamePath).value,
              At(body, AgePath).value, At(body, PhonePath).value)))
      && (|run.calls| >= 3 ==>
            && ds.encrypt.Answered? && EncryptedToken(ds.encrypt.data).Ok?
            && run.calls[2].data == Some(CrearRequestInsertUserInProcess(
                 GenerarAuthCode(rt.random), At(body, EmailPath).value, EncryptedToken(ds.encrypt.data).value)))
      && (|run.calls| == 4 ==>
            && ds.insert.Answered? && StoredAuthCode(ds.insert.data, rt.numeral).Ok?
            && run.calls[3].data == Some(CrearRequestSendMail(
                 At(body, EmailPath).value, At(body, NicknamePath).value,
                 StoredAuthCode(ds.insert.data, rt.numeral).value)))
  {
    var run := Register(headers, body, rt, ds);
    if |run.calls| >= 2 {
      ValidRequestRunsSaga(headers, body, rt, ds);
      var rq, f := CrearRqHeaders(headers), ReadFields(body).value;
      var enc := EncryptStage(rq, f, rt, ds);
      assert run.calls[1] == enc.calls[0];
      if |run.calls| >= 3 {
        var ins := InsertStage(rq, f.email.value.s, f.nickname.value, EncryptedToken(ds.encrypt.data).value, rt, ds);
        assert run.calls[2] == enc.calls[1] == ins.calls[0];
        if |run.calls| == 4 {
          var mail := MailStage(rq, f.email.value.s, f.nickname.value, StoredAuthCode(ds.insert.data, rt.numeral).value, ds);
          assert run.calls[3] == enc.calls[2] == ins.calls[1] == mail.calls[0];
        }
      }
    }
  }

  /** The mail's template parameters are the submitted nickname and the
      code the insert answer carries, as a string. */
  lemma MailedParams(headers: Headers, body: Value, rt: Runtime, ds: Downstream)
    requires 0.0 <= rt.random < 1.0
    ensures var run := Register(headers, body, rt, ds);
      |run.calls| == 4 ==>
        && ds.insert.Answered? && StoredAuthCode(ds.insert.data, rt.numeral).Ok?
        && At(run.calls[3].data.value, ["data", "list_params", "params"]) ==
             Some(Arr([TemplateParam("nickname", At(body, NicknamePath).value),
                       TemplateParam("code", Str(StoredAuthCode(ds.insert.data, rt.numeral).value))]))
  {
    var run := Register(headers, body, rt, ds);
    if |run.calls| == 4 {
      RequestsCarrySubmittedData(headers, body, rt, ds);
      MailRequestShape(At(body, EmailPath).value, At(body, NicknamePath).value,
                       StoredAuthCode(ds.insert.data, rt.numeral).value);
    }
  }

  /** A stored string code is mailed as it is, whatever `Math.random()`
      drew. */
  lemma StoredCodeIsMailed(headers: Headers, body: Value, rt: Runtime, ds: Downstream, code: string)
    requires 0.0 <= rt.random < 1.0
    requires ds.insert.Answered? && At(ds.insert.data, ["data", "auth_code"]) == Some(Str(code))
    ensures var run := Register(headers, body, rt, ds);
      |run.calls| == 4 ==>
        At(run.calls[3].data.value, ["data", "list_params", "params"]) ==
          Some(Arr([TemplateParam("nickname", At(body, NicknamePath).value), TemplateParam("code", Str(code))]))
  {
    MailedParams(headers, body, rt, ds);
    AnswerReads(ds.insert.data, rt.numeral);
  }

  /** A stored numeric code, the form in which the insert request sends it,
      is mailed as its decimal digits; when the store echoes the generated
      code, the mail carries six digits. */
  lemma NumericCodeIsMailed(headers: Headers, body: Value, rt: Runtime, ds: Downstream, k: nat)
    requires 0.0 <= rt.random < 1.0 && IntegerNumerals(rt.numeral)
    requires k < 1_000_000_000_000_000_000_000
    requires ds.insert.Answered? && At(ds.insert.data, ["data", "auth_code"]) == Some(Num(k as real))
    ensures var run := Register(headers, body, rt, ds);
      |run.calls| == 4 ==>
        At(run.calls[3].data.value, ["data", "list_params", "params"]) ==
          Some(Arr([TemplateParam("nickname", At(body, NicknamePath).value), TemplateParam("code", Str(Decimal(k)))]))
    ensures k == GenerarAuthCode(rt.random) ==> |Decimal(k)| == 6
  {
    MailedParams(headers, body, rt, ds);
    AnswerReads(ds.insert.data, rt.numeral);
    assert rt.numeral(k as real) == Decimal(k);
    if k == GenerarAuthCode(rt.random) {
      SixDigits(k);
    }
  }

  /** A valid request for a new user whose every call is answered with
      something the handler can read makes all four calls and gets 200 with
      the success message naming the submitted email. */
  lemma AllStepsSucceed(headers: Headers, body: Value, rt: Runtime, ds: Downstream)
    requires 0.0 <= rt.random < 1.0 && ValidRequest(headers, body, rt)
    requires ds.listUser.Answered? && HasOwnProperty(Some(ds.listUser.data), "data") == Ok(false)
    requires ds.encrypt.Answered? && EncryptedToken(ds.encrypt.data).Ok?
    requires ds.insert.Answered? && StoredAuthCode(ds.insert.data, rt.numeral).Ok?
    requires ds.sendMail.Answered?
    ensures var run := Register(headers, body, rt, ds);
      && |run.calls| == 4
      && run.reply == Some(Reply(200, SuccessBody(SuccessMessage(At(body, EmailPath).value.s))))
      && run.end == Done
  {
    ValidRequestRunsSaga(headers, body, rt, ds);
    var run := Register(headers, body, rt, ds);
    var rq, f := CrearRqHeaders(headers), ReadFields(body).value;
    var enc := EncryptStage(rq, f, rt, ds);
    var ins := InsertStage(rq, f.email.value.s, f.nickname.value, EncryptedToken(ds.encrypt.data).value, rt, ds);
    var mail := MailStage(rq, f.email.value.s, f.nickname.value, StoredAuthCode(ds.insert.data, rt.numeral).value, ds);
    assert run == Prepend(run.calls[0], enc);
    assert enc == Prepend(enc.calls[0], ins);
    assert ins == Prepend(ins.calls[0], mail);
  }

  /** In a run that reaches the mail, the insert came before it, and a failed
      mail leaves its own classified error as the reply. */
  lemma FullRunLastFailure(run: Run, rq: RqHeaders, ds: Downstream)
    requires FromStage(run, 0, rq, ds) && |run.calls| == 4
    ensures run.calls[2].service == InsertUserInProcess && run.calls[3].service == SendMail
    ensures ds.sendMail.Failed? ==>
      run.reply == Some(Classify(SendMail, ds.sendMail.failure)) && run.end == Swallowed
  {
    assert run.calls[2].service == Order[2] && run.calls[3].service == Order[3];
  }

  /** The run stops at the first call that failed, with that call's
      classified error as the reply. */
  lemma FailureEndsRun(run: Run, rq: RqHeaders, ds: Downstream, i: nat)
    requires FromStage(run, 0, rq, ds) && i < |run.calls|
    requires Outcome(ds, Order[i]).Failed?
    ensures |run.calls| == i + 1
    ensures run.reply == Some(Classify(Order[i], Outcome(ds, Order[i]).failure)) && run.end == Swallowed
  {
    assert run.calls[i].service == Order[i];
  }

  /** A mail timeout after a successful insert gives 504 naming SendMail; the
      insert is not undone and the success write that follows is refused. */
  lemma MailTimeoutKeepsInsert(headers: Headers, body: Value, rt: Runtime, ds: Downstream)
    requires 0.0 <= rt.random < 1.0
    requires ds.sendMail == Failed(TransportError(Some("ECONNABORTED")))
    ensures var run := Register(headers, body, rt, ds);
      |run.calls| == 4 ==>
        && run.calls[2].service == InsertUserInProcess
        && run.reply == Some(Reply(504, ErrorBody("ECONNABORTED", "Timeout en ms SendMail")))
        && run.end == Swallowed
  {
    var run := Register(headers, body, rt, ds);
    if |run.calls| == 4 {
      FullRunLastFailure(run, CrearRqHeaders(headers), ds);
      TransportReplies();
    }
  }

  /** A refused connection to the encryption service gives 502 naming it, and
      neither insert nor mail is called. */
  lemma EncryptRefusedStops(headers: Headers, body: Value, rt: Runtime, ds: Downstream)
    requires 0.0 <= rt.random < 1.0
    requires ds.encrypt == Failed(TransportError(Some("ECONNREFUSED")))
    ensures var run := Register(headers, body, rt, ds);
      |run.calls| >= 2 ==>
        && |run.calls| == 2
        && run.reply == Some(Reply(502, ErrorBody("ECONNREFUSED", "Error al conectar con ms GenerateEncryptToken")))
  {
    var run := Register(headers, body, rt, ds);
    if |run.calls| >= 2 {
      FailureEndsRun(run, CrearRqHeaders(headers), ds, 1);
      TransportReplies();
    }
  }
}
