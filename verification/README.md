# ms-registeruser: the registration workflow in Dafny

This project models the registration microservice's single endpoint,
`POST /user/register`. The handler:

1. reads the user fields from the JSON body;
2. validates the headers and then the body against two declarative schemas;
3. builds the outbound headers;
4. asks ListUser whether the email is already registered (422 if so);
5. has GenerateEncryptToken encrypt the user fields;
6. draws a six-digit authorization code and stores the pending user with
   InsertUserInProcess;
7. sends the code through SendMail and answers 200 with a message naming the
   email.

Each downstream adapter turns a failed call into an error reply on the shared
response object, and *returns* that response instead of throwing.

Modules:

- `Js` models JSON values as `JSON.parse` yields them, plus `undefined`. It
  also models the property operations the handler performs on them. An access
  that raises a TypeError in JavaScript yields `Throws`.
- `HeaderSchema` and `RegisterUserSchema` model the two Ajv schemas as
  predicates.
- `Express` models the response object as a class. Its status code can be
  overwritten, and its reply slot can be written only once: a second
  `json()` fails and leaves the first reply in place.
- `RegisterUserService` holds the service class:
  - `validarRequest`, as a pure decision `Validate` and a method
    `ValidarRequest` that writes onto the response;
  - `crearRqHeaders`;
  - the four request builders;
  - `generarAuthCode`;
  - the downstream call configurations;
  - the four-way error classification `Classify`, shared by the four
    adapters;
  - the adapter method `EnviarRequest`.
- `RegisterUserController` describes the handler twice:
  - `Register` is the pure specification. It returns the calls made in
    order, the reply the client receives, and how the handler ends. It ends
    by returning normally (`Done`), by the inner `catch` returning the
    caught error (`Swallowed`), or by waiting forever on the never-settled
    validation promise (`Suspended`).
  - `RegisterUser` and its four step methods are the handler itself, step by
    step over a `Response`. They are proved to produce exactly that run.

Two quirks of the code are kept on purpose:

- The fields are read before validation. So a body without `data`,
  `client_credentials` or `client_data` gets 500, not a validation 400.
- A failed adapter returns the already-written response. The next property
  access on it throws, and the inner `catch` swallows the error.

A failed mail still reaches the success write. Express refuses that second
write, so the mail error stays the reply, and the pending insert is not
undone.

## Model

| member | source | states |
|---|---|---|
| Js.AccessAt | src/controllers/registerUser_controller.js:12-16 | a chain of property reads throws exactly when some proper prefix of the path reaches `undefined` or `null`, and otherwise yields the value at the whole path |
| Js.SixDigits | src/services/registerUser_service.js:210-212 | a code from the six-digit range is written with exactly six decimal digits |
| HeaderSchema.BlocksLength | src/schemas/header_schema.js:9-13 | a string matching the repeated timestamp pattern is a whole number of 19-character blocks |
| HeaderSchema.BlocksAppend | src/schemas/header_schema.js:11 | the timestamp pattern is closed under concatenation: any run of back-to-back blocks matches |
| HeaderSchema.LastIsDigit | src/schemas/header_schema.js:11 | a non-empty match of the timestamp pattern ends in a digit |
| HeaderSchema.TimestampShape | src/schemas/header_schema.js:9-13 | a valid timestamp is a positive multiple of 19 characters long and ends in a digit |
| HeaderSchema.NonDigitTailRejected | src/schemas/header_schema.js:11 | after a string of blocks, a tail starting with anything but a digit breaks the pattern |
| HeaderSchema.SuffixAfterSecondsRejected | src/schemas/header_schema.js:9-13 | a valid timestamp followed by `Z`, a `+`/`-` offset or `.` fractional seconds is rejected |
| HeaderSchema.ZoneDesignatorRejected | src/schemas/header_schema.js:9-13 | `2021-03-04T05:06:07` is accepted and the same instant with `Z` is rejected |
| HeaderSchema.RequiredHeaders | src/schemas/header_schema.js:4-20 | each of `transaction_id`, `timestamp`, `channel_id` is required and must be non-empty, and a non-digit anywhere in either id is rejected |
| HeaderSchema.OtherHeadersIgnored | src/schemas/header_schema.js:1-21 | adding, changing or removing any other header never changes validity |
| RegisterUserSchema.AgeBoundary | src/schemas/registerUser_schema.js:29-32 | in an otherwise valid body, age 13 is accepted, and 12 and 13.5 are rejected |
| RegisterUserSchema.ExtraPropertiesIgnored | src/schemas/registerUser_schema.js:1-46 | an unnamed extra property at any of the four object levels keeps a valid body valid |
| Express.Response.constructor | src/controllers/registerUser_controller.js:5 | a fresh response has status 200 and no reply |
| Express.Response.Status | src/services/registerUser_service.js:96 | `status()` sets the status code |
| Express.Response.Json | src/services/registerUser_service.js:96-99 | `json()` succeeds exactly when nothing was sent before; the reply is then the body with the current status, and otherwise the first reply stays |
| RegisterUserService.Validate | src/services/registerUser_service.js:15-48 | headers are rejected exactly when invalid, with 400 and Ajv's first message; the body is rejected exactly when the headers are valid and the body is not, with 400 and `<dataPath> - <message>`; otherwise the body is accepted unchanged |
| RegisterUserService.ValidarRequest | src/services/registerUser_service.js:15-48 | on a response nothing was sent on: invalid headers write the 400 reply and leave the promise pending; an invalid body writes the 400 reply and rejects; a valid request resolves with the body and writes nothing |
| RegisterUserService.CrearRqHeaders | src/services/registerUser_service.js:56-66 | the outbound content type is always `application/json` |
| RegisterUserService.RqHeadersForwarded | src/services/registerUser_service.js:56-66 | under valid headers, the three trace headers are forwarded verbatim and `accept` is forwarded when present |
| RegisterUserService.RqHeadersIgnoreOthers | src/services/registerUser_service.js:56-66 | no other request header affects the outbound headers |
| RegisterUserService.Classify | src/services/registerUser_service.js:90-118 | a remote error is forwarded verbatim; otherwise the status is 504 exactly on `ECONNABORTED` and 502 otherwise; the code is the connection error's own code or `Bad Gateway`; the message is the timeout or connection text followed by the service name |
| RegisterUserService.ClassifyUniform | src/services/registerUser_service.js:173-201 | any two adapters give the same status and code for the same failure, and messages that differ only in the service name |
| RegisterUserService.TransportReplies | src/services/registerUser_service.js:360-372 | the exact replies for a SendMail timeout, a refused GenerateEncryptToken connection and an unknown connection error |
| RegisterUserService.EnviarRequest | src/services/registerUser_service.js:85-119 | on a response nothing was sent on: an answered call delivers the service's body and leaves the response untouched; a failed call sets the classified status, writes the classified reply, and returns the response itself |
| RegisterUserService.EncryptRequestShape | src/services/registerUser_service.js:132-148 | the encryption request holds exactly the five user fields, unchanged, under `data.token.payload` |
| RegisterUserService.GenerarAuthCode | src/services/registerUser_service.js:210-212 | for a draw in [0, 1) the code is a six-digit integer of at most 999998 |
| RegisterUserService.AuthCodeReachable | src/services/registerUser_service.js:210-212 | every code from 100000 to 999998 is produced by some draw, so the range is exact |
| RegisterUserService.InsertRequestShape | src/services/registerUser_service.js:222-234 | the insert request holds exactly the code, the email under `client_data`, and the encrypted user when it is defined |
| RegisterUserService.MailRequestShape | src/services/registerUser_service.js:299-324 | the mail request has the fixed template, sender and subject, the given recipient, and exactly the parameters nickname then code |
| RegisterUserController.ReadFields | src/controllers/registerUser_controller.js:12-16 | the reads throw exactly when the body is null or `data`, `client_credentials` or `client_data` is missing or null; otherwise each field is the value at its path |
| RegisterUserController.AnswerReads | src/controllers/registerUser_controller.js:41-47 | the token is read exactly when the answer and its `data` are defined and not null, and is then `data.encrypted_token`; the stored code is `data.auth_code` as a string |
| RegisterUserController.ValidBodyReadable | src/controllers/registerUser_controller.js:12-16 | a body that satisfies the contract is read without error and all five fields are defined |
| RegisterUserController.SuccessMessage | src/controllers/registerUser_controller.js:52-56 | the success message is exactly the fixed prefix, then the email verbatim, then the fixed suffix |
| RegisterUserController.PrependStage | src/controllers/registerUser_controller.js:20-57 | an answered call followed by the run of the next stage is a well-formed run of this stage |
| RegisterUserController.MailStage | src/controllers/registerUser_controller.js:48-56 | the mail carries email, nickname and the given code; an answered mail gives 200 with the success message; a failed one leaves its own error as the reply |
| RegisterUserController.InsertStage | src/controllers/registerUser_controller.js:42-48 | the insert carries the generated code, the email and the token; an answer whose `auth_code` converts to a string leads to the mail, which carries that string, and only such an answer does; an unreadable answer leaves the client without a reply |
| RegisterUserController.EncryptStage | src/controllers/registerUser_controller.js:39-43 | the encryption carries the submitted fields; an answer with a readable `data.encrypted_token` leads to the insert, which carries exactly that token, and only such an answer does; an unreadable answer leaves the client without a reply |
| RegisterUserController.LookupStage | src/controllers/registerUser_controller.js:23-39 | the lookup is by the submitted email; a found user gives 422 and ends the run; an answer without `data` leads to the encryption, and only such an answer does; an answer whose `hasOwnProperty` call throws leaves the client without a reply |
| RegisterUserController.Register | src/controllers/registerUser_controller.js:5-68 | unreadable body: 500 and no call; invalid headers: 400 and the handler never resumes; invalid body: 400 and swallowed; a service is called exactly when the request is valid, then in the fixed order with the same headers, stopping at the first failure with its classified error as the reply |
| RegisterUserController.ValidRequestRunsSaga | src/controllers/registerUser_controller.js:12-23 | a valid request is read without error and runs the calls from the lookup on |
| RegisterUserController.SendMailStep | src/controllers/registerUser_controller.js:48-56 | the mail step on the response produces exactly the run `MailStage` describes |
| RegisterUserController.InsertStep | src/controllers/registerUser_controller.js:42-47 | the insert step on the response produces exactly the run `InsertStage` describes |
| RegisterUserController.EncryptStep | src/controllers/registerUser_controller.js:39-41 | the encryption step on the response produces exactly the run `EncryptStage` describes |
| RegisterUserController.LookupStep | src/controllers/registerUser_controller.js:23-37 | the lookup step on the response produces exactly the run `LookupStage` describes |
| RegisterUserController.RegisterUser | src/controllers/registerUser_controller.js:5-68 | the handler on a fresh response makes exactly the calls, leaves exactly the reply and ends exactly as `Register` says |
| RegisterUserController.MissingSectionGives500 | src/controllers/registerUser_controller.js:12-16 | a body lacking `data`, `client_credentials` or `client_data` gets 500 and no call, not a validation 400 |
| RegisterUserController.FoundUserRejected | src/controllers/registerUser_controller.js:28-34 | a user the lookup finds gets 422 `Usuario ya se encuentra registrado`, and encryption, insert and mail are never called |
| RegisterUserController.RequestsCarrySubmittedData | src/controllers/registerUser_controller.js:39-48 | the encryption request carries the submitted fields; the insert carries the generated code and the token the encryption returned; the mail carries the insert answer's `auth_code` as a string |
| RegisterUserController.MailedParams | src/controllers/registerUser_controller.js:47-48 | a run that reaches the mail sends the nickname and the insert answer's `auth_code` as a string as the template parameters |
| RegisterUserController.StoredCodeIsMailed | src/controllers/registerUser_controller.js:47-48 | a string `auth_code` in the insert answer is the mail's code parameter as it is, whatever code was generated |
| RegisterUserController.NumericCodeIsMailed | src/controllers/registerUser_controller.js:43-48 | a numeric `auth_code` below 10^21 is mailed as its decimal digits, and six digits when the store echoes the generated code |
| RegisterUserController.AllStepsSucceed | src/controllers/registerUser_controller.js:23-56 | a valid request whose lookup finds no `data` and whose encryption, insert and mail answers are readable makes all four calls and gets 200 with the success message naming the submitted email |
| RegisterUserController.FullRunLastFailure | src/controllers/registerUser_controller.js:44-49 | in a run that reaches the mail, the insert came just before it, and a failed mail leaves its own error as the reply |
| RegisterUserController.FailureEndsRun | src/controllers/registerUser_controller.js:58-59 | the run stops at the first failed call, with that call's classified error as the reply and the error swallowed |
| RegisterUserController.MailTimeoutKeepsInsert | src/controllers/registerUser_controller.js:44-56 | a mail timeout after the insert gives 504 `Timeout en ms SendMail`; the insert stays and the success write is refused |
| RegisterUserController.EncryptRefusedStops | src/controllers/registerUser_controller.js:40-41 | a refused encryption connection gives 502 naming GenerateEncryptToken, and neither insert nor mail is called |

## Left out

- HTTP transport: axios, the base URLs taken from the environment, and
  enforcement of the 5000 ms timeout. A downstream call is modelled as its
  configuration (path, verb, headers, body and the timeout constant) and an
  outcome given as a parameter.
- Express application setup, body parsing and routing.
- Ajv internals. The `email` format check is the parameter `isEmail`, and
  Ajv's first error is an opaque `SchemaError`. Which error Ajv reports first
  is not modelled.
- The request headers are a map from names to strings, as Node delivers
  them. Header values that are not strings are not modelled.
- Floating point:
  - `Math.random()` is an exact real draw in [0, 1), and `parseInt` of the
    result is its floor. A six-digit code up to 999999 is the evident
    intent; the code as written yields at most 999998. The model follows
    the code.
  - `Number.prototype.toString` is the parameter `numeral`. Only what the
    language fixes is assumed where it is needed (`IntegerNumerals`): an
    integer below 10^21 is written as its decimal digits.
  - JSON numbers are exact reals.
- A remote error response whose body is `null` or missing is not modelled.
  There, reading `error.response.data.code` throws inside the adapter's
  `catch`. A body that is a string, or an object without `code`/`message`,
  is not modelled either. There, the adapter forwards the status with both
  fields `undefined`, which `json()` drops. The model's remote error always
  carries a status, a code and a message.
- Logging (log4js, `console.log`) and `logger.addContext`.
- Promise machinery and concurrent requests. The handler is modelled as a
  sequential method. Its end state records whether it returned, swallowed an
  error, or waits forever.
- A body without `client_credentials` is never reported with the
  validation 400: the fields are read before validation, so such a body
  gets 500. The model follows the code (`MissingSectionGives500`).
