# easyslip client core, modelled in Dafny

A model of the Go client library for the EasySlip slip-verification REST API.
The library builds one HTTP request per verification call, decorates it with a
bearer token and a user agent, sends it once through a pluggable transport, and
turns the reply into either a decoded success value or an error. Errors reported
by the API are mapped through a fixed catalog of eighteen `(status, token)` pairs.

Files, one module each:

- `wrappers.dfy` (`Wrappers`): `Option` and `Result`.
- `decimal.dfy` (`Decimal`): how `fmt`'s `%d` prints an `int`, with its inverse `ParseInt`.
- `errors.dfy` (`Errors`): the `Error` type and its `Error()` text, the eighteen predefined errors,
  the `errorMap` lookup table, and `NewErrorFromMessage`.
- `http.dfy` (`Http`): what the client uses from `net/http`, `net/url` and `encoding/json`.
  It holds the request class whose header map is set in place, the snapshot the transport receives,
  the `Network` class that answers and logs each transport call,
  the transport and decoder outcomes, the error envelope, the client's error values, and `Library`.
  `Library` is a record of uninterpreted library functions.
- `client.dfy` (`Client`): the configuration and its defaults, the options, and the `Client` class.
  The class has the `NewClient` option loop and `newRequest`.
- `response.dfy` (`Response`): `Receive`, the reply handling the three operations share.
  A transport failure, an undecodable error envelope, a typed API error and a 200 reply each take their own path.
- `verify_by_payload.dfy`, `verify_by_base64.dfy`, `verify_truewallet.dfy`: the three operations.

Each operation is a method over a `Client` and an `Http.Network`, the object that stands for the transports.
Its `Do` method appends every call, with the transport used and the request sent, to the network's `log`.
A failure before sending leaves `log` unchanged, so the transport was never called.
Otherwise `log` grows by exactly one call, so the transport was called once.
A postcondition ties each path to its
result: the endpoint, method, body and headers of the request, and `Receive` applied to the transport's
outcome. The lemmas in `Response` say what `Receive` promises. The mapper is reached only for a non-200
reply with a decodable envelope, and then with the envelope's status, not the HTTP status code. A 200
reply never reaches the mapper. A transport failure consults neither decoder.

Kept abstract, as parameters: URL parsing, query parsing and encoding, URL formatting, JSON encoding and
decoding, the failure of `http.NewRequestWithContext`, the transport `HTTPClient.Do`, and the multipart
writer's random boundary. The success shapes `VerificationResponse` and `TrueWalletVerificationResponse`
are type parameters of the operations.

## Model

| member | source | states |
|---|---|---|
| `Decimal.FormatInt` | pkg/easyslip/errors.go:14 | the `%d` rendering of a status is non-empty, holds only digits and a minus sign, and starts with `-` exactly for negative numbers; there are no leading zeros, so zero is `0` and no other rendering starts with `0` or `-0` |
| `Decimal.ParseFormat` | pkg/easyslip/errors.go:14 | reading back a rendered status gives the status |
| `Decimal.NumericSuffixOfFormat` | pkg/easyslip/errors.go:14 | after a non-numeric character, the trailing numeric run is exactly the rendered status |
| `Errors.Error.Text` | pkg/easyslip/errors.go:13-15 | the text starts with `easyslip: `, then holds the message, and ends with `)` |
| `Errors.TextParsesBack` | pkg/easyslip/errors.go:13-15 | `Error()` prints `"easyslip: " + message + " (status: " + status + ")"`, and both status and message can be recovered from that text |
| `Errors.QuotaExceededText` | pkg/easyslip/errors.go:13-15 | the quota error prints as `easyslip: quota_exceeded (status: 403)` |
| `Errors.ErrorMapConsistent` | pkg/easyslip/errors.go:48-67 | every table key maps to a predefined error whose message is that key |
| `Errors.ErrorMapIndexesCatalog` | pkg/easyslip/errors.go:27-67 | every predefined error is in the table under its own token |
| `Errors.ErrorMapKeys` | pkg/easyslip/errors.go:27-67 | the table's keys are exactly the tokens of the predefined errors |
| `Errors.CatalogDistinct` | pkg/easyslip/errors.go:27-44 | there are eighteen predefined errors, with pairwise distinct tokens |
| `Errors.CatalogSize` | pkg/easyslip/errors.go:48-67 | the table has exactly eighteen entries |
| `Errors.CatalogStatuses` | pkg/easyslip/errors.go:27-44 | every predefined status is 400, 401, 403, 404 or 500 |
| `Errors.NewErrorFromMessage` | pkg/easyslip/errors.go:69-75 | the result's message is the input message; for a known token the result is a predefined error; otherwise it has the caller's status |
| `Errors.CatalogStatusWins` | pkg/easyslip/errors.go:70-73 | for a known token the result is the table's error, with the catalog's status, whatever status is passed |
| `Errors.CatalogEntriesMapToThemselves` | pkg/easyslip/errors.go:27-73 | each of the eighteen catalog tokens maps to its own predefined error under any caller status |
| `Errors.UnknownTokenPreserved` | pkg/easyslip/errors.go:74 | for an unknown token the result is exactly `NewError(status, message)` |
| `Errors.StatusSource` | pkg/easyslip/errors.go:70-75 | the result's status is the caller's unless the message is a catalog token, in which case it is that token's catalog status |
| `Errors.MapperIdempotent` | pkg/easyslip/errors.go:70-75 | mapping a result again with its own status and message returns the same error |
| `Errors.QuotaExceededExample` | pkg/easyslip/errors.go:39-75 | `quota_exceeded` under status 429 gives the predefined 403 error; an unknown token keeps status 418 |
| `Http.Request.constructor` | pkg/easyslip/client.go:74 | a fresh request holds the given method, URL and body, and no headers yet |
| `Http.Network.Do` | pkg/easyslip/verify_by_payload.go:31 | a call of `Do` answers with the chosen transport's outcome for the request as the n-th call, n being the number of earlier calls, so a repeated request may get a different answer; it records that one call, and nothing else, in the log |
| `Http.Phase.Prefix` | pkg/easyslip/verify_by_payload.go:16 | each phase prefix (`parsing base URL`, `sending request`, …, as passed to `fmt.Errorf` at verify_by_payload.go:16,33,44,52, verify_by_base64.go:19 and client.go:76) ends with `: ` |
| `Http.WrappedTextDetermines` | pkg/easyslip/client.go:76 | two wrapped errors with the same text have the same phase and the same cause: the six prefixes passed to `fmt.Errorf` here and at verify_by_payload.go:16,33,44,52 and verify_by_base64.go:19 tell the failing phase apart |
| `Http.Failure.Text` | pkg/easyslip/verify_by_payload.go:14-53 | a wrapped error's text is its phase prefix (`parsing base URL: `, `sending request: `, …) followed by the cause's text; an API error's text reads back as that error |
| `Http.Request.Set` | pkg/easyslip/client.go:79-80 | setting a header leaves the key with the single given value and every other key unchanged |
| `Client.Defaults` | pkg/easyslip/client.go:34-41 | the starting configuration holds the given token, the default base URL and user agent, and the library client with a 30-second timeout |
| `Client.Endpoint` | pkg/easyslip/verify_by_payload.go:14 | an endpoint is the base URL followed by the path, as `fmt.Sprintf("%s/verify…", c.baseURL)` builds it here and at verify_by_base64.go:23 and verify_truewallet.go:34 |
| `Client.ApplyOption` | pkg/easyslip/client.go:51-70 | an option never changes the token |
| `Client.ApplyAll` | pkg/easyslip/client.go:44-46 | a list of options, applied first to last, never changes the token |
| `Client.Decoration` | pkg/easyslip/client.go:79-80 | the decoration has exactly the keys `Authorization` and `User-Agent`, each with one value: `Bearer <token>` and the user agent |
| `Client.OptionChangesOnlyItsField` | pkg/easyslip/client.go:51-70 | each option sets its own field to its argument and changes nothing else; no option changes the token |
| `Client.ApplyAllConcat` | pkg/easyslip/client.go:44-46 | options apply left to right: a concatenated list applies its first part, then its second |
| `Client.LastOptionWins` | pkg/easyslip/client.go:33-70 | the token is never changed; each other field is set by the last option of its kind, or keeps its default when there is none |
| `Client.ContentTypeKeepsDecoration` | pkg/easyslip/client.go:79-80 | once a content type is set after decoration, the headers are exactly authorization, user agent and content type, each with one value |
| `Client.Client.constructor` | pkg/easyslip/client.go:33-49 | the new client's fields are the defaults with the given token, then every option applied in order; the token is the argument; with no options the base URL, user agent and transport are the defaults |
| `Client.Client.Apply` | pkg/easyslip/client.go:51-70 | running an option updates the client's fields as that option does |
| `Client.Client.NewRequest` | pkg/easyslip/client.go:72-83 | when the library constructor fails, the result is its error wrapped as `creating request: `; otherwise a fresh request with the given method, URL and body, whose only headers are `Authorization: Bearer <token>` and `User-Agent: <user agent>` |
| `Response.Receive` | pkg/easyslip/verify_by_payload.go:31-56 | a typed API error only from a non-200 reply, success only from a 200 reply, and a wrapped error only from the sending or decoding phases |
| `Response.TransportFailureIsNotDecoded` | pkg/easyslip/verify_by_payload.go:31-34 | a transport failure gives a `sending request: ` error, whatever either decoder would say |
| `Response.MapperOnlyOnNon200` | pkg/easyslip/verify_by_payload.go:38-56 | a typed API error comes back exactly when the reply is not 200 and its envelope decodes |
| `Response.EnvelopeDrivesTypedError` | pkg/easyslip/verify_by_payload.go:38-47 | a non-200 reply with a decodable envelope gives the mapper's error for the envelope's status and message, under any HTTP status code, without the success decoder |
| `Response.UndecodableEnvelope` | pkg/easyslip/verify_by_payload.go:43-45 | a non-200 reply whose envelope fails to decode gives a `decoding error response: ` error |
| `Response.OkIsDecodedAsResult` | pkg/easyslip/verify_by_payload.go:50-56 | a 200 reply gives the decoded value or a `decoding response: ` error; the envelope decoder plays no part |
| `Response.SuccessMeansOk` | pkg/easyslip/verify_by_payload.go:38-56 | a successful result comes only from a 200 reply, and is what the success decoder produced |
| `Response.QuotaExceededReply` | pkg/easyslip/verify_by_payload.go:38-47 | a non-200 reply with envelope `{"status":403,"message":"quota_exceeded"}` gives the predefined 403 quota error |
| `VerifyByPayload.WithPayload` | pkg/easyslip/verify_by_payload.go:21 | after `Set`, the query holds exactly one `payload` value, the input, and every other key unchanged |
| `VerifyByPayload.VerifySlipByPayload` | pkg/easyslip/verify_by_payload.go:12-56 | a URL parse failure gives `parsing base URL: ` without a call of the transport; a request-creation failure is returned without a call of the transport; otherwise exactly one GET with no body is sent to `baseURL + "/verify"`, with the payload set in its query and the two decoration headers, and the reply is handled by `Receive` |
| `VerifyByBase64.RequestObject` | pkg/easyslip/verify_by_base64.go:14-16 | the object to encode has the single key `image`, bound to the input |
| `VerifyByBase64.VerifySlipByBase64` | pkg/easyslip/verify_by_base64.go:12-57 | the body encodes the object whose only key `image` holds the input; an encoding failure gives `encoding request body: ` before any request; a request-creation failure is returned unchanged without a call of the transport; otherwise exactly one POST is sent to `baseURL + "/verify"` with the decoration headers and `Content-Type: application/json`, and the reply is handled by `Receive` |
| `VerifyTrueWallet.FormDataContentType` | pkg/easyslip/verify_truewallet.go:40 | the content type starts with `multipart/form-data` and ends with the writer's boundary, with exactly `; boundary=` between them |
| `VerifyTrueWallet.VerifyTrueWalletSlip` | pkg/easyslip/verify_truewallet.go:33-68 | a request-creation failure is returned without a call of the transport; otherwise exactly one POST is sent to `baseURL + "/verify/truewallet"` with the pipe's read end as body, carrying the image under field `file` and the given file name, the decoration headers, and the multipart form-data content type; the reply is handled by `Receive` |

## Left out

- VerifySlip, the image upload to `/verify` listed among the client's operations, is not part of this model.
- The multipart writer goroutine and its pipe (pkg/easyslip/verify_truewallet.go:14-31) are concurrency. The model records only that the request body is the pipe's read end, for the form field `file`, the given file name and the image's bytes.
- The model therefore does not capture what happens to that writer when the request is never sent. When `newRequest` fails, nothing reads or closes the pipe, so the writer stays blocked.
- Context cancellation and deadlines are left out. They belong to the HTTP lib.
- The 30-second timeout of the default `http.Client` is kept only as a number in `DefaultHttpClient(30)`. Timing is not modelled.
- `resp.Body.Close` via `defer` is resource release and is not modelled.
- `net/url`, `encoding/json`, `net/http` and `mime/multipart` are stood for by the uninterpreted functions in `Http.Library`, or by parameters, without being reimplemented. This covers parsing, percent-encoding, marshalling, decoding, request construction, the transport and boundary generation.
- `VerifyTrueWallet.FormDataContentType` does not quote the boundary, which the library does when the boundary holds special characters. The library's random boundaries are hexadecimal and never need it.
- `Http.Request.Set` does not canonicalise header keys. The three keys the client sets are already in canonical form.
- `*Error` values are compared by value, so pointer identity (what `errors.Is` compares against `ErrQuotaExceeded` and the other predefined errors) is not modelled. On a catalog hit the model returns the catalog's value, as the source returns the shared pointer. The predefined errors are exported `*Error` variables that `errorMap` and every catalog hit share, so a caller can write through them (`ErrQuotaExceeded.Status = 429`, or a field of an error obtained with `errors.As`) and change every later lookup. Such writes are not modelled: the catalog is constant, and `Errors.CatalogStatusWins`, `Errors.CatalogStatuses` and message preservation assume no caller makes them.
- Statuses are unbounded integers. Go's 64-bit `int` matters only inside the JSON decoder, which is abstract here.
- pkg/easyslip/models.go holds only declarations whose amounts are floats and whose dates are library times. The success shapes are opaque type parameters.
- `Http.Failure.Text` gives the text of a wrapped error as its phase prefix followed by the cause's text. The cause's text is opaque.
- examples/main.go is demonstration I/O and is not modelled.
- `Client.LastOptionWins`, `Client.ApplyAll`, `Client.OptionChangesOnlyItsField` and `Client.Client.constructor` (its "the token is the argument" clause): cover only the library's three options. In Go an option is any `func(*Client)`, so a caller's own closure can change the token or anything else, and a nil option panics; neither is modelled.
- `Response.Receive`: covers only transports that return exactly one of a response or an error. A custom `HTTPClient` whose `Do` returns neither, or a nil transport from `WithHTTPClient(nil)`, makes the operations panic; this is not modelled.
