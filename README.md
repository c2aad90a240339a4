# B2BRouter PHP SDK: the API-resource request/response pipeline

This project models, in Dafny, the pipeline that every B2BRouter API resource
(invoices, contacts, ...) goes through, as written in
`lib/B2BRouter/ApiResource.php`:

- **Request construction** (`request`, `requestBinary`): the HTTP method is
  upper-cased (`strtoupper`), the URL is the client's API base followed by the
  path, and the headers are the API key and API version plus either
  `Content-Type`/`Accept: application/json` (JSON mode) or `Accept: <format>`
  (binary mode). In JSON mode GET and DELETE append non-empty parameters as a
  query string and send no body, while every other method sends the parameters
  as the body. In binary mode non-empty parameters are appended as a query string
  for every method and the body is always null.
- **Status classification** (the two `switch` blocks): a status of 400 or more
  raises exactly one of InvalidRequest (400, 422), Authentication (401),
  Permission (403), ResourceNotFound (404) or the generic ApiError.
- **Success decoding**: JSON mode returns the decoded body, or the empty array
  when the decoded value is PHP-falsy (null from a failed decode, `false`, `0`,
  `""`, `"0"`, the empty array). Binary mode returns the raw body.
- **Error messages** (`extractErrorMessage`): `error.message`, else `message`,
  else `error` (a string verbatim, anything else through `json_encode`), all
  looked up only when the decoded body is an array and with `isset` semantics.
  After that comes the raw body, or `"Unknown error"` when the raw body is falsy
  (`""` or `"0"`).

Two modules:

- `Php` (`php.dfy`): the PHP behaviour the pipeline leans on. It holds the
  decoded JSON value (`Json`), PHP truthiness (`Falsy`, `FalsyString`),
  `is_array`, array access and `isset` on a string offset (`Lookup`, `Offset`,
  `NestedOffset`) and `strtoupper` (`ToUpper`). A decoded object or list is a
  PHP array (`JArray`): an ordered sequence of entries whose keys are strings or
  integers, in the order of the JSON text. The request parameters are such an
  array too, so their order and any integer keys reach `http_build_query` and the
  request body unchanged.
- `ApiResource` (`api_resource.dfy`): the request descriptors, the handlers, the
  message extraction and the two public call shapes. `Request` and
  `RequestBinary` take the HTTP transport as a function `send` from the outgoing
  request to the response, and `json_decode`, `json_encode` and
  `http_build_query` as the fields of a `Builtins` value. A thrown exception is
  `Err(ApiException(kind, message, status, body, json, headers))`.

Two independent reference definitions back the inline code. `StatusTable` is
the status mapping as an ordered lookup table, and `SwitchMatchesTable` proves
that the switch agrees with it for every status. `MessageCandidates` and
`FirstSet` state the fallback chain as a list of candidates, most preferred
first, and `MessagePrecedence` proves that `extractErrorMessage` returns the
first one that applies. That proof also shows the `is_array` guard loses
nothing: `isset` can never hold on a non-array value.

Behaviour of the code worth knowing, all of it modelled as written:

- Falsy bodies: every falsy decoded value becomes the empty array, not only an
  absent or undecodable body. A raw body of `"0"` gives `"Unknown error"`, like an empty one.
- Raw-body fallback: the raw body is used whenever no JSON field applies. This
  includes a body that decodes to an array without `error`/`message` and a body
  that decodes to a scalar, not only an undecodable one.
- Binary-mode parameters: binary mode appends the query string for every
  method, not only for GET and DELETE.
- Empty JSON-mode bodies: POST, PUT and PATCH send the parameter array as the
  body even when it is empty.
- Decoded JSON on errors: the exception always receives the decoded value, and
  that value is null (`JNull`) when decoding failed.
- Parameter validation: nothing checks that parameters are serialisable before
  the request is sent.

## Model

| member | source | states |
|---|---|---|
| `Php.FalsyString` | lib/B2BRouter/ApiResource.php:213 | `$body ?: …` treats exactly "" and "0" as false. |
| `Php.Falsy` | lib/B2BRouter/ApiResource.php:110 | `$jsonBody ?: []` treats exactly six decoded values as false: null, false, 0, "", "0" and the empty array. |
| `Php.IsArray` | lib/B2BRouter/ApiResource.php:201 | `is_array` holds for a decoded object or list and for no null, boolean, integer or string. |
| `Php.Lookup` | lib/B2BRouter/ApiResource.php:202-209 | `$a[k]` is missing exactly when no entry has key `k`, and otherwise is the value of the first entry with that key. |
| `Php.Offset` | lib/B2BRouter/ApiResource.php:205-208 | `isset($v[key])` holds exactly when `v` is an array whose entry for `key` exists and is not null. The value it guards is that entry's value. |
| `Php.NestedOffset` | lib/B2BRouter/ApiResource.php:202-203 | `isset($v['error']['message'])` holds exactly when `error` is set and `message` is set inside it. The value is non-null and sits under `message` in the array under `error`, so a string or scalar `error` never qualifies. |
| `Php.FalsyValues` | lib/B2BRouter/ApiResource.php:110 | null, false, 0, "", "0" and the empty array are falsy. "00", " ", "false", -1 and non-empty arrays are not, even when every value in them is null. |
| `Php.UpperChar` | lib/B2BRouter/ApiResource.php:41 | The result is never a lower-case ASCII letter. Lower-case letters move to upper case and every other character is unchanged. |
| `Php.ToUpper` | lib/B2BRouter/ApiResource.php:41 | `strtoupper` keeps the length and upper-cases each character in place. |
| `Php.ToUpperIdempotent` | lib/B2BRouter/ApiResource.php:41 | Upper-casing twice is the same as upper-casing once. |
| `ApiResource.JsonHeaders` | lib/B2BRouter/ApiResource.php:45-50 | A JSON request carries exactly four headers: API key, API version, `Content-Type: application/json` and `Accept: application/json`. |
| `ApiResource.BinaryHeaders` | lib/B2BRouter/ApiResource.php:130-134 | A binary request carries exactly the API key, the API version and `Accept: acceptType`, with no Content-Type. |
| `ApiResource.IsQueryMethod` | lib/B2BRouter/ApiResource.php:54 | The GET/DELETE test matches only upper-case spellings: any method it accepts is unchanged by `strtoupper`. |
| `ApiResource.WithQuery` | lib/B2BRouter/ApiResource.php:55-57 | The URL keeps its prefix. It is unchanged exactly when the parameters are empty, and otherwise gains `?` plus the built query. |
| `ApiResource.BuildRequest` | lib/B2BRouter/ApiResource.php:39-69 | Method upper-cased, URL starting with base+path, JSON headers, client timeout. GET/DELETE: no body, query only for non-empty params. Other methods: body is exactly the params and URL is exactly base+path. |
| `ApiResource.BuildBinaryRequest` | lib/B2BRouter/ApiResource.php:124-148 | Method upper-cased, binary headers, null body for every method, and the query appended for non-empty params for every method. |
| `ApiResource.ParamsTravelOnce` | lib/B2BRouter/ApiResource.php:53-60 | In JSON mode non-empty params travel in exactly one place, the body or the query string. |
| `ApiResource.MethodCaseInsensitive` | lib/B2BRouter/ApiResource.php:41-54 | "get", "Get" and "GET" build the same request, in both modes. |
| `ApiResource.ErrorKindFor` | lib/B2BRouter/ApiResource.php:95-107 | Each kind is chosen exactly when: 400 or 422 for InvalidRequest, 401 for Authentication, 403 for Permission, 404 for ResourceNotFound, any other status for ApiError. |
| `ApiResource.SwitchMatchesTable` | lib/B2BRouter/ApiResource.php:173-185 | The switch agrees with the ordered status table on every status code. |
| `ApiResource.ExtractErrorMessage` | lib/B2BRouter/ApiResource.php:199-214 | The message is never null. For a non-array decoded value it is the raw body, or "Unknown error" when the body is falsy. The placeholder appears only for a falsy body, a body that is itself that text, or an array body. |
| `ApiResource.MessagePrecedence` | lib/B2BRouter/ApiResource.php:201-213 | The message is the first applicable of: error.message, message, error (string verbatim, else JSON-encoded), truthy raw body, "Unknown error". |
| `ApiResource.MessageExamples` | lib/B2BRouter/ApiResource.php:202-213 | Each example gives the expected message: nested message, top-level message, plain error string, message over error string, an array without either field (raw body), undecodable body, empty body, body "0". |
| `ApiResource.ErrorEntryOrderReachesEncoder` | lib/B2BRouter/ApiResource.php:209 | A structured `error` is JSON-encoded with its entries in body order. Bodies that differ only in that order hand the encoder different arrays. |
| `ApiResource.Raise` | lib/B2BRouter/ApiResource.php:95-107 | The thrown exception has the switch's kind and carries the message, status, raw body, decoded value and headers unchanged. |
| `ApiResource.HandleResponse` | lib/B2BRouter/ApiResource.php:82-111 | Error exactly when status >= 400. A success is never null: it is the decoded body (entry order included) when truthy, else the empty array. An error has the switch's kind, the extracted message, and the untouched status, raw body, decoded value and headers. |
| `ApiResource.HandleBinaryResponse` | lib/B2BRouter/ApiResource.php:161-190 | Error exactly when status >= 400. A success is the raw body unchanged. An error has the same kind, message and pass-through fields as in JSON mode. |
| `ApiResource.PayloadIsDecodedBody` | lib/B2BRouter/ApiResource.php:89-110 | When the decoded body is truthy, a JSON-mode success returns exactly that decoded value. |
| `ApiResource.BinaryAgreesOnErrors` | lib/B2BRouter/ApiResource.php:168-185 | For a failing response both modes throw the identical exception. |
| `ApiResource.BinarySuccessIgnoresDecoder` | lib/B2BRouter/ApiResource.php:188-189 | A binary success does not depend on the JSON decoder at all. |
| `ApiResource.NotFoundInBothModes` | lib/B2BRouter/ApiResource.php:103-104 | A 404 with body `{"message":"not found"}` raises ResourceNotFound with message "not found" in both modes. |
| `ApiResource.Request` | lib/B2BRouter/ApiResource.php:39-73 | The call sends the request built for it once and returns the JSON-mode classification of the transport's response. |
| `ApiResource.RequestBinary` | lib/B2BRouter/ApiResource.php:124-152 | The call sends the binary request built for it once and returns the binary-mode classification of the transport's response. |

## Left out

- The HTTP transport (`getHttpClient()->request(...)`) is a parameter `send`. Transport-level failures (connection refused, timeout) come from code that is not part of this model.
- `json_decode`, `json_encode` and `http_build_query` are opaque functions. Their internals are not modelled, and neither are floating-point JSON numbers.
- Which JSON texts decode to which arrays (numeric object names becoming integer keys, duplicate names keeping the last value) belongs to `json_decode` and is not modelled. `Lookup` takes the first entry with a key, which is the only one in any array PHP builds.
- The exception classes are not part of this model. They appear as the five kinds of `ErrorKind`, and whatever their constructors do with a message that is not a string is not modelled. The message is kept as the `Json` value that `extractErrorMessage` returns.
- `strtoupper` is modelled as ASCII-only upper-casing, its behaviour from PHP 8.2 on. Older PHP versions used the current locale.
- The header arrays are modelled as maps. The insertion order of PHP's associative arrays is not modelled.
- The unused `$options` argument is accepted by `Request` and `RequestBinary` and ignored.
- The constructor only stores the client. The client's configuration getters become the immutable `Client` value passed to every call.
- `examples/download_invoice_documents.php` is console output, environment bootstrapping and file writes around the calls. It has no logic of its own to model.
