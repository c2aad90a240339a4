/** The request/response pipeline shared by every B2BRouter API resource:
    building the outgoing request, classifying the response by status code,
    decoding a successful body (JSON mode) or handing it back untouched (binary
    mode), and extracting the error message from a failed one. */
module ApiResource {
  import opened Php

  /** The immutable client configuration a resource reads on every call. */
  datatype Client = Client(apiKey: string, apiVersion: string, apiBase: string, timeout: int)

  /** PHP library functions the pipeline calls and does not define:
      `json_decode($s, true)` (null, i.e. `JNull`, when the text does not
      parse), `json_encode` and `http_build_query`. */
  datatype Builtins = Builtins(
    jsonDecode: string -> Json,
    jsonEncode: Json -> string,
    httpBuildQuery: seq<(Key, Json)> -> string)

  /** What is handed to the HTTP transport: method, URL, headers, body (null
      when `None`) and timeout. */
  datatype Outgoing = Outgoing(
    verb: string,
    url: string,
    headers: map<string, string>,
    body: Option<seq<(Key, Json)>>,
    timeout: int)

  /** What the HTTP transport hands back. */
  datatype Response = Response(status: int, body: string, headers: map<string, string>)

  /** The five exception classes a failed response can raise. */
  datatype ErrorKind =
    | InvalidRequest
    | Authentication
    | Permission
    | ResourceNotFound
    | ApiError

  /** A thrown API exception with everything its constructor receives. */
  datatype ApiException = ApiException(
    kind: ErrorKind,
    message: Json,
    status: int,
    body: string,
    json: Json,
    headers: map<string, string>)

  /** The outcome of one call: a returned value or a thrown exception. */
  datatype Result<+T> = Ok(value: T) | Err(error: ApiException)

  const KeyHeader := "X-B2B-API-Key"
  const VersionHeader := "X-B2B-API-Version"
  const JsonType := "application/json"
  const UnknownError := "Unknown error"

  /** The methods whose parameters travel in the query string in JSON mode.
      Both are spelled in upper case, so only an upper-cased method matches. */
  predicate IsQueryMethod(verb: string)
    ensures IsQueryMethod(verb) ==> ToUpper(verb) == verb
  {
    verb == "GET" || verb == "DELETE"
  }

  // ---------------------------------------------------------------------------
  // Request construction

  /** The headers of a JSON-mode request. */
  function JsonHeaders(client: Client): (h: map<string, string>)
    ensures h.Keys == {KeyHeader, VersionHeader, "Content-Type", "Accept"}
    ensures h[KeyHeader] == client.apiKey && h[VersionHeader] == client.apiVersion
    ensures h["Content-Type"] == JsonType && h["Accept"] == JsonType
  {
    map[KeyHeader := client.apiKey, VersionHeader := client.apiVersion,
        "Content-Type" := JsonType, "Accept" := JsonType]
  }

  /** The headers of a binary-mode request: no Content-Type, and the caller's
      content type as Accept. */
  function BinaryHeaders(client: Client, acceptType: string): (h: map<string, string>)
    ensures h.Keys == {KeyHeader, VersionHeader, "Accept"}
    ensures h[KeyHeader] == client.apiKey && h[VersionHeader] == client.apiVersion
    ensures h["Accept"] == acceptType
  {
    map[KeyHeader := client.apiKey, VersionHeader := client.apiVersion, "Accept" := acceptType]
  }

  /** The URL `base + path`, followed by `?query` when there are parameters. */
  function WithQuery(php: Builtins, url: string, params: seq<(Key, Json)>): (u: string)
    ensures url <= u
    ensures params == [] <==> u == url
    ensures params != [] ==> u == url + "?" + php.httpBuildQuery(params)
  {
    if params == [] then url else url + "?" + php.httpBuildQuery(params)
  }

  /** The request `request` hands to the transport. */
  function BuildRequest(client: Client, php: Builtins, verb: string, path: string,
                        params: seq<(Key, Json)>): (r: Outgoing)
    ensures r.verb == ToUpper(verb)
    ensures r.headers == JsonHeaders(client) && r.timeout == client.timeout
    ensures client.apiBase + path <= r.url
    ensures IsQueryMethod(r.verb) ==>
              r.body == None && r.url == WithQuery(php, client.apiBase + path, params)
    ensures !IsQueryMethod(r.verb) ==>
              r.body == Some(params) && r.url == client.apiBase + path
  {
    var m := ToUpper(verb);
    var url := client.apiBase + path;
    if IsQueryMethod(m) then Outgoing(m, WithQuery(php, url, params), JsonHeaders(client), None, client.timeout)
    else Outgoing(m, url, JsonHeaders(client), Some(params), client.timeout)
  }

  /** The request `requestBinary` hands to the transport. */
  function BuildBinaryRequest(client: Client, php: Builtins, verb: string, path: string,
                              acceptType: string, params: seq<(Key, Json)>): (r: Outgoing)
    ensures r.verb == ToUpper(verb)
    ensures r.headers == BinaryHeaders(client, acceptType) && r.timeout == client.timeout
    ensures r.body == None
    ensures r.url == WithQuery(php, client.apiBase + path, params)
  {
    Outgoing(ToUpper(verb), WithQuery(php, client.apiBase + path, params),
             BinaryHeaders(client, acceptType), None, client.timeout)
  }

  /** In JSON mode non-empty parameters travel exactly once: either as the
      query string or as the body, never both and never neither. */
  lemma ParamsTravelOnce(client: Client, php: Builtins, verb: string, path: string,
                         params: seq<(Key, Json)>)
    requires params != []
    ensures var r := BuildRequest(client, php, verb, path, params);
            (r.body == Some(params)) != (r.url == client.apiBase + path + "?" + php.httpBuildQuery(params))
  {
  }

  /** The method's letter case does not matter: "get", "Get" and "GET" build
      the same request, in both modes. */
  lemma MethodCaseInsensitive(client: Client, php: Builtins, verb: string,
                              path: string, acceptType: string, params: seq<(Key, Json)>)
    ensures BuildRequest(client, php, ToUpper(verb), path, params)
         == BuildRequest(client, php, verb, path, params)
    ensures BuildBinaryRequest(client, php, ToUpper(verb), path, acceptType, params)
         == BuildBinaryRequest(client, php, verb, path, acceptType, params)
  {
    ToUpperIdempotent(verb);
  }

  // ---------------------------------------------------------------------------
  // Status classification

  /** The `switch` on the status code of a failed response. */
  function ErrorKindFor(status: int): (k: ErrorKind)
    ensures k == InvalidRequest <==> status == 400 || status == 422
    ensures k == Authentication <==> status == 401
    ensures k == Permission <==> status == 403
    ensures k == ResourceNotFound <==> status == 404
    ensures k == ApiError <==> status !in {400, 401, 403, 404, 422}
  {
    if status == 400 || status == 422 then InvalidRequest
    else if status == 401 then Authentication
    else if status == 403 then Permission
    else if status == 404 then ResourceNotFound
    else ApiError
  }

  /** The status-to-kind mapping as an ordered lookup table; a status the
      table does not list is a generic API error. */
  const StatusTable: seq<(int, ErrorKind)> := [
    (400, InvalidRequest), (422, InvalidRequest), (401, Authentication),
    (403, Permission), (404, ResourceNotFound)]

  function TableLookup(table: seq<(int, ErrorKind)>, status: int): ErrorKind {
    if table == [] then ApiError
    else if table[0].0 == status then table[0].1
    else TableLookup(table[1..], status)
  }

  /** The switch and the lookup table agree on every status code. */
  lemma {:induction false} SwitchMatchesTable(status: int)
    ensures ErrorKindFor(status) == TableLookup(StatusTable, status)
  {
    var t := StatusTable;
    assert t[4..] == [(404, ResourceNotFound)] && t[4..][1..] == [];
    assert TableLookup(t[4..], status) == if status == 404 then ResourceNotFound else ApiError;
    assert t[3..][1..] == t[4..] && t[3..][0] == (403, Permission);
    assert TableLookup(t[3..], status) == if status == 403 then Permission else TableLookup(t[4..], status);
    assert t[2..][1..] == t[3..] && t[2..][0] == (401, Authentication);
    assert TableLookup(t[2..], status) == if status == 401 then Authentication else TableLookup(t[3..], status);
    assert t[1..][1..] == t[2..] && t[1..][0] == (422, InvalidRequest);
    assert TableLookup(t[1..], status) == if status == 422 then InvalidRequest else TableLookup(t[2..], status);
  }

  // ---------------------------------------------------------------------------
  // Error message extraction

  /** `extractErrorMessage($jsonBody, $body)`. */
  function ExtractErrorMessage(php: Builtins, jsonBody: Json, body: string): (m: Json)
    ensures m != JNull
    ensures !IsArray(jsonBody) ==> m == JStr(if FalsyString(body) then UnknownError else body)
    ensures m.JStr? && m.s == UnknownError ==>
              FalsyString(body) || body == UnknownError || IsArray(jsonBody)
  {
    if IsArray(jsonBody) && NestedOffset(jsonBody, "error", "message").Some? then
      NestedOffset(jsonBody, "error", "message").value
    else if IsArray(jsonBody) && Offset(jsonBody, "message").Some? then
      Offset(jsonBody, "message").value
    else if IsArray(jsonBody) && Offset(jsonBody, "error").Some? then
      var e := Offset(jsonBody, "error").value;
      if e.JStr? then e else JStr(php.jsonEncode(e))
    else if !FalsyString(body) then JStr(body)
    else JStr(UnknownError)
  }

  /** The fallback chain written as a list of candidates, most preferred
      first: the nested `error.message`, the top-level `message`, the
      top-level `error` (a string verbatim, anything else JSON-encoded), the
      raw body when it is truthy, and the placeholder. */
  function MessageCandidates(php: Builtins, jsonBody: Json, body: string): seq<Option<Json>> {
    var error := Offset(jsonBody, "error");
    [ NestedOffset(jsonBody, "error", "message"),
      Offset(jsonBody, "message"),
      if error.Some? then Some(if error.value.JStr? then error.value else JStr(php.jsonEncode(error.value))) else None,
      if FalsyString(body) then None else Some(JStr(body)),
      Some(JStr(UnknownError)) ]
  }

  /** The first candidate that applies. */
  function FirstSet(candidates: seq<Option<Json>>): Option<Json> {
    if candidates == [] then None
    else if candidates[0].Some? then candidates[0]
    else FirstSet(candidates[1..])
  }

  /** The message is the first applicable candidate of the chain. */
  lemma {:induction false} MessagePrecedence(php: Builtins, jsonBody: Json, body: string)
    ensures FirstSet(MessageCandidates(php, jsonBody, body)) == Some(ExtractErrorMessage(php, jsonBody, body))
  {
    var c := MessageCandidates(php, jsonBody, body);
    assert c[4..][0] == Some(JStr(UnknownError));
    assert FirstSet(c[4..]) == c[4];
    assert c[3..][1..] == c[4..];
    assert FirstSet(c[3..]) == if c[3].Some? then c[3] else c[4];
    assert c[2..][1..] == c[3..];
    assert FirstSet(c[2..]) == if c[2].Some? then c[2] else FirstSet(c[3..]);
    assert c[1..][1..] == c[2..];
    assert FirstSet(c[1..]) == if c[1].Some? then c[1] else FirstSet(c[2..]);
  }

  /** The chain on the typical error bodies: a nested message, a top-level
      message, a plain error string, an undecodable body and an empty body. */
  lemma MessageExamples(php: Builtins)
    ensures ExtractErrorMessage(php, JArray([(Name("error"), JArray([(Name("message"), JStr("m"))]))]), "b")
         == JStr("m")
    ensures ExtractErrorMessage(php, JArray([(Name("message"), JStr("m2"))]), "b") == JStr("m2")
    ensures ExtractErrorMessage(php, JArray([(Name("error"), JStr("plain"))]), "b") == JStr("plain")
    ensures ExtractErrorMessage(php, JArray([(Name("error"), JStr("plain")), (Name("message"), JStr("m2"))]), "b")
         == JStr("m2")
    ensures ExtractErrorMessage(php, JArray([(Index(0), JStr("x"))]), "[\"x\"]") == JStr("[\"x\"]")
    ensures ExtractErrorMessage(php, JNull, "oops") == JStr("oops")
    ensures ExtractErrorMessage(php, JNull, "") == JStr(UnknownError)
    ensures ExtractErrorMessage(php, JInt(0), "0") == JStr(UnknownError)
  {
  }

  /** A structured `error` reaches `json_encode` with its entries in the order
      of the body: `{"error":{"b":1,"a":2}}` and `{"error":{"a":2,"b":1}}`
      hand the encoder two different arrays. */
  lemma ErrorEntryOrderReachesEncoder(php: Builtins)
    ensures var ba := JArray([(Name("b"), JInt(1)), (Name("a"), JInt(2))]);
            var ab := JArray([(Name("a"), JInt(2)), (Name("b"), JInt(1))]);
            && ba != ab
            && ExtractErrorMessage(php, JArray([(Name("error"), ba)]), "{}") == JStr(php.jsonEncode(ba))
            && ExtractErrorMessage(php, JArray([(Name("error"), ab)]), "{}") == JStr(php.jsonEncode(ab))
  {
  }

  // ---------------------------------------------------------------------------
  // Response handling

  /** The exception the `switch` throws for a failed response. */
  function Raise(response: Response, jsonBody: Json, message: Json): (e: ApiException)
    ensures e.kind == ErrorKindFor(response.status) && e.message == message
    ensures e.status == response.status && e.body == response.body
    ensures e.json == jsonBody && e.headers == response.headers
  {
    ApiException(ErrorKindFor(response.status), message, response.status,
                  response.body, jsonBody, response.headers)
  }

  /** `handleResponse`: JSON mode. */
  function HandleResponse(php: Builtins, response: Response): (r: Result<Json>)
    ensures r.Err? <==> response.status >= 400
    ensures r.Ok? ==> r.value != JNull
    ensures r.Ok? && Falsy(php.jsonDecode(response.body)) ==> r.value == EmptyArray
    ensures r.Ok? && !Falsy(php.jsonDecode(response.body)) ==> r.value == php.jsonDecode(response.body)
    ensures r.Err? ==> r.error.kind == ErrorKindFor(response.status)
    ensures r.Err? ==> r.error.message == ExtractErrorMessage(php, php.jsonDecode(response.body), response.body)
    ensures r.Err? ==>
              && r.error.status == response.status && r.error.body == response.body
              && r.error.json == php.jsonDecode(response.body) && r.error.headers == response.headers
  {
    var jsonBody := php.jsonDecode(response.body);
    if response.status >= 400 then
      Err(Raise(response, jsonBody, ExtractErrorMessage(php, jsonBody, response.body)))
    else if Falsy(jsonBody) then Ok(EmptyArray)
    else Ok(jsonBody)
  }

  /** `handleBinaryResponse`: binary mode. */
  function HandleBinaryResponse(php: Builtins, response: Response): (r: Result<string>)
    ensures r.Err? <==> response.status >= 400
    ensures r.Ok? ==> r.value == response.body
    ensures r.Err? ==> r.error.kind == ErrorKindFor(response.status)
    ensures r.Err? ==> r.error.message == ExtractErrorMessage(php, php.jsonDecode(response.body), response.body)
    ensures r.Err? ==>
              && r.error.status == response.status && r.error.body == response.body
              && r.error.json == php.jsonDecode(response.body) && r.error.headers == response.headers
  {
    if response.status >= 400 then
      var jsonBody := php.jsonDecode(response.body);
      Err(Raise(response, jsonBody, ExtractErrorMessage(php, jsonBody, response.body)))
    else Ok(response.body)
  }

  /** A successful JSON-mode payload is exactly the decoded body whenever that
      is truthy, entry order included. */
  lemma PayloadIsDecodedBody(php: Builtins, response: Response)
    requires response.status < 400 && !Falsy(php.jsonDecode(response.body))
    ensures HandleResponse(php, response) == Ok(php.jsonDecode(response.body))
  {
  }

  /** On a failed response both modes throw the very same exception. */
  lemma BinaryAgreesOnErrors(php: Builtins, response: Response)
    requires response.status >= 400
    ensures HandleBinaryResponse(php, response).Err?
    ensures HandleBinaryResponse(php, response).error == HandleResponse(php, response).error
  {
  }

  /** A binary-mode success never consults the JSON decoder: any two
      decoders give the same bytes. */
  lemma BinarySuccessIgnoresDecoder(php: Builtins, other: Builtins, response: Response)
    requires response.status < 400
    ensures HandleBinaryResponse(php, response) == HandleBinaryResponse(other, response)
  {
  }

  /** A 404 whose body carries a top-level message raises ResourceNotFound
      with that message, in both modes. */
  lemma NotFoundInBothModes(php: Builtins, response: Response)
    requires response.status == 404
    requires php.jsonDecode(response.body) == JArray([(Name("message"), JStr("not found"))])
    ensures var e := ApiException(ResourceNotFound, JStr("not found"), 404, response.body,
                                  php.jsonDecode(response.body), response.headers);
            HandleResponse(php, response) == Err(e) && HandleBinaryResponse(php, response) == Err(e)
  {
  }

  // ---------------------------------------------------------------------------
  // The two public call shapes

  /** `request($method, $path, $params, $options)`: `send` stands for the
      HTTP transport; `options` is accepted and ignored. */
  function Request(client: Client, php: Builtins, send: Outgoing -> Response, verb: string,
                   path: string, params: seq<(Key, Json)>, options: seq<(Key, Json)>): (r: Result<Json>)
    ensures r == HandleResponse(php, send(BuildRequest(client, php, verb, path, params)))
  {
    var response := send(BuildRequest(client, php, verb, path, params));
    HandleResponse(php, response)
  }

  /** `requestBinary($method, $path, $acceptType, $params, $options)`. */
  function RequestBinary(client: Client, php: Builtins, send: Outgoing -> Response, verb: string,
                         path: string, acceptType: string, params: seq<(Key, Json)>,
                         options: seq<(Key, Json)>): (r: Result<string>)
    ensures r == HandleBinaryResponse(php, send(BuildBinaryRequest(client, php, verb, path, acceptType, params)))
  {
    var response := send(BuildBinaryRequest(client, php, verb, path, acceptType, params));
    HandleBinaryResponse(php, response)
  }
}
