/** The client's HTTP wrapper (src/services/httpClient.ts): endpoint normalisation, header building
    from the token slots of local storage, the request configuration, and the classification of a
    response into a value or an error. `fetch` and `JSON.parse` are parameters; a thrown error is a
    `Failure` carrying its message. */
module HttpClient {
  import opened Wrappers
  import opened Text
  import opened Storage

  const ApiBaseUrl: string := "http://localhost:8080/api"

  /** A JSON value as `JSON.parse` produces it. */
  datatype Json =
    | JNull
    | JBool(b: bool)
    | JNum(n: int)
    | JStr(s: string)
    | JArr(items: seq<Json>)
    | JObj(fields: map<string, Json>)

  /** JavaScript truthiness of an optional value (`None` is `undefined`). */
  predicate Truthy(v: Option<Json>)
  {
    match v
    case None => false
    case Some(JNull) => false
    case Some(JBool(b)) => b
    case Some(JNum(n)) => n != 0
    case Some(JStr(s)) => s != ""
    case Some(_) => true
  }

  /** Property access `v.key`: `None` is `undefined`. Only `null` makes the access throw, which
      callers handle before asking. */
  function Property(v: Json, key: string): Option<Json>
  {
    if v.JObj? && key in v.fields then Some(v.fields[key]) else None
  }

  /** The endpoint with a leading "/" added when it lacks one. */
  function NormalizeEndpoint(endpoint: string): (r: string)
    ensures StartsWith(r, "/")
    ensures StartsWith(endpoint, "/") ==> r == endpoint
    ensures !StartsWith(endpoint, "/") ==> r == "/" + endpoint
  {
    if StartsWith(endpoint, "/") then endpoint else "/" + endpoint
  }

  lemma NormalizeEndpointIdempotent(endpoint: string)
    ensures NormalizeEndpoint(NormalizeEndpoint(endpoint)) == NormalizeEndpoint(endpoint)
  {
  }

  function Url(endpoint: string): (r: string)
    ensures StartsWith(r, ApiBaseUrl + "/")
  {
    var e := NormalizeEndpoint(endpoint);
    assert (ApiBaseUrl + e)[..|ApiBaseUrl| + 1] == ApiBaseUrl + e[..1];
    ApiBaseUrl + e
  }

  /** The default headers plus `Authorization` when a token is stored. */
  function BuildHeaders(storage: map<string, string>): (h: map<string, string>)
    ensures "Content-Type" in h && h["Content-Type"] == "application/json"
    ensures "Accept" in h && h["Accept"] == "application/json"
    ensures "Authorization" in h <==> TruthyString(GetItem(storage, "token"))
    ensures "Authorization" in h ==>
      var tokenType := GetItem(storage, "tokenType");
      h["Authorization"] == (if TruthyString(tokenType) then tokenType.value else "Bearer")
                            + " " + storage["token"]
    ensures h.Keys <= {"Content-Type", "Accept", "Authorization"}
  {
    var base := map["Content-Type" := "application/json", "Accept" := "application/json"];
    var token := GetItem(storage, "token");
    if TruthyString(token) then
      var storedType := GetItem(storage, "tokenType");
      var tokenType := if TruthyString(storedType) then storedType.value else "Bearer";
      base["Authorization" := tokenType + " " + token.value]
    else base
  }

  /** `{...built, ...custom}`: a custom header overrides a built one of the same name. */
  function MergeHeaders(built: map<string, string>, custom: Option<map<string, string>>)
    : (h: map<string, string>)
    ensures custom.Some? ==> forall k :: k in custom.value ==> k in h && h[k] == custom.value[k]
    ensures forall k :: k in built && (custom.None? || k !in custom.value) ==> k in h && h[k] == built[k]
    ensures forall k :: k in h ==> k in built || (custom.Some? && k in custom.value)
  {
    match custom
    case None => built
    case Some(c) => built + c
  }

  /** What is handed to `fetch`: the method, the headers and the JSON body, if any. */
  datatype Config = Config(verb: string, headers: map<string, string>, body: Option<Json>)

  function BuildConfig(verb: string, data: Option<Json>, custom: Option<map<string, string>>,
                       storage: map<string, string>): (c: Config)
    ensures c.verb == verb
    ensures c.body.Some? <==> Truthy(data) && verb != "GET"
    ensures c.body.Some? ==> c.body == data
    ensures c.headers == MergeHeaders(BuildHeaders(storage), custom)
  {
    Config(verb, MergeHeaders(BuildHeaders(storage), custom),
           if Truthy(data) && verb != "GET" then data else None)
  }

  /** What `fetch` resolves to: the status, the `Content-Length` header and the body text. */
  datatype Response = Response(status: nat, contentLength: Option<string>, body: string)

  predicate Ok(status: nat)
  {
    200 <= status <= 299
  }

  function StatusError(status: nat): string
  {
    "Request failed with status " + NatToString(status)
  }

  /** The body of the `try` at httpClient.ts:87-104, after a successful parse: `None` means it threw
      (a `null` value has no properties), `Some(Failure)` is the error thrown for a non-OK status. */
  function ParsedBranch(status: nat, v: Json): Option<Result<Json, string>>
  {
    if v == JNull then None
    else if !Ok(status) then
      var message := Property(v, "message");
      Some(Failure(if Truthy(message) && message.value.JStr? then message.value.s
                   else StatusError(status)))
    else if Property(v, "success").Some? && Property(v, "data").Some? then
      Some(Success(Property(v, "data").value))
    else Some(Success(v))
  }

  /** Maps a response to the promise's outcome, following httpClient.ts:63-114 branch by branch. The
      `catch` at :105 also catches the error thrown at :94, so that error never escapes. */
  function Classify(resp: Response, parse: string -> Option<Json>): (r: Result<Json, string>)
    ensures r.Failure? <==> !Ok(resp.status) && resp.status != 204 && resp.contentLength != Some("0")
    ensures r.Failure? ==> r.error == StatusError(resp.status)
  {
    if resp.status == 204 then Success(JNull)
    else if resp.contentLength == Some("0") then Success(JNull)
    else if resp.body == "" || Trim(resp.body) == "" then
      if !Ok(resp.status) then Failure(StatusError(resp.status)) else Success(JNull)
    else
      var attempt: Option<Result<Json, string>> := match parse(resp.body)
        case None => None
        case Some(v) => ParsedBranch(resp.status, v);
      match attempt
      case Some(Success(v)) => Success(v)
      case _ =>
        if !Ok(resp.status) then Failure(StatusError(resp.status))
        else Success(JStr(resp.body))
  }

  /** The whole request: the configuration is built, `fetch` is called once, and its rejection
      (network or CORS error) is rethrown unchanged. */
  function Request(endpoint: string, verb: string, data: Option<Json>,
                   custom: Option<map<string, string>>, storage: map<string, string>,
                   fetch: (string, Config) -> Result<Response, string>,
                   parse: string -> Option<Json>): (r: Result<Json, string>)
    ensures fetch(Url(endpoint), BuildConfig(verb, data, custom, storage)).Failure? ==>
      r == Failure(fetch(Url(endpoint), BuildConfig(verb, data, custom, storage)).error)
    ensures fetch(Url(endpoint), BuildConfig(verb, data, custom, storage)).Success? ==>
      r == Classify(fetch(Url(endpoint), BuildConfig(verb, data, custom, storage)).value, parse)
  {
    match fetch(Url(endpoint), BuildConfig(verb, data, custom, storage))
    case Failure(e) => Failure(e)
    case Success(resp) => Classify(resp, parse)
  }

  function Get(endpoint: string, custom: Option<map<string, string>>, storage: map<string, string>,
               fetch: (string, Config) -> Result<Response, string>,
               parse: string -> Option<Json>): Result<Json, string>
  {
    Request(endpoint, "GET", None, custom, storage, fetch, parse)
  }

  function Post(endpoint: string, data: Option<Json>, custom: Option<map<string, string>>,
                storage: map<string, string>, fetch: (string, Config) -> Result<Response, string>,
                parse: string -> Option<Json>): Result<Json, string>
  {
    Request(endpoint, "POST", data, custom, storage, fetch, parse)
  }

  function Put(endpoint: string, data: Option<Json>, custom: Option<map<string, string>>,
               storage: map<string, string>, fetch: (string, Config) -> Result<Response, string>,
               parse: string -> Option<Json>): Result<Json, string>
  {
    Request(endpoint, "PUT", data, custom, storage, fetch, parse)
  }

  function Patch(endpoint: string, data: Option<Json>, custom: Option<map<string, string>>,
                 storage: map<string, string>, fetch: (string, Config) -> Result<Response, string>,
                 parse: string -> Option<Json>): Result<Json, string>
  {
    Request(endpoint, "PATCH", data, custom, storage, fetch, parse)
  }

  function Delete(endpoint: string, custom: Option<map<string, string>>, storage: map<string, string>,
                  fetch: (string, Config) -> Result<Response, string>,
                  parse: string -> Option<Json>): Result<Json, string>
  {
    Request(endpoint, "DELETE", None, custom, storage, fetch, parse)
  }

  /** `get` and `delete` never send a body; `post`, `put` and `patch` send `data` when it is truthy. */
  lemma ShorthandBodies(data: Option<Json>, custom: Option<map<string, string>>,
                        storage: map<string, string>)
    ensures BuildConfig("GET", None, custom, storage).body == None
    ensures BuildConfig("DELETE", None, custom, storage).body == None
    ensures BuildConfig("POST", data, custom, storage).body == (if Truthy(data) then data else None)
    ensures BuildConfig("PUT", data, custom, storage).body == (if Truthy(data) then data else None)
    ensures BuildConfig("PATCH", data, custom, storage).body == (if Truthy(data) then data else None)
  {
  }

  /** A 204 answer, or a `Content-Length` of "0", resolves to `null` whatever the status or body. */
  lemma NoContentIsNull(resp: Response, parse: string -> Option<Json>)
    requires resp.status == 204 || resp.contentLength == Some("0")
    ensures Classify(resp, parse) == Success(JNull)
  {
  }

  /** An empty or blank body resolves to `null` when the status is OK and fails otherwise. */
  lemma BlankBody(resp: Response, parse: string -> Option<Json>)
    requires resp.status != 204 && resp.contentLength != Some("0")
    requires forall i :: 0 <= i < |resp.body| ==> IsWhiteSpace(resp.body[i])
    ensures Ok(resp.status) ==> Classify(resp, parse) == Success(JNull)
    ensures !Ok(resp.status) ==> Classify(resp, parse) == Failure(StatusError(resp.status))
  {
    TrimAllWhiteSpace(resp.body);
  }

  /** A server's own error message is never surfaced: it is thrown inside the `try` and replaced
      by the generic status message in the `catch`. */
  lemma ServerMessageReplaced(resp: Response, parse: string -> Option<Json>, msg: string)
    requires !Ok(resp.status) && resp.status != 204 && resp.contentLength != Some("0")
    requires Trim(resp.body) != ""
    requires parse(resp.body) == Some(JObj(map["message" := JStr(msg)]))
    ensures Classify(resp, parse) == Failure(StatusError(resp.status))
  {
  }

  /** An OK body in the backend's envelope (`success` and `data` both present) yields `data`. */
  lemma EnvelopeUnwrapped(resp: Response, parse: string -> Option<Json>, fields: map<string, Json>)
    requires Ok(resp.status) && resp.status != 204 && resp.contentLength != Some("0")
    requires Trim(resp.body) != ""
    requires parse(resp.body) == Some(JObj(fields)) && "success" in fields && "data" in fields
    ensures Classify(resp, parse) == Success(fields["data"])
  {
  }

  /** An OK JSON body that is not an envelope is returned as parsed; `null` is the exception,
      since reading `null.success` throws and the raw text is returned instead. */
  lemma PlainJsonReturned(resp: Response, parse: string -> Option<Json>, v: Json)
    requires Ok(resp.status) && resp.status != 204 && resp.contentLength != Some("0")
    requires Trim(resp.body) != ""
    requires parse(resp.body) == Some(v)
    requires Property(v, "success").None? || Property(v, "data").None?
    ensures v != JNull ==> Classify(resp, parse) == Success(v)
    ensures v == JNull ==> Classify(resp, parse) == Success(JStr(resp.body))
  {
  }

  /** An OK body that does not parse is returned as its raw text. */
  lemma UnparsableBodyIsText(resp: Response, parse: string -> Option<Json>)
    requires Ok(resp.status) && resp.status != 204 && resp.contentLength != Some("0")
    requires Trim(resp.body) != ""
    requires parse(resp.body) == None
    ensures Classify(resp, parse) == Success(JStr(resp.body))
  {
  }
}
