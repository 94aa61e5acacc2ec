/**
  The request executor, `make_request` in main.py: it authenticates the
  caller's query parameters, chooses the HTTP verb from the method name,
  issues one request and turns the response into the value the tool returns.

  The network is the parameter `send`: it maps the request that is issued to
  the response that comes back. The configuration read from the environment
  at start-up is the parameter `cfg`.
 */
module Executor {

  import opened Wrappers
  import opened Json
  import opened Casing

  /** FAKTUROWNIA_API_TOKEN and FAKTUROWNIA_DOMAIN; either may be unset. */
  datatype Config = Config(apiToken: Option<string>, domain: Option<string>)

  /** How an f-string renders a Python `Optional[str]`: an unset value prints as "None". */
  function Rendered(o: Option<string>): string
  {
    match o
    case None => "None"
    case Some(s) => s
  }

  /** BASE_URL: the account's subdomain of fakturownia.pl, over HTTPS. */
  function BaseUrl(cfg: Config): string
  {
    "https://" + Rendered(cfg.domain) + ".fakturownia.pl"
  }

  /** The value sent under `api_token`: an unset token is sent as `None`. */
  function TokenValue(cfg: Config): Json
  {
    OptStr(cfg.apiToken)
  }

  datatype Verb = Get | Post | Put | Patch | Delete

  function VerbName(v: Verb): string
  {
    match v
    case Get => "GET"
    case Post => "POST"
    case Put => "PUT"
    case Patch => "PATCH"
    case Delete => "DELETE"
  }

  const VerbNames: set<string> := {"GET", "POST", "PUT", "PATCH", "DELETE"}

  /** The verbs whose httpx call is given the caller's JSON body. */
  predicate SendsBody(v: Verb)
  {
    v == Post || v == Put || v == Patch
  }

  /** The exceptions that escape a tool call. */
  datatype Exception =
    | UnsupportedMethod(message: string)  // the ValueError raised for an unknown method name
    | InvalidJson                         // response.json() on a success body that is not JSON

  /** One HTTP request as handed to the client. */
  datatype Request = Request(verb: Verb, url: string, query: map<string, Json>, body: Option<Json>)

  /** What the client reports about a response: its status, its raw text and its text decoded as JSON, if it decodes. */
  datatype Response = Response(status: int, text: string, parsed: Option<Json>)

  /** A tool call either returns a JSON value or raises. */
  datatype Outcome = Returned(value: Json) | Raised(error: Exception)

  /** The caller's query parameters, with "no parameters" read as the empty map. */
  function CallerParams(params: Option<map<string, Json>>): map<string, Json>
  {
    if params.Some? then params.value else map[]
  }

  /**
    The query actually sent: a copy of the caller's parameters with `api_token`
    set to the configured token, whatever the caller put under that key.
   */
  function AuthQuery(cfg: Config, params: Option<map<string, Json>>): (q: map<string, Json>)
    ensures q.Keys == CallerParams(params).Keys + {"api_token"}
    ensures q["api_token"] == TokenValue(cfg)
    ensures forall k :: k in CallerParams(params) && k != "api_token" ==> q[k] == CallerParams(params)[k]
  {
    var copy := if params.Some? && |params.value| > 0 then params.value else map[];
    copy["api_token" := TokenValue(cfg)]
  }

  /** The verb chosen for a method name, compared after upper-casing; any other name is refused. */
  function Dispatch(name: string): (r: Result<Verb, Exception>)
    ensures r.Success? <==> Upper(name) in VerbNames
    ensures r.Success? ==> VerbName(r.value) == Upper(name)
    ensures r.Failure? ==> r.error == UnsupportedMethod("Unsupported method: " + name)
  {
    var u := Upper(name);
    if u == "GET" then Success(Get)
    else if u == "POST" then Success(Post)
    else if u == "PUT" then Success(Put)
    else if u == "PATCH" then Success(Patch)
    else if u == "DELETE" then Success(Delete)
    else Failure(UnsupportedMethod("Unsupported method: " + name))
  }

  /**
    The request that `make_request` issues, or the exception it raises before
    issuing any request.
   */
  function Prepare(cfg: Config, name: string, endpoint: string,
                   params: Option<map<string, Json>>, json: Option<Json>): (r: Result<Request, Exception>)
    ensures r.Failure? <==> Upper(name) !in VerbNames
    ensures r.Failure? ==> r.error == UnsupportedMethod("Unsupported method: " + name)
    ensures r.Success? ==> VerbName(r.value.verb) == Upper(name)
    ensures r.Success? ==> r.value.url == BaseUrl(cfg) + endpoint
    ensures r.Success? ==> r.value.query == AuthQuery(cfg, params)
    ensures r.Success? ==> r.value.query["api_token"] == TokenValue(cfg)
    ensures r.Success? && !SendsBody(r.value.verb) ==> r.value.body == None
    ensures r.Success? && SendsBody(r.value.verb) ==> r.value.body == json
  {
    match Dispatch(name)
    case Failure(e) => Failure(e)
    case Success(v) =>
      Success(Request(v, BaseUrl(cfg) + endpoint, AuthQuery(cfg, params), if SendsBody(v) then json else None))
  }

  /** httpx's `is_error`: a client error (4xx) or a server error (5xx). */
  predicate IsError(status: int)
  {
    400 <= status <= 599
  }

  /**
    The details of an error response: the body's `message` value when the body
    is a JSON object that has one, otherwise the raw text. Decoding or looking
    up the key never fails outward: every other body falls back to the text.
   */
  function ErrorDetails(resp: Response): (d: Json)
    ensures (resp.parsed.Some? && resp.parsed.value.JObject? && "message" in resp.parsed.value.fields)
            ==> d == resp.parsed.value.fields["message"]
    ensures !(resp.parsed.Some? && resp.parsed.value.JObject? && "message" in resp.parsed.value.fields)
            ==> d == JStr(resp.text)
  {
    match resp.parsed
    case Some(JObject(fields)) => if "message" in fields then fields["message"] else JStr(resp.text)
    case _ => JStr(resp.text)
  }

  function ErrorRecord(code: int, details: Json): Json
  {
    JObject(map["status" := JStr("error"), "code" := JInt(code), "details" := details])
  }

  /** The fixed value returned for 204 No Content. */
  const NoContent: Json := JObject(map["status" := JStr("success"), "message" := JStr("No content")])

  /**
    What a tool returns for a response: the error record for 4xx/5xx, the
    no-content marker for 204, otherwise the decoded body unchanged.
   */
  function Normalise(resp: Response): (r: Outcome)
    ensures IsError(resp.status) ==> r == Returned(ErrorRecord(resp.status, ErrorDetails(resp)))
    ensures !IsError(resp.status) && resp.status == 204 ==> r == Returned(NoContent)
    ensures r.Raised? <==> !IsError(resp.status) && resp.status != 204 && resp.parsed.None?
    ensures r.Raised? ==> r.error == InvalidJson
    ensures !IsError(resp.status) && resp.status != 204 && resp.parsed.Some? ==> r == Returned(resp.parsed.value)
  {
    if IsError(resp.status) then Returned(ErrorRecord(resp.status, ErrorDetails(resp)))
    else if resp.status == 204 then Returned(NoContent)
    else match resp.parsed
      case Some(j) => Returned(j)
      case None => Raised(InvalidJson)
  }

  /**
    `make_request`: copy the parameters and add the token, pick the client
    call for the verb, issue it once, and normalise the response. `sent` is the
    request issued, `None` when the method was refused before any request.
   */
  method MakeRequest(cfg: Config, name: string, endpoint: string,
                     params: Option<map<string, Json>>, json: Option<Json>,
                     send: Request -> Response)
    returns (sent: Option<Request>, outcome: Outcome)
    ensures sent.None? <==> Prepare(cfg, name, endpoint, params, json).Failure?
    ensures sent.None? ==> outcome == Raised(Prepare(cfg, name, endpoint, params, json).error)
    ensures sent.Some? ==> sent.value == Prepare(cfg, name, endpoint, params, json).value
    ensures sent.Some? ==> outcome == Normalise(send(sent.value))
  {
    var actualParams: map<string, Json> := if params.Some? && |params.value| > 0 then params.value else map[];
    actualParams := actualParams["api_token" := TokenValue(cfg)];

    var url := BaseUrl(cfg) + endpoint;

    var verb := Upper(name);
    var request: Request;
    if verb == "GET" {
      request := Request(Get, url, actualParams, None);
    } else if verb == "POST" {
      request := Request(Post, url, actualParams, json);
    } else if verb == "PUT" {
      request := Request(Put, url, actualParams, json);
    } else if verb == "PATCH" {
      request := Request(Patch, url, actualParams, json);
    } else if verb == "DELETE" {
      request := Request(Delete, url, actualParams, None);
    } else {
      return None, Raised(UnsupportedMethod("Unsupported method: " + name));
    }
    PrepareAccepted(cfg, name, endpoint, params, json, request.verb);
    sent := Some(request);
    var response := send(request);

    if IsError(response.status) {
      var errorData := JStr(response.text);
      // a body that is not a JSON object makes the membership test or the lookup raise, which is swallowed
      if response.parsed.Some? && response.parsed.value.JObject? && "message" in response.parsed.value.fields {
        errorData := response.parsed.value.fields["message"];
      }
      return sent, Returned(ErrorRecord(response.status, errorData));
    }

    if response.status == 204 {
      return sent, Returned(NoContent);
    }
    match response.parsed {
      case Some(j) => outcome := Returned(j);
      case None => outcome := Raised(InvalidJson);
    }
  }

  /** Once the verb is known, the request is determined by the configuration and the caller's arguments. */
  lemma PrepareAccepted(cfg: Config, name: string, endpoint: string,
                        params: Option<map<string, Json>>, json: Option<Json>, v: Verb)
    requires VerbName(v) == Upper(name)
    ensures Prepare(cfg, name, endpoint, params, json)
            == Success(Request(v, BaseUrl(cfg) + endpoint, AuthQuery(cfg, params), if SendsBody(v) then json else None))
  {
  }

  /** The method name is matched case-insensitively: upper-casing it first changes nothing. */
  lemma DispatchIgnoresCase(name: string)
    ensures Dispatch(Upper(name)).Success? == Dispatch(name).Success?
    ensures Dispatch(name).Success? ==> Dispatch(Upper(name)).value == Dispatch(name).value
  {
    UpperIdempotent(name);
  }

  /** The canonical name of each verb selects that verb. */
  lemma DispatchVerbName(v: Verb)
    ensures Dispatch(VerbName(v)) == Success(v)
  {
  }
}
