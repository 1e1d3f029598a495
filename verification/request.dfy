/** The dashboard's request helper: option and header construction, the
    status check, the choice between reading text and JSON, the GraphQL
    error notifications and the routing of a failure to an error page. The
    network call is replaced by its result, passed in; pop-ups, the
    redirect and the clearing of the stored authority are returned. */
module Request {
  import opened Wrappers
  import opened Values
  import opened Notifications

  datatype GraphQLError = GraphQLError(message: string)

  /** A JSON response document: its `errors` list (absent or null is
      `None`) and its `data`. */
  datatype Json = Json(errors: Option<seq<GraphQLError>>, data: Value)

  /** A response body: its text, and the document it parses to (`None`
      when it is not JSON). */
  datatype Payload = Payload(text: string, json: Option<Json>)

  datatype Response = Response(status: int, statusText: string, url: string, payload: Payload)

  /** The `name` of a thrown error: the HTTP status the status check puts
      there, or an error class name such as 'TypeError'. */
  datatype ErrorName = StatusName(status: int) | ClassName(name: string)

  datatype HttpError = HttpError(name: ErrorName, message: string)

  /** The fixed texts for two statuses. */
  function CodeMessage(status: int): Option<string> {
    if status == 404 then Some("No resource")
    else if status == 500 then Some("Server error")
    else None
  }

  datatype Rejection = Rejection(error: HttpError, notice: Notification)

  /** `checkStatus`: a 2xx response passes through; any other raises an
      error named by its status, after an error pop-up. */
  function CheckStatus(r: Response): (out: Result<Response, Rejection>)
    ensures out.Success? <==> 200 <= r.status < 300
    ensures out.Success? ==> out.value == r
    ensures out.Failure? ==> out.error.error.name == StatusName(r.status)
    ensures out.Failure? && r.status == 404 ==> out.error.error.message == "No resource"
    ensures out.Failure? && r.status == 500 ==> out.error.error.message == "Server error"
    ensures out.Failure? && r.status != 404 && r.status != 500 ==> out.error.error.message == r.statusText
    ensures out.Failure? ==> out.error.notice == RequestError(r.status, r.url, out.error.error.message)
  {
    if 200 <= r.status < 300 then Success(r)
    else
      var text := CodeMessage(r.status).GetOr(r.statusText);
      Failure(Rejection(HttpError(StatusName(r.status), text), RequestError(r.status, r.url, text)))
  }

  /** The caller's options; `None` is an option the caller did not give. */
  datatype Options = Options(
    verb: Option<string>,
    credentials: Option<string>,
    headers: Option<map<string, string>>,
    body: Option<Value>)

  /** A request body as given, or after `JSON.stringify`. */
  datatype RequestBody = Raw(value: Value) | Encoded(value: Value)

  datatype FetchOptions = FetchOptions(
    verb: Option<string>,
    credentials: string,
    headers: Option<map<string, string>>,
    body: Option<RequestBody>)

  predicate SendsJson(verb: Option<string>) {
    verb == Some("POST") || verb == Some("PUT")
  }

  const DefaultHeaders: map<string, string> :=
    map["Accept" := "application/json", "Content-Type" := "application/json; charset=utf-8"]

  /** The options passed to `fetch`. `authToken` is the current login
      user's token. */
  function Prepare(opts: Options, authToken: string): (r: FetchOptions)
    ensures r.verb == opts.verb
    ensures r.credentials == opts.credentials.GetOr("include")
    ensures !SendsJson(opts.verb) ==> r.headers == opts.headers
    ensures !SendsJson(opts.verb) ==> r.body == (if opts.body.Some? then Some(Raw(opts.body.value)) else None)
    ensures SendsJson(opts.verb) ==> r.body == Some(Encoded(opts.body.GetOr(Undefined)))
    ensures SendsJson(opts.verb) ==> r.headers.Some? && "auth-token" in r.headers.value && r.headers.value["auth-token"] == authToken
    ensures SendsJson(opts.verb) ==> forall k :: k in opts.headers.GetOr(map[]) && k != "auth-token" ==>
      k in r.headers.value && r.headers.value[k] == opts.headers.value[k]
    ensures SendsJson(opts.verb) ==> forall k :: k in DefaultHeaders && k !in opts.headers.GetOr(map[]) ==>
      k in r.headers.value && r.headers.value[k] == DefaultHeaders[k]
    ensures SendsJson(opts.verb) ==>
      r.headers.value.Keys == DefaultHeaders.Keys + opts.headers.GetOr(map[]).Keys + {"auth-token"}
  {
    var credentials := opts.credentials.GetOr("include");
    if SendsJson(opts.verb) then
      var headers := DefaultHeaders + opts.headers.GetOr(map[]) + map["auth-token" := authToken];
      FetchOptions(opts.verb, credentials, Some(headers), Some(Encoded(opts.body.GetOr(Undefined))))
    else
      FetchOptions(opts.verb, credentials, opts.headers, if opts.body.Some? then Some(Raw(opts.body.value)) else None)
  }

  datatype BodyKind = AsText | AsJson

  /** How the body of an accepted response is read. */
  function BodyKindFor(verb: Option<string>, status: int): (k: BodyKind)
    ensures k == AsText <==> verb == Some("DELETE") || status == 204
  {
    if verb == Some("DELETE") || status == 204 then AsText else AsJson
  }

  /** One error pop-up per GraphQL error, in order. */
  function ErrorNotices(errors: seq<GraphQLError>): (ns: seq<Notification>)
    ensures |ns| == |errors|
    ensures forall i :: 0 <= i < |errors| ==> ns[i] == Toast(ErrorKind, errors[i].message)
  {
    seq(|errors|, i requires 0 <= i < |errors| => Toast(ErrorKind, errors[i].message))
  }

  datatype Redirect = NoRedirect | ErrorPage(code: int)

  /** The catch branch's reaction: where to send the browser and whether
      the stored authority is cleared first. */
  datatype Recovery = Recovery(redirect: Redirect, clearsAuthority: bool)

  /** The catch branch: 403 and 401 have their own pages, 500 to 504 go to
      the 500 page, 404 to 421 to the 404 page, anything else (other
      statuses, errors not named by a status) stays put. */
  function Route(name: ErrorName): (r: Recovery)
    ensures r.clearsAuthority <==> name == StatusName(401)
    ensures r.redirect == ErrorPage(401) <==> name == StatusName(401)
    ensures r.redirect == ErrorPage(403) <==> name == StatusName(403)
    ensures r.redirect == ErrorPage(500) <==> name.StatusName? && 500 <= name.status <= 504
    ensures r.redirect == ErrorPage(404) <==> name.StatusName? && 404 <= name.status < 422
    ensures r.redirect.NoRedirect? <==> name.ClassName? || !RoutedStatus(name.status)
  {
    match name
    case ClassName(_) => Recovery(NoRedirect, false)
    case StatusName(s) =>
      if s == 403 then Recovery(ErrorPage(403), false)
      else if 500 <= s <= 504 then Recovery(ErrorPage(500), false)
      else if 404 <= s < 422 then Recovery(ErrorPage(404), false)
      else if s == 401 then Recovery(ErrorPage(401), true)
      else Recovery(NoRedirect, false)
  }

  /** The statuses that lead to an error page. */
  predicate RoutedStatus(s: int) {
    s == 401 || s == 403 || 404 <= s < 422 || 500 <= s <= 504
  }

  /** What `fetch` produced: a failure to reach the server or a response. */
  datatype Fetched = NetworkFailure | Received(response: Response)

  datatype Resolved = TextResult(text: string) | JsonResult(json: Json)

  /** The settled outcome of a request: the pop-ups shown, the value the
      promise resolves to (`None` for undefined), and the recovery taken. */
  datatype Outcome = Outcome(notices: seq<Notification>, result: Option<Resolved>, recovery: Recovery)

  const Stay := Recovery(NoRedirect, false)

  /** The whole promise chain of `request` for a given fetch result. A
      request resolves to a value exactly when a 2xx response was read;
      every failure is swallowed and resolves to undefined, and only an
      HTTP status outside 2xx can lead to an error page. */
  function Request(opts: Options, authToken: string, fetched: Fetched): (o: Outcome)
    ensures o.result.Some? <==>
      && fetched.Received?
      && 200 <= fetched.response.status < 300
      && (BodyKindFor(opts.verb, fetched.response.status) == AsJson ==> fetched.response.payload.json.Some?)
    ensures o.result.Some? ==> o.recovery == Stay
    ensures o.recovery.redirect.ErrorPage? ==>
      && fetched.Received?
      && !(200 <= fetched.response.status < 300)
      && RoutedStatus(fetched.response.status)
      && o.recovery == Route(StatusName(fetched.response.status))
    ensures o.recovery.clearsAuthority ==> fetched.Received? && fetched.response.status == 401
    ensures fetched.Received? && !(200 <= fetched.response.status < 300) ==>
      o.notices == [RequestError(fetched.response.status, fetched.response.url,
                                 CodeMessage(fetched.response.status).GetOr(fetched.response.statusText))]
    ensures fetched.Received? && !(200 <= fetched.response.status < 300) ==>
      o.result.None? && o.recovery == Route(StatusName(fetched.response.status))
    ensures fetched.NetworkFailure? ==> o.notices == [] && o.result.None? && o.recovery == Stay
    ensures fetched.Received? && 200 <= fetched.response.status < 300 && o.result.None? ==>
      o.notices == [] && o.recovery == Stay
    ensures o.result.Some? && o.result.value.TextResult? ==> o.notices == [] && o.result.value.text == fetched.response.payload.text
    ensures o.result.Some? && o.result.value.JsonResult? ==>
      && fetched.response.payload.json == Some(o.result.value.json)
      && o.notices == ErrorNotices(o.result.value.json.errors.GetOr([]))
  {
    var sent := Prepare(opts, authToken);
    match fetched
    case NetworkFailure => Outcome([], None, Route(ClassName("TypeError")))
    case Received(resp) =>
      match CheckStatus(resp)
      case Failure(rej) => Outcome([rej.notice], None, Route(rej.error.name))
      case Success(_) =>
        if BodyKindFor(sent.verb, resp.status) == AsText then
          Outcome([], Some(TextResult(resp.payload.text)), Stay)
        else
          match resp.payload.json
          case None => Outcome([], None, Route(ClassName("SyntaxError")))
          case Some(j) =>
            var notices := if j.errors.Some? then ErrorNotices(j.errors.value) else [];
            Outcome(notices, Some(JsonResult(j)), Stay)
  }

  /** A 2xx JSON response is returned unchanged, with exactly one pop-up
      per GraphQL error, each carrying that error's message. */
  lemma ErrorsBecomeNotices(opts: Options, authToken: string, resp: Response, errs: seq<GraphQLError>, data: Value)
    requires 200 <= resp.status < 300
    requires BodyKindFor(opts.verb, resp.status) == AsJson
    requires resp.payload.json == Some(Json(Some(errs), data))
    ensures var o := Request(opts, authToken, Received(resp));
      && o.result == Some(JsonResult(Json(Some(errs), data)))
      && |o.notices| == |errs|
      && forall i :: 0 <= i < |errs| ==> o.notices[i] == Toast(ErrorKind, errs[i].message)
  {
  }

  /** A failure that carries no status, whether the server was unreachable
      or the body was not JSON, leaves the page where it is. */
  lemma UnnamedFailuresStay(opts: Options, authToken: string, fetched: Fetched)
    requires fetched.NetworkFailure? || (fetched.Received? && 200 <= fetched.response.status < 300)
    ensures Request(opts, authToken, fetched).recovery == Stay
  {
  }

  /** Whatever `auth-token` header the caller passes, a POST or PUT is
      prepared as if it had passed none: the login user's token wins. */
  lemma CallerCannotForgeToken(opts: Options, authToken: string, forged: string)
    requires SendsJson(opts.verb)
    ensures var h := opts.headers.GetOr(map[])["auth-token" := forged];
      Prepare(opts.(headers := Some(h)), authToken) == Prepare(opts, authToken)
  {
    var caller := opts.headers.GetOr(map[]);
    var a := DefaultHeaders + caller["auth-token" := forged] + map["auth-token" := authToken];
    var b := DefaultHeaders + caller + map["auth-token" := authToken];
    assert a.Keys == b.Keys;
    assert forall k | k in a :: a[k] == b[k];
    assert a == b;
  }

  /** The token reaches the options exactly for the verbs that send JSON:
      two tokens give the same options if and only if the verb is another
      one or the tokens agree. */
  lemma TokenOnlyForJsonVerbs(opts: Options, t1: string, t2: string)
    ensures Prepare(opts, t1) == Prepare(opts, t2) <==> !SendsJson(opts.verb) || t1 == t2
  {
    if SendsJson(opts.verb) && t1 != t2 {
      assert Prepare(opts, t1).headers.value["auth-token"] != Prepare(opts, t2).headers.value["auth-token"];
    }
  }

  /** A body read as text is never parsed: for a DELETE or a 204 answer the
      outcome does not depend on whether the text happens to be JSON. */
  lemma TextBodiesAreNotParsed(opts: Options, authToken: string, resp: Response, j: Option<Json>)
    requires 200 <= resp.status < 300
    requires opts.verb == Some("DELETE") || resp.status == 204
    ensures var o := Request(opts, authToken, Received(resp));
      && o == Request(opts, authToken, Received(resp.(payload := resp.payload.(json := j))))
      && o == Outcome([], Some(TextResult(resp.payload.text)), Stay)
  {
    assert BodyKindFor(opts.verb, resp.status) == AsText;
  }

  /** Any other 2xx answer resolves exactly when its body parses. */
  lemma JsonBodiesMustParse(opts: Options, authToken: string, resp: Response)
    requires 200 <= resp.status < 300
    requires opts.verb != Some("DELETE") && resp.status != 204
    ensures Request(opts, authToken, Received(resp)).result.Some? <==> resp.payload.json.Some?
  {
    assert BodyKindFor(opts.verb, resp.status) == AsJson;
  }
}
