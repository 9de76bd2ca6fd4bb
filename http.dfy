/**
 Requests a route handler sends upstream and the responses it returns.
 A handler first checks its configuration and either answers at once or
 issues exactly one upstream call; what comes back is the parsed JSON
 body, or the exception that `fetch` or `response.json()` raised.
 */
module Http {
  import opened Js

  /** An outgoing GET request. */
  datatype Request = Request(url: string, headers: map<string, string>)

  /** What `NextResponse.json(body, { status })` produces. */
  datatype Response = Response(status: int, body: Value)

  /** The first decision of a handler: answer without calling upstream,
      or call upstream with this request. */
  datatype Step = Respond(response: Response) | Call(request: Request)

  /** `NextResponse.json({ error: message }, { status })` */
  function ErrorResponse(status: int, message: string): Response {
    Response(status, Obj(map["error" := Str(message)]))
  }

  /** `NextResponse.json({ key: items })` with the default status 200. */
  function ListResponse(key: string, items: seq<Value>): Response {
    Response(200, Obj(map[key := Arr(items)]))
  }

  /** The list a 200 response carries under `key`, or [] when there is none. */
  function ListIn(r: Response, key: string): seq<Value> {
    var v := Get(r.body, key);
    if v.Arr? then v.items else []
  }

  /** Runs a handler: the upstream call happens only when the first step
      asks for it, and `finish` sees only what that call produced. */
  function Handle(step: Step, fetch: Request -> Completion<Value>, finish: Completion<Value> -> Response): (r: Response)
    ensures step.Respond? ==> r == step.response
    ensures step.Call? ==> r == finish(fetch(step.request))
  {
    match step
    case Respond(response) => response
    case Call(request) => finish(fetch(request))
  }

  /** A handler that answers at once makes no upstream call: its response
      is the same whatever `fetch` would have returned. */
  lemma AnswerWithoutCallIgnoresFetch(step: Step, fetch1: Request -> Completion<Value>,
                                      fetch2: Request -> Completion<Value>, finish: Completion<Value> -> Response)
    requires step.Respond?
    ensures Handle(step, fetch1, finish) == Handle(step, fetch2, finish) == step.response
  {
  }

  /** The common shape of the list routes after the upstream call: the
      `try` block runs `transform` on the parsed body and answers
      `{ key: items }`; an exception anywhere, in `fetch`, in
      `response.json()` or in `transform`, lands in the `catch`, which
      answers the one fixed 500 error. A partial list is never returned. */
  function FinishList(upstream: Completion<Value>, key: string, transform: Value -> Completion<seq<Value>>,
                      failure: string): (r: Response)
    ensures r.status == 200 || r == ErrorResponse(500, failure)
    ensures r.status == 200 <==> upstream.Normal? && transform(upstream.value).Normal?
    ensures r.status == 200 ==> r == ListResponse(key, transform(upstream.value).value)
    ensures r.status == 200 ==> ListIn(r, key) == transform(upstream.value).value
  {
    match upstream
    case Throw(_) => ErrorResponse(500, failure)
    case Normal(data) =>
      match transform(data)
      case Throw(_) => ErrorResponse(500, failure)
      case Normal(items) => ListResponse(key, items)
  }
}
