/**
 The Trustpilot route, `GET /api/trustpilot-reviews`: a configuration
 gate, one call to the business-unit reviews endpoint with the key in an
 `ApiKey` header, and a one-for-one projection of `data.reviews`. The
 upstream status is not inspected.
 */
module TrustpilotReviews {
  import opened Wrappers
  import opened Js
  import opened Http

  /** `TRUSTPILOT_API_KEY` and `TRUSTPILOT_BUSINESS_ID` from the environment. */
  datatype Config = Config(apiKey: Option<string>, businessId: Option<string>)

  const NotConfigured := "Trustpilot API not configured"
  const FetchFailed := "Failed to fetch Trustpilot reviews"

  predicate Configured(cfg: Config) {
    Present(cfg.apiKey) && Present(cfg.businessId)
  }

  function ReviewsUrl(businessId: string): string {
    "https://api.trustpilot.com/v1/business-units/" + businessId + "/reviews"
  }

  /** The configuration gate. The credential travels only in the `ApiKey`
      header; the URL is built from the business id alone. */
  function Begin(cfg: Config): (step: Step)
    ensures step.Respond? <==> !Configured(cfg)
    ensures step.Respond? ==> step.response == ErrorResponse(500, NotConfigured)
    ensures step.Call? ==> step.request.url == ReviewsUrl(cfg.businessId.value)
    ensures step.Call? ==> step.request.headers == map["ApiKey" := cfg.apiKey.value]
  {
    if !Configured(cfg) then Respond(ErrorResponse(500, NotConfigured))
    else Call(Request(ReviewsUrl(cfg.businessId.value), map["ApiKey" := cfg.apiKey.value]))
  }

  /** The `map` callback. `review.consumer.displayName` throws when the
      review has no consumer, and so does reading any field of a null
      review. */
  function MapReview(review: Value, formatDate: Value -> string): (c: Completion<Value>)
    ensures c.Normal? <==> !Nullish(review) && !Nullish(Get(review, "consumer"))
    ensures c.Normal? ==> (c.value.Obj? &&
      c.value.props.Keys == {"id", "author_name", "rating", "text", "time_description", "platform", "source_url"})
    ensures c.Normal? ==> (Get(c.value, "id") == Get(review, "id") &&
      Get(c.value, "author_name") == Get(Get(review, "consumer"), "displayName") &&
      Get(c.value, "rating") == Get(review, "stars") &&
      Get(c.value, "text") == Get(review, "text") &&
      Get(c.value, "time_description") == Str(formatDate(Get(review, "createdAt"))) &&
      Get(c.value, "platform") == Str("trustpilot") &&
      Get(c.value, "source_url") == Get(review, "url"))
  {
    var id :- Prop(review, "id");
    // `review` is not nullish from here on, so only `.displayName` can throw
    var author :- Prop(Get(review, "consumer"), "displayName");
    Normal(Obj(map[
      "id" := id,
      "author_name" := author,
      "rating" := Get(review, "stars"),
      "text" := Get(review, "text"),
      "time_description" := Str(formatDate(Get(review, "createdAt"))),
      "platform" := Str("trustpilot"),
      "source_url" := Get(review, "url")]))
  }

  /** The elements of `data.reviews`, when it is an array. */
  function Entries(data: Value): seq<Value> {
    var list := Get(data, "reviews");
    if list.Arr? then list.items else []
  }

  /** The body is usable: not null, and `reviews` is absent or an array
      whose every element has a consumer. */
  predicate Accepted(data: Value) {
    var list := Get(data, "reviews");
    && !Nullish(data)
    && (Nullish(list) || (list.Arr? && forall i :: 0 <= i < |list.items| ==>
          !Nullish(list.items[i]) && !Nullish(Get(list.items[i], "consumer"))))
  }

  /** The `try` block once the body is parsed. There is no error check:
      only a null body, a non-array `reviews` or an element without a
      consumer throws. */
  function Transform(data: Value, formatDate: Value -> string): (c: Completion<seq<Value>>)
    ensures c.Normal? <==> Accepted(data)
    ensures c.Normal? ==> |c.value| == |Entries(data)|
    ensures c.Normal? ==> forall i :: 0 <= i < |Entries(data)| ==>
      c.value[i] == MapReview(Entries(data)[i], formatDate).value
    ensures Nullish(data) ==> c == Throw(ReadErrorMessage(data, "reviews"))
  {
    var list :- Prop(data, "reviews");
    if Nullish(list) then Normal([])
    else if list.Arr? then MapArray(list.items, review => MapReview(review, formatDate))
    else Throw("data.reviews?.map is not a function")
  }

  /** From the upstream outcome to the handler's response: 200 with every
      review mapped in order, or the fixed 500 error, never a partial list. */
  function Finish(upstream: Completion<Value>, formatDate: Value -> string): (r: Response)
    ensures r.status == 200 || r == ErrorResponse(500, FetchFailed)
    ensures r.status == 200 <==> upstream.Normal? && Accepted(upstream.value)
    ensures r.status == 200 ==> r == ListResponse("reviews", ListIn(r, "reviews"))
    ensures r.status == 200 ==> |ListIn(r, "reviews")| == |Entries(upstream.value)|
    ensures r.status == 200 ==> forall i :: 0 <= i < |Entries(upstream.value)| ==>
      ListIn(r, "reviews")[i] == MapReview(Entries(upstream.value)[i], formatDate).value
  {
    FinishList(upstream, "reviews", data => Transform(data, formatDate), FetchFailed)
  }

  /** `GET()`: the gate, then at most one upstream call. */
  function HandleGet(cfg: Config, fetch: Request -> Completion<Value>, formatDate: Value -> string): (r: Response)
    ensures !Configured(cfg) ==> r == ErrorResponse(500, NotConfigured)
    ensures Configured(cfg) ==> r == Finish(fetch(Begin(cfg).request), formatDate)
  {
    Handle(Begin(cfg), fetch, upstream => Finish(upstream, formatDate))
  }

  lemma UnconfiguredMakesNoCall(cfg: Config, fetch1: Request -> Completion<Value>,
                                fetch2: Request -> Completion<Value>, formatDate: Value -> string)
    requires !Configured(cfg)
    ensures HandleGet(cfg, fetch1, formatDate) == HandleGet(cfg, fetch2, formatDate)
    ensures HandleGet(cfg, fetch1, formatDate).status == 500
  {
  }

  /** One review without a consumer fails the whole call, whatever the
      other reviews hold. */
  lemma MissingConsumerFailsWholeCall(data: Value, k: nat, formatDate: Value -> string)
    requires k < |Entries(data)|
    requires Nullish(Get(Entries(data)[k], "consumer"))
    ensures Finish(Normal(data), formatDate) == ErrorResponse(500, FetchFailed)
  {
  }

  /** A body without `reviews` gives an empty list with status 200: the
      upstream status is never consulted. */
  lemma AbsentListGivesEmptyReviews(data: Value, formatDate: Value -> string)
    requires !Nullish(data) && Nullish(Get(data, "reviews"))
    ensures Finish(Normal(data), formatDate) == ListResponse("reviews", [])
  {
  }
}
