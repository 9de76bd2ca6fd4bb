/**
 The Facebook ratings route, `GET /api/facebook-reviews`: a configuration
 gate, one call to the Graph API ratings edge of the configured page,
 a check of the `error` field of the answer, and a one-for-one mapping of
 `data.data` into review records with defaults.
 */
module FacebookReviews {
  import opened Wrappers
  import opened Js
  import opened Http

  /** `FACEBOOK_ACCESS_TOKEN` and `FACEBOOK_PAGE_ID` from the environment. */
  datatype Config = Config(accessToken: Option<string>, pageId: Option<string>)

  const NotConfigured := "Facebook API not configured"
  const FetchFailed := "Failed to fetch Facebook reviews"
  const DefaultAuthor := "Facebook User"
  /** Every mapped review links to the business page, not to the review. */
  const PageUrl := "https://www.facebook.com/profile.php?id=100090352021248"

  predicate Configured(cfg: Config) {
    Present(cfg.accessToken) && Present(cfg.pageId)
  }

  function RatingsUrl(pageId: string, accessToken: string): string {
    "https://graph.facebook.com/v18.0/" + pageId + "/ratings?access_token=" + accessToken
      + "&fields=reviewer,rating,review_text,created_time"
  }

  /** The configuration gate: without both credentials the handler answers
      500 and makes no upstream call. */
  function Begin(cfg: Config): (step: Step)
    ensures step.Respond? <==> !Configured(cfg)
    ensures step.Respond? ==> step.response == ErrorResponse(500, NotConfigured)
    ensures step.Call? ==> step.request == Request(RatingsUrl(cfg.pageId.value, cfg.accessToken.value), map[])
  {
    if !Configured(cfg) then Respond(ErrorResponse(500, NotConfigured))
    else Call(Request(RatingsUrl(cfg.pageId.value, cfg.accessToken.value), map[]))
  }

  /** The `map` callback: one Graph API rating to one review record. It
      throws only when the element itself is null. */
  function MapReview(review: Value, formatDate: Value -> string): (c: Completion<Value>)
    ensures c.Normal? <==> !Nullish(review)
    ensures c.Normal? ==> (c.value.Obj? &&
      c.value.props.Keys == {"id", "author_name", "rating", "text", "time_description", "platform", "source_url"})
    ensures c.Normal? ==> (Get(c.value, "id") == Get(review, "id") &&
      Get(c.value, "rating") == Get(review, "rating") &&
      Get(c.value, "time_description") == Str(formatDate(Get(review, "created_time"))))
    ensures c.Normal? ==>
      var name := Get(Get(review, "reviewer"), "name");
      Get(c.value, "author_name") == if Truthy(name) then name else Str(DefaultAuthor)
    ensures c.Normal? ==>
      var text := Get(review, "review_text");
      Get(c.value, "text") == if Truthy(text) then text else Str("")
    ensures c.Normal? ==> Get(c.value, "platform") == Str("facebook") && Get(c.value, "source_url") == Str(PageUrl)
  {
    // `review.id` is read first; once it has not thrown, the later reads
    // of `review` cannot throw either
    var id :- Prop(review, "id");
    Normal(Obj(map[
      "id" := id,
      "author_name" := Or(Get(Get(review, "reviewer"), "name"), Str(DefaultAuthor)),
      "rating" := Get(review, "rating"),
      "text" := Or(Get(review, "review_text"), Str("")),
      "time_description" := Str(formatDate(Get(review, "created_time"))),
      "platform" := Str("facebook"),
      "source_url" := Str(PageUrl)]))
  }

  /** The elements of `data.data`, when it is an array. */
  function Entries(data: Value): seq<Value> {
    var list := Get(data, "data");
    if list.Arr? then list.items else []
  }

  /** The body is usable: it is not null, reports no error, and `data.data`
      is absent or an array without null elements. */
  predicate Accepted(data: Value) {
    var list := Get(data, "data");
    && !Nullish(data)
    && !Truthy(Get(data, "error"))
    && (Nullish(list) || (list.Arr? && forall i :: 0 <= i < |list.items| ==> !Nullish(list.items[i])))
  }

  /** The `try` block once the body is parsed: the mapped reviews, or the
      exception that sends the handler to its `catch`. A truthy `error`
      throws with its `message`; so does a non-array `data.data`, and a null
      element in it. */
  function Transform(data: Value, formatDate: Value -> string): (c: Completion<seq<Value>>)
    ensures c.Normal? <==> Accepted(data)
    ensures c.Normal? ==> |c.value| == |Entries(data)|
    ensures c.Normal? ==> forall i :: 0 <= i < |Entries(data)| ==>
      c.value[i] == MapReview(Entries(data)[i], formatDate).value
    ensures Nullish(data) ==> c == Throw(ReadErrorMessage(data, "error"))
    ensures !Nullish(data) && Truthy(Get(data, "error")) ==>
      c == Throw(ErrorMessage(Get(Get(data, "error"), "message")))
  {
    var error :- Prop(data, "error");
    if Truthy(error) then
      Throw(ErrorMessage(Get(error, "message")))
    else
      var list := Get(data, "data");
      if Nullish(list) then Normal([])
      else if list.Arr? then MapArray(list.items, review => MapReview(review, formatDate))
      else Throw("data.data?.map is not a function")
  }

  /** From the upstream outcome to the handler's response. The answer is
      either 200 with every review mapped, in order, or the one fixed 500
      error; a partial list is never returned. */
  function Finish(upstream: Completion<Value>, formatDate: Value -> string): (r: Response)
    ensures r.status == 200 || r == ErrorResponse(500, FetchFailed)
    ensures r.status == 200 <==> upstream.Normal? && Accepted(upstream.value)
    ensures r.status == 200 ==> r == ListResponse("reviews", ListIn(r, "reviews"))
    ensures r.status == 200 ==> |ListIn(r, "reviews")| == |Entries(upstream.value)|
    ensures r.status == 200 ==> forall i :: 0 <= i < |Entries(upstream.value)| ==>
      ListIn(r, "reviews")[i] == MapReview(Entries(upstream.value)[i], formatDate).value
  {
    FinishList(upstream, "reviews", data => Transform(data, formatDate), FetchFailed)
  }

  /** `GET()`: the gate, then at most one upstream call. */
  function HandleGet(cfg: Config, fetch: Request -> Completion<Value>, formatDate: Value -> string): (r: Response)
    ensures !Configured(cfg) ==> r == ErrorResponse(500, NotConfigured)
    ensures Configured(cfg) ==> r == Finish(fetch(Begin(cfg).request), formatDate)
  {
    Handle(Begin(cfg), fetch, upstream => Finish(upstream, formatDate))
  }

  /** Without credentials the answer does not depend on what upstream
      would have said: no call is made. */
  lemma UnconfiguredMakesNoCall(cfg: Config, fetch1: Request -> Completion<Value>,
                                fetch2: Request -> Completion<Value>, formatDate: Value -> string)
    requires !Configured(cfg)
    ensures HandleGet(cfg, fetch1, formatDate) == HandleGet(cfg, fetch2, formatDate)
    ensures HandleGet(cfg, fetch1, formatDate).status == 500
  {
  }

  /** An author name and a text are always present on a mapped review;
      the author name is never empty. */
  lemma MappedReviewHasAuthorAndText(review: Value, formatDate: Value -> string)
    requires !Nullish(review)
    ensures Truthy(Get(MapReview(review, formatDate).value, "author_name"))
    ensures var text := Get(MapReview(review, formatDate).value, "text");
      Truthy(text) || text == Str("")
  {
  }

  /** A body without `data` gives an empty list with status 200. */
  lemma AbsentListGivesEmptyReviews(data: Value, formatDate: Value -> string)
    requires !Nullish(data) && !Truthy(Get(data, "error")) && Nullish(Get(data, "data"))
    ensures Finish(Normal(data), formatDate) == ListResponse("reviews", [])
  {
  }
}
