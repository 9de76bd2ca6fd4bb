/**
 The place search route, `GET /api/search-places?query=...`: a query
 check, a key check, one call to the Places Text Search endpoint, a check
 that the upstream `status` is exactly "OK", and a projection of each
 result onto six fields.
 */
module SearchPlaces {
  import opened Wrappers
  import opened Js
  import opened Http

  const QueryRequired := "Query parameter is required"
  const KeyMissing := "Google Places API key not configured"
  const SearchFailed := "Failed to search places"

  /** The fields each result keeps. */
  const ResultFields: set<string> := {"place_id", "name", "formatted_address", "rating", "user_ratings_total", "types"}

  /** `encode` is `encodeURIComponent`, which is not part of this model. */
  function SearchUrl(query: string, apiKey: string, encode: string -> string): string {
    "https://maps.googleapis.com/maps/api/place/textsearch/json?query=" + encode(query) + "&key=" + apiKey
  }

  /** The gates, in order: `query` (from `searchParams.get`) first, then
      `GOOGLE_PLACES_API_KEY`. */
  function Begin(query: Option<string>, apiKey: Option<string>, encode: string -> string): (step: Step)
    ensures !Present(query) ==> step == Respond(ErrorResponse(400, QueryRequired))
    ensures Present(query) && !Present(apiKey) ==> step == Respond(ErrorResponse(500, KeyMissing))
    ensures step.Call? <==> Present(query) && Present(apiKey)
    ensures step.Call? ==> step.request == Request(SearchUrl(query.value, apiKey.value, encode), map[])
  {
    if !Present(query) then Respond(ErrorResponse(400, QueryRequired))
    else if !Present(apiKey) then Respond(ErrorResponse(500, KeyMissing))
    else Call(Request(SearchUrl(query.value, apiKey.value, encode), map[]))
  }

  /** The `map` callback: exactly the six fields, copied unchanged. */
  function Project(place: Value): (c: Completion<Value>)
    ensures c.Normal? <==> !Nullish(place)
    ensures c.Normal? ==> c.value.Obj? && c.value.props.Keys == ResultFields
    ensures c.Normal? ==> forall k :: k in ResultFields ==> Get(c.value, k) == Get(place, k)
  {
    var placeId :- Prop(place, "place_id");
    Normal(Obj(map[
      "place_id" := placeId,
      "name" := Get(place, "name"),
      "formatted_address" := Get(place, "formatted_address"),
      "rating" := Get(place, "rating"),
      "user_ratings_total" := Get(place, "user_ratings_total"),
      "types" := Get(place, "types")]))
  }

  /** The elements of `data.results`, when it is an array. */
  function Entries(data: Value): seq<Value> {
    var results := Get(data, "results");
    if results.Arr? then results.items else []
  }

  /** The body is usable: not null, `status` is exactly "OK", and
      `results` is an array without null elements. */
  predicate Accepted(data: Value) {
    var results := Get(data, "results");
    && !Nullish(data)
    && Get(data, "status") == Str("OK")
    && results.Arr?
    && forall i :: 0 <= i < |results.items| ==> !Nullish(results.items[i])
  }

  /** The `try` block once the body is parsed. Unlike the review routes,
      `data.results.map` has no optional chaining: missing results throw. */
  function Transform(data: Value): (c: Completion<seq<Value>>)
    ensures c.Normal? <==> Accepted(data)
    ensures c.Normal? ==> |c.value| == |Entries(data)|
    ensures c.Normal? ==> forall i :: 0 <= i < |Entries(data)| ==> c.value[i] == Project(Entries(data)[i]).value
    ensures Nullish(data) ==> c == Throw(ReadErrorMessage(data, "status"))
    ensures !Nullish(data) && Get(data, "status") != Str("OK") ==>
      c == Throw("Google Places API error: " + ToJsString(Get(data, "status")))
    ensures (!Nullish(data) && Get(data, "status") == Str("OK") && Nullish(Get(data, "results"))) ==>
      c == Throw(ReadErrorMessage(Get(data, "results"), "map"))
  {
    var status :- Prop(data, "status");
    if status != Str("OK") then
      Throw("Google Places API error: " + ToJsString(status))
    else
      var results := Get(data, "results");
      if results.Arr? then MapArray(results.items, Project)
      else if Nullish(results) then Throw(ReadErrorMessage(results, "map"))
      else Throw("data.results.map is not a function")
  }

  /** From the upstream outcome to the handler's response. */
  function Finish(upstream: Completion<Value>): (r: Response)
    ensures r.status == 200 || r == ErrorResponse(500, SearchFailed)
    ensures r.status == 200 <==> upstream.Normal? && Accepted(upstream.value)
    ensures r.status == 200 ==> r == ListResponse("results", ListIn(r, "results"))
    ensures r.status == 200 ==> |ListIn(r, "results")| == |Entries(upstream.value)|
    ensures r.status == 200 ==> forall i :: 0 <= i < |Entries(upstream.value)| ==>
      ListIn(r, "results")[i].Obj? && ListIn(r, "results")[i].props.Keys == ResultFields &&
      forall k :: k in ResultFields ==> Get(ListIn(r, "results")[i], k) == Get(Entries(upstream.value)[i], k)
  {
    FinishList(upstream, "results", Transform, SearchFailed)
  }

  /** `GET(request)` */
  function HandleGet(query: Option<string>, apiKey: Option<string>, encode: string -> string,
                     fetch: Request -> Completion<Value>): (r: Response)
    ensures !Present(query) ==> r == ErrorResponse(400, QueryRequired)
    ensures Present(query) && !Present(apiKey) ==> r == ErrorResponse(500, KeyMissing)
    ensures Present(query) && Present(apiKey) ==>
      r == Finish(fetch(Request(SearchUrl(query.value, apiKey.value, encode), map[])))
  {
    Handle(Begin(query, apiKey, encode), fetch, Finish)
  }

  /** The query is checked before the key: a missing query is 400 whether
      or not a key is configured. */
  lemma QueryCheckedBeforeKey(query: Option<string>, key1: Option<string>, key2: Option<string>,
                              encode: string -> string, fetch: Request -> Completion<Value>)
    requires !Present(query)
    ensures HandleGet(query, key1, encode, fetch) == HandleGet(query, key2, encode, fetch)
    ensures HandleGet(query, key1, encode, fetch).status == 400
  {
  }

  /** Any status other than exactly "OK", "ZERO_RESULTS" among them, is
      a failure. */
  lemma NonOkStatusFails(data: Value)
    requires Get(data, "status") != Str("OK")
    ensures Finish(Normal(data)) == ErrorResponse(500, SearchFailed)
  {
  }
}
