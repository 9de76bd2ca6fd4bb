/**
 The Google reviews component. It fetches `/api/google-reviews` on mount
 and on every "Try Again" or "Refresh" click, keeps the loading flag, the
 error message, the place data and the review list in component state,
 and renders a spinner, an error view or the content, in that priority.
 */
module GoogleReviews {
  import opened Wrappers
  import opened Js

  /** What `fetch` resolves to: the HTTP status and what
      `response.json()` gives (a value, or the parse exception). A
      rejected `fetch` is a `Throw` one level up. */
  datatype HttpResponse = HttpResponse(status: int, json: Completion<Value>)

  /** `response.ok` */
  predicate IsOk(status: int) {
    200 <= status <= 299
  }

  // The two fixed texts are written in pieces so that the verifier sees
  // their first characters.
  const ConfigurationMessage := "Google Places API configuration issue. " + "Please check your API key and permissions."
  const NotFoundMessage := "Business not found with the provided " + "Place ID. Please verify your Place ID."
  const LoadFailedPrefix := "Failed to load Google reviews: "

  /** The error text shown for an exception message; the first matching
      rule wins. */
  function ErrorText(message: string): (text: string)
    ensures Includes(message, "API key") || Includes(message, "PERMISSION_DENIED") ==>
      text == ConfigurationMessage
    ensures (!Includes(message, "API key") && !Includes(message, "PERMISSION_DENIED") &&
             Includes(message, "NOT_FOUND")) ==> text == NotFoundMessage
    ensures (!Includes(message, "API key") && !Includes(message, "PERMISSION_DENIED") &&
             !Includes(message, "NOT_FOUND")) ==> text == LoadFailedPrefix + message
  {
    if Includes(message, "API key") || Includes(message, "PERMISSION_DENIED") then ConfigurationMessage
    else if Includes(message, "NOT_FOUND") then NotFoundMessage
    else LoadFailedPrefix + message
  }

  /** The three kinds of error text cannot be mistaken for one another:
      each fixed text is shown exactly for its condition, and any other
      text carries the original message after the prefix. */
  lemma ErrorTextClassifies(message: string)
    ensures ErrorText(message) == ConfigurationMessage <==>
      Includes(message, "API key") || Includes(message, "PERMISSION_DENIED")
    ensures ErrorText(message) == NotFoundMessage <==>
      !Includes(message, "API key") && !Includes(message, "PERMISSION_DENIED") && Includes(message, "NOT_FOUND")
    ensures ErrorText(message) != ConfigurationMessage && ErrorText(message) != NotFoundMessage ==>
      |LoadFailedPrefix| <= |ErrorText(message)| &&
      ErrorText(message)[..|LoadFailedPrefix|] == LoadFailedPrefix &&
      ErrorText(message)[|LoadFailedPrefix|..] == message
    ensures ErrorText(message) != ""
  {
    var text := LoadFailedPrefix + message;
    assert text[0] == 'F';
    assert ConfigurationMessage[0] == 'G';
    assert NotFoundMessage[0] == 'B';
    assert text[..|LoadFailedPrefix|] == LoadFailedPrefix;
    assert text[|LoadFailedPrefix|..] == message;
  }

  /** The outcome of the `try` block: the body (`data`) when it runs to the
      end, or the message of the exception it throws. A rejected `fetch` and
      a failed `response.json()` pass their own message on; a null body
      throws the TypeError of its first property read; a non-ok response
      throws with `data.error` when that is truthy, and with the HTTP
      status otherwise. */
  function Attempt(response: Completion<HttpResponse>): (c: Completion<Value>)
    ensures response.Throw? ==> c == Throw(response.message)
    ensures response.Normal? && response.value.json.Throw? ==> c == Throw(response.value.json.message)
    ensures (response.Normal? && response.value.json.Normal? && Nullish(response.value.json.value)) ==>
      c == Throw(ReadErrorMessage(response.value.json.value,
                                  if IsOk(response.value.status) then "reviews" else "error"))
    ensures response.Normal? && response.value.json.Normal? && IsOk(response.value.status) ==>
      (c.Normal? <==> !Nullish(response.value.json.value))
    ensures c.Normal? ==> response.Normal? && IsOk(response.value.status) && response.value.json == Normal(c.value)
    ensures (response.Normal? && !IsOk(response.value.status) && response.value.json.Normal? &&
             !Nullish(response.value.json.value)) ==>
      var error := Get(response.value.json.value, "error");
      c == Throw(if Truthy(error) then ToJsString(error)
                 else "HTTP error! status: " + IntToString(response.value.status))
  {
    var resp :- response;
    var data :- resp.json;
    if !IsOk(resp.status) then
      var error :- Prop(data, "error");
      Throw(ErrorMessage(Or(error, Str("HTTP error! status: " + IntToString(resp.status)))))
    else
      var _ :- Prop(data, "reviews");
      Normal(data)
  }

  /** Which of the three views the component renders. */
  datatype Screen = Spinner | ErrorView(text: string) | Content(placeData: Value, reviews: Value)

  /** `loading` first, then a truthy `error`, then the content. */
  function Render(loading: bool, error: Option<string>, placeData: Value, reviews: Value): (s: Screen)
    ensures loading ==> s == Spinner
    ensures !loading && Present(error) ==> s == ErrorView(error.value)
    ensures !loading && !Present(error) ==> s == Content(placeData, reviews)
  {
    if loading then Spinner
    else if Present(error) then ErrorView(error.value)
    else Content(placeData, reviews)
  }

  /** The component's state. `lastUpdated` holds the clock reading of the
      last successful fetch. */
  class ReviewsState {
    var reviews: Value
    var placeData: Value
    var loading: bool
    var error: Option<string>
    var lastUpdated: Option<int>

    function View(): Screen
      reads this
    {
      Render(loading, error, placeData, reviews)
    }

    /** The initial `useState` values: the spinner shows until the first
        fetch settles. */
    constructor ()
      ensures reviews == Arr([]) && placeData == Null && loading && error == None && lastUpdated == None
      ensures View() == Spinner
    {
      reviews := Arr([]);
      placeData := Null;
      loading := true;
      error := None;
      lastUpdated := None;
    }

    /** The synchronous start of `fetchGoogleReviews`, up to the first
        `await`: the spinner shows while the request is in flight. */
    method BeginFetch()
      modifies this
      ensures loading && error == None
      ensures reviews == old(reviews) && placeData == old(placeData) && lastUpdated == old(lastUpdated)
      ensures View() == Spinner
    {
      loading := true;
      error := None;
    }

    /** The rest of `fetchGoogleReviews`, once `fetch` has settled to
        `response`; `now` is `new Date()`. On success the body becomes the
        place data and its `reviews` (or []) the list; on failure both are
        cleared, no placeholder data is substituted, and the classified
        message is shown. Either way loading ends. */
    method SettleFetch(response: Completion<HttpResponse>, now: int)
      modifies this
      ensures !loading
      ensures Attempt(response).Normal? ==>
        placeData == Attempt(response).value &&
        reviews == Or(Get(Attempt(response).value, "reviews"), Arr([])) &&
        error == None && lastUpdated == Some(now) &&
        View() == Content(placeData, reviews)
      ensures Attempt(response).Throw? ==>
        placeData == Null && reviews == Arr([]) &&
        error == Some(ErrorText(Attempt(response).message)) && lastUpdated == old(lastUpdated) &&
        View() == ErrorView(ErrorText(Attempt(response).message))
    {
      var thrown: Option<string> := None;
      // try
      match response {
        case Throw(message) =>
          thrown := Some(message);
        case Normal(resp) =>
          match resp.json {
            case Throw(message) =>
              thrown := Some(message);
            case Normal(data) =>
              if !IsOk(resp.status) {
                var error := Prop(data, "error");
                if error.Throw? {
                  thrown := Some(error.message);
                } else {
                  thrown := Some(ErrorMessage(Or(error.value, Str("HTTP error! status: " + IntToString(resp.status)))));
                }
              } else {
                placeData := data;
                var list := Prop(data, "reviews");
                if list.Throw? {
                  thrown := Some(list.message);
                } else {
                  reviews := Or(list.value, Arr([]));
                  lastUpdated := Some(now);
                  error := None;
                }
              }
          }
      }
      // catch
      if thrown.Some? {
        ErrorTextClassifies(thrown.value);
        error := Some(ErrorText(thrown.value));
        placeData := Null;
        reviews := Arr([]);
      }
      // finally
      loading := false;
    }
  }

  /** A failed fetch always ends on the error view, never on an empty
      content view: every error text is non-empty. */
  lemma FailureShowsErrorView(response: Completion<HttpResponse>, placeData: Value, reviews: Value)
    requires Attempt(response).Throw?
    ensures Render(false, Some(ErrorText(Attempt(response).message)), placeData, reviews).ErrorView?
  {
    ErrorTextClassifies(Attempt(response).message);
  }
}
