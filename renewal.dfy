/** Interpretation of the identity provider's answer to the delegation (renewal) call.
    The HTTP POST itself is not modelled: its result arrives as a `Transport` value. */
module Renewal {
  import opened Wrappers

  /** The body of the provider's response once `response.json()` has run on it. */
  datatype Body =
    | NotJson                               // decoding raised JSONDecodeError (e.g. a 502 page)
    | JsonObject(fields: map<string, string>)
    | JsonOther                             // valid JSON that is not an object (list, number, ...)

  /** What the POST to the delegation endpoint produced. */
  datatype Transport =
    | TimedOut          // ConnectTimeout or ReadTimeout
    | Failed            // any other exception raised by the HTTP client
    | Answered(body: Body)

  /** Exceptions that escape the middleware. */
  datatype Error =
    | IndexError        // the user's email has no '@'
    | RequestError      // the HTTP client raised something other than a timeout
    | AttributeError    // `.get` called on a JSON value that is not an object

  /** Why `renew_id_token` did not return: a timeout (caught by the caller) or another exception. */
  datatype RenewFailure = Timeout | Raised(error: Error)

  const IdTokenField := "id_token"

  /** `renew_id_token`: the renewed token, `None` when the body is not JSON or lacks
      `id_token`, or the exception the call raises. */
  function RenewIdToken(t: Transport): (r: Result<Option<string>, RenewFailure>)
    ensures r == Err(Timeout) <==> t == TimedOut
    ensures r == Err(Raised(RequestError)) <==> t == Failed
    ensures r == Err(Raised(AttributeError)) <==> t == Answered(JsonOther)
    ensures r.Err? ==> r.error in {Timeout, Raised(RequestError), Raised(AttributeError)}
    ensures r == Ok(None) <==>
      t == Answered(NotJson) || (t.Answered? && t.body.JsonObject? && IdTokenField !in t.body.fields)
    ensures r.Ok? && r.value.Some? ==>
      t.Answered? && t.body.JsonObject? && IdTokenField in t.body.fields
      && r.value.value == t.body.fields[IdTokenField]
    ensures t.Answered? && t.body.JsonObject? && IdTokenField in t.body.fields ==>
      r == Ok(Some(t.body.fields[IdTokenField]))
  {
    match t
    case TimedOut => Err(Timeout)
    case Failed => Err(Raised(RequestError))
    case Answered(NotJson) => Ok(None)
    case Answered(JsonOther) => Err(Raised(AttributeError))
    case Answered(JsonObject(fields)) =>
      if IdTokenField in fields then Ok(Some(fields[IdTokenField])) else Ok(None)
  }

  /** Python truthiness of the value `renew_id_token` returned: `None` and `""` are false. */
  predicate Truthy(token: Option<string>)
    ensures token == None || token == Some("") ==> !Truthy(token)
    ensures Truthy(token) ==> token.Some? && |token.value| > 0
  {
    token.Some? && token.value != ""
  }
}
