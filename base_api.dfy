/** The shared base query of every API slice: the server's addresses and the rule that signs
    each request with the session's bearer token. */
module BaseApi {
  import opened Wrappers
  import opened JsText
  import AuthStore

  /** The REST API root every endpoint path is appended to. */
  const BaseUrl := "https://api.mamacaresitters.com/api/v1"

  /** The host uploaded images are served from. */
  const ImageUrl := "https://api.mamacaresitters.com"

  const AuthorizationHeader := "authorization"

  /** A `Headers` object of the outgoing request, keyed by lower-case header name. */
  class Headers {
    var entries: map<string, string>

    constructor (init: map<string, string>)
      ensures entries == init
    {
      entries := init;
    }

    /** `headers.set(name, value)` for a name already in lower case. */
    method Set(name: string, value: string)
      modifies this
      ensures entries == old(entries)[name := value]
    {
      entries := entries[name := value];
    }
  }

  /** The headers once the token rule has run: "authorization: Bearer <token>" when the token
      is truthy, and nothing else added, changed or removed. */
  function WithAuthorization(h: map<string, string>, token: Option<string>): (r: map<string, string>)
    ensures token.Some? && Truthy(token.value) ==>
      AuthorizationHeader in r && r[AuthorizationHeader] == "Bearer " + token.value
    ensures !(token.Some? && Truthy(token.value)) ==> r == h
    ensures forall k :: k != AuthorizationHeader ==> (k in r <==> k in h) && (k in h ==> r[k] == h[k])
  {
    if token.Some? && Truthy(token.value) then h[AuthorizationHeader := "Bearer " + token.value] else h
  }

  /** `prepareHeaders(headers, { getState })`: reads the token of the auth slice, sets the
      authorization header on the same headers object when the token is truthy, and returns
      that object. */
  method PrepareHeaders(headers: Headers, auth: AuthStore.AuthState) returns (r: Headers)
    modifies headers
    ensures r == headers
    ensures headers.entries == WithAuthorization(old(headers.entries), auth.token)
  {
    var token := auth.token;
    if token.Some? && Truthy(token.value) {
      headers.Set(AuthorizationHeader, "Bearer " + token.value);
    }
    r := headers;
  }

  /** After a logout the base query sends the headers it was given, unsigned. */
  lemma LoggedOutRequestsAreUnsigned(h: map<string, string>)
    ensures WithAuthorization(h, AuthStore.AfterLogout().token) == h
  {
  }
}
