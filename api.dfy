/** What the client keeps in the browser and how it reads a server answer:
    the `localStorage` entries, the `Authorization` header every request
    carries, the outcome of one request, and the text an error toast shows. */
module Api {
  import opened Common
  import AuthRoutes

  /** The header value `setAuthToken` installs: "Bearer " and the token. */
  function BearerHeader(token: string): (h: string)
    ensures |h| == 7 + |token|
    ensures h[..7] == "Bearer " && h[7..] == token
  {
    "Bearer " + token
  }

  /** The header the client sends after logging out, "Bearer " with an
      empty token, is refused by the server's bearer guard. */
  lemma LoggedOutHeaderRejected()
    ensures AuthRoutes.VerifyToken(Some(BearerHeader(""))) == Err(Http(403, "Not authenticated"))
  {
    assert BearerHeader("") == "Bearer ";
    AuthRoutes.EmptyBearerRejected();
  }

  /** Any non-empty token without a space that the client installs passes
      the server's bearer guard. */
  lemma InstalledHeaderAccepted(token: string)
    requires token != "" && ' ' !in token
    ensures AuthRoutes.VerifyToken(Some(BearerHeader(token))).Ok?
  {
    AuthRoutes.BearerTokenAccepted(token);
  }

  /** How one request ends for the client: its response body, or a failure
      carrying the `detail` of the error response when there is one. */
  datatype Outcome<+T> = Done(value: T) | Failed(detail: Option<string>)

  /** `error.response?.data?.detail || fallback`: the server's detail, unless
      it is absent or empty. */
  function ErrorText(detail: Option<string>, fallback: string): (t: string)
    ensures detail.Some? && detail.value != "" ==> t == detail.value
    ensures detail.None? || detail.value == "" ==> t == fallback
    ensures t == "" ==> fallback == ""
  {
    if detail.Some? && detail.value != "" then detail.value else fallback
  }

  /** The browser's state the client reads and writes. */
  class Browser {
    /** `localStorage`. */
    var storage: map<string, string>
    /** The `Authorization` header of the API client, once set. */
    var authorization: Option<string>

    constructor (storage: map<string, string>)
      ensures this.storage == storage && authorization == None
    {
      this.storage := storage;
      authorization := None;
    }

    /** setAuthToken */
    method SetAuthToken(token: string)
      modifies this
      ensures authorization == Some(BearerHeader(token))
      ensures storage == old(storage)
    {
      authorization := Some(BearerHeader(token));
    }

    /** localStorage.setItem */
    method SetItem(key: string, value: string)
      modifies this
      ensures storage == old(storage)[key := value]
      ensures authorization == old(authorization)
    {
      storage := storage[key := value];
    }

    /** localStorage.removeItem: removing an absent key does nothing. */
    method RemoveItem(key: string)
      modifies this
      ensures storage == old(storage) - {key}
      ensures key !in old(storage) ==> storage == old(storage)
      ensures authorization == old(authorization)
    {
      storage := storage - {key};
    }
  }
}
