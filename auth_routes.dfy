/** The authentication endpoints: `/login`, `/verify` and `/signup`. */
module AuthRoutes {
  import opened Common
  import opened Security
  import SqlLike

  const InvalidCredentials: string := "Invalid credentials"
  const UsernameExists: string := "Username already exists"

  /** The `Token` answer of login and signup. */
  datatype Token = Token(accessToken: Jwt, tokenType: string)

  /** login: 401 when the credentials do not authenticate; otherwise a
      bearer token for that user, valid for ACCESS_TOKEN_EXPIRE_MINUTES. */
  function Login(users: map<string, UserRecord>, username: string, password: string, now: int): (r: Result<Token>)
    ensures r.Err? <==> AuthenticateUser(users, username, password).None?
    ensures r.Err? ==> r.failure == Http(401, InvalidCredentials)
    ensures r.Ok? ==>
      && r.value.tokenType == "bearer"
      && r.value.accessToken.claims == map["sub" := users[username].username]
      && r.value.accessToken.exp == now + AccessTokenExpireMinutes * 60
  {
    var user := AuthenticateUser(users, username, password);
    if user.None? then Err(Http(401, InvalidCredentials))
    else
      var token := CreateAccessToken(map["sub" := user.value.username], Some(AccessTokenExpireMinutes * 60), now);
      assert map["sub" := user.value.username] - {"exp"} == map["sub" := user.value.username];
      Ok(Token(token, "bearer"))
  }

  /** The answer of `/verify`. */
  datatype Verified = Verified(valid: bool, message: string)

  /** The scheme and the credentials of an `Authorization` header: the text
      before and after its first space. */
  function SplitScheme(header: string): (r: (string, string))
    ensures ' ' !in r.0
    ensures ' ' in header ==> header == r.0 + " " + r.1
    ensures ' ' !in header ==> r == (header, "")
  {
    if header == [] then ("", "")
    else if header[0] == ' ' then ("", header[1..])
    else
      var (scheme, rest) := SplitScheme(header[1..]);
      assert header == [header[0]] + header[1..];
      assert ' ' in header ==> ' ' in header[1..];
      assert [header[0]] + scheme + " " + rest == [header[0]] + (scheme + " " + rest);
      ([header[0]] + scheme, rest)
  }

  /** ASCII lower case, character by character. For comparing a scheme with
      "bearer" it agrees with Python's `str.lower`: no other character
      lowers to one of its letters. */
  function LowerAscii(s: string): (r: string)
    ensures |r| == |s|
    ensures forall i :: 0 <= i < |s| ==> r[i] == SqlLike.Lower(s[i])
  {
    if s == [] then []
    else [SqlLike.Lower(s[0])] + LowerAscii(s[1..])
  }

  /** verify_token. The bearer guard runs first: without a header, or with an
      empty scheme or empty credentials, the answer is 403 "Not
      authenticated"; a scheme other than "bearer" in any case gives 403
      "Invalid authentication credentials". Any token that passes is
      reported valid without being decoded. */
  function VerifyToken(authorization: Option<string>): (r: Result<Verified>)
    ensures authorization.None? ==> r == Err(Http(403, "Not authenticated"))
    ensures r.Ok? ==> r.value == Verified(true, "Token is valid")
  {
    if authorization.None? || authorization.value == "" then Err(Http(403, "Not authenticated"))
    else
      var (scheme, credentials) := SplitScheme(authorization.value);
      if scheme == "" || credentials == "" then Err(Http(403, "Not authenticated"))
      else if LowerAscii(scheme) != "bearer" then Err(Http(403, "Invalid authentication credentials"))
      else Ok(Verified(true, "Token is valid"))
  }

  /** The verdict on a header made of a space-free scheme, a space and the
      credentials: both must be non-empty, and the scheme must lower to
      "bearer". */
  lemma HeaderVerdict(scheme: string, credentials: string)
    requires ' ' !in scheme
    ensures VerifyToken(Some(scheme + " " + credentials)) ==
      if scheme == "" || credentials == "" then Err(Http(403, "Not authenticated"))
      else if LowerAscii(scheme) != "bearer" then Err(Http(403, "Invalid authentication credentials"))
      else Ok(Verified(true, "Token is valid"))
  {
    SplitAt(scheme, credentials);
  }

  /** Any header "Bearer <token>" passes, whatever the token. */
  lemma BearerTokenAccepted(token: string)
    requires token != "" && ' ' !in token
    ensures VerifyToken(Some("Bearer " + token)).Ok?
  {
    LowerSchemes();
    assert "Bearer " + token == "Bearer" + " " + token;
    HeaderVerdict("Bearer", token);
  }

  /** The header the client sends after logout, "Bearer " with nothing
      after it, does not pass. */
  lemma EmptyBearerRejected()
    ensures VerifyToken(Some("Bearer ")) == Err(Http(403, "Not authenticated"))
  {
    assert "Bearer " == "Bearer" + " " + "";
    HeaderVerdict("Bearer", "");
  }

  /** Another scheme does not pass either. */
  lemma OtherSchemeRejected(token: string)
    requires token != ""
    ensures VerifyToken(Some("Basic " + token)) == Err(Http(403, "Invalid authentication credentials"))
  {
    LowerSchemes();
    assert "Basic " + token == "Basic" + " " + token;
    HeaderVerdict("Basic", token);
  }

  lemma LowerSchemes()
    ensures LowerAscii("Bearer") == "bearer"
    ensures LowerAscii("Basic") != "bearer"
  {
    assert LowerAscii("Bearer"[3..]) == "rer";
    assert LowerAscii("Bearer"[1..]) == "earer";
    assert |LowerAscii("Basic")| == 5;
  }

  /** Splitting a header made of a space-free scheme, a space and anything
      gives that scheme and that rest back. */
  lemma {:induction false} SplitAt(scheme: string, rest: string)
    requires ' ' !in scheme
    ensures SplitScheme(scheme + " " + rest) == (scheme, rest)
  {
    if scheme != [] {
      assert (scheme + " " + rest)[1..] == scheme[1..] + " " + rest;
      SplitAt(scheme[1..], rest);
      assert scheme == [scheme[0]] + scheme[1..];
    }
  }

  /** `SignupRequest`; `email` and `fullName` are `None` when not sent. */
  datatype SignupRequest = SignupRequest(
    username: string,
    password: string,
    email: Option<string>,
    fullName: Option<string>)

  /** A username of 3 to 50 characters and a password of 6 to 128. */
  predicate ValidSignup(req: SignupRequest)
  {
    3 <= |req.username| <= 50 && 6 <= |req.password| <= 128
  }

  /** The record signup stores: enabled, with the password hashed. An empty
      email is stored as none. */
  function NewUser(req: SignupRequest): (u: UserRecord)
    ensures u.username == req.username && u.fullName == req.fullName
    ensures u.email == (if req.email.Some? && req.email.value != "" then req.email else None)
    ensures u.hashedPassword == Hash(req.password) && !u.disabled
  {
    var email := if req.email.Some? && req.email.value != "" then req.email else None;
    UserRecord(req.username, req.fullName, email, Hash(req.password), false)
  }

  /** signup: a taken username is refused with 400 and the store is left
      alone; otherwise exactly one record is added and a token for the new
      user, with the default lifetime, is returned. */
  method Signup(store: UserStore, req: SignupRequest, now: int) returns (r: Result<Token>)
    requires store.Valid()
    modifies store
    ensures store.Valid()
    ensures r.Err? ==> unchanged(store)
    ensures !ValidSignup(req) ==> r == Err(Unprocessable)
    ensures ValidSignup(req) && req.username in old(store.users) ==> r == Err(Http(400, UsernameExists))
    ensures ValidSignup(req) && req.username !in old(store.users) ==>
      && store.users == old(store.users)[req.username := NewUser(req)]
      && r.Ok? && r.value.tokenType == "bearer"
      && r.value.accessToken == Jwt(map["sub" := req.username], now + DefaultExpireMinutes * 60)
  {
    if !ValidSignup(req) {
      return Err(Unprocessable);
    }
    if req.username in store.users {
      return Err(Http(400, UsernameExists));
    }
    store.users := store.users[req.username := NewUser(req)];
    var token := CreateAccessToken(map["sub" := req.username], None, now);
    assert map["sub" := req.username] - {"exp"} == map["sub" := req.username];
    r := Ok(Token(token, "bearer"));
  }

  /** After a successful signup the new user can log in with the password
      they chose, and every other user's login is unaffected. */
  lemma LoginAfterSignup(users: map<string, UserRecord>, req: SignupRequest, other: string, password: string, now: int)
    requires req.username !in users && other != req.username
    ensures Login(users[req.username := NewUser(req)], req.username, req.password, now).Ok?
    ensures Login(users[req.username := NewUser(req)], other, password, now) == Login(users, other, password, now)
  {
    HashVerifies(req.password, req.password);
  }
}
