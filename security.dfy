/** The in-memory user store, password checking and access tokens.
    Hashing and token signing are symbolic: a stored hash records which
    password it was made from, and a token is the claims it would carry. */
module Security {
  import opened Common

  /** ACCESS_TOKEN_EXPIRE_MINUTES. */
  const AccessTokenExpireMinutes: int := 30
  /** The lifetime of a token created without an explicit one. */
  const DefaultExpireMinutes: int := 15

  /** A stored password hash. `Hashed(p)` is the hash of password `p`;
      `Malformed(raw)` is a string the hashing scheme cannot parse, which
      makes verification raise `ValueError`. */
  datatype StoredHash = Hashed(secret: string) | Malformed(raw: string)

  /** `get_password_hash`. */
  function Hash(password: string): (h: StoredHash)
    ensures h.Hashed?
  {
    Hashed(password)
  }

  /** `verify_password`: whether `plain` is the password `h` was made from;
      a hash that cannot be parsed gives false instead of an error. */
  function VerifyPassword(plain: string, h: StoredHash): (ok: bool)
    ensures h.Malformed? ==> !ok
  {
    h.Hashed? && h.secret == plain
  }

  /** A password verifies against its own hash and no other password does. */
  lemma HashVerifies(p: string, q: string)
    ensures VerifyPassword(p, Hash(p))
    ensures VerifyPassword(q, Hash(p)) <==> q == p
  {
  }

  /** One entry of the user store. */
  datatype UserRecord = UserRecord(
    username: string,
    fullName: Option<string>,
    email: Option<string>,
    hashedPassword: StoredHash,
    disabled: bool)

  /** The record the store starts with: user "admin" with password
      "secret". */
  function Admin(): (u: UserRecord)
    ensures u.username == "admin" && VerifyPassword("secret", u.hashedPassword)
    ensures !u.disabled
  {
    UserRecord("admin", Some("Admin User"), Some("admin@franchise.com"), Hash("secret"), false)
  }

  /** The `fake_users_db` dictionary, keyed by username. */
  class UserStore {
    var users: map<string, UserRecord>

    /** Each record is stored under its own username, with a well-formed
        hash. */
    ghost predicate Valid()
      reads this
    {
      forall u :: u in users ==> users[u].username == u && users[u].hashedPassword.Hashed?
    }

    constructor ()
      ensures Valid()
      ensures users == map["admin" := Admin()]
    {
      users := map["admin" := Admin()];
    }
  }

  /** `authenticate_user`: the record of `username` when the password
      matches it; `None` (Python's `False`) for an unknown user or a wrong
      password. Whether the user is disabled is not looked at. */
  function AuthenticateUser(users: map<string, UserRecord>, username: string, password: string): (r: Option<UserRecord>)
    ensures username !in users ==> r.None?
    ensures username in users ==> (r.Some? <==> VerifyPassword(password, users[username].hashedPassword))
    ensures r.Some? ==> r.value == users[username]
  {
    if username !in users then None
    else if !VerifyPassword(password, users[username].hashedPassword) then None
    else Some(users[username])
  }

  /** The initial store lets "admin" in with "secret" and with nothing
      else. */
  lemma AdminCredentials(password: string)
    ensures AuthenticateUser(map["admin" := Admin()], "admin", password).Some? <==> password == "secret"
  {
  }

  /** A signed token, seen as the claims it carries and its expiry time in
      seconds. */
  datatype Jwt = Jwt(claims: map<string, string>, exp: int)

  /** `create_access_token`: the claims given, with `exp` set to `now` plus
      the lifetime. A lifetime of zero is false in Python, so it falls back
      to 15 minutes like a missing one. Times are in seconds. */
  function CreateAccessToken(data: map<string, string>, expiresDelta: Option<int>, now: int): (t: Jwt)
    ensures t.claims == data - {"exp"}
    ensures expiresDelta.Some? && expiresDelta.value != 0 ==> t.exp == now + expiresDelta.value
    ensures expiresDelta.None? || expiresDelta == Some(0) ==> t.exp == now + DefaultExpireMinutes * 60
  {
    var expire := if expiresDelta.Some? && expiresDelta.value != 0 then now + expiresDelta.value
                  else now + DefaultExpireMinutes * 60;
    Jwt(data - {"exp"}, expire)
  }
}
