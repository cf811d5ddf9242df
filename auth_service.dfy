// The browser-side session store of the operations console: the token and
// the user record kept in local storage, and the checks built on them
// (enterprise-ai-strategy/operational-layer/web-ui/src/services/authService.ts).
// The HTTP calls to /auth/login and /auth/me become parameters holding
// their outcome, and the JWT payload decoding becomes the decoded expiry.

module AuthService {
  import opened Common
  import opened UriEncoding

  datatype User = User(id: string, email: string, name: string, role: string, isActive: bool, createdAt: string)

  const TokenKey := "enterprise_ai_token"
  const UserKey := "enterprise_ai_user"

  // ---------------------------------------------------------------------
  // The stored user record

  function FlagText(b: bool): string
  {
    if b then "true" else "false"
  }

  function Fields(u: User): seq<string>
  {
    [Encode(u.id), Encode(u.email), Encode(u.name), Encode(u.role), FlagText(u.isActive), Encode(u.createdAt)]
  }

  /** The text stored for a user (`JSON.stringify`): each field escaped so
      that it holds no '&', and the fields joined by '&'. */
  function SerializeUser(u: User): string
  {
    Join(Fields(u), "&")
  }

  /** `JSON.parse` back to a user: None when the text is not a stored user. */
  function ParseUser(s: string): (r: Option<User>)
    ensures r.Some? ==> |Split(s, '&')| == 6
  {
    var parts := Split(s, '&');
    if |parts| != 6 then None
    else
      var id, email, name, role, created := Decode(parts[0]), Decode(parts[1]), Decode(parts[2]), Decode(parts[3]), Decode(parts[5]);
      if id.Some? && email.Some? && name.Some? && role.Some? && created.Some? && parts[4] in {"true", "false"} then
        Some(User(id.value, email.value, name.value, role.value, parts[4] == "true", created.value))
      else None
  }

  lemma NoAmpersandInEncoding(s: string)
    ensures '&' !in Encode(s)
  {
    EncodeAlphabet(s);
  }

  /** The stored text splits back into the user's escaped fields. */
  lemma SplitSerialized(u: User)
    ensures Split(SerializeUser(u), '&') == Fields(u)
  {
    var xs := Fields(u);
    forall k | 0 <= k < |xs|
      ensures '&' !in xs[k]
    {
      if k == 0 {
        NoAmpersandInEncoding(u.id);
      } else if k == 1 {
        NoAmpersandInEncoding(u.email);
      } else if k == 2 {
        NoAmpersandInEncoding(u.name);
      } else if k == 3 {
        NoAmpersandInEncoding(u.role);
      } else if k == 5 {
        NoAmpersandInEncoding(u.createdAt);
      }
    }
    SplitJoinAmpersand(xs);
  }

  lemma SplitJoinAmpersand(xs: seq<string>)
    requires |xs| >= 1
    requires forall k :: 0 <= k < |xs| ==> '&' !in xs[k]
    ensures Split(Join(xs, "&"), '&') == xs
  {
    assert "&" == ['&'];
    SplitJoinChar(xs, '&');
  }

  /** A stored user reads back as that user. */
  lemma {:induction false} ParseSerialize(u: User)
    ensures ParseUser(SerializeUser(u)) == Some(u)
  {
    SplitSerialized(u);
    DecodeEncode(u.id);
    DecodeEncode(u.email);
    DecodeEncode(u.name);
    DecodeEncode(u.role);
    DecodeEncode(u.createdAt);
  }

  /** Text without the field separator is never a stored user. */
  lemma NoSeparatorNoUser(s: string)
    requires '&' !in s
    ensures ParseUser(s).None?
  {
    SplitNoSeparator(s, '&');
  }

  // ---------------------------------------------------------------------
  // Tokens

  /** The token's payload as `isTokenExpired` decodes it: undecodable (the
      decode or the JSON parse throws), or its claims with the `exp` claim
      when there is one. */
  datatype Payload = Undecodable | Claims(exp: Option<real>)

  /** `isTokenExpired` at the time `nowSeconds` in seconds: no token or an
      undecodable one counts as expired; a payload without `exp` never
      expires, since `undefined < currentTime` is false. */
  function TokenExpired(token: Option<string>, payload: Payload, nowSeconds: real): (r: bool)
    ensures token.None? || token.value == "" ==> r
    ensures token.Some? && token.value != "" ==>
      (r <==> payload.Undecodable? || (payload.exp.Some? && payload.exp.value < nowSeconds))
  {
    if token.None? || token.value == "" then true
    else match payload
      case Undecodable => true
      case Claims(exp) => exp.Some? && exp.value < nowSeconds
  }

  /** The header `getAuthHeaders` yields: the bearer form of section 2.1 of
      RFC 6750 when there is a token, nothing otherwise. */
  function AuthHeaders(token: Option<string>): (r: map<string, string>)
    ensures token.Some? && token.value != "" ==>
      r.Keys == {"Authorization"} && |r["Authorization"]| == 7 + |token.value|
      && r["Authorization"][..7] == "Bearer " && r["Authorization"][7..] == token.value
    ensures token.None? || token.value == "" ==> r == map[]
  {
    if token.Some? && token.value != "" then map["Authorization" := "Bearer " + token.value] else map[]
  }

  /** The outcome of the POST to /auth/login. */
  datatype LoginReply = LoginOk(accessToken: string) | LoginRejected(detail: Option<string>)

  datatype LoginResult = LoggedIn(user: User) | LoginFailed(message: string)

  /** `localStorage`, as the service reads and writes it. */
  class Session {
    var storage: map<string, string>

    constructor (initial: map<string, string>)
      ensures storage == initial
    {
      storage := initial;
    }

    /** `getToken`. */
    function Token(): (r: Option<string>)
      reads this
      ensures r.Some? <==> TokenKey in storage
      ensures r.Some? ==> r.value == storage[TokenKey]
    {
      if TokenKey in storage then Some(storage[TokenKey]) else None
    }

    /** `getCurrentUser`: None when the entry is missing, empty or not a
        stored user. */
    function CurrentUser(): (r: Option<User>)
      reads this
      ensures UserKey !in storage || storage[UserKey] == "" ==> r.None?
      ensures r.Some? ==> ParseUser(storage[UserKey]) == r
    {
      if UserKey !in storage || storage[UserKey] == "" then None else ParseUser(storage[UserKey])
    }

    /** `isAuthenticated`: a non-empty token and a readable user. */
    predicate IsAuthenticated()
      reads this
    {
      var token := Token();
      token.Some? && token.value != "" && CurrentUser().Some?
    }

    function Headers(): map<string, string>
      reads this
    {
      AuthHeaders(Token())
    }

    /** `hasRole`: an administrator may do anything; anyone else needs the
        exact role. */
    predicate HasRole(required: string)
      reads this
    {
      var user := CurrentUser();
      if user.None? then false
      else if user.value.role == "admin" then true
      else if required == "manager" && user.value.role == "manager" then true
      else user.value.role == required
    }

    /** `logout`: both entries go; nothing else in storage changes. */
    method Logout()
      modifies this
      ensures storage == old(storage) - {TokenKey, UserKey}
      ensures Token().None? && CurrentUser().None? && !IsAuthenticated()
      ensures forall role :: !HasRole(role)
    {
      storage := storage - {TokenKey, UserKey};
    }

    /** `login`: a rejected login leaves storage alone; an accepted one
        stores the token first, then fetches the user with it (which fails
        for an empty token) and stores the user. `me` is the outcome of the
        GET to /auth/me. */
    method Login(reply: LoginReply, me: Option<User>) returns (r: LoginResult)
      modifies this
      ensures reply.LoginRejected? ==>
        storage == old(storage)
        && r == LoginFailed(if reply.detail.Some? && reply.detail.value != "" then reply.detail.value else "Login failed")
      ensures reply.LoginOk? && reply.accessToken == "" ==>
        storage == old(storage)[TokenKey := ""] && r == LoginFailed("No authentication token")
      ensures reply.LoginOk? && reply.accessToken != "" && me.None? ==>
        storage == old(storage)[TokenKey := reply.accessToken] && r == LoginFailed("Failed to get user info")
      ensures reply.LoginOk? && reply.accessToken != "" && me.Some? ==>
        storage == old(storage)[TokenKey := reply.accessToken][UserKey := SerializeUser(me.value)]
        && r == LoggedIn(me.value)
    {
      if reply.LoginRejected? {
        var message := if reply.detail.Some? && reply.detail.value != "" then reply.detail.value else "Login failed";
        return LoginFailed(message);
      }
      storage := storage[TokenKey := reply.accessToken];
      var token := Token();
      if token.None? || token.value == "" {
        return LoginFailed("No authentication token");
      }
      if me.None? {
        return LoginFailed("Failed to get user info");
      }
      storage := storage[UserKey := SerializeUser(me.value)];
      r := LoggedIn(me.value);
    }

    /** `refreshAuth`, given the decoded payload, the time and the outcome
        of the GET to /auth/me: an expired token or a failed fetch logs out. */
    method RefreshAuth(payload: Payload, nowSeconds: real, me: Option<User>) returns (r: Option<User>)
      modifies this
      ensures TokenExpired(old(Token()), payload, nowSeconds) || me.None? ==>
        r.None? && storage == old(storage) - {TokenKey, UserKey}
      ensures !TokenExpired(old(Token()), payload, nowSeconds) && me.Some? ==>
        r == me && storage == old(storage)[UserKey := SerializeUser(me.value)]
    {
      if TokenExpired(Token(), payload, nowSeconds) {
        Logout();
        return None;
      }
      if me.None? {
        Logout();
        return None;
      }
      storage := storage[UserKey := SerializeUser(me.value)];
      r := me;
    }
  }

  /** `hasRole` holds exactly for a readable user who is an administrator
      or has the required role. */
  lemma HasRoleIff(s: Session, required: string)
    ensures s.HasRole(required) <==>
      s.CurrentUser().Some? && (s.CurrentUser().value.role == "admin" || s.CurrentUser().value.role == required)
  {
  }

  /** After a successful login the session is authenticated as the fetched
      user and its requests carry that token. */
  method LoginThenAuthenticated(s: Session, token: string, u: User) returns (r: LoginResult)
    requires token != ""
    modifies s
    ensures r == LoggedIn(u)
    ensures s.IsAuthenticated() && s.CurrentUser() == Some(u)
    ensures s.Headers() == map["Authorization" := "Bearer " + token]
  {
    r := s.Login(LoginOk(token), Some(u));
    ParseSerialize(u);
  }
}
