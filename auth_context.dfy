/** `AuthProvider`: the signed-in user and bearer token, held in memory and
    mirrored into the browser's local storage under `auth_token` and `user`.
    Every backend reply is a parameter; every request the provider sends is
    appended to a log so that contracts can say what was sent. */
module AuthContext {
  import opened Wrappers
  import opened Js
  import opened UserCodec
  import ApiBaseUrl

  const TokenKey := "auth_token"
  const UserKey := "user"
  const LoginPath := "/api/v1/auth/login"
  const SignupPath := "/api/v1/auth/signup"
  const LoginFailed := "Login failed"
  const SignupFailed := "Signup failed"
  const OutsideProvider := "useAuth must be used within AuthProvider"

  /** The registration payload the signup form sends. */
  datatype SignupData = SignupData(
    email: string,
    username: string,
    password: string,
    fullName: string,
    softwareExperience: string,
    hardwareExperience: string,
    programmingLanguages: seq<string>,
    industryBackground: string,
    learningGoals: string
  )

  /** The JSON body of a POST. */
  datatype Body = Credentials(email: string, password: string) | Registration(data: SignupData)

  datatype Request = Request(url: string, body: Body)

  /** A backend answer: `response.ok` and the fields of its JSON body. */
  datatype Reply = Reply(ok: bool, accessToken: string, user: User, detail: Option<string>)

  /** The provider's state: React state `user` and `token`, and local storage. */
  datatype Session = Session(user: Option<User>, token: Option<string>, storage: map<string, string>)

  /** `localStorage.getItem(key)`. */
  function Stored(storage: map<string, string>, key: string): Option<string>
  {
    if key in storage then Some(storage[key]) else None
  }

  /** A user is held exactly when a token is. */
  predicate Paired(s: Session)
  {
    s.token.Some? <==> s.user.Some?
  }

  /** A held session can be read back from storage. */
  predicate Mirrored(s: Session)
  {
    s.token.Some? ==>
      Stored(s.storage, TokenKey) == s.token &&
      UserKey in s.storage && Decode(s.storage[UserKey]) == s.user
  }

  predicate Consistent(s: Session)
  {
    Paired(s) && Mirrored(s)
  }

  /** `isAuthenticated: !!token`. */
  predicate Authenticated(s: Session)
  {
    Truthy(s.token)
  }

  /** Keys other than the two session keys are left alone. */
  ghost predicate OtherKeysUnchanged(before: map<string, string>, after: map<string, string>)
  {
    forall k :: k != TokenKey && k != UserKey ==> Stored(after, k) == Stored(before, k)
  }

  // ---------------------------------------------------------------------
  // The transitions

  /** The mount effect: adopt the stored session when both keys hold
      non-empty text (and the user text decodes), otherwise change nothing. */
  function Restored(s: Session): Session
  {
    var t := Stored(s.storage, TokenKey);
    var u := Stored(s.storage, UserKey);
    if Truthy(t) && Truthy(u) then
      match Decode(u.value)
      case Some(user) => Session(Some(user), t, s.storage)
      case None => s
    else s
  }

  /** A successful login or signup: hold the reply's token and user and write
      both to storage. */
  function SignedIn(s: Session, token: string, u: User): (r: Session)
    ensures Consistent(r)
    ensures r.token == Some(token) && r.user == Some(u)
    ensures Stored(r.storage, TokenKey) == Some(token)
    ensures OtherKeysUnchanged(s.storage, r.storage)
  {
    Session(Some(u), Some(token), s.storage[TokenKey := token][UserKey := Encode(u)])
  }

  /** Logout: drop the session from memory and from storage. */
  function SignedOut(s: Session): (r: Session)
    ensures Consistent(r) && !Authenticated(r)
    ensures r.token == None && r.user == None
    ensures TokenKey !in r.storage && UserKey !in r.storage
    ensures OtherKeysUnchanged(s.storage, r.storage)
  {
    Session(None, None, s.storage - {TokenKey, UserKey})
  }

  // ---------------------------------------------------------------------
  // Properties of the transitions

  /** On mount, the stored session is adopted when both keys hold non-empty
      text and the user text decodes, and only then; otherwise both stay null.
      Storage is never written. */
  lemma RestoreOnMount(storage: map<string, string>)
    ensures var r := Restored(Session(None, None, storage));
      r.storage == storage &&
      (r.token.Some? <==> r.user.Some?) &&
      (r.token.Some? ==> Truthy(Stored(storage, TokenKey)) && Truthy(Stored(storage, UserKey)) &&
                         r.token == Stored(storage, TokenKey) && r.user == Decode(storage[UserKey])) &&
      (Truthy(Stored(storage, TokenKey)) && Truthy(Stored(storage, UserKey)) && Decode(storage[UserKey]).Some? ==>
                         r.token == Stored(storage, TokenKey) && r.user == Decode(storage[UserKey])) &&
      (!Truthy(Stored(storage, TokenKey)) || !Truthy(Stored(storage, UserKey)) ==> r.token == None && r.user == None)
  {
  }

  lemma RestorePreservesConsistency(s: Session)
    requires Consistent(s)
    ensures Consistent(Restored(s))
  {
  }

  /** A reload after a sign-in with a non-empty token restores exactly the
      same session from storage. */
  lemma ReloadAfterSignIn(s: Session, token: string, u: User)
    requires token != ""
    ensures var signedIn := SignedIn(s, token, u);
      Restored(Session(None, None, signedIn.storage)) == signedIn
  {
    var signedIn := SignedIn(s, token, u);
    assert Stored(signedIn.storage, UserKey) == Some(Encode(u));
  }

  /** A reload after logout stays signed out. */
  lemma ReloadAfterSignOut(s: Session)
    ensures Restored(Session(None, None, SignedOut(s).storage)) == SignedOut(s)
  {
  }

  /** Signing out after a sign-in leaves what signing out alone would. */
  lemma SignOutUndoesSignIn(s: Session, token: string, u: User)
    ensures SignedOut(SignedIn(s, token, u)) == SignedOut(s)
  {
    assert SignedOut(SignedIn(s, token, u)).storage == SignedOut(s).storage;
  }

  /** The last sign-in wins. */
  lemma SignInReplacesSession(s: Session, t1: string, u1: User, t2: string, u2: User)
    ensures SignedIn(SignedIn(s, t1, u1), t2, u2) == SignedIn(s, t2, u2)
  {
    assert SignedIn(SignedIn(s, t1, u1), t2, u2).storage == SignedIn(s, t2, u2).storage;
  }

  /** Signed in counts as authenticated exactly when the token is non-empty. */
  lemma AuthenticatedAfterSignIn(s: Session, token: string, u: User)
    ensures Authenticated(SignedIn(s, token, u)) <==> token != ""
  {
  }

  /** `useAuth`: the provider's value, or an error outside a provider. */
  function UseAuth(context: Option<AuthProvider>): (r: Result<AuthProvider, string>)
    ensures context.Some? <==> r.Success?
    ensures r.Success? ==> r.value == context.value
    ensures r.Failure? ==> r.error == OutsideProvider
  {
    match context
    case Some(p) => Success(p)
    case None => Failure(OutsideProvider)
  }

  // ---------------------------------------------------------------------
  // The provider

  class AuthProvider {
    const apiBaseUrl: string
    var user: Option<User>
    var token: Option<string>
    var storage: map<string, string>
    var sent: seq<Request>

    function Snapshot(): Session
      reads this
    {
      Session(user, token, storage)
    }

    ghost predicate Valid()
      reads this
    {
      Consistent(Snapshot()) && ApiBaseUrl.IsAbsolute(apiBaseUrl)
    }

    /** A provider is mounted signed out, over whatever storage holds. */
    constructor (env: ApiBaseUrl.Env, initialStorage: map<string, string>)
      ensures Valid()
      ensures apiBaseUrl == ApiBaseUrl.Resolve(env)
      ensures user == None && token == None && storage == initialStorage && sent == []
    {
      apiBaseUrl := ApiBaseUrl.Resolve(env);
      user, token, storage, sent := None, None, initialStorage, [];
    }

    /** The mount effect. */
    method Restore()
      requires Valid()
      modifies this
      ensures Valid()
      ensures Snapshot() == Restored(old(Snapshot())) && sent == old(sent)
    {
      var storedToken := Stored(storage, TokenKey);
      var storedUser := Stored(storage, UserKey);
      if Truthy(storedToken) && Truthy(storedUser) {
        var parsed := Decode(storedUser.value);
        if parsed.Some? {
          token := storedToken;
          user := parsed;
        }
      }
    }

    /** Replaces the session with the reply's and writes it to storage. */
    method Adopt(reply: Reply)
      requires Valid()
      modifies this
      ensures Valid()
      ensures Snapshot() == SignedIn(old(Snapshot()), reply.accessToken, reply.user) && sent == old(sent)
    {
      token := Some(reply.accessToken);
      user := Some(reply.user);
      storage := storage[TokenKey := reply.accessToken];
      storage := storage[UserKey := Encode(reply.user)];
    }

    method Login(email: string, password: string, reply: Reply) returns (r: Outcome<string>)
      requires Valid()
      modifies this
      ensures Valid()
      ensures sent == old(sent) + [Request(apiBaseUrl + LoginPath, Credentials(email, password))]
      ensures reply.ok ==> r == Pass && Snapshot() == SignedIn(old(Snapshot()), reply.accessToken, reply.user)
      ensures reply.ok ==> (IsAuthenticated() <==> reply.accessToken != "")
      ensures !reply.ok ==> r == Fail(LoginFailed) && Snapshot() == old(Snapshot())
    {
      sent := sent + [Request(apiBaseUrl + LoginPath, Credentials(email, password))];
      if !reply.ok {
        return Fail(LoginFailed);
      }
      Adopt(reply);
      r := Pass;
    }

    method Signup(data: SignupData, reply: Reply) returns (r: Outcome<string>)
      requires Valid()
      modifies this
      ensures Valid()
      ensures sent == old(sent) + [Request(apiBaseUrl + SignupPath, Registration(data))]
      ensures reply.ok ==> r == Pass && Snapshot() == SignedIn(old(Snapshot()), reply.accessToken, reply.user)
      ensures reply.ok ==> (IsAuthenticated() <==> reply.accessToken != "")
      ensures !reply.ok ==> r == Fail(OrElse(reply.detail, SignupFailed)) && Snapshot() == old(Snapshot())
      ensures !reply.ok ==> r.Fail? && r.error != ""
    {
      sent := sent + [Request(apiBaseUrl + SignupPath, Registration(data))];
      if !reply.ok {
        return Fail(OrElse(reply.detail, SignupFailed));
      }
      Adopt(reply);
      r := Pass;
    }

    method Logout()
      requires Valid()
      modifies this
      ensures Valid()
      ensures Snapshot() == SignedOut(old(Snapshot())) && sent == old(sent)
      ensures !IsAuthenticated()
    {
      token := None;
      user := None;
      storage := storage - {TokenKey};
      storage := storage - {UserKey};
    }

    function IsAuthenticated(): (b: bool)
      reads this
      ensures b <==> token.Some? && token.value != ""
    {
      Authenticated(Snapshot())
    }
  }
}
