/** The three authentication schemes the plugin registers: `jetono-token` (a bearer
    token from the header or the query), `jetono-signin` (a `Basic` header, or the
    user name and password of the payload, exchanged for a new access token) and
    `jetono-signup` (a new user and its first access token from the payload),
    and the plugin options they read. */
module Schemes {
  import opened Common
  import opened Passwords
  import opened Requests
  import opened Store
  import Tokens

  /** A value of a credentials object: a string, or a user's id (the store's
      `user.id`, here the model's `Id` rather than its hex string). */
  datatype Value = Str(s: string) | ObjectId(id: Id)

  /** `request.auth.credentials`, a JavaScript object; `{}` is the empty map. */
  type Credentials = map<string, Value>
  /** `request.auth.artifacts`; an absent artifacts object reads as `{}`. */
  type Artifacts = map<string, string>

  /** A `validateToken` hook: given the resolved access token, `Some(e)` when it
      throws `e`, `None` when it accepts. Its errors are drawn from `Error`. */
  type Hook = AccessTokenView -> Option<Error>

  /** The plugin options the core reads. */
  datatype Options = Options(
    tokenField: string,
    validateToken: Option<Hook>,
    minPasswordLength: int,
    pepper: string)

  /** The options' defaults. */
  const DefaultTokenField: string := "token"
  const DefaultPepper: string := "JcmjuDxZf8zm"
  /** The default lifetime of a cached token lookup (the cache is not modelled). */
  const DefaultAccessTokenCacheExpiresIn: int := 300000

  function DefaultOptions(): (o: Options)
    ensures o.validateToken.None? && o.tokenField == DefaultTokenField
    ensures MinLength(o.minPasswordLength) == DefaultMinPasswordLength
    ensures |o.pepper| >= 10
  {
    Options(DefaultTokenField, None, DefaultMinPasswordLength, DefaultPepper)
  }

  /** The per-route configuration of a scheme. */
  datatype SchemeConfig = SchemeConfig(
    validateToken: Option<Hook>,
    userNameField: Option<string>,
    passwordField: Option<string>,
    repeatPasswordField: Option<string>)

  /** What an `authenticate` phase replies with. */
  datatype AuthResult = AuthResult(credentials: Credentials, artifacts: Artifacts)

  /** The credentials every scheme writes for a user: `{username, id}`. */
  function Identity(u: User): (c: Credentials)
    ensures c.Keys == {"username", "id"}
    ensures c["username"] == Str(u.userName) && c["id"] == ObjectId(u.id)
  {
    map["username" := Str(u.userName), "id" := ObjectId(u.id)]
  }

  /** The artifacts of a sign-in or sign-up: `{token}`. */
  function TokenArtifacts(token: string): (a: Artifacts)
    ensures a.Keys == {"token"} && a["token"] == token
  {
    map["token" := token]
  }

  /** `request.auth`: what the authentication phases have established so far;
      the payload phases assign to it. */
  class RequestAuth {
    var credentials: Credentials
    var artifacts: Artifacts

    /** The state hapi leaves after an `authenticate` phase replied `result`. */
    constructor (result: AuthResult)
      ensures credentials == result.credentials && artifacts == result.artifacts
    {
      credentials := result.credentials;
      artifacts := result.artifacts;
    }
  }

  // ---------------------------------------------------------------------------
  // jetono-token

  /** `config.validateToken || options.validateToken`: the route's hook wins. */
  function ActiveHook(config: SchemeConfig, options: Options): (h: Option<Hook>)
    ensures config.validateToken.Some? ==> h == config.validateToken
    ensures config.validateToken.None? ==> h == options.validateToken
  {
    if config.validateToken.Some? then config.validateToken else options.validateToken
  }

  /** The token scheme's `authenticate`: no token is `unauthorized`, checked
      before a missing store, which is an internal error; an unknown token is
      `unauthorized("Invalid token")`; the active hook may then reject; otherwise
      the credentials are the token's user's `{username, id}`. */
  function TokenAuthenticate(request: Request, models: Models?, options: Options, config: SchemeConfig)
    : (r: Result<Credentials>)
    reads models
    requires models != null ==> models.Valid()
    ensures ExtractToken(request, options.tokenField).None? ==> r == Err(Unauthorized(NoReason))
    ensures ExtractToken(request, options.tokenField).Some? && models == null ==> r == Err(ModelsRequired)
    ensures models != null && ExtractToken(request, options.tokenField).Some? &&
            ExtractToken(request, options.tokenField).value !in models.tokens ==>
              r == Err(Unauthorized(InvalidToken))
    ensures r.Ok? ==> models != null && ExtractToken(request, options.tokenField).Some? &&
                      var t := ExtractToken(request, options.tokenField).value;
                      t in models.tokens && models.userNames[models.tokens[t]] in models.users &&
                      r.value == Identity(models.users[models.userNames[models.tokens[t]]])
    ensures models != null && ExtractToken(request, options.tokenField).Some? &&
            ExtractToken(request, options.tokenField).value in models.tokens ==>
              var at := models.Resolve(ExtractToken(request, options.tokenField).value).value;
              var hook := ActiveHook(config, options);
              (hook.None? || hook.value(at).None? ==> r == Ok(Identity(at.user)))
              && (hook.Some? && hook.value(at).Some? ==> r == Err(hook.value(at).value))
  {
    match ExtractToken(request, options.tokenField)
    case None => Err(Unauthorized(NoReason))
    case Some(token) =>
      if models == null then Err(ModelsRequired)
      else
        match models.Resolve(token)
        case None => Err(Unauthorized(InvalidToken))
        case Some(accessToken) =>
          var hook := ActiveHook(config, options);
          if hook.Some? && hook.value(accessToken).Some? then Err(hook.value(accessToken).value)
          else Ok(Identity(accessToken.user))
  }

  /** A stored token presented as `Bearer <token>` authenticates as its user
      when no hook rejects it, and the hook's error is the verdict when one
      does. */
  lemma BearerTokenAuthenticates(models: Models, token: string, query: map<string, string>,
                                 payload: Option<map<string, string>>, options: Options, config: SchemeConfig)
    requires models.Valid()
    requires token in models.tokens && token != "" && ' ' !in token
    ensures var r := TokenAuthenticate(Request(Some("Bearer " + token), query, payload), models, options, config);
            var at := models.Resolve(token).value;
            var hook := ActiveHook(config, options);
            (hook.None? || hook.value(at).None? ==> r == Ok(Identity(at.user)))
            && (hook.Some? && hook.value(at).Some? ==> r == Err(hook.value(at).value))
  {
    var request := Request(Some("Bearer " + token), query, payload);
    assert "Bearer " + token == "Bearer" + " " + token + "";
    HeaderToken("Bearer", token, "", query, payload, options.tokenField);
    assert ExtractToken(request, options.tokenField) == Some(token);
  }

  /** A stored token given only as the `tokenField` query parameter, with no
      second header field, authenticates the same way. */
  lemma QueryTokenAuthenticates(models: Models, request: Request, token: string,
                                options: Options, config: SchemeConfig)
    requires models.Valid()
    requires request.authorization.None? || ' ' !in request.authorization.value
    requires QueryParameter(request, options.tokenField) == Some(token)
    requires token in models.tokens && token != ""
    ensures var r := TokenAuthenticate(request, models, options, config);
            var at := models.Resolve(token).value;
            var hook := ActiveHook(config, options);
            (hook.None? || hook.value(at).None? ==> r == Ok(Identity(at.user)))
            && (hook.Some? && hook.value(at).Some? ==> r == Err(hook.value(at).value))
  {
    QueryToken(request, options.tokenField);
  }

  // ---------------------------------------------------------------------------
  // createToken

  /** The outcome `createToken` computes from the store's state: a missing store
      is an internal error; an unknown user or a password that does not compare
      is `unauthorized`; otherwise the token generated from `buf`, unless the
      unique index already holds it. */
  function CreateTokenOutcome(models: Models?, userName: Option<string>, password: Option<string>,
                              pepper: string, hash: string -> Digest, buf: seq<Tokens.byte>)
    : (r: Result<AccessTokenView>)
    reads models
    requires models != null ==> models.Valid()
    ensures models == null ==> r == Err(ModelsRequired)
    ensures r.Ok? <==> models != null && models.FindUser(userName).Some? &&
                       ComparePassword(models.FindUser(userName).value, password, pepper, hash) &&
                       Tokens.TokenOf(buf) !in models.tokens
    ensures r.Ok? ==> r.value.user == models.users[userName.value] && r.value.token == Tokens.TokenOf(buf)
    ensures models != null && (models.FindUser(userName).None? ||
                               !ComparePassword(models.FindUser(userName).value, password, pepper, hash)) ==>
              r == Err(Unauthorized(NoReason))
  {
    if models == null then Err(ModelsRequired)
    else
      match models.FindUser(userName)
      case None => Err(Unauthorized(NoReason))
      case Some(user) =>
        if !ComparePassword(user, password, pepper, hash) then Err(Unauthorized(NoReason))
        else if Tokens.TokenOf(buf) in models.tokens then Err(DuplicateKey(TokenIndex))
        else Ok(AccessTokenView(Tokens.TokenOf(buf), user))
  }

  /** A generated token is 24 letters and digits, so it is non-empty and has no
      space. */
  lemma GeneratedTokenShape(buf: seq<Tokens.byte>)
    requires |buf| == Tokens.TokenLength
    ensures |Tokens.TokenOf(buf)| == Tokens.TokenLength
    ensures ' ' !in Tokens.TokenOf(buf)
  {
    Tokens.TokenOfSpec(buf);
    var t := Tokens.TokenOf(buf);
    assert forall i :: 0 <= i < |t| ==> t[i] != ' ';
  }

  /** `createToken`: checks the store, looks the user up, compares the password
      and saves one new access token bound to the user; nothing else in the
      store changes, and nothing at all on failure. */
  method CreateToken(models: Models?, userName: Option<string>, password: Option<string>,
                     pepper: string, hash: string -> Digest, buf: seq<Tokens.byte>)
    returns (r: Result<AccessTokenView>)
    requires |buf| == Tokens.TokenLength
    requires models != null ==> models.Valid()
    modifies models
    ensures r == old(CreateTokenOutcome(models, userName, password, pepper, hash, buf))
    ensures models != null ==> models.Valid() && models.users == old(models.users)
                               && models.userNames == old(models.userNames)
    ensures models != null && r.Err? ==> models.tokens == old(models.tokens)
    ensures r.Ok? ==> models != null && r.value.token !in old(models.tokens)
                      && models.tokens == old(models.tokens)[r.value.token := r.value.user.id]
                      && models.Resolve(r.value.token) == Some(r.value)
  {
    if models == null {
      return Err(ModelsRequired);
    }
    var user := models.FindUser(userName);
    if user.None? {
      return Err(Unauthorized(NoReason));
    }
    if !ComparePassword(user.value, password, pepper, hash) {
      return Err(Unauthorized(NoReason));
    }
    var doc := new AccessTokenDocument(user.value.id);
    var saved := models.SaveAccessToken(doc, buf);
    match saved {
      case Err(e) =>
        r := Err(e);
      case Ok(token) =>
        r := Ok(AccessTokenView(token, user.value));
    }
  }

  // ---------------------------------------------------------------------------
  // jetono-signin

  /** JavaScript truthiness of a credentials value. */
  predicate Truthy(v: Value) {
    match v
    case Str(s) => s != ""
    case ObjectId(_) => true
  }

  /** The test the sign-in payload phase starts with, as written: it reads the
      key `userName` of the credentials, which no scheme of the plugin writes
      (they write `username`). */
  predicate ShortCircuits(credentials: Credentials, artifacts: Artifacts)
    ensures ShortCircuits(credentials, artifacts) ==> "userName" in credentials && "token" in artifacts
  {
    "userName" in credentials && Truthy(credentials["userName"])
    && "token" in artifacts && artifacts["token"] != ""
  }

  /** The test reads `userName` only: setting or changing `username` never
      changes its verdict, and credentials carrying a truthy `userName` with a
      non-empty token artifact do pass it. */
  lemma ShortCircuitReadsUserName(credentials: Credentials, artifacts: Artifacts, v: Value,
                                  name: string, token: string)
    requires name != "" && token != ""
    ensures ShortCircuits(credentials["username" := v], artifacts) == ShortCircuits(credentials, artifacts)
    ensures ShortCircuits(map["userName" := Str(name)], TokenArtifacts(token))
  {
    assert "userName" != "username" by {
      assert "userName"[4] != "username"[4];
    }
  }

  /** No credentials the plugin writes pass the short-circuit test: neither the
      `{}` of an unauthenticated sign-in nor any `{username, id}`. */
  lemma ShortCircuitNeverFires(u: User, artifacts: Artifacts)
    ensures !ShortCircuits(map[], artifacts)
    ensures !ShortCircuits(Identity(u), artifacts)
  {
    assert "userName" != "username" by {
      assert "userName"[4] != "username"[4];
    }
  }

  /** The sign-in scheme's `authenticate`: a `Basic` header is exchanged for a new
      token through `createToken`; any other request is accepted with empty
      credentials, for the payload phase to decide. `decode` is the base64
      decoding of the header's second field. */
  method SigninAuthenticate(request: Request, models: Models?, options: Options,
                            hash: string -> Digest, decode: string -> string, buf: seq<Tokens.byte>)
    returns (r: Result<AuthResult>)
    requires |buf| == Tokens.TokenLength
    requires models != null ==> models.Valid()
    modifies models
    ensures models != null ==> models.Valid() && models.users == old(models.users)
                               && models.userNames == old(models.userNames)
    ensures ParseBasic(request, decode).None? ==>
              r == Ok(AuthResult(map[], map[])) && (models != null ==> models.tokens == old(models.tokens))
    ensures ParseBasic(request, decode).Some? ==>
              var c := ParseBasic(request, decode).value;
              var o := old(CreateTokenOutcome(models, Some(c.userName), c.password, options.pepper, hash, buf));
              (o.Err? ==> r == Err(o.error) && (models != null ==> models.tokens == old(models.tokens)))
              && (o.Ok? ==> r == Ok(AuthResult(Identity(o.value.user), TokenArtifacts(o.value.token)))
                            && models.tokens == old(models.tokens)[o.value.token := o.value.user.id])
  {
    var basic := ParseBasic(request, decode);
    if basic.None? {
      return Ok(AuthResult(map[], map[]));
    }
    var result := CreateToken(models, Some(basic.value.userName), basic.value.password, options.pepper, hash, buf);
    match result {
      case Err(e) =>
        r := Err(e);
      case Ok(at) =>
        r := Ok(AuthResult(Identity(at.user), TokenArtifacts(at.token)));
    }
  }

  /** The user name and password the sign-in payload phase passes to
      `createToken`: the configured payload fields, `username` and `password`
      by default. */
  function SigninUserName(request: Request, config: SchemeConfig): (v: Option<string>)
    ensures var field := if Falsy(config.userNameField) then "username" else config.userNameField.value;
            (v.Some? <==> request.payload.Some? && field in request.payload.value)
            && (v.Some? ==> v.value == request.payload.value[field])
  {
    PayloadField(request, FieldName(config.userNameField, "username"))
  }

  function SigninPassword(request: Request, config: SchemeConfig): (v: Option<string>)
    ensures var field := if Falsy(config.passwordField) then "password" else config.passwordField.value;
            (v.Some? <==> request.payload.Some? && field in request.payload.value)
            && (v.Some? ==> v.value == request.payload.value[field])
  {
    PayloadField(request, FieldName(config.passwordField, "password"))
  }

  /** The sign-in scheme's `payload` phase: returns at once, changing nothing,
      when the short-circuit test passes; otherwise runs `createToken` on the
      payload's user name and password and, on success, sets the credentials to
      the user's `{username, id}` and the artifacts to the new token. */
  method SigninPayload(request: Request, auth: RequestAuth, models: Models?, options: Options,
                       config: SchemeConfig, hash: string -> Digest, buf: seq<Tokens.byte>)
    returns (r: Result<()>)
    requires |buf| == Tokens.TokenLength
    requires models != null ==> models.Valid()
    modifies auth, models
    ensures models != null ==> models.Valid() && models.users == old(models.users)
                               && models.userNames == old(models.userNames)
    ensures ShortCircuits(old(auth.credentials), old(auth.artifacts)) ==>
              r == Ok(()) && unchanged(auth) && (models != null ==> unchanged(models))
    ensures !ShortCircuits(old(auth.credentials), old(auth.artifacts)) ==>
              var o := old(CreateTokenOutcome(models, SigninUserName(request, config),
                                              SigninPassword(request, config), options.pepper, hash, buf));
              (o.Err? ==> r == Err(o.error) && unchanged(auth)
                          && (models != null ==> models.tokens == old(models.tokens)))
              && (o.Ok? ==> r == Ok(()) && auth.credentials == Identity(o.value.user)
                            && auth.artifacts == TokenArtifacts(o.value.token)
                            && models.tokens == old(models.tokens)[o.value.token := o.value.user.id])
  {
    if ShortCircuits(auth.credentials, auth.artifacts) {
      return Ok(());
    }
    var userName := SigninUserName(request, config);
    var password := SigninPassword(request, config);
    var result := CreateToken(models, userName, password, options.pepper, hash, buf);
    match result {
      case Err(e) =>
        r := Err(e);
      case Ok(at) =>
        auth.credentials := Identity(at.user);
        auth.artifacts := TokenArtifacts(at.token);
        r := Ok(());
    }
  }

  /** One sign-in request going through both phases: a request whose `Basic`
      header signs in has its payload phase run `createToken` again, so when the
      payload names the same user and password the store ends up with two new
      tokens for that user, and the request's artifacts carry the second. */
  method SigninRequest(request: Request, models: Models?, options: Options, config: SchemeConfig,
                       hash: string -> Digest, decode: string -> string,
                       buf1: seq<Tokens.byte>, buf2: seq<Tokens.byte>)
    returns (r: Result<AuthResult>)
    requires |buf1| == Tokens.TokenLength && |buf2| == Tokens.TokenLength
    requires models != null ==> models.Valid()
    requires request.payload.Some?
    modifies models
    ensures models != null ==> models.Valid() && models.users == old(models.users)
    ensures r.Ok? && ParseBasic(request, decode).Some? ==>
              models != null && Tokens.TokenOf(buf1) in models.tokens && Tokens.TokenOf(buf2) in models.tokens
              && Tokens.TokenOf(buf1) != Tokens.TokenOf(buf2)
              && Tokens.TokenOf(buf1) !in old(models.tokens) && Tokens.TokenOf(buf2) !in old(models.tokens)
              && r.value.artifacts == TokenArtifacts(Tokens.TokenOf(buf2))
  {
    var first := SigninAuthenticate(request, models, options, hash, decode, buf1);
    if first.Err? {
      return Err(first.error);
    }
    var auth := new RequestAuth(first.value);
    ghost var afterFirst := if models != null then models.tokens else map[];
    if ParseBasic(request, decode).Some? {
      ShortCircuitNeverFires(models.FindUser(Some(ParseBasic(request, decode).value.userName)).value,
                             first.value.artifacts);
    } else {
      ShortCircuitNeverFires(User(0, "", None), first.value.artifacts);
    }
    var second := SigninPayload(request, auth, models, options, config, hash, buf2);
    if second.Err? {
      return Err(second.error);
    }
    r := Ok(AuthResult(auth.credentials, auth.artifacts));
  }

  // ---------------------------------------------------------------------------
  // jetono-signup

  /** The sign-up scheme's `authenticate`: no decision before the payload is read. */
  function SignupAuthenticate(request: Request): (r: AuthResult)
    ensures r.credentials == map[] && r.artifacts == map[]
  {
    AuthResult(map[], map[])
  }

  /** The user name and password a sign-up payload supplies. */
  datatype SignupFields = SignupFields(userName: string, password: string)

  /** The checks the sign-up payload phase makes before it touches the store, in
      order: any of the three fields missing or empty is `badRequest`; a repeated
      password that differs is `unauthorized("Passwords are mismatched")`. */
  function SignupCheck(request: Request, config: SchemeConfig): (r: Result<SignupFields>)
    ensures var userName := PayloadField(request, FieldName(config.userNameField, "username"));
            var password := PayloadField(request, FieldName(config.passwordField, "password"));
            var repeat := PayloadField(request, FieldName(config.repeatPasswordField, "repeatPassword"));
            (r == Err(BadRequest) <==> Falsy(userName) || Falsy(password) || Falsy(repeat))
            && (r == Err(Unauthorized(PasswordsMismatched)) <==>
                  !Falsy(userName) && !Falsy(password) && !Falsy(repeat) && repeat.value != password.value)
            && (r.Ok? <==> !Falsy(userName) && !Falsy(password) && repeat == password)
            && (r.Ok? ==> r.value == SignupFields(userName.value, password.value))
  {
    var userName := PayloadField(request, FieldName(config.userNameField, "username"));
    var password := PayloadField(request, FieldName(config.passwordField, "password"));
    var repeat := PayloadField(request, FieldName(config.repeatPasswordField, "repeatPassword"));
    if Falsy(userName) || Falsy(password) || Falsy(repeat) then Err(BadRequest)
    else if repeat.value != password.value then Err(Unauthorized(PasswordsMismatched))
    else Ok(SignupFields(userName.value, password.value))
  }

  /** The user the sign-up payload phase creates: a new user document named
      `userName` with id `id`, its password set, then saved. A password too short
      and a name already taken leave the store as it was. */
  method CreateUser(models: Models, userName: string, password: string, options: Options,
                    hash: string -> Digest, id: Id)
    returns (r: Result<User>)
    requires models.Valid() && id !in models.userNames
    requires userName != "" && password != ""
    modifies models
    ensures models.Valid() && models.tokens == old(models.tokens)
    ensures var l := MinLength(options.minPasswordLength);
            (|password| < l ==> r == Err(Unauthorized(PasswordTooShort(l))))
            && (|password| >= l && userName in old(models.users) ==> r == Err(DuplicateKey(UserNameIndex)))
            && (|password| >= l && userName !in old(models.users) ==>
                  r == Ok(User(id, userName, Some(hash(password + options.pepper)))))
    ensures r.Err? ==> unchanged(models)
    ensures r.Ok? ==> models.users == old(models.users)[userName := r.value]
                      && models.userNames == old(models.userNames)[id := userName]
  {
    var user := new UserDocument(id, userName);
    var hashed := user.SetPassword(Some(password), options.minPasswordLength, options.pepper, hash);
    if hashed.Err? {
      return Err(hashed.error);
    }
    var saved := models.SaveUser(user);
    if saved.Err? {
      return Err(saved.error);
    }
    r := Ok(user.Record());
  }

  /** The sign-up scheme's `payload` phase: after `SignupCheck`, a missing store
      is an internal error; then the user is created (`CreateUser`) and one
      access token bound to it is saved; the credentials and artifacts are set
      last. A token save that fails leaves the saved user in place. */
  method SignupPayload(request: Request, auth: RequestAuth, models: Models?, options: Options,
                       config: SchemeConfig, hash: string -> Digest, id: Id, buf: seq<Tokens.byte>)
    returns (r: Result<()>)
    requires |buf| == Tokens.TokenLength
    requires models != null ==> models.Valid() && id !in models.userNames
    modifies auth, models
    ensures models != null ==> models.Valid()
    ensures SignupCheck(request, config).Err? ==>
              r == Err(SignupCheck(request, config).error) && unchanged(auth)
              && (models != null ==> unchanged(models))
    ensures SignupCheck(request, config).Ok? && models == null ==> r == Err(ModelsRequired) && unchanged(auth)
    ensures SignupCheck(request, config).Ok? && models != null ==>
              var f := SignupCheck(request, config).value;
              var l := MinLength(options.minPasswordLength);
              var u := User(id, f.userName, Some(hash(f.password + options.pepper)));
              var t := Tokens.TokenOf(buf);
              (|f.password| < l ==>
                 r == Err(Unauthorized(PasswordTooShort(l))) && unchanged(auth) && unchanged(models))
              && (|f.password| >= l && f.userName in old(models.users) ==>
                    r == Err(DuplicateKey(UserNameIndex)) && unchanged(auth) && unchanged(models))
              && (|f.password| >= l && f.userName !in old(models.users) ==>
                    models.users == old(models.users)[f.userName := u]
                    && models.userNames == old(models.userNames)[id := f.userName]
                    && (t in old(models.tokens) ==>
                          r == Err(DuplicateKey(TokenIndex)) && unchanged(auth)
                          && models.tokens == old(models.tokens))
                    && (t !in old(models.tokens) ==>
                          r == Ok(()) && models.tokens == old(models.tokens)[t := id]
                          && auth.credentials == Identity(u) && auth.artifacts == TokenArtifacts(t)))
    ensures r.Ok? ==> models != null && SignupCheck(request, config).Ok?
                      && var f := SignupCheck(request, config).value;
                      var u := models.FindUser(Some(f.userName));
                      u.Some? && ComparePassword(u.value, Some(f.password), options.pepper, hash)
                      && models.Resolve(Tokens.TokenOf(buf)) == Some(AccessTokenView(Tokens.TokenOf(buf), u.value))
  {
    var check := SignupCheck(request, config);
    if check.Err? {
      return Err(check.error);
    }
    if models == null {
      return Err(ModelsRequired);
    }
    var f := check.value;
    var created := CreateUser(models, f.userName, f.password, options, hash, id);
    if created.Err? {
      return Err(created.error);
    }
    var user := created.value;
    var doc := new AccessTokenDocument(user.id);
    var token := models.SaveAccessToken(doc, buf);
    if token.Err? {
      return Err(token.error);
    }
    auth.credentials := Identity(user);
    auth.artifacts := TokenArtifacts(token.value);
    r := Ok(());
    assert models.FindUser(Some(f.userName)) == Some(user);
  }
}
