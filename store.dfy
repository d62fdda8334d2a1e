/** The two collections the plugin registers, `users` and `accessTokens`, over
    an in-memory store: users by their unique user name, an index from user id
    to user name (what `populate("user")` follows), and access tokens by their
    unique token string, each bound to the id of its user. */
module Store {
  import opened Common
  import opened Passwords
  import Tokens

  /** An access token with its user populated. */
  datatype AccessTokenView = AccessTokenView(token: string, user: User)

  /** An access-token document before it is saved: its owner and, once the
      pre-save hook has run, its token (`""` while unset). */
  class AccessTokenDocument {
    const user: Id
    var token: string

    constructor (user: Id)
      ensures this.user == user && token == ""
    {
      this.user := user;
      token := "";
    }

    /** The pre-save hook: a document that already has a token keeps it;
        otherwise it gets the token generated from the random bytes `buf`. */
    method PreSave(buf: seq<Tokens.byte>)
      requires |buf| == Tokens.TokenLength
      modifies this
      ensures old(token) != "" ==> token == old(token)
      ensures old(token) == "" ==> token == Tokens.TokenOf(buf)
    {
      if token != "" {
        return;
      }
      token := Tokens.GenerateToken(buf);
    }
  }

  /** `request.models`: the user and access-token collections. */
  class Models {
    var users: map<string, User>
    var userNames: map<Id, string>
    var tokens: map<string, Id>

    /** Users are keyed by their own non-empty name, the id index and the user
        table agree, and every token is bound to a stored user. */
    ghost predicate Valid()
      reads this
    {
      (forall n :: n in users ==> users[n].userName == n && n != "") &&
      (forall n :: n in users ==> users[n].id in userNames && userNames[users[n].id] == n) &&
      (forall i :: i in userNames ==> userNames[i] in users && users[userNames[i]].id == i) &&
      (forall t :: t in tokens ==> tokens[t] in userNames)
    }

    constructor ()
      ensures Valid()
      ensures users == map[] && userNames == map[] && tokens == map[]
    {
      users, userNames, tokens := map[], map[], map[];
    }

    /** `findOne({userName})`: the user with that name; an `undefined` name
        matches nobody. */
    function FindUser(userName: Option<string>): (u: Option<User>)
      reads this
      requires Valid()
      ensures u.Some? <==> userName.Some? && userName.value in users
      ensures u.Some? ==> u.value.userName == userName.value && u.value in users.Values
      ensures u.Some? ==> u.value.id in userNames
    {
      if userName.Some? && userName.value in users then Some(users[userName.value]) else None
    }

    /** `findOne({token}).populate("user")`: the access token with that token
        string and its user. */
    function Resolve(token: string): (at: Option<AccessTokenView>)
      reads this
      requires Valid()
      ensures at.Some? <==> token in tokens
      ensures at.Some? ==> at.value.token == token && at.value.user.id == tokens[token]
                           && at.value.user in users.Values
    {
      if token in tokens then
        var name := userNames[tokens[token]];
        Some(AccessTokenView(token, users[name]))
      else None
    }

    /** `user.saveQ()` of a new user: refused when the name is empty (the
        `required` validator) or already taken (the unique index); otherwise the
        user is added under its name and its id. */
    method SaveUser(doc: UserDocument) returns (r: Result<()>)
      requires Valid()
      requires doc.id !in userNames
      modifies this
      ensures Valid()
      ensures tokens == old(tokens)
      ensures doc.userName == "" ==> r == Err(UserNameRequired)
      ensures doc.userName != "" && doc.userName in old(users) ==> r == Err(DuplicateKey(UserNameIndex))
      ensures r.Err? ==> unchanged(this)
      ensures r.Ok? <==> doc.userName != "" && doc.userName !in old(users)
      ensures r.Ok? ==> users == old(users)[doc.userName := doc.Record()]
                        && userNames == old(userNames)[doc.id := doc.userName]
    {
      if doc.userName == "" {
        return Err(UserNameRequired);
      }
      if doc.userName in users {
        return Err(DuplicateKey(UserNameIndex));
      }
      users := users[doc.userName := doc.Record()];
      userNames := userNames[doc.id := doc.userName];
      r := Ok(());
    }

    /** `accessToken.saveQ()`: runs the pre-save hook with the random bytes
        `buf`, then adds the token unless the unique index already holds it. */
    method SaveAccessToken(doc: AccessTokenDocument, buf: seq<Tokens.byte>) returns (r: Result<string>)
      requires Valid()
      requires doc.user in userNames
      requires |buf| == Tokens.TokenLength
      modifies this, doc
      ensures Valid()
      ensures users == old(users) && userNames == old(userNames)
      ensures old(doc.token) != "" ==> doc.token == old(doc.token)
      ensures old(doc.token) == "" ==> doc.token == Tokens.TokenOf(buf)
      ensures r.Ok? <==> doc.token !in old(tokens)
      ensures r.Ok? ==> r.value == doc.token && tokens == old(tokens)[doc.token := doc.user]
      ensures r.Err? ==> r.error == DuplicateKey(TokenIndex) && tokens == old(tokens)
    {
      doc.PreSave(buf);
      if doc.token in tokens {
        return Err(DuplicateKey(TokenIndex));
      }
      tokens := tokens[doc.token := doc.user];
      r := Ok(doc.token);
    }
  }
}
