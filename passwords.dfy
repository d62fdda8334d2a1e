/** The user document and its two password methods. The adaptive hash is an
    uninterpreted function `hash` applied to `password + pepper`; `hash(x)` stands
    for any digest the hash would accept for `x`. */
module Passwords {
  import opened Common

  /** A store-assigned object id. */
  type Id = nat
  /** A password digest, as the hash produces it; never empty. */
  type Digest = s: string | s != "" witness "$"

  /** A persisted user: its id, its unique user name and its password digest,
      `None` when no password is set (the field is `null`). */
  datatype User = User(id: Id, userName: string, encryptedPassword: Option<Digest>)

  /** The default of the `minPasswordLength` option. */
  const DefaultMinPasswordLength: int := 6

  /** `options.minPasswordLength || 6`: a configured 0 is falsy and means 6. */
  function MinLength(configured: int): (l: int)
    ensures configured != 0 ==> l == configured
    ensures configured == 0 ==> l == DefaultMinPasswordLength
  {
    if configured == 0 then DefaultMinPasswordLength else configured
  }

  /** `comparePassword`: the candidate, concatenated with the pepper the way
      JavaScript does it, is compared with the stored digest, or with `""` when
      none is stored, which no digest equals since digests are never empty. */
  function ComparePassword(u: User, password: Option<string>, pepper: string, hash: string -> Digest): (matches: bool)
    ensures u.encryptedPassword.None? ==> !matches
    ensures matches <==> u.encryptedPassword == Some(hash(JsString(password) + pepper))
  {
    match u.encryptedPassword
    case None => false
    case Some(stored) => stored == hash(JsString(password) + pepper)
  }

  /** A user document that is being built before it is saved. */
  class UserDocument {
    const id: Id
    const userName: string
    var encryptedPassword: Option<Digest>

    constructor (id: Id, userName: string)
      ensures this.id == id && this.userName == userName
      ensures encryptedPassword == None
    {
      this.id := id;
      this.userName := userName;
      encryptedPassword := None;
    }

    /** The record the document is saved as. */
    function Record(): (u: User)
      reads this
      ensures u.id == id && u.userName == userName && u.encryptedPassword == encryptedPassword
    {
      User(id, userName, encryptedPassword)
    }

    /** `setPassword`: a falsy password clears the digest; a password shorter than
        `minPasswordLength || 6` is refused with the digest left as it was; any
        other password is stored as the digest of `password + pepper`. */
    method SetPassword(password: Option<string>, minPasswordLength: int, pepper: string, hash: string -> Digest)
      returns (r: Result<()>)
      modifies this
      ensures Falsy(password) ==> r == Ok(()) && encryptedPassword == None
      ensures !Falsy(password) && |password.value| < MinLength(minPasswordLength) ==>
                r == Err(Unauthorized(PasswordTooShort(MinLength(minPasswordLength))))
                && encryptedPassword == old(encryptedPassword)
      ensures !Falsy(password) && |password.value| >= MinLength(minPasswordLength) ==>
                r == Ok(()) && encryptedPassword == Some(hash(password.value + pepper))
    {
      if Falsy(password) {
        encryptedPassword := None;
        return Ok(());
      }
      var l := MinLength(minPasswordLength);
      if |password.value| < l {
        return Err(Unauthorized(PasswordTooShort(l)));
      }
      encryptedPassword := Some(hash(password.value + pepper));
      r := Ok(());
    }
  }

  /** Whether the hash never maps two inputs to one digest. */
  ghost predicate Injective(hash: string -> Digest) {
    forall x, y :: hash(x) == hash(y) ==> x == y
  }

  /** A password set by `setPassword` is accepted by `comparePassword`; with an
      injective hash it is the only candidate accepted, except that a missing
      candidate (`undefined`) is accepted when the password set was the string
      "undefined". */
  lemma SetThenCompare(u: User, p: string, candidate: Option<string>, pepper: string, hash: string -> Digest)
    requires u.encryptedPassword == Some(hash(p + pepper))
    ensures ComparePassword(u, Some(p), pepper, hash)
    ensures Injective(hash) ==>
              (ComparePassword(u, candidate, pepper, hash) <==>
                 candidate == Some(p) || (candidate == None && p == "undefined"))
  {
    if Injective(hash) && ComparePassword(u, candidate, pepper, hash) {
      assert hash(JsString(candidate) + pepper) == hash(p + pepper);
      assert JsString(candidate) + pepper == p + pepper;
      assert JsString(candidate) == (JsString(candidate) + pepper)[..|JsString(candidate)|];
      assert |JsString(candidate)| == |p|;
      assert p == (p + pepper)[..|p|];
    }
  }
}
