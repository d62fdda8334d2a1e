/** Values and errors shared by every part of the plugin: an Option for JavaScript's
    `undefined`, JavaScript truthiness of a string, and the hapi (Boom) errors the
    schemes raise, with a Result that carries either a value or one of them. */
module Common {

  /** `None` stands for a JavaScript `undefined` (or `null`) value. */
  datatype Option<+T> = None | Some(value: T) {
    function GetOr(default: T): T {
      match this
      case Some(v) => v
      case None => default
    }
  }

  /** `!v` in JavaScript for a value that is a string or undefined. */
  predicate Falsy(v: Option<string>) {
    v.None? || v.value == ""
  }

  /** The string JavaScript's `+` makes of a string-or-undefined operand. */
  function JsString(v: Option<string>): (s: string)
    ensures v.Some? ==> s == v.value
    ensures v.None? ==> s == "undefined"
  {
    match v
    case Some(x) => x
    case None => "undefined"
  }

  /** The reason text of an `unauthorized` error. */
  datatype Reason =
    | NoReason                       // `unauthorized()` with no message
    | InvalidToken                   // "Invalid token"
    | PasswordsMismatched            // "Passwords are mismatched"
    | PasswordTooShort(minLength: int)  // "Password must contains more or equal <l> symbols"

  /** The unique index of the store whose violation a save reports. */
  datatype UniqueIndex = UserNameIndex | TokenIndex

  datatype Error =
    | Unauthorized(reason: Reason)   // hapi.error.unauthorized, status 401
    | BadRequest                     // hapi.error.badRequest, status 400
    | ModelsRequired                 // hapi.error.internal("plugin co-hapi-models is required"), status 500
    | UserNameRequired               // the store's `required` validator on userName
    | DuplicateKey(index: UniqueIndex)  // the store's unique-index violation

  /** The HTTP status hapi renders for an error; errors the plugin does not
      create itself (store failures) reach hapi as plain errors and become 500. */
  function StatusCode(e: Error): (code: int)
    ensures code == 401 <==> e.Unauthorized?
    ensures code == 400 <==> e.BadRequest?
    ensures code == 400 || code == 401 || code == 500
  {
    match e
    case Unauthorized(_) => 401
    case BadRequest => 400
    case _ => 500
  }

  datatype Result<+T> = Ok(value: T) | Err(error: Error)
}
