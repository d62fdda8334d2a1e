/** The parts of an inbound request the schemes read, and the pure parsing they do
    on them: JavaScript's `split`, the bearer-token extraction of the token scheme
    and the `Basic` header parsing of the sign-in scheme. */
module Requests {
  import opened Common

  /** The request as the schemes see it: the `Authorization` header (`None` when
      absent), the query parameters (an absent query reads as `{}`) and the
      parsed payload (`None` when the request has none). */
  datatype Request = Request(
    authorization: Option<string>,
    query: map<string, string>,
    payload: Option<map<string, string>>)

  /** JavaScript's `s.split(sep)` for a one-character separator: the pieces
      between separators, so there is always at least one and empty pieces
      are kept. */
  function Split(s: string, sep: char): (parts: seq<string>)
    ensures |parts| >= 1
    ensures forall i :: 0 <= i < |parts| ==> sep !in parts[i]
  {
    if s == [] then [""]
    else
      var rest := Split(s[1..], sep);
      if s[0] == sep then [""] + rest
      else [[s[0]] + rest[0]] + rest[1..]
  }

  /** JavaScript's `parts.join(sep)`. */
  function Join(parts: seq<string>, sep: char): string
    requires |parts| >= 1
  {
    if |parts| == 1 then parts[0] else parts[0] + [sep] + Join(parts[1..], sep)
  }

  /** Joining the pieces of a split gives back the string. */
  lemma {:induction false} JoinSplit(s: string, sep: char)
    ensures Join(Split(s, sep), sep) == s
  {
    if s != [] {
      JoinSplit(s[1..], sep);
      var rest := Split(s[1..], sep);
      if s[0] == sep {
        assert Split(s, sep)[1..] == rest;
      } else {
        var parts := Split(s, sep);
        assert parts[0] == [s[0]] + rest[0];
        if |rest| == 1 {
          assert s == [s[0]] + s[1..];
        } else {
          assert parts[1..] == rest[1..];
          assert Join(rest, sep) == rest[0] + [sep] + Join(rest[1..], sep);
          assert s == [s[0]] + s[1..];
        }
      }
    }
  }

  /** A piece without the separator, followed by the separator, splits off as
      the first piece. */
  lemma {:induction false} SplitAfterPiece(a: string, sep: char, b: string)
    requires sep !in a
    ensures Split(a + [sep] + b, sep) == [a] + Split(b, sep)
  {
    if a == [] {
      assert a + [sep] + b == [sep] + b;
      assert ([sep] + b)[1..] == b;
    } else {
      assert (a + [sep] + b)[1..] == a[1..] + [sep] + b;
      SplitAfterPiece(a[1..], sep, b);
      assert [a[0]] + a[1..] == a;
    }
  }

  /** Splitting pieces that do not contain the separator, once joined, gives
      the pieces back. */
  lemma {:induction false} SplitJoin(parts: seq<string>, sep: char)
    requires |parts| >= 1
    requires forall i :: 0 <= i < |parts| ==> sep !in parts[i]
    ensures Split(Join(parts, sep), sep) == parts
  {
    if |parts| == 1 {
      NoSeparator(parts[0], sep);
    } else {
      SplitJoin(parts[1..], sep);
      SplitAfterPiece(parts[0], sep, Join(parts[1..], sep));
    }
  }

  /** A string without the separator splits into itself. */
  lemma {:induction false} NoSeparator(s: string, sep: char)
    requires sep !in s
    ensures Split(s, sep) == [s]
  {
    if s != [] {
      NoSeparator(s[1..], sep);
      assert [s[0]] + s[1..] == s;
    }
  }

  /** `parts[i]`, which is `undefined` past the end. */
  function Field(parts: seq<string>, i: nat): (v: Option<string>)
    ensures v.Some? <==> i < |parts|
    ensures v.Some? ==> v.value == parts[i]
  {
    if i < |parts| then Some(parts[i]) else None
  }

  /** `request.headers.authorization || ""`: the header, or `""` without one. */
  function HeaderText(request: Request): (s: string)
    ensures request.authorization.Some? ==> s == request.authorization.value
    ensures request.authorization.None? ==> s == ""
  {
    request.authorization.GetOr("")
  }

  /** `request.query[name]`: defined exactly when the query has that key. */
  function QueryParameter(request: Request, name: string): (v: Option<string>)
    ensures v.Some? <==> name in request.query
    ensures v.Some? ==> v.value == request.query[name]
  {
    if name in request.query then Some(request.query[name]) else None
  }

  /** The token the token scheme reads: the second space-separated field of the
      `Authorization` header, or, when that is missing or empty, the query
      parameter named `tokenField`; `None` when neither gives a non-empty
      string. */
  function ExtractToken(request: Request, tokenField: string): (token: Option<string>)
    ensures token.Some? ==> token.value != ""
  {
    var fromHeader := Field(Split(HeaderText(request), ' '), 1);
    var candidate := if Falsy(fromHeader) then QueryParameter(request, tokenField) else fromHeader;
    if Falsy(candidate) then None else candidate
  }

  /** `<first><sep><second>`, followed by nothing or by further `sep`-separated
      pieces, splits with `first` and `second` as its first two pieces. */
  lemma LeadingFields(first: string, second: string, more: string, sep: char)
    requires sep !in first && sep !in second
    requires more == "" || more[0] == sep
    ensures var parts := Split(first + [sep] + second + more, sep);
            |parts| >= 2 && parts[0] == first && parts[1] == second
  {
    assert first + [sep] + second + more == first + [sep] + (second + more);
    SplitAfterPiece(first, sep, second + more);
    if more == "" {
      assert second + more == second;
      NoSeparator(second, sep);
    } else {
      assert second + more == second + [sep] + more[1..];
      SplitAfterPiece(second, sep, more[1..]);
    }
  }

  /** An `Authorization` header `<scheme> <token>`, possibly followed by more
      space-separated fields, whose token is non-empty and has no space yields
      that token, whatever the query holds. */
  lemma HeaderToken(scheme: string, token: string, rest: string, query: map<string, string>,
                    payload: Option<map<string, string>>, tokenField: string)
    requires ' ' !in scheme && ' ' !in token && token != ""
    requires rest == "" || rest[0] == ' '
    ensures ExtractToken(Request(Some(scheme + " " + token + rest), query, payload), tokenField) == Some(token)
  {
    LeadingFields(scheme, token, rest, ' ');
  }

  /** A header whose second field is empty (`<scheme> ` alone, or two spaces in a
      row after the scheme) falls back to the query parameter too. */
  lemma EmptyFieldQueryToken(scheme: string, rest: string, query: map<string, string>,
                             payload: Option<map<string, string>>, tokenField: string)
    requires ' ' !in scheme
    requires rest == "" || rest[0] == ' '
    ensures var request := Request(Some(scheme + " " + rest), query, payload);
            (Falsy(QueryParameter(request, tokenField)) ==> ExtractToken(request, tokenField) == None)
            && (!Falsy(QueryParameter(request, tokenField)) ==>
                  ExtractToken(request, tokenField) == QueryParameter(request, tokenField))
  {
    LeadingFields(scheme, "", rest, ' ');
    assert scheme + [' '] + "" + rest == scheme + " " + rest;
  }

  /** Without a second header field the token comes from the query parameter,
      when that is non-empty. */
  lemma QueryToken(request: Request, tokenField: string)
    requires request.authorization.None? || ' ' !in request.authorization.value
    ensures Falsy(QueryParameter(request, tokenField)) ==> ExtractToken(request, tokenField) == None
    ensures !Falsy(QueryParameter(request, tokenField)) ==>
              ExtractToken(request, tokenField) == QueryParameter(request, tokenField)
  {
    NoSeparator(HeaderText(request), ' ');
  }

  /** ASCII `toLowerCase`. */
  function ToLower(s: string): (t: string)
    ensures |t| == |s|
    ensures forall i :: 0 <= i < |s| ==>
              t[i] == if 'A' <= s[i] <= 'Z' then (s[i] as int + 32) as char else s[i]
  {
    if s == [] then []
    else [if 'A' <= s[0] <= 'Z' then (s[0] as int + 32) as char else s[0]] + ToLower(s[1..])
  }

  /** The user name and password a `Basic` header carries, once decoded. */
  datatype BasicCredentials = BasicCredentials(userName: string, password: Option<string>)

  /** The sign-in scheme's header parsing: when the first space-separated field
      of the header is `basic` in any case and the second is non-empty, the
      decoded second field split at `:` gives the user name (first piece) and
      the password (second piece, `undefined` without a colon). `decode` is the
      base64 decoding. */
  function ParseBasic(request: Request, decode: string -> string): (c: Option<BasicCredentials>)
    ensures c.Some? <==> var items := Split(HeaderText(request), ' ');
                         ToLower(items[0]) == "basic" && !Falsy(Field(items, 1))
  {
    var items := Split(HeaderText(request), ' ');
    if ToLower(items[0]) == "basic" && !Falsy(Field(items, 1)) then
      var pieces := Split(decode(items[1]), ':');
      Some(BasicCredentials(pieces[0], Field(pieces, 1)))
    else None
  }

  /** A header `<scheme> <encoded>`, possibly followed by more space-separated
      fields, whose scheme is `Basic` in any case and whose encoded part decodes
      to `<name>:<password>` followed by nothing or by another `:` piece yields
      that name and password: a password is cut at its first colon. */
  lemma BasicHeader(scheme: string, encoded: string, more: string, decode: string -> string,
                    name: string, password: string, rest: string,
                    query: map<string, string>, payload: Option<map<string, string>>)
    requires ToLower(scheme) == "basic"
    requires ' ' !in encoded && encoded != ""
    requires more == "" || more[0] == ' '
    requires ':' !in name && ':' !in password
    requires rest == "" || rest[0] == ':'
    requires decode(encoded) == name + ":" + password + rest
    ensures ParseBasic(Request(Some(scheme + " " + encoded + more), query, payload), decode)
            == Some(BasicCredentials(name, Some(password)))
  {
    BasicScheme(scheme);
    LeadingFields(scheme, encoded, more, ' ');
    LeadingFields(name, password, rest, ':');
  }

  /** A scheme that lower-cases to `basic` has no space. */
  lemma BasicScheme(scheme: string)
    requires ToLower(scheme) == "basic"
    ensures ' ' !in scheme
  {
    forall i | 0 <= i < |scheme| ensures scheme[i] != ' ' {
      assert ToLower(scheme)[i] == scheme[i] || 'A' <= scheme[i] <= 'Z';
    }
  }

  /** `request.payload[field]`, with an absent payload read as `{}`. */
  function PayloadField(request: Request, field: string): (v: Option<string>)
    ensures v.Some? <==> request.payload.Some? && field in request.payload.value
    ensures v.Some? ==> v.value == request.payload.value[field]
  {
    match request.payload
    case None => None
    case Some(p) => if field in p then Some(p[field]) else None
  }

  /** `configured || default`, for a configured field name. */
  function FieldName(configured: Option<string>, default: string): (name: string)
    ensures Falsy(configured) ==> name == default
    ensures !Falsy(configured) ==> name == configured.value
  {
    if Falsy(configured) then default else configured.value
  }

  /** A `Basic` header, possibly followed by more fields, whose field decodes to a
      string without a colon yields that string as the user name and an
      `undefined` password. */
  lemma BasicWithoutColon(scheme: string, encoded: string, more: string, decode: string -> string,
                          query: map<string, string>, payload: Option<map<string, string>>)
    requires ToLower(scheme) == "basic"
    requires ' ' !in encoded && encoded != ""
    requires more == "" || more[0] == ' '
    requires ':' !in decode(encoded)
    ensures ParseBasic(Request(Some(scheme + " " + encoded + more), query, payload), decode)
            == Some(BasicCredentials(decode(encoded), None))
  {
    BasicScheme(scheme);
    LeadingFields(scheme, encoded, more, ' ');
    NoSeparator(decode(encoded), ':');
  }
}
