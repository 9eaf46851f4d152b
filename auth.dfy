/**
 * The `authenticateToken` middleware: the bearer token is the second
 * space-separated piece of the `Authorization` header; it is then checked by
 * the token signer and must name a user that still exists.
 */
module Auth {
  import opened Wrappers
  import opened Text

  /** `authHeader && authHeader.split(' ')[1]`, with a falsy result as None. */
  function BearerToken(header: Option<string>): (token: Option<string>)
    ensures token.Some? ==> token.value != "" && ' ' !in token.value
    ensures token.Some? ==> header.Some? && |Split(header.value, ' ')| >= 2 && token.value == Split(header.value, ' ')[1]
  {
    if header.None? || header.value == "" then None
    else
      var parts := Split(header.value, ' ');
      if |parts| < 2 || parts[1] == "" then None else Some(parts[1])
  }

  /** `Bearer <token>`, optionally followed by more space-separated text, yields the token. */
  lemma BearerRoundTrip(scheme: string, token: string, rest: string)
    requires ' ' !in scheme && ' ' !in token && token != ""
    requires rest == "" || rest[0] == ' '
    ensures BearerToken(Some(scheme + " " + token + rest)) == Some(token)
  {
    var header := scheme + " " + token + rest;
    if rest == "" {
      assert header == scheme + [' '] + token;
      SplitAfterPiece(scheme, ' ', token);
      SplitWithoutSeparator(token, ' ');
    } else {
      assert header == scheme + [' '] + (token + [' '] + rest[1..]);
      SplitAfterPiece(scheme, ' ', token + [' '] + rest[1..]);
      SplitAfterPiece(token, ' ', rest[1..]);
    }
  }

  /** A missing header, or one with no space at all, carries no token. */
  lemma NoSpaceNoToken(header: Option<string>)
    requires header.Some? ==> ' ' !in header.value
    ensures BearerToken(header) == None
  {
    if header.Some? {
      SplitWithoutSeparator(header.value, ' ');
    }
  }

  /** What the middleware decides; the codes are 401, 403, 401 and "go on". */
  datatype AuthOutcome =
    | MissingToken
    | InvalidToken
    | UnknownUser
    | Authenticated(userId: string)

  function Status(o: AuthOutcome): int
  {
    match o
    case MissingToken => 401
    case InvalidToken => 403
    case UnknownUser => 401
    case Authenticated(_) => 200
  }

  /**
   * The middleware. `verify` stands for the token signer's check: it yields the
   * `userId` the token was issued for, or None when the token is invalid or
   * expired. `userIds` are the identifiers of the users in the store.
   */
  function Authenticate(header: Option<string>, verify: string -> Option<string>, userIds: set<string>): (o: AuthOutcome)
    ensures o.Authenticated? <==>
              BearerToken(header).Some? && verify(BearerToken(header).value).Some? &&
              verify(BearerToken(header).value).value in userIds
    ensures o.Authenticated? ==> o.userId == verify(BearerToken(header).value).value
    ensures Status(o) == 401 <==> BearerToken(header).None? || (verify(BearerToken(header).value).Some? && !o.Authenticated?)
    ensures Status(o) == 403 <==> BearerToken(header).Some? && verify(BearerToken(header).value).None?
  {
    match BearerToken(header)
    case None => MissingToken
    case Some(token) =>
      match verify(token)
      case None => InvalidToken
      case Some(userId) => if userId in userIds then Authenticated(userId) else UnknownUser
  }
}
