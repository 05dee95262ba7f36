/** The connection gate: the socket middleware that admits a connection
    only with a token that verifies and names an existing user. The token
    verifier and the user lookup are outside the model and are given as
    functions. */
module Gate {
  import opened JsText
  import opened Identity
  import opened Outcomes

  /** Why a connection is refused; it is then never registered. */
  datatype AuthError = NoToken | InvalidToken | UserNotFound

  /** What every refusal message starts with. */
  const AuthPrefix: Text := Units("Authentication error: ")

  /** The error message the refused client receives. */
  function Reason(e: AuthError): (r: Text)
    ensures |r| > |AuthPrefix|
    ensures r[..|AuthPrefix|] == AuthPrefix
  {
    AuthPrefix + Units(match e
                       case NoToken => "No token"
                       case InvalidToken => "Invalid token"
                       case UserNotFound => "User not found")
  }

  /** The three refusal messages differ, so the client can tell from the
      message alone why it was refused. */
  lemma ReasonIdentifiesError(e1: AuthError, e2: AuthError)
    requires Reason(e1) == Reason(e2)
    ensures e1 == e2
  {
    assert |Reason(e1)| == |Reason(e2)|;
  }

  /** What the user lookup answers for an id: the user, no user, or an
      exception (a database failure or an id that is not an ObjectId). */
  datatype Lookup = Found(user: User) | NotFound | LookupThrows

  /** The middleware's decision for the handshake token `token`. `verify`
      gives the user id a token carries, or nothing when verification
      throws; `findById` is the user lookup. An empty token counts as no
      token; every exception, the lookup's included, is reported as an
      invalid token. */
  function Admit(token: Option<Text>, verify: Text -> Option<Text>,
                 findById: Text -> Lookup): (r: Result<User, AuthError>)
    ensures r == Failure(NoToken) <==> token.None? || token.value == []
    ensures r == Failure(InvalidToken) <==>
              && token.Some? && token.value != []
              && (verify(token.value).None? || findById(verify(token.value).value).LookupThrows?)
    ensures r == Failure(UserNotFound) <==>
              && token.Some? && token.value != []
              && verify(token.value).Some? && findById(verify(token.value).value).NotFound?
    ensures r.Success? ==>
              && token.Some? && token.value != [] && verify(token.value).Some?
              && findById(verify(token.value).value) == Found(r.value)
  {
    if token.None? || token.value == [] then Failure(NoToken)
    else
      match verify(token.value)
      case None => Failure(InvalidToken)
      case Some(id) =>
        match findById(id)
        case LookupThrows => Failure(InvalidToken)
        case NotFound => Failure(UserNotFound)
        case Found(u) => Success(u)
  }
}
