/**
 * The OAuth callback of the web front end
 * (frontend/app/auth/callback/route.ts): after the identity provider sends
 * the visitor back with a one-time code, the code is exchanged for a
 * session and the visitor is redirected, on the request's own origin,
 * either to the page they were heading for or to the sign-in page with an
 * error. The exchange, `encodeURIComponent` and the URL parser's verdict on
 * the success target are inputs.
 */
module AuthCallback {
  import opened JsBuiltins

  /** What `exchangeCodeForSession` did: a session, an `{ error }` result, or a thrown exception. */
  datatype Exchange = Exchanged | ExchangeFailed(message: string) | ExchangeThrew

  /** How the sign-in ended, as the redirect reports it. */
  datatype Outcome = NoCode | AuthFailed(encodedMessage: string) | ServerError | SignedIn

  const DefaultNext := "/game"
  const ErrorPrefix := "/signin?error="

  /** `searchParams.get('next') ?? '/game'`: only an absent parameter is defaulted; an empty one is kept. */
  function NextOrDefault(next: Option<string>): (r: string)
    ensures next.None? ==> r == DefaultNext
    ensures next.Some? ==> r == next.value
  {
    match next
    case None => DefaultNext
    case Some(path) => path
  }

  /**
   * How a request ends. A code counts only when truthy (not empty). The
   * error message is encoded inside the `try`, so an encoding that throws
   * (a lone surrogate, for `encodeURIComponent`) ends in the catch. So does
   * the success redirect when `NextResponse.redirect` refuses the origin
   * followed by `next` as a URL: `nextIsUrl` is the parser's verdict.
   */
  function OutcomeOf(code: Option<string>, exchange: Exchange, encode: string -> Option<string>,
                     nextIsUrl: bool): Outcome {
    if code.None? || code.value == "" then NoCode
    else match exchange
      case Exchanged => if nextIsUrl then SignedIn else ServerError
      case ExchangeThrew => ServerError
      case ExchangeFailed(message) =>
        match encode(message)
        case Some(encoded) => AuthFailed(encoded)
        case None => ServerError
  }

  /** The sign-in page reporting an error of the given kind. */
  function SignInError(kind: string): string {
    ErrorPrefix + kind
  }

  /** The path and query each outcome redirects to. */
  function Target(outcome: Outcome, next: Option<string>): string {
    match outcome
    case NoCode => SignInError("no_code")
    case AuthFailed(encoded) => SignInError("auth_callback_error&message=" + encoded)
    case ServerError => SignInError("server_error")
    case SignedIn => NextOrDefault(next)
  }

  /** `GET(request)`: the URL the visitor is redirected to. */
  function Callback(origin: string, code: Option<string>, next: Option<string>,
                    exchange: Exchange, encode: string -> Option<string>, nextIsUrl: bool): (r: string)
    ensures r == origin + Target(OutcomeOf(code, exchange, encode, nextIsUrl), next)
    ensures |origin| <= |r| && r[..|origin|] == origin
  {
    var nextPath := NextOrDefault(next);
    if code.Some? && code.value != "" then
      match exchange
      case ExchangeFailed(message) =>
        (match encode(message)
         case Some(encoded) => origin + SignInError("auth_callback_error&message=" + encoded)
         case None => origin + SignInError("server_error"))
      case Exchanged => if nextIsUrl then origin + nextPath else origin + SignInError("server_error")
      case ExchangeThrew => origin + SignInError("server_error")
    else
      origin + SignInError("no_code")
  }

  /** Every failure lands on the sign-in page with an error parameter. */
  lemma FailuresLandOnSignIn(origin: string, code: Option<string>, next: Option<string>,
                             exchange: Exchange, encode: string -> Option<string>, nextIsUrl: bool)
    requires OutcomeOf(code, exchange, encode, nextIsUrl) != SignedIn
    ensures Callback(origin, code, next, exchange, encode, nextIsUrl)[..|origin| + |ErrorPrefix|] == origin + ErrorPrefix
  {
    var outcome := OutcomeOf(code, exchange, encode, nextIsUrl);
    var kind := match outcome
      case NoCode => "no_code"
      case AuthFailed(encoded) => "auth_callback_error&message=" + encoded
      case _ => "server_error";
    assert Target(outcome, next) == ErrorPrefix + kind;
    assert origin + (ErrorPrefix + kind) == (origin + ErrorPrefix) + kind;
  }

  /** Where a failure's target tells the failures apart: the character after the error prefix, and the message. */
  lemma FailureTargetShape(outcome: Outcome, next: Option<string>)
    requires outcome != SignedIn
    ensures |Target(outcome, next)| > |ErrorPrefix| && Target(outcome, next)[..8] == "/signin?"
    ensures outcome.NoCode? ==> Target(outcome, next)[|ErrorPrefix|] == 'n'
    ensures outcome.ServerError? ==> Target(outcome, next)[|ErrorPrefix|] == 's'
    ensures outcome.AuthFailed? ==>
      Target(outcome, next)[|ErrorPrefix|] == 'a' && Target(outcome, next)[42..] == outcome.encodedMessage
  {
    var kind := match outcome
      case NoCode => "no_code"
      case AuthFailed(encoded) => "auth_callback_error&message=" + encoded
      case _ => "server_error";
    var t := ErrorPrefix + kind;
    assert Target(outcome, next) == t;
    assert t[..8] == ErrorPrefix[..8] && t[|ErrorPrefix|] == kind[0];
    if outcome.AuthFailed? {
      assert t[42..] == kind[28..];
    }
  }

  /**
   * The redirect tells how the sign-in ended: as long as the page asked for
   * is not the sign-in page with a query, two requests that ended
   * differently are never redirected to the same place.
   */
  lemma OutcomeIsRecoverable(next: Option<string>, o1: Outcome, o2: Outcome)
    requires |NextOrDefault(next)| < 8 || NextOrDefault(next)[..8] != "/signin?"
    requires Target(o1, next) == Target(o2, next)
    ensures o1 == o2
  {
    if o1 != SignedIn {
      FailureTargetShape(o1, next);
    }
    if o2 != SignedIn {
      FailureTargetShape(o2, next);
    }
  }
}
