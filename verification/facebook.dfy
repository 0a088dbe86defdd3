/** The Facebook social-login provider: it remembers the origin of the last
    `login`, turns the Facebook SDK's callback into a provider-token login
    request (or an error), and ignores permission results.

    This provider is written against an older package of the SDK's provider
    contract than the facade, so it has its own error, configuration and
    token types here and is not wired to the facade's. */
module Facebook {
  import opened Common
  import Strings

  const NAME := "facebook"
  const REQUEST_CODE: int32 := 64206

  /** The scope token appended to every provider login request. */
  const BASELINE_SCOPE := "openid"

  const NO_ACCESS_TOKEN := "Facebook didn't return an access token!"
  const USER_CANCEL := "User cancel"
  const TECHNICAL_ERROR := "Technical error"

  datatype ProviderConfig = ProviderConfig(clientId: string, scope: Option<seq<string>>)
  datatype SdkConfig = SdkConfig(domain: string, clientId: string)

  datatype FacebookException = FacebookException(message: Option<string>)

  /** `ReachFiveError.from(message)` and `ReachFiveError.from(exception)`. */
  datatype ReachFiveError = FromMessage(message: string) | FromException(exception: FacebookException)

  /** The SDK's token, as produced by the backend; never built here. */
  datatype AuthToken = AuthToken(accessToken: string)

  datatype AccessToken = AccessToken(token: string)
  datatype LoginResult = LoginResult(accessToken: Option<AccessToken>)

  /** What the Facebook SDK reports back to the registered callback. */
  datatype CallbackOutcome =
    | OnSuccess(result: Option<LoginResult>)
    | OnCancel
    | OnError(error: Option<FacebookException>)

  datatype LoginProviderRequest = LoginProviderRequest(
    provider: string, providerToken: string, clientId: string, origin: string, scope: string)

  /** `ConfiguredFacebookProvider`; `origin` is a `lateinit` property, unset
      until the first `login`. */
  datatype Provider = Provider(providerConfig: ProviderConfig, sdkConfig: SdkConfig, origin: Option<string>) {
    const requestCode: int32 := REQUEST_CODE
    const name: string := NAME
  }

  /** `FacebookProvider.create`. */
  function Create(providerConfig: ProviderConfig, sdkConfig: SdkConfig): (p: Provider)
    ensures p.providerConfig == providerConfig && p.sdkConfig == sdkConfig
    ensures p.origin.None?
    ensures p.requestCode == 64206 && p.name == "facebook"
  {
    Provider(providerConfig, sdkConfig, None)
  }

  /** The read-permission request `login` sends to the Facebook SDK. */
  datatype LoginStep = LoginStep(provider: Provider, readPermissions: Option<seq<string>>)

  /** `login`: records the origin and asks for the configured read permissions. */
  function Login(p: Provider, origin: string): (s: LoginStep)
    ensures s.provider.origin == Some(origin)
    ensures s.provider.providerConfig == p.providerConfig && s.provider.sdkConfig == p.sdkConfig
    ensures s.readPermissions == p.providerConfig.scope
  {
    LoginStep(p.(origin := Some(origin)), p.providerConfig.scope)
  }

  /** Successive `login` calls with the given origins. */
  function LoginAll(p: Provider, origins: seq<string>): Provider
  {
    if |origins| == 0 then p else Login(LoginAll(p, origins[..|origins| - 1]), origins[|origins| - 1]).provider
  }

  /** The origin a provider holds is the one from the most recent `login`, and
      logging in never changes the provider's configuration. (Its request code
      and name are constant members of every provider.) */
  lemma {:induction false} LastLoginWins(p: Provider, origins: seq<string>)
    ensures var q := LoginAll(p, origins);
      && q.providerConfig == p.providerConfig && q.sdkConfig == p.sdkConfig
      && q.origin == if |origins| == 0 then p.origin else Some(origins[|origins| - 1])
  {
    if |origins| > 0 {
      LastLoginWins(p, origins[..|origins| - 1]);
    }
  }

  /** The scope string of the login request, built as `onActivityResult` builds it:
      `joinToString { " " }` passes a transform, not a separator, so every
      entry becomes `" "`, entries are separated by `", "`, and `"openid"` is
      appended with no separator. */
  function RequestScope(scope: Option<seq<string>>): (r: string)
    ensures |r| >= 6 && r[|r| - 6..] == BASELINE_SCOPE
    ensures |scope.OrElse([])| == 0 ==> r == BASELINE_SCOPE
    ensures |r| == if |scope.OrElse([])| == 0 then 6 else 3 * |scope.OrElse([])| + 4
    ensures forall i :: 0 <= i < |r| - 6 ==> r[i] == (if i % 3 == 1 then ',' else ' ')
  {
    var entries := scope.OrElse([]);
    var joined := Strings.JoinToString(entries, ", ", _ => " ");
    if |entries| == 0 then joined + BASELINE_SCOPE
    else Strings.JoinToSpaces(entries); joined + BASELINE_SCOPE
  }

  /** The request scope depends only on how many entries the provider scope has. */
  lemma RequestScopeDependsOnlyOnSize(a: Option<seq<string>>, b: Option<seq<string>>)
    requires |a.OrElse([])| == |b.OrElse([])|
    ensures RequestScope(a) == RequestScope(b)
  {
    Strings.JoinIgnoresEntries(a.OrElse([]), b.OrElse([]));
  }

  /** The configured entries do not reach the request: two entries give
      `" ,  openid"`. */
  lemma RequestScopeDropsEntries()
    ensures RequestScope(Some(["email", "public_profile"])) == " ,  openid"
  {
    var r := RequestScope(Some(["email", "public_profile"]));
    assert |r| == 10;
    assert r[..4] == " ,  " by {
      assert r[0] == ' ' && r[1] == ',' && r[2] == ' ' && r[3] == ' ';
    }
    assert r == r[..4] + r[4..];
  }

  /** How the SDK callback is resolved before any backend call. */
  datatype Normalised =
    | Exchange(request: LoginProviderRequest)
    | Reject(error: ReachFiveError)
    /** A token arrived before any `login`: reading the unset `lateinit` origin throws. */
    | OriginUninitialized

  /** The access token inside a success callback, `result?.accessToken?.token`. */
  function TokenOf(result: Option<LoginResult>): Option<string>
  {
    match result
    case None => None
    case Some(r) => match r.accessToken
      case None => None
      case Some(t) => Some(t.token)
  }

  /** The three branches of the registered Facebook callback. */
  function Normalise(p: Provider, outcome: CallbackOutcome): (n: Normalised)
    ensures n.Exchange? <==> outcome.OnSuccess? && TokenOf(outcome.result).Some? && p.origin.Some?
    ensures n.Exchange? ==>
      && n.request.provider == "facebook"
      && Some(n.request.providerToken) == TokenOf(outcome.result)
      && n.request.clientId == p.sdkConfig.clientId
      && Some(n.request.origin) == p.origin
      && n.request.scope == RequestScope(p.providerConfig.scope)
    ensures n.OriginUninitialized? <==> outcome.OnSuccess? && TokenOf(outcome.result).Some? && p.origin.None?
    ensures outcome.OnSuccess? && TokenOf(outcome.result).None? ==> n == Reject(FromMessage(NO_ACCESS_TOKEN))
    ensures outcome.OnCancel? ==> n == Reject(FromMessage(USER_CANCEL))
    ensures outcome.OnError? && outcome.error.Some? ==> n == Reject(FromException(outcome.error.value))
    ensures outcome.OnError? && outcome.error.None? ==> n == Reject(FromMessage(TECHNICAL_ERROR))
  {
    match outcome
    case OnSuccess(result) =>
      (match TokenOf(result)
       case Some(token) =>
         (match p.origin
          case Some(origin) =>
            Exchange(LoginProviderRequest(p.name, token, p.sdkConfig.clientId, origin, RequestScope(p.providerConfig.scope)))
          case None => OriginUninitialized)
       case None => Reject(FromMessage(NO_ACCESS_TOKEN)))
    case OnCancel => Reject(FromMessage(USER_CANCEL))
    case OnError(error) =>
      (match error
       case Some(e) => Reject(FromException(e))
       case None => Reject(FromMessage(TECHNICAL_ERROR)))
  }

  /** A call of one of the caller's callbacks. */
  datatype Continuation = Succeeded(token: AuthToken) | Failed(error: ReachFiveError)

  /** Everything `onActivityResult` causes: the backend requests it sends and
      the callbacks it calls. */
  datatype Reply = Reply(requests: seq<LoginProviderRequest>, calls: seq<Continuation>)

  /** `onActivityResult` for a callback `outcome`; `backend` is what the
      provider-login endpoint answers if it is called (the HTTP call and the
      response-to-token conversion folded into one result). */
  function OnActivityResult(p: Provider, outcome: CallbackOutcome, backend: Result<AuthToken, ReachFiveError>): (r: Reply)
    ensures |r.requests| <= 1 && |r.calls| <= 1
    ensures p.origin.Some? ==> |r.calls| == 1
    ensures |r.requests| == 1 <==> Normalise(p, outcome).Exchange?
    ensures Normalise(p, outcome).Exchange? ==> r.requests == [Normalise(p, outcome).request]
    ensures forall i :: 0 <= i < |r.calls| && r.calls[i].Succeeded? ==>
      && |r.requests| == 1 && backend == Success(r.calls[i].token)
      && r.requests[0].providerToken == TokenOf(outcome.result).value
    ensures |r.requests| == 0 && |r.calls| == 1 ==>
      Normalise(p, outcome).Reject? && r.calls[0] == Failed(Normalise(p, outcome).error)
    ensures Normalise(p, outcome).Reject? ==> r == Reply([], [Failed(Normalise(p, outcome).error)])
    ensures Normalise(p, outcome).Exchange? && backend.Success? ==> r.calls == [Succeeded(backend.value)]
    ensures Normalise(p, outcome).Exchange? && backend.Failure? ==> r.calls == [Failed(backend.error)]
    ensures Normalise(p, outcome).OriginUninitialized? ==> r == Reply([], [])
  {
    match Normalise(p, outcome)
    case Exchange(request) =>
      Reply([request], [match backend case Success(t) => Succeeded(t) case Failure(e) => Failed(e)])
    case Reject(e) => Reply([], [Failed(e)])
    case OriginUninitialized => Reply([], [])
  }

  /** Every Facebook outcome after a `login` calls exactly one callback, and
      only a success carrying a token can reach the success callback. */
  lemma ExactlyOneContinuation(p: Provider, origin: string, outcome: CallbackOutcome, backend: Result<AuthToken, ReachFiveError>)
    ensures var r := OnActivityResult(Login(p, origin).provider, outcome, backend);
      && |r.calls| == 1
      && (r.calls[0].Succeeded? ==> outcome.OnSuccess? && TokenOf(outcome.result).Some? && backend.Success?)
      && (outcome.OnSuccess? && TokenOf(outcome.result).Some? && backend.Success? ==> r.calls == [Succeeded(backend.value)])
      && (outcome.OnSuccess? && TokenOf(outcome.result).Some? && backend.Failure? ==> r.calls == [Failed(backend.error)])
      && (!outcome.OnSuccess? ==> r.requests == [] && r.calls[0].Failed?)
      && (r.requests != [] ==> r.requests[0].origin == origin)
  {
  }

  /** `onRequestPermissionsResult`: does nothing. */
  function OnRequestPermissionsResult(p: Provider, requestCode: int32, permissions: seq<string>, grantResults: seq<int32>): (r: (Provider, seq<Continuation>))
    ensures r.0 == p
    ensures r.1 == []
  {
    (p, [])
  }
}
