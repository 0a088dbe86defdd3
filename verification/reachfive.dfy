/** The `ReachFive` facade: its `defaultScope`, `initialize`, `logout`, and the
    routing of activity results by request code to the WebAuthn, redirect and
    social-login handlers. */
module ReachFive {
  import opened Common
  import opened Android
  import Redirection
  import Strings

  datatype SdkConfig = SdkConfig(domain: string, clientId: string)

  /** The SDK's error type; only `NullIntent` is built by the facade itself. */
  datatype ReachFiveError = NullIntent | Other(message: string)

  /** The part of the client configuration response the facade reads. */
  datatype ClientConfigResponse = ClientConfigResponse(scope: string)

  /** The facade's own mutable state: the configuration and the default scope,
      empty until a configuration fetch succeeds. */
  datatype Facade = Facade(sdkConfig: SdkConfig, defaultScope: set<string>)

  function Create(sdkConfig: SdkConfig): (f: Facade)
    ensures f.sdkConfig == sdkConfig && |f.defaultScope| == 0
  {
    Facade(sdkConfig, {})
  }

  /** The request codes and code predicates of the WebAuthn and social-login
      clients, which the facade consults but does not define:
      `WebauthnAuth.RC_LOGIN`, `RC_SIGNUP`, `RC_REGISTER_DEVICE`,
      `isWebauthnLoginRequestCode`, `isWebauthnActionRequestCode` and
      `socialLoginAuth.isSocialLoginRequestCode`. */
  datatype CodeSpace = CodeSpace(
    rcLogin: int32,
    rcSignup: int32,
    rcRegisterDevice: int32,
    isWebauthnLoginCode: int32 -> bool,
    isWebauthnActionCode: int32 -> bool,
    isSocialLoginCode: int32 -> bool)

  /** The WebAuthn predicates agree with the WebAuthn constants: the login
      predicate holds of exactly the login and signup codes, and the action
      predicate holds of the register-device code. */
  ghost predicate Coherent(codes: CodeSpace)
  {
    && (forall c :: codes.isWebauthnLoginCode(c) <==> c == codes.rcLogin || c == codes.rcSignup)
    && codes.isWebauthnActionCode(codes.rcRegisterDevice)
  }

  // ---------------------------------------------------------------------------
  // Classification by request code, as a priority table

  /** The handler an activity result can be routed to. */
  datatype Branch = WebauthnLoginBranch | WebauthnSignupBranch | RedirectBranch | SocialBranch | ForeignBranch

  datatype Rule = Rule(branch: Branch, matches: int32 -> bool)

  /** The classification order of `onLoginActivityResult`, as data: earlier rules win. */
  function RoutingTable(codes: CodeSpace): seq<Rule>
  {
    [ Rule(WebauthnLoginBranch, c => c == codes.rcLogin),
      Rule(WebauthnSignupBranch, c => c == codes.rcSignup),
      Rule(RedirectBranch, Redirection.IsLoginRequestCode),
      Rule(SocialBranch, codes.isSocialLoginCode) ]
  }

  /** The index of the first rule that matches `code`, if any. */
  function FirstMatch(rules: seq<Rule>, code: int32): (k: Option<nat>)
    ensures k.None? <==> forall i :: 0 <= i < |rules| ==> !rules[i].matches(code)
    ensures k.Some? ==>
      && k.value < |rules|
      && rules[k.value].matches(code)
      && forall j :: 0 <= j < k.value ==> !rules[j].matches(code)
  {
    if |rules| == 0 then None
    else if rules[0].matches(code) then Some(0)
    else match FirstMatch(rules[1..], code)
      case None => None
      case Some(i) => Some(i + 1)
  }

  /** The branch owning `code`: the first matching rule's, or foreign. */
  function Classify(codes: CodeSpace, code: int32): Branch
  {
    var table := RoutingTable(codes);
    match FirstMatch(table, code)
    case None => ForeignBranch
    case Some(i) => table[i].branch
  }

  /** Branch priority: the login code beats the signup code, both beat the
      redirect code, and the redirect code beats any social-login code. */
  lemma ClassifyByPriority(codes: CodeSpace, code: int32)
    ensures Classify(codes, code) == WebauthnLoginBranch <==> code == codes.rcLogin
    ensures Classify(codes, code) == WebauthnSignupBranch <==> code != codes.rcLogin && code == codes.rcSignup
    ensures Classify(codes, code) == RedirectBranch <==>
      code != codes.rcLogin && code != codes.rcSignup && code == Redirection.RC_WEBLOGIN
    ensures Classify(codes, code) == SocialBranch <==>
      code != codes.rcLogin && code != codes.rcSignup && code != Redirection.RC_WEBLOGIN && codes.isSocialLoginCode(code)
    ensures Classify(codes, code) == ForeignBranch <==>
      code != codes.rcLogin && code != codes.rcSignup && code != Redirection.RC_WEBLOGIN && !codes.isSocialLoginCode(code)
  {
    var table := RoutingTable(codes);
    assert table[0].matches(code) <==> code == codes.rcLogin;
    assert table[1].matches(code) <==> code == codes.rcSignup;
    assert table[2].matches(code) <==> code == Redirection.RC_WEBLOGIN;
    assert table[3].matches(code) <==> codes.isSocialLoginCode(code);
  }

  // ---------------------------------------------------------------------------
  // Routing

  /** Where the facade sends an activity result. The `To...` cases hand the
      caller's success and failure callbacks to a collaborator together with
      the listed arguments; `Fail` calls the failure callback directly;
      `LogOnly` only writes a debug log line. */
  datatype Dispatch =
    | ToWebauthnLogin(resultCode: int32, intent: Intent, scope: set<string>)
    | ToWebauthnSignup(resultCode: int32, intent: Intent, scope: set<string>, activity: ActivityRef)
    | ToAuthorizationCompletion(intent: Intent)
    | ToSocialLogin(requestCode: int32, resultCode: int32, data: Option<Intent>)
    | ToAddDevice(intent: Intent)
    | Fail(error: ReachFiveError)
    | LogOnly(requestCode: int32)

  /** A call of one of the caller's callbacks. */
  datatype Continuation = Succeeded | Failed(error: ReachFiveError)

  /** The callbacks the facade itself calls for a dispatch. */
  function DirectCalls(d: Dispatch): seq<Continuation>
  {
    if d.Fail? then [Failed(d.error)] else []
  }

  /** `onLoginActivityResult`. */
  function OnLoginActivityResult(
    f: Facade, codes: CodeSpace, requestCode: int32, resultCode: int32, intent: Option<Intent>, activity: ActivityRef
  ): (d: Dispatch)
    ensures Classify(codes, requestCode) == WebauthnLoginBranch ==>
      d == if intent.Some? then ToWebauthnLogin(resultCode, intent.value, f.defaultScope) else Fail(NullIntent)
    ensures Classify(codes, requestCode) == WebauthnSignupBranch ==>
      d == if intent.Some? then ToWebauthnSignup(resultCode, intent.value, f.defaultScope, activity) else Fail(NullIntent)
    ensures Classify(codes, requestCode) == RedirectBranch ==>
      d == if intent.Some? then ToAuthorizationCompletion(intent.value) else Fail(NullIntent)
    ensures Classify(codes, requestCode) == SocialBranch ==> d == ToSocialLogin(requestCode, resultCode, intent)
    ensures Classify(codes, requestCode) == ForeignBranch ==> d == LogOnly(requestCode)
    ensures DirectCalls(d) != [] ==> DirectCalls(d) == [Failed(NullIntent)] && intent.None?
  {
    ClassifyByPriority(codes, requestCode);
    if requestCode == codes.rcLogin then
      if intent.Some? then ToWebauthnLogin(resultCode, intent.value, f.defaultScope) else Fail(NullIntent)
    else if requestCode == codes.rcSignup then
      if intent.Some? then ToWebauthnSignup(resultCode, intent.value, f.defaultScope, activity) else Fail(NullIntent)
    else if Redirection.IsLoginRequestCode(requestCode) then
      if intent.Some? then ToAuthorizationCompletion(intent.value) else Fail(NullIntent)
    else if codes.isSocialLoginCode(requestCode) then
      ToSocialLogin(requestCode, resultCode, intent)
    else LogOnly(requestCode)
  }

  /** A null intent fails with `NullIntent` on every branch that checks it,
      and is handed to the social-login client unchecked. */
  lemma NullIntentHandling(f: Facade, codes: CodeSpace, requestCode: int32, resultCode: int32, activity: ActivityRef)
    ensures var d := OnLoginActivityResult(f, codes, requestCode, resultCode, None, activity);
      && (d == Fail(NullIntent) <==> requestCode in {codes.rcLogin, codes.rcSignup, Redirection.RC_WEBLOGIN})
      && (d.ToSocialLogin? <==> Classify(codes, requestCode) == SocialBranch)
      && (d.ToSocialLogin? ==> d.data.None?)
  {
    ClassifyByPriority(codes, requestCode);
  }

  /** `onAddNewWebAuthnDeviceResult`. */
  function OnAddNewWebAuthnDeviceResult(codes: CodeSpace, requestCode: int32, intent: Option<Intent>): (d: Dispatch)
    ensures d.LogOnly? <==> requestCode != codes.rcRegisterDevice
    ensures d.LogOnly? ==> d.requestCode == requestCode
    ensures d.ToAddDevice? <==> requestCode == codes.rcRegisterDevice && intent.Some?
    ensures d.ToAddDevice? ==> intent == Some(d.intent)
    ensures d.Fail? <==> requestCode == codes.rcRegisterDevice && intent.None?
    ensures d.Fail? ==> DirectCalls(d) == [Failed(NullIntent)]
  {
    if requestCode == codes.rcRegisterDevice then
      if intent.Some? then ToAddDevice(intent.value) else Fail(NullIntent)
    else LogOnly(requestCode)
  }

  /** `isReachFiveLoginRequestCode`. */
  predicate IsReachFiveLoginRequestCode(codes: CodeSpace, code: int32)
  {
    codes.isSocialLoginCode(code) || codes.isWebauthnLoginCode(code) || Redirection.IsLoginRequestCode(code)
  }

  /** `isReachFiveActionRequestCode`. */
  predicate IsReachFiveActionRequestCode(codes: CodeSpace, code: int32)
  {
    codes.isWebauthnActionCode(code)
  }

  /** The handler objects `resolveResultHandler` builds. */
  datatype ResultHandler =
    | LoginResultHandler(requestCode: int32, resultCode: int32, intent: Option<Intent>)
    | WebAuthnDeviceAddResult(requestCode: int32, intent: Option<Intent>)

  /** `resolveResultHandler`. */
  function ResolveResultHandler(codes: CodeSpace, requestCode: int32, resultCode: int32, intent: Option<Intent>): (h: Option<ResultHandler>)
    ensures h.Some? && h.value.LoginResultHandler? <==>
      codes.isSocialLoginCode(requestCode) || codes.isWebauthnLoginCode(requestCode) || requestCode == Redirection.RC_WEBLOGIN
    ensures h.Some? && h.value.WebAuthnDeviceAddResult? <==>
      !IsReachFiveLoginRequestCode(codes, requestCode) && codes.isWebauthnActionCode(requestCode)
      && requestCode == codes.rcRegisterDevice
    ensures h.Some? ==> h.value.requestCode == requestCode && h.value.intent == intent
    ensures h.Some? && h.value.LoginResultHandler? ==> h.value.resultCode == resultCode
  {
    if IsReachFiveLoginRequestCode(codes, requestCode) then
      Some(LoginResultHandler(requestCode, resultCode, intent))
    else if IsReachFiveActionRequestCode(codes, requestCode) then
      if codes.rcRegisterDevice == requestCode then Some(WebAuthnDeviceAddResult(requestCode, intent))
      else None
    else None
  }

  /** When the WebAuthn predicates agree with the constants, the handler
      resolver and the two routers accept the same codes: a login handler is
      built exactly for the codes `onLoginActivityResult` does not just log,
      and a device-add handler exactly for the codes
      `onAddNewWebAuthnDeviceResult` does not just log, unless the login
      router claims them first. */
  lemma ResolverAgreesWithRouters(
    f: Facade, codes: CodeSpace, requestCode: int32, resultCode: int32, intent: Option<Intent>, activity: ActivityRef)
    requires Coherent(codes)
    ensures var h := ResolveResultHandler(codes, requestCode, resultCode, intent);
      && (h.Some? && h.value.LoginResultHandler? <==>
          !OnLoginActivityResult(f, codes, requestCode, resultCode, intent, activity).LogOnly?)
      && (h.Some? && h.value.WebAuthnDeviceAddResult? <==>
          OnLoginActivityResult(f, codes, requestCode, resultCode, intent, activity).LogOnly?
          && !OnAddNewWebAuthnDeviceResult(codes, requestCode, intent).LogOnly?)
      && (h.None? <==>
          OnLoginActivityResult(f, codes, requestCode, resultCode, intent, activity).LogOnly?
          && OnAddNewWebAuthnDeviceResult(codes, requestCode, intent).LogOnly?)
  {
    ClassifyByPriority(codes, requestCode);
    assert codes.isWebauthnLoginCode(requestCode) <==> requestCode == codes.rcLogin || requestCode == codes.rcSignup;
  }

  // ---------------------------------------------------------------------------
  // Initialisation, logout, stop

  /** Calls the facade makes on its collaborators and on the caller's callbacks. */
  datatype Effect =
    | FetchClientConfig(query: map<string, string>)
    | SocialLogoutFromAll
    | SocialOnStop
    | Call(continuation: Continuation)

  datatype Step = Step(facade: Facade, effects: seq<Effect>)

  /** The client-configuration scope as the default scope: the pieces of the
      string between single spaces, as a set. */
  function ScopeOf(config: ClientConfigResponse): (scope: set<string>)
    ensures forall w :: w in scope ==> ' ' !in w
    ensures forall w :: w in scope <==> w in Strings.Split(config.scope, ' ')
  {
    Strings.Tokens(config.scope, ' ')
  }

  /** `initialize`: requests the client configuration for the configured
      client id; `response` is what the backend eventually delivers. */
  function Initialize(f: Facade, response: Result<ClientConfigResponse, ReachFiveError>): (s: Step)
    ensures |s.effects| == 2
    ensures s.effects[0] == FetchClientConfig(map["client_id" := f.sdkConfig.clientId])
    ensures s.facade.sdkConfig == f.sdkConfig
    ensures response.Success? ==>
      && Calls(s.effects) == [Succeeded]
      && (forall w :: w in s.facade.defaultScope ==> ' ' !in w)
      && (forall w :: w in s.facade.defaultScope <==> w in Strings.Split(response.value.scope, ' '))
    ensures response.Failure? ==> s.facade == f && Calls(s.effects) == [Failed(response.error)]
  {
    var request := FetchClientConfig(map["client_id" := f.sdkConfig.clientId]);
    var reply := if response.Success? then Succeeded else Failed(response.error);
    assert Calls([request, Call(reply)]) == [reply] by {
      var effects := [request, Call(reply)];
      assert effects[1..] == [Call(reply)];
      assert [Call(reply)][1..] == [];
      assert Calls([Call(reply)]) == [reply] + Calls([]);
      assert Calls(effects) == [] + Calls(effects[1..]);
    }
    match response
    case Success(config) => Step(f.(defaultScope := ScopeOf(config)), [request, Call(reply)])
    case Failure(_) => Step(f, [request, Call(reply)])
  }

  /** The default scope loses nothing of the configured scope string: joining
      the pieces with spaces gives the string back, and each piece is a
      space-free run of it. */
  lemma DefaultScopeFaithful(f: Facade, config: ClientConfigResponse)
    ensures var scope := Initialize(f, Success(config)).facade.defaultScope;
      && Strings.Join(Strings.Split(config.scope, ' '), ' ') == config.scope
      && (forall w :: w in scope <==> w in Strings.Split(config.scope, ' '))
  {
    Strings.JoinSplit(config.scope, ' ');
  }

  /** The scope `"openid profile"` becomes `{"openid", "profile"}`. */
  lemma DefaultScopeExample(f: Facade)
    ensures Initialize(f, Success(ClientConfigResponse("openid profile"))).facade.defaultScope == {"openid", "profile"}
  {
    var parts := ["openid", "profile"];
    JoinExample();
    Strings.SplitJoin(parts, ' ');
    assert Strings.Split("openid profile", ' ') == parts;
    PairAsSet("openid", "profile");
  }

  /** The elements of a two-element sequence, as a set. */
  lemma PairAsSet(a: string, b: string)
    ensures (set p | p in [a, b]) == {a, b}
  {
    assert a in [a, b] && b in [a, b];
  }

  lemma JoinExample()
    ensures Strings.Join(["openid", "profile"], ' ') == "openid profile"
  {
    assert ["openid", "profile"][1..] == ["profile"];
  }

  /** After a successful initialisation, a WebAuthn login result carries the
      configured scope. */
  lemma InitializeThenLogin(
    f: Facade, codes: CodeSpace, config: ClientConfigResponse, resultCode: int32, intent: Intent, activity: ActivityRef)
    ensures var g := Initialize(f, Success(config)).facade;
      OnLoginActivityResult(g, codes, codes.rcLogin, resultCode, Some(intent), activity)
        == ToWebauthnLogin(resultCode, intent, ScopeOf(config))
  {
    ClassifyByPriority(codes, codes.rcLogin);
  }

  /** The callback calls among `effects`, in order. */
  function Calls(effects: seq<Effect>): seq<Continuation>
  {
    if |effects| == 0 then []
    else (if effects[0].Call? then [effects[0].continuation] else []) + Calls(effects[1..])
  }

  /** `logout`: logs out of every social provider, then reports success; the
      failure callback is never used. */
  function Logout(f: Facade): (s: Step)
    ensures s.facade == f
    ensures |s.effects| == 2 && s.effects[0] == SocialLogoutFromAll
    ensures Calls(s.effects) == [Succeeded]
  {
    Step(f, [SocialLogoutFromAll, Call(Succeeded)])
  }

  /** `onStop`: forwarded to the social-login client. */
  function OnStop(f: Facade): (s: Step)
    ensures s.facade == f && s.effects == [SocialOnStop]
  {
    Step(f, [SocialOnStop])
  }
}
