# ReachFive Android SDK — result routing, redirect activity and Facebook provider

A Dafny model of the part of the ReachFive identity SDK for Android that routes
activity results back to the login flow that started them, the activity that
drives the browser-redirect flow, and the Facebook provider's normalisation of
the Facebook SDK callback.

- `Common` (`common.dfy`): Kotlin `Int` as `int32`, nullable values as `Option`, callback outcomes as `Result`.
- `Android` (`android.dfy`): intents as values (action, data URI string, string extras, 32-bit flag word), `getStringExtra`, `putExtra`, `removeFlags`, `RESULT_OK`, the URI-grant flag constants.
- `Strings` (`strings.dfy`): Kotlin's `split(" ")` (empty pieces kept), its inverse join, `toSet`, and `joinToString(separator, transform)`.
- `Redirection` (`redirection.dfy`): `RedirectionActivity`. It has the redirect request code 52557, the browser intent built in `onCreate`, the `started` flag machine of `onResume`, and the trust-and-forward check of `onNewIntent`. The activity's state is a record: `started`, the number of `finish()` calls, and the result set.
- `ReachFive` (`reachfive.dfy`): the `ReachFive` facade. It has `defaultScope`, `initialize`, `logout`, `onStop`, `onLoginActivityResult`, `onAddNewWebAuthnDeviceResult`, `resolveResultHandler` and the `isReachFive*RequestCode` predicates.
  - A routing call is a pure function to a `Dispatch` value. The value names the collaborator that receives the caller's callbacks and the arguments it gets. It can also be a direct `Fail(NullIntent)`, or `LogOnly` for a code that is not the SDK's.
  - Branch order is also stated as data. `RoutingTable` is an ordered list of rules, `FirstMatch` picks the first rule that matches, and `Classify` turns that into a branch. The routing function is proved against this table.
- `Facebook` (`facebook.dfy`): `FacebookProvider` / `ConfiguredFacebookProvider`.
  - The Facebook callback is a datatype of outcomes (`onSuccess`, `onCancel`, `onError`).
  - `Normalise` maps an outcome to a provider-login request or an error.
  - `OnActivityResult` adds the backend's answer and yields the requests sent and the callbacks called.
  - This file imports a different package of the SDK (`com.reach5…`) than the facade (`co.reachfive…`). The module therefore has its own configuration, error and token types.

The WebAuthn request codes and predicates, and the social client's code predicate, are not part of this model. They are bundled in the `CodeSpace` parameter: `RC_LOGIN`, `RC_SIGNUP`, `RC_REGISTER_DEVICE`, `isWebauthnLoginRequestCode`, `isWebauthnActionRequestCode` and `isSocialLoginRequestCode`. Apart from the predicate `Coherent`, the model assumes nothing about them. `Coherent` states that the WebAuthn login predicate holds exactly for the login and signup codes, and that the action predicate holds for the register-device code. Only the lemma that compares the handler resolver with the routers uses it.

The Facebook request scope is modelled as the code builds it. `joinToString { " " }` passes a transform, not a separator. So every configured entry becomes `" "`, the entries are joined with `", "`, and `"openid"` is appended with no separator. The result depends only on the number of entries: `["email", "public_profile"]` gives `" ,  openid"` (`Facebook.RequestScopeDropsEntries`).

Routing details worth noting:
- The code tests the WebAuthn login and signup codes before the redirect code, and the redirect code before the social-login codes.
- A social-login code is forwarded with a null intent unchecked. Only the WebAuthn and redirect branches turn a null intent into `NullIntent`.
- The redirect trust policy is the one in `onNewIntent`. The calling activity's class name must be `com.cdapp.MainActivity`. The package name is read but not used.
- If a Facebook token arrives before any `login`, reading the unset `lateinit` origin throws. In that case no callback is called (`OriginUninitialized`).

## Model

| member | source | states |
|---|---|---|
| `Redirection.IsLoginRequestCode` | sdk-core/src/main/java/co/reachfive/identity/sdk/core/RedirectionActivity.kt:21-24 | a code is the redirect login code iff it equals 52557 |
| `Redirection.OnCreate` | sdk-core/src/main/java/co/reachfive/identity/sdk/core/RedirectionActivity.kt:29-40 | launching fails iff the `URL` extra is missing (parsing a null URI throws); otherwise the browser intent's data is the `URL` extra, its `CODE_VERIFIER` extra equals the launching intent's, and the custom-tabs intent's action, flags and other extras are kept |
| `Redirection.OnResume` | sdk-core/src/main/java/co/reachfive/identity/sdk/core/RedirectionActivity.kt:66-74 | after any resume the activity is started; a resume of a not-yet-started activity does not finish it, a resume of a started one finishes it exactly once; the result is untouched |
| `Redirection.ResumeMachine` | sdk-core/src/main/java/co/reachfive/identity/sdk/core/RedirectionActivity.kt:66-74 | from a fresh activity, after n resumes it is started iff n >= 1 and has been finished n - 1 times (0 for n = 0), with no result |
| `Redirection.StartedIsSticky` | sdk-core/src/main/java/co/reachfive/identity/sdk/core/RedirectionActivity.kt:66-74 | a started activity stays started through any number of resumes, and each of them finishes it |
| `Redirection.StripUriGrants` | sdk-core/src/main/java/co/reachfive/identity/sdk/core/RedirectionActivity.kt:59-60 | the read and write URI-grant bits are clear, every other flag bit, the action, data and extras are as in the received intent |
| `Redirection.StripUriGrantsIdempotent` | sdk-core/src/main/java/co/reachfive/identity/sdk/core/RedirectionActivity.kt:59-60 | removing the grants from an already stripped intent changes nothing |
| `Redirection.OnNewIntent` | sdk-core/src/main/java/co/reachfive/identity/sdk/core/RedirectionActivity.kt:43-64 | the activity's result or finish count changes iff the calling class is `com.cdapp.MainActivity`; then the result is `RESULT_OK` with the received intent minus exactly the two URI-grant bits and the activity is finished once; any other caller (or none) leaves the state equal to before |
| `ReachFive.Create` | sdk-core/src/main/java/co/reachfive/identity/sdk/core/ReachFive.kt:15-24 | a new facade keeps its configuration and starts with an empty default scope |
| `ReachFive.FirstMatch` | sdk-core/src/main/java/co/reachfive/identity/sdk/core/ReachFive.kt:117-156 | the chosen rule matches the code and no earlier rule does; no rule is chosen iff none matches |
| `ReachFive.ClassifyByPriority` | sdk-core/src/main/java/co/reachfive/identity/sdk/core/ReachFive.kt:117-156 | the branch owning a code is WebAuthn login iff it is `RC_LOGIN`; signup iff `RC_SIGNUP` and not `RC_LOGIN`; redirect iff 52557 and neither WebAuthn code; social iff a social code and none of the former; foreign otherwise |
| `ReachFive.OnLoginActivityResult` | sdk-core/src/main/java/co/reachfive/identity/sdk/core/ReachFive.kt:109-159 | per table branch: the WebAuthn login/signup handler gets the result code, intent and current default scope (signup also the activity), the redirect completion gets the intent, each failing with `NullIntent` on a null intent; a social code goes to the social client with the intent as given; a foreign code is only logged; the facade itself calls a callback only as the single failure `NullIntent` for a null intent |
| `ReachFive.NullIntentHandling` | sdk-core/src/main/java/co/reachfive/identity/sdk/core/ReachFive.kt:117-156 | with a null intent the result is `Fail(NullIntent)` iff the code is `RC_LOGIN`, `RC_SIGNUP` or 52557, and it is forwarded (null) to the social client iff the code is classified social |
| `ReachFive.OnAddNewWebAuthnDeviceResult` | sdk-core/src/main/java/co/reachfive/identity/sdk/core/ReachFive.kt:95-107 | only `RC_REGISTER_DEVICE` is acted on: a non-null intent goes to the device handler, a null one calls the failure callback once with `NullIntent`; any other code is only logged |
| `ReachFive.ResolveResultHandler` | sdk-core/src/main/java/co/reachfive/identity/sdk/core/ReachFive.kt:161-181 | a login handler is built iff the code is a social, WebAuthn-login or redirect code; otherwise a device-add handler iff the code is a WebAuthn action code equal to `RC_REGISTER_DEVICE`; otherwise none; handlers carry the call's arguments |
| `ReachFive.ResolverAgreesWithRouters` | sdk-core/src/main/java/co/reachfive/identity/sdk/core/ReachFive.kt:95-181 | when the WebAuthn predicates agree with the constants: a login handler is built iff the login router does more than log, a device-add handler iff only the device router acts, and none iff both routers only log |
| `ReachFive.ScopeOf` | sdk-core/src/main/java/co/reachfive/identity/sdk/core/ReachFive.kt:75 | the default scope holds exactly the pieces of the configured scope split on single spaces (empty pieces included), so no entry contains a space |
| `ReachFive.Initialize` | sdk-core/src/main/java/co/reachfive/identity/sdk/core/ReachFive.kt:66-83 | the configuration is requested with `client_id` = the configured client id; on success the default scope holds exactly the space-separated pieces of the configured scope and only the success callback is called, once; on failure the facade is unchanged and only the failure callback is called, once, with the backend's error |
| `ReachFive.DefaultScopeFaithful` | sdk-core/src/main/java/co/reachfive/identity/sdk/core/ReachFive.kt:75 | the pieces of the configured scope, joined with single spaces, give the configured scope back |
| `ReachFive.DefaultScopeExample` | sdk-core/src/main/java/co/reachfive/identity/sdk/core/ReachFive.kt:74-77 | the configured scope `"openid profile"` yields the default scope `{"openid", "profile"}` |
| `ReachFive.InitializeThenLogin` | sdk-core/src/main/java/co/reachfive/identity/sdk/core/ReachFive.kt:118-127 | after a successful initialisation a WebAuthn login result is handed on with the scope parsed from the configuration |
| `ReachFive.Logout` | sdk-core/src/main/java/co/reachfive/identity/sdk/core/ReachFive.kt:87-93 | the facade is unchanged and exactly two effects happen: the social providers are logged out, then success is called once; failure is never called |
| `ReachFive.OnStop` | sdk-core/src/main/java/co/reachfive/identity/sdk/core/ReachFive.kt:85 | stopping only forwards the stop to the social-login client |
| `Strings.Split` | sdk-core/src/main/java/co/reachfive/identity/sdk/core/ReachFive.kt:75 | splitting on a delimiter yields one more piece than there are delimiters, none containing the delimiter |
| `Strings.JoinSplit` | sdk-core/src/main/java/co/reachfive/identity/sdk/core/ReachFive.kt:75 | joining the split pieces with the delimiter gives back the input |
| `Strings.SplitJoin` | sdk-core/src/main/java/co/reachfive/identity/sdk/core/ReachFive.kt:75 | splitting a join of delimiter-free pieces gives back the pieces |
| `Strings.JoinToSpaces` | sdk-facebook/src/main/java/com/reach5/identity/sdk/facebook/FacebookProvider.kt:78 | `n >= 1` entries joined with `", "` after mapping each to `" "` give a string of length 3n - 2 with commas exactly at positions 1 mod 3 |
| `Strings.JoinIgnoresEntries` | sdk-facebook/src/main/java/com/reach5/identity/sdk/facebook/FacebookProvider.kt:78 | that join depends only on the number of entries |
| `Facebook.Create` | sdk-facebook/src/main/java/com/reach5/identity/sdk/facebook/FacebookProvider.kt:27-44 | a created provider keeps both configurations and has no origin yet; its request code 64206 and name `"facebook"` are constant members of every provider |
| `Facebook.Login` | sdk-facebook/src/main/java/com/reach5/identity/sdk/facebook/FacebookProvider.kt:57-60 | the provider remembers the given origin, keeps its configuration, and asks the Facebook SDK for the configured read permissions |
| `Facebook.LastLoginWins` | sdk-facebook/src/main/java/com/reach5/identity/sdk/facebook/FacebookProvider.kt:43-58 | after a series of logins the origin is the last one's (unchanged after none), and the configuration is unchanged |
| `Facebook.RequestScope` | sdk-facebook/src/main/java/com/reach5/identity/sdk/facebook/FacebookProvider.kt:78 | the request scope always ends with `"openid"`, is exactly `"openid"` for a null or empty scope, has length 3n + 4 for n >= 1 entries, and before `"openid"` has commas exactly at positions 1 mod 3 and spaces elsewhere |
| `Facebook.RequestScopeDependsOnlyOnSize` | sdk-facebook/src/main/java/com/reach5/identity/sdk/facebook/FacebookProvider.kt:78 | two provider scopes with the same number of entries give the same request scope |
| `Facebook.RequestScopeDropsEntries` | sdk-facebook/src/main/java/com/reach5/identity/sdk/facebook/FacebookProvider.kt:78 | the scope `["email", "public_profile"]` gives `" ,  openid"` |
| `Facebook.Normalise` | sdk-facebook/src/main/java/com/reach5/identity/sdk/facebook/FacebookProvider.kt:69-99 | a backend request is built iff the outcome is a success with a token and an origin has been set; it carries provider `"facebook"`, that token, the SDK client id, the stored origin and the request scope; a tokenless success, a cancel, a non-null error and a null error give the four listed errors |
| `Facebook.OnActivityResult` | sdk-facebook/src/main/java/com/reach5/identity/sdk/facebook/FacebookProvider.kt:62-101 | at most one backend request and at most one callback; exactly one callback once an origin is set; a request is sent iff the outcome normalises to one, and it is exactly that normalised request (provider, token, client id, origin and scope unchanged); after a sent request a backend success calls success with its token and a backend failure calls failure with its error; a rejected outcome calls failure with the normalised error, with or without an origin; a token before any `login` calls nothing |
| `Facebook.ExactlyOneContinuation` | sdk-facebook/src/main/java/com/reach5/identity/sdk/facebook/FacebookProvider.kt:57-98 | after a `login`, every outcome calls exactly one callback; success is called iff Facebook succeeds with a token and the backend succeeds, and then with the backend's token; a token with a backend failure calls failure with the backend's error; cancel and error never reach the backend; the request carries the login's origin |
| `Facebook.OnRequestPermissionsResult` | sdk-facebook/src/main/java/com/reach5/identity/sdk/facebook/FacebookProvider.kt:103-110 | the provider is unchanged and no callback is called |

## Left out

- HTTP: the Retrofit API, `enqueue`, `ReachFiveApiCallback` (including its handling of an empty response body) and the `toAuthToken` conversion are abstracted into a single `Result` value, the backend's eventual answer, given as a parameter.
- The collaborators `webauthnAuth`, `sessionUtils` and `socialLoginAuth` are not part of this model. Calls into them are recorded as `Dispatch` or `Effect` values with their arguments; what they then do is not modelled.
- `WebauthnAuth`'s constants and predicates and `isSocialLoginRequestCode` are not part of this model. They are the `CodeSpace` parameter.
- `IsReachFiveLoginRequestCode`, `IsReachFiveActionRequestCode`: plain predicates with no contract of their own; what they decide is stated through `ReachFive.ResolveResultHandler` and `ReachFive.ResolverAgreesWithRouters`.
- The factory `ReachFive.invoke` and the interface delegation (`by passwordAuth`, …) are wiring only.
- Android mechanics: the activity lifecycle beyond `started`, `startActivity`, the custom-tabs intent's contents (a parameter), `Uri` parsing (the data URI is kept as its string), non-string extras (extras are strings or null), and the `@RequiresApi` annotation. `setResult` and `finish` are recorded in the activity state. `Log.d` calls are left out, apart from `LogOnly` marking a foreign code.
- Facebook SDK internals: `FacebookSdk.setApplicationId`, `sdkInitialize`, `CallbackManager`, `LoginManager.registerCallback`, and the SDK's decoding of the activity result into a callback outcome. The outcome is a parameter.
- Request codes are 32-bit integers that are only compared, never computed with, so no overflow is modelled.
