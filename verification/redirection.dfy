/** `RedirectionActivity`: the activity that launches the browser for the
    authorization-code redirect flow, accepts the redirect back from a trusted
    caller and closes itself once the browser returns. */
module Redirection {
  import opened Common
  import opened Android

  const CODE_VERIFIER_KEY := "CODE_VERIFIER"
  const URL_KEY := "URL"

  /** The one request code of the browser-redirect flow. */
  const RC_WEBLOGIN: int32 := 52557

  /** The only calling activity whose redirect is forwarded. */
  const TRUSTED_CALLER := "com.cdapp.MainActivity"

  /** Both URI-permission grant flags. */
  const URI_GRANT_FLAGS: bv32 := FLAG_GRANT_READ_URI_PERMISSION | FLAG_GRANT_WRITE_URI_PERMISSION

  /** Membership of `code` in the set of redirect request codes. */
  function IsLoginRequestCode(code: int32): (r: bool)
    ensures r <==> code == 52557
  {
    code in {RC_WEBLOGIN}
  }

  /** What `setResult` recorded. */
  datatype ActivityResult = ActivityResult(resultCode: int32, data: Intent)

  /** The observable state of one activity instance: the `started` flag, how many
      times `finish()` has been called and the result set so far. */
  datatype ActivityState = ActivityState(started: bool, finishCalls: nat, result: Option<ActivityResult>)

  /** A freshly created activity. */
  const Created := ActivityState(false, 0, None)

  /** Why the browser could not be launched. */
  datatype LaunchError =
    /** The launching intent has no `URL` extra, and `Uri.parse(null)` throws. */
    | NullUrl

  /** `onCreate`: builds the browser intent from the custom-tabs intent `customTabs`,
      pointing it at the `URL` extra and carrying the `CODE_VERIFIER` extra over. */
  function OnCreate(launch: Intent, customTabs: Intent): (r: Result<Intent, LaunchError>)
    ensures r.Failure? <==> GetStringExtra(launch, URL_KEY).None?
    ensures r.Success? ==>
      && r.value.data == GetStringExtra(launch, URL_KEY)
      && GetStringExtra(r.value, CODE_VERIFIER_KEY) == GetStringExtra(launch, CODE_VERIFIER_KEY)
      && r.value.action == customTabs.action
      && r.value.flags == customTabs.flags
      && (forall k :: k in customTabs.extras && k != CODE_VERIFIER_KEY ==>
            k in r.value.extras && r.value.extras[k] == customTabs.extras[k])
      && (forall k :: k in r.value.extras ==> k == CODE_VERIFIER_KEY || k in customTabs.extras)
  {
    var url := GetStringExtra(launch, URL_KEY);
    var verifier := GetStringExtra(launch, CODE_VERIFIER_KEY);
    match url
    case None => Failure(NullUrl)
    case Some(u) => Success(PutExtra(customTabs.(data := Some(u)), CODE_VERIFIER_KEY, verifier))
  }

  /** `onResume`: the first call only marks the activity started; every later
      call finishes it. */
  function OnResume(s: ActivityState): (t: ActivityState)
    ensures t.started
    ensures !s.started ==> t.finishCalls == s.finishCalls
    ensures s.started ==> t.finishCalls == s.finishCalls + 1
    ensures t.result == s.result
  {
    if !s.started then s.(started := true)
    else s.(finishCalls := s.finishCalls + 1)
  }

  /** `n` successive `onResume` calls. */
  function ResumeTimes(s: ActivityState, n: nat): ActivityState
  {
    if n == 0 then s else OnResume(ResumeTimes(s, n - 1))
  }

  /** From a fresh activity, `n` resumes leave it started iff `n >= 1` and
      finish it once for every resume after the first. */
  lemma {:induction false} ResumeMachine(n: nat)
    ensures ResumeTimes(Created, n).started <==> n >= 1
    ensures ResumeTimes(Created, n).finishCalls == if n == 0 then 0 else n - 1
    ensures ResumeTimes(Created, n).result.None?
  {
    if n > 0 {
      ResumeMachine(n - 1);
    }
  }

  /** Once started, an activity never returns to not started, and every
      further resume finishes it. */
  lemma {:induction false} StartedIsSticky(s: ActivityState, n: nat)
    requires s.started
    ensures ResumeTimes(s, n).started
    ensures ResumeTimes(s, n).finishCalls == s.finishCalls + n
  {
    if n > 0 {
      StartedIsSticky(s, n - 1);
    }
  }

  /** The redirect intent with both URI-permission grants removed. */
  function StripUriGrants(i: Intent): (r: Intent)
    ensures r.flags & FLAG_GRANT_READ_URI_PERMISSION == 0
    ensures r.flags & FLAG_GRANT_WRITE_URI_PERMISSION == 0
    ensures r.flags & !URI_GRANT_FLAGS == i.flags & !URI_GRANT_FLAGS
    ensures r.action == i.action && r.data == i.data && r.extras == i.extras
  {
    RemoveFlags(RemoveFlags(i, FLAG_GRANT_READ_URI_PERMISSION), FLAG_GRANT_WRITE_URI_PERMISSION)
  }

  /** Stripping twice strips nothing more. */
  lemma StripUriGrantsIdempotent(i: Intent)
    ensures StripUriGrants(StripUriGrants(i)) == StripUriGrants(i)
  {
    var r := StripUriGrants(i);
    assert StripUriGrants(r).flags == r.flags;
  }

  /** Whether `callingActivity?.className` is the trusted caller. */
  predicate IsTrustedCaller(callingActivity: Option<ComponentName>)
  {
    callingActivity.Some? && callingActivity.value.className == TRUSTED_CALLER
  }

  /** `onNewIntent`: a redirect from the trusted caller becomes the activity's
      `RESULT_OK` result, stripped of URI grants, and finishes the activity;
      any other caller leaves the activity exactly as it was. */
  function OnNewIntent(s: ActivityState, callingActivity: Option<ComponentName>, newIntent: Intent): (t: ActivityState)
    ensures t.started == s.started
    ensures t.result != s.result || t.finishCalls != s.finishCalls <==> IsTrustedCaller(callingActivity)
    ensures IsTrustedCaller(callingActivity) ==>
      && t.finishCalls == s.finishCalls + 1
      && t.result.Some?
      && t.result.value.resultCode == RESULT_OK
      && t.result.value.data.flags & URI_GRANT_FLAGS == 0
      && t.result.value.data.flags & !URI_GRANT_FLAGS == newIntent.flags & !URI_GRANT_FLAGS
      && t.result.value.data.(flags := newIntent.flags) == newIntent
    ensures !IsTrustedCaller(callingActivity) ==> t == s
  {
    var className := match callingActivity case Some(c) => Some(c.className) case None => None;
    if className == Some(TRUSTED_CALLER) then
      s.(result := Some(ActivityResult(RESULT_OK, StripUriGrants(newIntent))), finishCalls := s.finishCalls + 1)
    else s
  }
}
