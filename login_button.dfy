/** The Pi sign-in button: one guard, then a busy flag raised for the sign-in and lowered when it settles. */
module LoginButton {
  import opened Wrappers
  import opened SessionCodec
  import opened PiSdk
  import opened Ui

  const BrowserRequiredToast: Toast := Toast("Pi Browser Required", "Please open this app in Pi Browser to sign in with Pi.", true)
  const SignInFailedToast: Toast := Toast("Sign In Failed", "Unable to sign in with Pi. Please try again.", true)

  function WelcomeToast(username: string): Toast {
    Toast("Welcome to Daily Pi Mart!", "Signed in as " + username, false)
  }

  /** The hook returns no `isLoadingSession`, so the button reads `undefined`. */
  const HookLoadingSession: Option<bool> := None

  /**
   * `!isReady || isAuthenticating || isLoading || isLoadingSession`, where the
   * last operand may be `undefined` (falsy).
   */
  predicate Disabled(isReady: bool, isAuthenticating: bool, isLoading: bool, isLoadingSession: Option<bool>) {
    !isReady || isAuthenticating || isLoading || isLoadingSession == Some(true)
  }

  /** As the hook actually behaves, the last operand never disables the button. */
  lemma DisabledWithoutSessionFlag(isReady: bool, isAuthenticating: bool, isLoading: bool)
    ensures Disabled(isReady, isAuthenticating, isLoading, HookLoadingSession) <==> (!isReady || isAuthenticating || isLoading)
  {
  }

  /** What a click does. */
  datatype LoginClick = NeedsPiBrowser | SignInFailed(message: string) | AwaitingSdk

  class PiLoginButton {
    const hasOnSuccess: bool
    /** The button's own instance of the session hook. */
    const sdk: PiSession
    var isLoading: bool
    var toasts: seq<Toast>
    /** How many times the owner's `onSuccess` has been called. */
    var successCalls: nat

    constructor(hasOnSuccess: bool, sdk: PiSession)
      ensures this.hasOnSuccess == hasOnSuccess && this.sdk == sdk
      ensures !isLoading && toasts == [] && successCalls == 0
    {
      this.hasOnSuccess := hasOnSuccess;
      this.sdk := sdk;
      isLoading := false;
      toasts := [];
      successCalls := 0;
    }

    predicate IsDisabled()
      reads this, sdk
    {
      Disabled(sdk.isReady, sdk.isAuthenticating, isLoading, HookLoadingSession)
    }

    /**
     * A click: without the SDK only a toast; otherwise the flag is raised and
     * the hook's `authenticate` starts. If it refuses at once, the catch and
     * finally blocks run immediately.
     */
    method HandleLogin(windowPi: WindowPi) returns (r: LoginClick)
      modifies this, sdk
      ensures successCalls == old(successCalls) && sdk.user == old(sdk.user)
      ensures sdk.isReady == old(sdk.isReady) && sdk.isChecking == old(sdk.isChecking)
      ensures !old(sdk.isReady) ==>
                && r == NeedsPiBrowser && toasts == old(toasts) + [BrowserRequiredToast]
                && isLoading == old(isLoading) && sdk.isAuthenticating == old(sdk.isAuthenticating)
      ensures old(sdk.isReady) && windowPi.Absent? ==>
                && r == SignInFailed(SdkUnavailable) && toasts == old(toasts) + [SignInFailedToast] && !isLoading
                && sdk.isAuthenticating == old(sdk.isAuthenticating)
      ensures old(sdk.isReady) && windowPi.Present? ==>
                r == AwaitingSdk && toasts == old(toasts) && isLoading && sdk.isAuthenticating
    {
      if !sdk.isReady {
        toasts := toasts + [BrowserRequiredToast];
        return NeedsPiBrowser;
      }
      isLoading := true;
      var start := sdk.BeginAuthenticate(windowPi);
      match start {
        case RejectedAtOnce(message) =>
          toasts := toasts + [SignInFailedToast];
          r := SignInFailed(message);
        case AskedSdk(_) =>
          r := AwaitingSdk;
      }
      if r.SignInFailed? {
        isLoading := false;
      }
    }

    /**
     * The SDK's sign-in settled: on success a welcome toast and `onSuccess`;
     * on failure a toast and no `onSuccess`. The flag drops either way.
     */
    method LoginSettled(result: AuthResult)
      modifies this, sdk, sdk.store
      ensures !isLoading && !sdk.isAuthenticating
      ensures sdk.isReady == old(sdk.isReady) && sdk.isChecking == old(sdk.isChecking)
      ensures result.Authenticated? ==>
                && sdk.user == Some(PiUser(result.uid, result.username, result.accessToken))
                && sdk.store.entries == old(sdk.store.entries)[SessionKey := EncodeUser(sdk.user.value)]
                && toasts == old(toasts) + [WelcomeToast(result.username)]
                && successCalls == old(successCalls) + (if hasOnSuccess then 1 else 0)
      ensures result.AuthFailed? ==>
                && sdk.user == old(sdk.user)
                && sdk.store.entries == old(sdk.store.entries)
                && toasts == old(toasts) + [SignInFailedToast]
                && successCalls == old(successCalls)
    {
      var outcome := sdk.FinishAuthenticate(result);
      match outcome {
        case Ok(user) =>
          toasts := toasts + [WelcomeToast(user.username)];
          if hasOnSuccess {
            successCalls := successCalls + 1;
          }
        case Err(_) =>
          toasts := toasts + [SignInFailedToast];
      }
      isLoading := false;
    }
  }

  /** While a sign-in is under way the button cannot be clicked again. */
  method ClickDisablesButton(button: PiLoginButton, windowPi: WindowPi) returns (r: LoginClick)
    requires !button.IsDisabled() && windowPi.Present?
    modifies button, button.sdk
    ensures r == AwaitingSdk && button.IsDisabled()
  {
    r := button.HandleLogin(windowPi);
  }
}
