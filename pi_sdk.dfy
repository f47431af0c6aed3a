/**
 * The client session hook: discovering the Pi SDK, signing in and out, the
 * session kept in the browser's storage, and the guarded hand-off of a
 * payment to the SDK. `window.Pi` and the SDK's answers are inputs.
 */
module PiSdk {
  import opened Wrappers
  import opened JsonValues
  import opened SessionCodec

  /** What `window.Pi` offers at one moment. */
  datatype WindowPi = Absent | Present(hasAuthenticate: bool, hasCreatePayment: bool)

  /** `!!(window?.Pi?.authenticate && window?.Pi?.createPayment)` */
  predicate SdkAvailable(w: WindowPi) {
    w.Present? && w.hasAuthenticate && w.hasCreatePayment
  }

  const MaxAttempts: nat := 20
  const SessionKey: string := "pi_user"
  const SdkUnavailable: string := "Pi SDK not available"
  const AuthScopes: seq<string> := ["username", "payments"]

  /** How the SDK's `authenticate` promise settles. */
  datatype AuthResult =
    | Authenticated(accessToken: string, uid: string, username: string)
    | AuthFailed(message: string)

  /** How a call to the hook's `authenticate` begins: rejected at once, or handed to the SDK. */
  datatype AuthStart = RejectedAtOnce(message: string) | AskedSdk(scopes: seq<string>)

  /** A payment callback: one the caller supplied (by name), or the hook's no-op. */
  datatype Callback = NoOp | Supplied(name: string)

  /** The callbacks a caller passes; the last two may be left out. */
  datatype PaymentCallbacks = PaymentCallbacks(
    onReadyForServerApproval: Callback,
    onReadyForServerCompletion: Callback,
    onCancelled: Option<Callback>,
    onError: Option<Callback>)

  /** The callbacks the SDK receives: all four are present. */
  datatype SdkCallbacks = SdkCallbacks(approval: Callback, completion: Callback, cancelled: Callback, error: Callback)

  /** `{ amount, memo, metadata }`, with the amount in hundredths of a Pi. */
  datatype PaymentData = PaymentData(amountCents: int, memo: string, metadata: Json)

  /** The call `window.Pi.createPayment(data, callbacks)`. */
  datatype SdkPaymentCall = SdkPaymentCall(data: PaymentData, callbacks: SdkCallbacks)

  /** `callbacks.x || (() => {})` */
  function OrNoOp(c: Option<Callback>): (r: Callback)
    ensures c.Some? ==> r == c.value
    ensures c.None? ==> r == NoOp
  {
    if c.Some? then c.value else NoOp
  }

  /** `localStorage`: one string-to-string map shared by every hook instance of a browser. */
  class LocalStorage {
    var entries: map<string, string>

    constructor(initial: map<string, string>)
      ensures entries == initial
    {
      entries := initial;
    }

    function GetItem(key: string): (v: Option<string>)
      reads this
      ensures v.Some? <==> key in entries
      ensures v.Some? ==> v.value == entries[key]
    {
      if key in entries then Some(entries[key]) else None
    }

    method SetItem(key: string, value: string)
      modifies this
      ensures entries == old(entries)[key := value]
    {
      entries := entries[key := value];
    }

    method RemoveItem(key: string)
      modifies this
      ensures entries == old(entries) - {key}
      ensures key !in entries
    {
      entries := entries - {key};
    }
  }

  /** One mounted instance of the hook, with its four pieces of state. */
  class PiSession {
    const store: LocalStorage
    var isReady: bool
    var isChecking: bool
    var user: Option<PiUser>
    var isAuthenticating: bool

    /** The initial state, before either effect has run. */
    constructor(store: LocalStorage)
      ensures this.store == store
      ensures !isReady && isChecking && user == None && !isAuthenticating
    {
      this.store := store;
      isReady := false;
      isChecking := true;
      user := None;
      isAuthenticating := false;
    }

    /** `isAuthenticated: !!user` */
    predicate IsAuthenticated()
      reads this
    {
      user.Some?
    }

    /**
     * The discovery effect: `checkPiSDK` runs at once and then every 500 ms
     * until the SDK is found or 20 checks have failed. `window(k)` is what
     * `window.Pi` holds at the k-th check.
     */
    method CheckSdk(window: nat -> WindowPi) returns (attempts: nat)
      requires isChecking && !isReady
      modifies this
      ensures 1 <= attempts <= MaxAttempts
      ensures forall k :: 1 <= k < attempts ==> !SdkAvailable(window(k))
      ensures isReady <==> SdkAvailable(window(attempts))
      ensures !isReady ==> attempts == MaxAttempts
      ensures !isChecking
      ensures user == old(user) && isAuthenticating == old(isAuthenticating)
    {
      attempts := 0;
      while true
        invariant attempts < MaxAttempts
        invariant forall k :: 1 <= k <= attempts ==> !SdkAvailable(window(k))
        invariant isChecking && !isReady
        invariant user == old(user) && isAuthenticating == old(isAuthenticating)
        decreases MaxAttempts - attempts
      {
        attempts := attempts + 1;
        var piAvailable := SdkAvailable(window(attempts));
        if piAvailable {
          isReady := true;
          isChecking := false;
          return;
        }
        if attempts >= MaxAttempts {
          isChecking := false;
          return;
        }
        // setTimeout(checkPiSDK, 500)
      }
    }

    /**
     * The synchronous part of `authenticate`: the guard, then the flag is
     * raised and the SDK is asked for the two scopes.
     */
    method BeginAuthenticate(windowPi: WindowPi) returns (start: AuthStart)
      modifies this
      ensures !old(isReady) || windowPi.Absent? ==>
                start == RejectedAtOnce(SdkUnavailable) && isAuthenticating == old(isAuthenticating)
      ensures old(isReady) && windowPi.Present? ==> start == AskedSdk(AuthScopes) && isAuthenticating
      ensures user == old(user) && isReady == old(isReady) && isChecking == old(isChecking)
    {
      if !isReady || windowPi.Absent? {
        return RejectedAtOnce(SdkUnavailable);
      }
      isAuthenticating := true;
      start := AskedSdk(AuthScopes);
    }

    /**
     * The rest of `authenticate`, once the SDK's promise settles: on success
     * the user is installed and stored; the flag is lowered on every path.
     */
    method FinishAuthenticate(result: AuthResult) returns (outcome: Result<PiUser>)
      modifies this, store
      ensures !isAuthenticating
      ensures isReady == old(isReady) && isChecking == old(isChecking)
      ensures result.Authenticated? ==>
                && user == Some(PiUser(result.uid, result.username, result.accessToken))
                && store.entries == old(store.entries)[SessionKey := EncodeUser(user.value)]
                && outcome == Ok(user.value)
      ensures result.AuthFailed? ==>
                user == old(user) && store.entries == old(store.entries) && outcome == Err(result.message)
    {
      match result {
        case Authenticated(accessToken, uid, username) =>
          var piUser := PiUser(uid, username, accessToken);
          user := Some(piUser);
          store.SetItem(SessionKey, EncodeUser(piUser));
          outcome := Ok(piUser);
        case AuthFailed(message) =>
          outcome := Err(message);
      }
      isAuthenticating := false;
    }

    method Logout()
      modifies this, store
      ensures user == None && !IsAuthenticated()
      ensures store.entries == old(store.entries) - {SessionKey}
      ensures isReady == old(isReady) && isChecking == old(isChecking) && isAuthenticating == old(isAuthenticating)
    {
      user := None;
      store.RemoveItem(SessionKey);
    }

    /**
     * The restore effect: a stored entry that reads back as a user is
     * installed; one that does not is removed; an absent or empty entry is ignored.
     */
    method RestoreSession()
      modifies this, store
      ensures isReady == old(isReady) && isChecking == old(isChecking) && isAuthenticating == old(isAuthenticating)
      ensures SessionKey !in old(store.entries) || old(store.entries)[SessionKey] == "" ==>
                user == old(user) && store.entries == old(store.entries)
      ensures SessionKey in old(store.entries) && old(store.entries)[SessionKey] != "" ==>
                match DecodeUser(old(store.entries)[SessionKey])
                case Some(u) => user == Some(u) && store.entries == old(store.entries)
                case None => user == old(user) && store.entries == old(store.entries) - {SessionKey}
    {
      var stored := store.GetItem(SessionKey);
      if stored.Some? && stored.value != "" {
        var parsed := DecodeUser(stored.value);
        if parsed.Some? {
          user := parsed;
        } else {
          store.RemoveItem(SessionKey);
        }
      }
    }

    /**
     * The hook's `createPayment`: refused unless the SDK was found; otherwise
     * the data goes through untouched and missing callbacks become no-ops.
     */
    function CreatePayment(windowPi: WindowPi, data: PaymentData, callbacks: PaymentCallbacks): (r: Result<SdkPaymentCall>)
      reads this
      ensures r.Err? <==> !isReady || windowPi.Absent?
      ensures r.Err? ==> r.error == SdkUnavailable
      ensures r.Ok? ==> r.value.data == data
      ensures r.Ok? ==> r.value.callbacks.approval == callbacks.onReadyForServerApproval
                        && r.value.callbacks.completion == callbacks.onReadyForServerCompletion
      ensures r.Ok? && callbacks.onCancelled.Some? ==> r.value.callbacks.cancelled == callbacks.onCancelled.value
      ensures r.Ok? && callbacks.onCancelled.None? ==> r.value.callbacks.cancelled == NoOp
      ensures r.Ok? && callbacks.onError.Some? ==> r.value.callbacks.error == callbacks.onError.value
      ensures r.Ok? && callbacks.onError.None? ==> r.value.callbacks.error == NoOp
    {
      if !isReady || windowPi.Absent? then Err(SdkUnavailable)
      else Ok(SdkPaymentCall(data, SdkCallbacks(
        callbacks.onReadyForServerApproval,
        callbacks.onReadyForServerCompletion,
        OrNoOp(callbacks.onCancelled),
        OrNoOp(callbacks.onError))))
    }
  }

  /** Mounting the hook: the initial state, then the discovery effect, then the restore effect. */
  method Mount(store: LocalStorage, window: nat -> WindowPi) returns (s: PiSession, attempts: nat)
    modifies store
    ensures fresh(s) && s.store == store
    ensures 1 <= attempts <= MaxAttempts && !s.isChecking && !s.isAuthenticating
    ensures s.isReady <==> SdkAvailable(window(attempts))
    ensures SessionKey in old(store.entries) && DecodeUser(old(store.entries)[SessionKey]).Some? ==>
              s.user == DecodeUser(old(store.entries)[SessionKey]) && store.entries == old(store.entries)
    ensures SessionKey !in old(store.entries) ==> s.user == None && store.entries == old(store.entries)
  {
    s := new PiSession(store);
    attempts := s.CheckSdk(window);
    if SessionKey in store.entries {
      EncodedTextIsNonEmpty(store.entries[SessionKey]);
    }
    s.RestoreSession();
  }

  /** A text that reads back as a user is not empty, so restore does not skip it. */
  lemma EncodedTextIsNonEmpty(t: string)
    ensures DecodeUser(t).Some? ==> t != ""
  {
  }

  /** Signing in, then loading the app again in the same browser, restores the same user. */
  method SignInSurvivesReload(store: LocalStorage, window: nat -> WindowPi, found: WindowPi, result: AuthResult)
      returns (before: PiSession, after: PiSession)
    requires result.Authenticated?
    modifies store
    ensures fresh(before) && fresh(after)
    ensures before.isReady && found.Present? ==>
              && before.user == Some(PiUser(result.uid, result.username, result.accessToken))
              && after.user == before.user && after.IsAuthenticated()
  {
    var attempts;
    before, attempts := Mount(store, window);
    var start := before.BeginAuthenticate(found);
    if start.AskedSdk? {
      var outcome := before.FinishAuthenticate(result);
      DecodeEncodeUser(before.user.value);
    }
    after, attempts := Mount(store, window);
  }

  /** Signing out, then loading the app again, leaves nobody signed in. */
  method LogoutSurvivesReload(s: PiSession, window: nat -> WindowPi) returns (after: PiSession)
    modifies s, s.store
    ensures fresh(after) && !after.IsAuthenticated() && !s.IsAuthenticated()
  {
    s.Logout();
    var attempts;
    after, attempts := Mount(s.store, window);
  }
}
