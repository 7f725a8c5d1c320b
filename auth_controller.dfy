/** The transitions of `useGoogleAuth` (`lib/hooks/use-google-auth.ts`) as methods on an object
    holding the hook's state, the browser's token store, the popup windows and the resources a
    sign-in leaves behind. Network answers, window closing and timer firings are events and
    parameters. */
module AuthController {
  import opened Wrappers
  import opened Text
  import opened AuthTypes
  import opened AuthState

  /** What a sign-in registered: the popup window it holds, its message listener, its
      `checkClosed` interval, its 5-minute timer, and the `state.isLoading` its callback captured
      when it was rendered. */
  datatype Attempt = Attempt(window: nat, listening: bool, polling: bool, timerPending: bool, capturedLoading: bool)

  /** The answer of `POST /api/auth/verify` during rehydration; `VerifyThrew` also covers a body
      that is not JSON. */
  datatype VerifyResponse = VerifyOk(user: Option<GoogleUser>, wallet: Option<SmartWallet>) | VerifyRejected | VerifyThrew

  /** A value thrown inside `signInWithGoogle`: an `Error` with its message, or anything else. */
  datatype Thrown = ErrorThrown(message: string) | ValueThrown

  /** The answer of `GET /api/auth/google`: ok, a non-ok status with the page text, or a
      rejection. */
  datatype AuthResponse = AuthOk | AuthNotOk(status: nat, text: string) | AuthThrew(thrown: Thrown)

  /** The requests awaiting an answer: the mount's `POST /api/auth/verify`, the logout requests
      of `signOut`, and the wallet lookups of `refreshWallet`. */
  datatype Requests = Requests(verify: bool, signOuts: nat, walletLookups: nat)

  /** The outcome of `getWalletByUserId` for the signed-in user. */
  datatype WalletLookup = WalletFound(wallet: Option<SmartWallet>) | WalletLookupThrew

  /** The error `signInWithGoogle`'s catch shows: the `Error`'s own message, even when empty, or
      the fallback for any other thrown value. */
  function CaughtMessage(t: Thrown): (m: string)
    ensures t.ErrorThrown? ==> m == t.message
    ensures t.ValueThrown? ==> m == AuthenticationFailed
  {
    match t
    case ErrorThrown(message) => message
    case ValueThrown => AuthenticationFailed
  }

  /** Whether the window named `google-auth` is open: it is the most recently opened one. */
  predicate NamedWindowOpen(windows: seq<bool>) {
    |windows| > 0 && windows[|windows| - 1]
  }

  /** Whether some sign-in still listens for the popup's message. */
  predicate Listening(attempts: seq<Attempt>) {
    exists i | 0 <= i < |attempts| :: attempts[i].listening
  }

  /** Whether a sign-in holding window `w` still listens. */
  predicate ListensIn(attempts: seq<Attempt>, w: nat) {
    exists i | 0 <= i < |attempts| :: attempts[i].listening && attempts[i].window == w
  }

  /** The attempts with every message listener removed. */
  function ListenersRemoved(attempts: seq<Attempt>): (r: seq<Attempt>)
    ensures |r| == |attempts| && !Listening(r)
    ensures forall i | 0 <= i < |r| :: r[i] == attempts[i].(listening := false)
  {
    seq(|attempts|, i requires 0 <= i < |attempts| => attempts[i].(listening := false))
  }

  /** The windows after every listening sign-in has closed its own popup; windows no listener
      holds keep their state. */
  function ListenerWindowsClosed(windows: seq<bool>, attempts: seq<Attempt>): (r: seq<bool>)
    ensures |r| == |windows|
    ensures forall w | 0 <= w < |windows| :: r[w] == (windows[w] && !ListensIn(attempts, w))
  {
    seq(|windows|, w requires 0 <= w < |windows| => windows[w] && !ListensIn(attempts, w))
  }

  /** JavaScript truthiness of the posted token: present and not empty. */
  predicate HasToken(token: Option<string>) {
    token.Some? && token.value != ""
  }

  class AuthController {
    var state: AuthState
    /** `localStorage['kelo_auth_token']`. */
    var storedToken: Option<string>
    /** Every popup window opened so far, by the order of opening: whether it is still open. */
    var windows: seq<bool>
    /** Every sign-in so far, in order; nothing stops a second one while the first is pending. */
    var attempts: seq<Attempt>
    /** The requests sent and not yet answered. */
    var pending: Requests

    /** Every attempt holds a window that was opened, and its listener is removed no later than
        its interval is cleared. */
    ghost predicate Valid()
      reads this
    {
      forall i | 0 <= i < |attempts| ::
        attempts[i].window < |windows| && (attempts[i].listening ==> attempts[i].polling)
    }

    /** The hook mounted with whatever token the browser already stores, and its mount effect
        `checkExistingSession` started: it reads the token once; without one, loading stops at
        once; with one, the verify request is sent and nothing else changes until it is
        answered. */
    constructor (storedToken: Option<string>)
      ensures Valid()
      ensures this.storedToken == storedToken && windows == [] && attempts == []
      ensures state == if HasToken(storedToken) then InitialState() else Loaded(InitialState())
      ensures pending == Requests(HasToken(storedToken), 0, 0)
    {
      this.storedToken := storedToken;
      windows := [];
      attempts := [];
      pending := Requests(HasToken(storedToken), 0, 0);
      state := if HasToken(storedToken) then InitialState() else Loaded(InitialState());
    }

    /** The verify request of `checkExistingSession` is answered: a verified token installs its
        session whatever happened meanwhile; a rejection removes whatever token is stored now
        and stops loading; a failure is reported. */
    method VerifyAnswered(verify: VerifyResponse)
      requires Valid() && pending.verify
      modifies this
      ensures Valid() && windows == old(windows) && attempts == old(attempts)
      ensures pending == old(pending).(verify := false)
      ensures verify.VerifyOk? ==>
        state == Authenticated(verify.user, verify.wallet) && storedToken == old(storedToken)
      ensures verify.VerifyRejected? ==> state == Loaded(old(state)) && storedToken.None?
      ensures verify.VerifyThrew? ==>
        state == Failed(old(state), SessionVerifyFailed) && storedToken == old(storedToken)
    {
      pending := pending.(verify := false);
      match verify
      case VerifyOk(user, wallet) =>
        state := Authenticated(user, wallet);
      case VerifyRejected =>
        storedToken := None;
        state := Loaded(state);
      case VerifyThrew =>
        state := Failed(state, SessionVerifyFailed);
    }

    /** `signInWithGoogle`, called from a render whose `state.isLoading` was `renderedIsLoading`;
        `popupOpened` is whether `window.open` returned a window. Returns what it rethrows, or
        None once the popup is up and the listener, interval and timer are registered. The named
        window is reused while it is open; once closed, a new window is opened. */
    method SignIn(renderedIsLoading: bool, response: AuthResponse, popupOpened: bool)
      returns (thrown: Option<Thrown>)
      requires Valid()
      modifies this
      ensures Valid() && storedToken == old(storedToken) && pending == old(pending)
      ensures thrown.None? <==> response.AuthOk? && popupOpened
      ensures thrown.None? ==>
        state == StartLoading(old(state)) &&
        windows == (if NamedWindowOpen(old(windows)) then old(windows) else old(windows) + [true]) &&
        attempts == old(attempts) + [Attempt(|windows| - 1, true, true, true, renderedIsLoading)]
      ensures thrown.Some? ==>
        state == Failed(old(state), CaughtMessage(thrown.value)) &&
        windows == old(windows) && attempts == old(attempts)
      ensures response.AuthNotOk? ==>
        thrown == Some(ErrorThrown(ClassifyAuthFailure(response.status, response.text)))
      ensures response.AuthThrew? ==> thrown == Some(response.thrown)
      ensures response.AuthOk? && !popupOpened ==> thrown == Some(ErrorThrown(PopupBlocked))
    {
      state := StartLoading(state);
      var failure: Option<Thrown> := None;
      match response {
        case AuthThrew(t) =>
          failure := Some(t);
        case AuthNotOk(status, text) =>
          failure := Some(ErrorThrown(ClassifyAuthFailure(status, text)));
        case AuthOk =>
          if !popupOpened {
            failure := Some(ErrorThrown(PopupBlocked));
          }
      }
      if failure.Some? {
        state := Failed(state, CaughtMessage(failure.value));
        return failure;
      }
      if !NamedWindowOpen(windows) {
        windows := windows + [true];
      }
      attempts := attempts + [Attempt(|windows| - 1, true, true, true, renderedIsLoading)];
      return None;
    }

    /** A `message` event from `origin` reaching the page at `pageOrigin`; every registered
        listener sees it. A foreign origin or an unknown type changes nothing; a success or error
        message removes the listeners, closes each listener's popup and updates the state,
        without clearing any interval. */
    method DeliverMessage(origin: string, pageOrigin: string, data: MessageData)
      requires Valid()
      modifies this
      ensures Valid() && pending == old(pending)
      ensures (origin != pageOrigin || !Listening(old(attempts)) ||
               (data.messageType != SuccessMessageType && data.messageType != ErrorMessageType)) ==>
        state == old(state) && storedToken == old(storedToken) && windows == old(windows) &&
        attempts == old(attempts)
      ensures origin == pageOrigin && Listening(old(attempts)) && data.messageType == SuccessMessageType ==>
        state == Authenticated(data.user, data.wallet) &&
        windows == ListenerWindowsClosed(old(windows), old(attempts)) &&
        attempts == ListenersRemoved(old(attempts)) &&
        storedToken == (if HasToken(data.token) then data.token else old(storedToken))
      ensures origin == pageOrigin && Listening(old(attempts)) && data.messageType == ErrorMessageType ==>
        state == Failed(old(state), OrDefault(data.error, AuthenticationFailed)) &&
        windows == ListenerWindowsClosed(old(windows), old(attempts)) &&
        attempts == ListenersRemoved(old(attempts)) && storedToken == old(storedToken)
    {
      if origin != pageOrigin || !Listening(attempts) {
        return;
      }
      if data.messageType == SuccessMessageType {
        windows := ListenerWindowsClosed(windows, attempts);
        attempts := ListenersRemoved(attempts);
        if HasToken(data.token) {
          storedToken := data.token;
        }
        state := Authenticated(data.user, data.wallet);
      } else if data.messageType == ErrorMessageType {
        windows := ListenerWindowsClosed(windows, attempts);
        attempts := ListenersRemoved(attempts);
        state := Failed(state, OrDefault(data.error, AuthenticationFailed));
      }
    }

    /** The user closes popup window `w`. */
    method UserClosesWindow(w: nat)
      requires Valid() && w < |windows|
      modifies this
      ensures Valid() && windows == old(windows)[w := false]
      ensures state == old(state) && storedToken == old(storedToken) && attempts == old(attempts)
      ensures pending == old(pending)
    {
      windows := windows[w := false];
    }

    /** One tick of attempt `k`'s `checkClosed` interval, as written: once its own popup is
        closed it clears the interval and the listener, and reports a cancellation only if the
        loading flag the callback captured at render time was set; the current state is never
        consulted. */
    method PollTick(k: nat)
      requires Valid() && k < |attempts| && attempts[k].polling
      modifies this
      ensures Valid() && storedToken == old(storedToken) && windows == old(windows) && pending == old(pending)
      ensures old(windows)[old(attempts)[k].window] ==> state == old(state) && attempts == old(attempts)
      ensures !old(windows)[old(attempts)[k].window] ==>
        attempts == old(attempts)[k := old(attempts)[k].(listening := false, polling := false)] &&
        state == (if old(attempts)[k].capturedLoading then Failed(old(state), AuthenticationCancelled)
                  else old(state))
    {
      var a := attempts[k];
      if windows[a.window] {
        return;
      }
      attempts := attempts[k := a.(listening := false, polling := false)];
      if a.capturedLoading {
        state := Failed(state, AuthenticationCancelled);
      }
    }

    /** The tick as evidently intended: a cancellation is reported exactly when the current state
        is still loading. */
    method PollTickFixed(k: nat)
      requires Valid() && k < |attempts| && attempts[k].polling
      modifies this
      ensures Valid() && storedToken == old(storedToken) && windows == old(windows) && pending == old(pending)
      ensures old(windows)[old(attempts)[k].window] ==> state == old(state) && attempts == old(attempts)
      ensures !old(windows)[old(attempts)[k].window] ==>
        attempts == old(attempts)[k := old(attempts)[k].(listening := false, polling := false)] &&
        state == (if old(state).isLoading then Failed(old(state), AuthenticationCancelled) else old(state))
    {
      var a := attempts[k];
      if windows[a.window] {
        return;
      }
      attempts := attempts[k := a.(listening := false, polling := false)];
      if state.isLoading {
        state := Failed(state, AuthenticationCancelled);
      }
    }

    /** Attempt `k`'s five-minute timer: if its own popup is still open it closes it, clears the
        interval and the listener, and reports the timeout; otherwise it does nothing. */
    method TimeoutFires(k: nat)
      requires Valid() && k < |attempts| && attempts[k].timerPending
      modifies this
      ensures Valid() && storedToken == old(storedToken) && pending == old(pending)
      ensures windows == old(windows)[old(attempts)[k].window := false]
      ensures old(windows)[old(attempts)[k].window] ==>
        attempts == old(attempts)[k := old(attempts)[k].(listening := false, polling := false, timerPending := false)] &&
        state == Failed(old(state), AuthenticationTimedOut)
      ensures !old(windows)[old(attempts)[k].window] ==>
        attempts == old(attempts)[k := old(attempts)[k].(timerPending := false)] && state == old(state)
    {
      var a := attempts[k];
      if windows[a.window] {
        windows := windows[a.window := false];
        attempts := attempts[k := a.(listening := false, polling := false, timerPending := false)];
        state := Failed(state, AuthenticationTimedOut);
      } else {
        attempts := attempts[k := a.(timerPending := false)];
      }
    }

    /** `signOut` up to its await: loading starts and the logout request is sent. */
    method StartSignOut()
      requires Valid()
      modifies this
      ensures Valid() && windows == old(windows) && attempts == old(attempts)
      ensures storedToken == old(storedToken) && state == old(state).(isLoading := true)
      ensures pending == old(pending).(signOuts := old(pending).signOuts + 1)
    {
      state := state.(isLoading := true);
      pending := pending.(signOuts := pending.signOuts + 1);
    }

    /** A logout request is answered: the token is removed and the state reset, whatever
        happened meanwhile; when the request throws, the token stays and the failure is
        reported. */
    method SignOutAnswered(fetchThrew: bool)
      requires Valid() && pending.signOuts > 0
      modifies this
      ensures Valid() && windows == old(windows) && attempts == old(attempts)
      ensures pending == old(pending).(signOuts := old(pending).signOuts - 1)
      ensures !fetchThrew ==> storedToken.None? && state == SignedOut()
      ensures fetchThrew ==>
        storedToken == old(storedToken) && state == Failed(old(state), SignOutFailed)
    {
      pending := pending.(signOuts := pending.signOuts - 1);
      if fetchThrew {
        state := Failed(state, SignOutFailed);
        return;
      }
      storedToken := None;
      state := SignedOut();
    }

    /** `clearError`: only the error changes. */
    method ClearError()
      requires Valid()
      modifies this
      ensures Valid() && state == ErrorCleared(old(state))
      ensures storedToken == old(storedToken) && windows == old(windows) && attempts == old(attempts)
      ensures pending == old(pending)
    {
      state := ErrorCleared(state);
    }

    /** `refreshWallet` up to its await, called from a render whose user was `renderedUser`:
        without a user nothing happens; otherwise the wallet of that user is looked up. */
    method StartRefreshWallet(renderedUser: Option<GoogleUser>)
      requires Valid()
      modifies this
      ensures Valid() && state == old(state) && storedToken == old(storedToken)
      ensures windows == old(windows) && attempts == old(attempts)
      ensures pending == if renderedUser.None? then old(pending)
                         else old(pending).(walletLookups := old(pending).walletLookups + 1)
    {
      if renderedUser.None? {
        return;
      }
      pending := pending.(walletLookups := pending.walletLookups + 1);
    }

    /** A wallet lookup is answered: a found wallet replaces the wallet of the state as it is
        now, even if the user has signed out meanwhile; a failed lookup changes nothing. */
    method WalletLookupAnswered(lookup: WalletLookup)
      requires Valid() && pending.walletLookups > 0
      modifies this
      ensures Valid() && storedToken == old(storedToken) && windows == old(windows) && attempts == old(attempts)
      ensures pending == old(pending).(walletLookups := old(pending).walletLookups - 1)
      ensures lookup.WalletLookupThrew? ==> state == old(state)
      ensures lookup.WalletFound? ==> state == WalletReplaced(old(state), lookup.wallet)
    {
      pending := pending.(walletLookups := pending.walletLookups - 1);
      match lookup
      case WalletLookupThrew =>
      case WalletFound(wallet) =>
        state := WalletReplaced(state, wallet);
    }
  }

  // ---------------------------------------------------------------- requests answered late

  /** A wallet lookup still pending when the user signs out is applied to the signed-out state:
      the page shows no user and no session, but a wallet. */
  method WalletAfterSignOut(token: string, user: GoogleUser, wallet: SmartWallet)
    returns (s: AuthState, stored: Option<string>)
    requires token != ""
    ensures !s.isAuthenticated && !s.isLoading && s.user.None? && s.error.None?
    ensures s.wallet == Some(wallet) && stored.None?
  {
    var c := new AuthController(Some(token));
    c.VerifyAnswered(VerifyOk(Some(user), None));
    c.StartRefreshWallet(c.state.user);
    c.StartSignOut();
    c.SignOutAnswered(false);
    c.WalletLookupAnswered(WalletFound(Some(wallet)));
    s, stored := c.state, c.storedToken;
  }

  /** The token is read once at mount: a sign-out while the verify request is pending removes
      it, yet the verified answer that arrives afterwards signs the user back in, with no token
      stored. */
  method VerifyAfterSignOut(token: string, user: GoogleUser, wallet: SmartWallet)
    returns (s: AuthState, stored: Option<string>)
    requires token != ""
    ensures s == Authenticated(Some(user), Some(wallet))
    ensures stored.None?
  {
    var c := new AuthController(Some(token));
    c.StartSignOut();
    c.SignOutAnswered(false);
    c.VerifyAnswered(VerifyOk(Some(user), Some(wallet)));
    s, stored := c.state, c.storedToken;
  }

  // ---------------------------------------------------------------- windows per sign-in

  /** A sign-in after an earlier one has finished gets a window of its own, so the earlier
      sign-in's pending timer finds its own window closed and leaves the new sign-in alone. */
  method StaleTimerLeavesNextSignIn(pageOrigin: string, token: string, user: GoogleUser)
    returns (s: AuthState, windowsOpen: seq<bool>, second: Attempt)
    requires token != ""
    ensures s.isLoading && s.error.None?
    ensures windowsOpen == [false, true]
    ensures second == Attempt(1, true, true, true, false)
  {
    var c := new AuthController(None);
    var thrown := c.SignIn(c.state.isLoading, AuthOk, true);
    c.DeliverMessage(pageOrigin, pageOrigin, MessageData(SuccessMessageType, Some(token), Some(user), None, None));
    c.PollTick(0);
    c.StartSignOut();
    c.SignOutAnswered(false);
    thrown := c.SignIn(c.state.isLoading, AuthOk, true);
    c.TimeoutFires(0);
    s, windowsOpen, second := c.state, c.windows, c.attempts[1];
  }

  /** A second sign-in while the first popup is still open reuses that window, so the first
      sign-in's timer closes it and reports the timeout for both. */
  method DoubleSignInSharesWindow() returns (s: AuthState, windowsOpen: seq<bool>, attempts: seq<Attempt>)
    ensures !s.isLoading && s.error == Some(AuthenticationTimedOut)
    ensures windowsOpen == [false]
    ensures attempts == [Attempt(0, false, false, false, false), Attempt(0, true, true, true, true)]
  {
    var c := new AuthController(None);
    var thrown := c.SignIn(c.state.isLoading, AuthOk, true);
    thrown := c.SignIn(c.state.isLoading, AuthOk, true);
    c.TimeoutFires(0);
    s, windowsOpen, attempts := c.state, c.windows, c.attempts;
  }

  /** An `Error` with an empty message is shown as it is; only other thrown values fall back to
      "Authentication failed". */
  method RejectedSignInMessages(renderedIsLoading: bool)
    returns (emptyError: AuthState, otherValue: AuthState, rethrown: Option<Thrown>)
    ensures emptyError.error == Some("") && !emptyError.isLoading
    ensures otherValue.error == Some(AuthenticationFailed) && rethrown == Some(ValueThrown)
  {
    var c := new AuthController(None);
    var thrown := c.SignIn(renderedIsLoading, AuthThrew(ErrorThrown("")), true);
    emptyError := c.state;
    rethrown := c.SignIn(renderedIsLoading, AuthThrew(ValueThrown), true);
    otherValue := c.state;
  }

  // ---------------------------------------------------------------- the captured loading flag

  /** As written: the session check finds no token, so the next render captures
      `isLoading == false`; the user then signs in and closes the popup. The poll removes the
      listener and clears itself without reporting anything, the timer finds the popup closed,
      and the state is left loading with no error and nothing registered that could end it. */
  method ClosedPopupAfterRehydration() returns (s: AuthState, left: seq<Attempt>)
    ensures s.isLoading && s.error.None? && !s.isAuthenticated
    ensures left == [Attempt(0, false, false, false, false)]
  {
    var c := new AuthController(None);
    var thrown := c.SignIn(c.state.isLoading, AuthOk, true);
    c.UserClosesWindow(0);
    c.PollTick(0);
    c.TimeoutFires(0);
    s, left := c.state, c.attempts;
  }

  /** As written: with a token stored, the session check is still waiting for the verify
      endpoint when the user signs in, so the callback captured `isLoading == true`; the success
      message does not clear the interval, and its next tick marks the fresh session as
      cancelled. */
  method SuccessThenStalePoll(pageOrigin: string, earlier: string, token: string, user: GoogleUser, wallet: SmartWallet)
    returns (s: AuthState, stored: Option<string>)
    requires earlier != "" && token != ""
    ensures s.isAuthenticated && s.user == Some(user) && s.wallet == Some(wallet) && !s.isLoading
    ensures s.error == Some(AuthenticationCancelled)
    ensures stored == Some(token)
  {
    var c := new AuthController(Some(earlier));
    var thrown := c.SignIn(c.state.isLoading, AuthOk, true);
    c.DeliverMessage(pageOrigin, pageOrigin, MessageData(SuccessMessageType, Some(token), Some(user), Some(wallet), None));
    c.PollTick(0);
    s, stored := c.state, c.storedToken;
  }

  /** Corrected: with the poll reading the current state, closing the popup ends loading with
      the cancellation message. */
  method ClosedPopupAfterRehydrationFixed() returns (s: AuthState, left: seq<Attempt>)
    ensures !s.isLoading && s.error == Some(AuthenticationCancelled) && !s.isAuthenticated
    ensures left == [Attempt(0, false, false, false, false)]
  {
    var c := new AuthController(None);
    var thrown := c.SignIn(c.state.isLoading, AuthOk, true);
    c.UserClosesWindow(0);
    c.PollTickFixed(0);
    c.TimeoutFires(0);
    s, left := c.state, c.attempts;
  }

  /** Corrected: after a success the tick only clears itself; the session keeps no error. */
  method SuccessThenPollFixed(pageOrigin: string, earlier: string, token: string, user: GoogleUser, wallet: SmartWallet)
    returns (s: AuthState, stored: Option<string>)
    requires earlier != "" && token != ""
    ensures s == Authenticated(Some(user), Some(wallet))
    ensures stored == Some(token)
  {
    var c := new AuthController(Some(earlier));
    var thrown := c.SignIn(c.state.isLoading, AuthOk, true);
    c.DeliverMessage(pageOrigin, pageOrigin, MessageData(SuccessMessageType, Some(token), Some(user), Some(wallet), None));
    c.PollTickFixed(0);
    s, stored := c.state, c.storedToken;
  }
}
