/** The client authentication state of `lib/hooks/use-google-auth.ts` and the record-to-record
    updaters the hook hands to `setState`. */
module AuthState {
  import opened Wrappers
  import opened Text
  import opened AuthTypes

  const SessionVerifyFailed: string := "Failed to verify session"
  const AuthenticationFailed: string := "Authentication failed"
  const AuthenticationCancelled: string := "Authentication was cancelled"
  const AuthenticationTimedOut: string := "Authentication timed out. Please try again."
  const PopupBlocked: string := "Failed to open authentication popup. Please allow popups for this site."
  const SignOutFailed: string := "Failed to sign out"
  const OAuthNotConfigured: string :=
    "Google OAuth is not properly configured. Please check your environment variables."
  const RequestFailedPrefix: string := "Authentication request failed: "

  /** The message types the authentication popup posts back. */
  const SuccessMessageType: string := "GOOGLE_AUTH_SUCCESS"
  const ErrorMessageType: string := "GOOGLE_AUTH_ERROR"

  datatype AuthState = AuthState(
    isAuthenticated: bool,
    isLoading: bool,
    user: Option<GoogleUser>,
    wallet: Option<SmartWallet>,
    error: Option<string>)

  /** The state before the stored session has been checked. */
  function InitialState(): (s: AuthState)
    ensures !s.isAuthenticated && s.isLoading && s.user.None? && s.wallet.None? && s.error.None?
  {
    AuthState(false, true, None, None, None)
  }

  /** A request is under way: loading, previous error dropped, everything else kept. */
  function StartLoading(prev: AuthState): (s: AuthState)
    ensures s.isLoading && s.error.None?
    ensures s.isAuthenticated == prev.isAuthenticated && s.user == prev.user && s.wallet == prev.wallet
  {
    prev.(isLoading := true, error := None)
  }

  /** A request finished without news: only the loading flag drops. */
  function Loaded(prev: AuthState): (s: AuthState)
    ensures !s.isLoading
    ensures s.isAuthenticated == prev.isAuthenticated && s.user == prev.user
    ensures s.wallet == prev.wallet && s.error == prev.error
  {
    prev.(isLoading := false)
  }

  /** A request failed: loading stops and the message is shown; identity is left as it was. */
  function Failed(prev: AuthState, message: string): (s: AuthState)
    ensures !s.isLoading && s.error == Some(message)
    ensures s.isAuthenticated == prev.isAuthenticated && s.user == prev.user && s.wallet == prev.wallet
  {
    prev.(isLoading := false, error := Some(message))
  }

  /** The whole state replaced by a signed-in session. */
  function Authenticated(user: Option<GoogleUser>, wallet: Option<SmartWallet>): (s: AuthState)
    ensures s.isAuthenticated && !s.isLoading && s.error.None?
    ensures s.user == user && s.wallet == wallet
  {
    AuthState(true, false, user, wallet, None)
  }

  /** The whole state replaced by the signed-out state. */
  function SignedOut(): (s: AuthState)
    ensures !s.isAuthenticated && !s.isLoading && s.user.None? && s.wallet.None? && s.error.None?
  {
    AuthState(false, false, None, None, None)
  }

  function ErrorCleared(prev: AuthState): (s: AuthState)
    ensures s.error.None?
    ensures s.isAuthenticated == prev.isAuthenticated && s.isLoading == prev.isLoading
    ensures s.user == prev.user && s.wallet == prev.wallet
  {
    prev.(error := None)
  }

  function WalletReplaced(prev: AuthState, wallet: Option<SmartWallet>): (s: AuthState)
    ensures s.wallet == wallet
    ensures s.isAuthenticated == prev.isAuthenticated && s.isLoading == prev.isLoading
    ensures s.user == prev.user && s.error == prev.error
  {
    prev.(wallet := wallet)
  }

  /** The message thrown for a non-ok answer of the sign-in route: the configuration message when
      the page names a configuration error, otherwise the status code in decimal. */
  function ClassifyAuthFailure(status: nat, text: string): (message: string)
    ensures message == OAuthNotConfigured <==>
      Contains(text, "Configuration Error") || Contains(text, "OAuth configuration error")
    ensures message != OAuthNotConfigured ==> message == RequestFailedPrefix + NatToString(status)
  {
    if Contains(text, "Configuration Error") || Contains(text, "OAuth configuration error") then
      OAuthNotConfigured
    else
      var m := RequestFailedPrefix + NatToString(status);
      assert IsDigit(m[|m| - 1]);
      m
  }

  /** A non-configuration failure message carries the status: the text after the prefix reads
      back as that number, so distinct statuses give distinct messages. */
  lemma ClassifyAuthFailureStatus(status: nat, text: string)
    requires ClassifyAuthFailure(status, text) != OAuthNotConfigured
    ensures var m := ClassifyAuthFailure(status, text);
      |RequestFailedPrefix| < |m| && m[..|RequestFailedPrefix|] == RequestFailedPrefix &&
      (forall i | |RequestFailedPrefix| <= i < |m| :: IsDigit(m[i])) &&
      DecimalValue(m[|RequestFailedPrefix|..]) == status
  {
    var m := ClassifyAuthFailure(status, text);
    assert m[|RequestFailedPrefix|..] == NatToString(status);
    NatToStringRoundTrip(status);
  }

  /** What the popup posted: `data` of the `message` event. */
  datatype MessageData = MessageData(
    messageType: string,
    token: Option<string>,
    user: Option<GoogleUser>,
    wallet: Option<SmartWallet>,
    error: Option<string>)
}
