# Kelo marketplace core, modelled in Dafny

This project models three parts of the Kelo marketplace front end and its identity service, and proves properties about them.

- **Shopping cart** (`lib/hooks/use-cart.ts`). A cart is a list of lines keyed by product id. `addItem` merges a product into the line with its id or appends a new line. `removeItem` filters a line out. `updateQuantity` sets a quantity, and a quantity of zero or less removes the line. `clearCart` empties the list. There are two lookups, `isInCart` and `getItemQuantity`. The totals are the subtotal, 16% VAT, a KES 500 shipping fee waived from KES 5000, the total price and the item count. Every operation is a pure function from the current list to the next one, as the hook's `setItems` updaters are. Module `Cart` in `cart.dfy`.
- **Identity service** (`lib/auth/google-auth.ts`). It covers:
  - fail-fast construction from the environment;
  - the OAuth 2.0 authorization request (section 4.1.1 of RFC 6749), guarded against an empty or placeholder client id;
  - the access-token request body (section 4.1.3 of RFC 6749);
  - the three-way classification of token-endpoint errors (section 5.2 of RFC 6749);
  - the projection of the user-info payload;
  - the claims and seven-day expiry of session tokens;
  - `verifySessionToken` returning null on any failure;
  - the ordered report of `validateConfiguration`.

  `GoogleAuthService` is a class with read-only fields. Its constructor checks are modelled by `Create`, which returns either the service or the thrown message. It is module `GoogleAuth` in `google_auth.dfy`. The record types of `lib/auth/auth-types.ts` are in `auth_types.dfy`.
- **Query strings**. The URLs and bodies above are built with `URLSearchParams`, so the `application/x-www-form-urlencoded` serializer of the WHATWG URL Standard (section 5) is modelled, over UTF-8 (RFC 3629), with a strict variant of the standard's parser that rejects malformed UTF-8. The proof shows that parsing a serialized list returns the list. This is how the authorization URL is shown to carry exactly the seven request parameters. Module `FormUrlEncoding` in `form_encoding.dfy`; string helpers are in `text.dfy`.
- **Client authentication state machine** (`lib/hooks/use-google-auth.ts`).
  - The `AuthState` record and the updaters the hook passes to `setState` are pure functions (`auth_state.dfy`).
  - The transitions are methods on the class `AuthController` (`auth_controller.dfy`): session rehydration, sign-in, delivery of the popup's message, the `checkClosed` poll, the five-minute timeout, sign-out, `clearError` and `refreshWallet`. Session rehydration, sign-out and `refreshWallet` each await a request, so each is split into the step up to its await and a later event that answers the request.
  - The class holds the state, the stored token, the open or closed state of every popup window opened so far, every sign-in attempt with its window, listener, interval, timer and captured loading flag, and the verify, logout and wallet requests still awaiting an answer. `window.open(url, 'google-auth')` reuses the named window only while it is open, so an attempt made after the popup closed gets a window of its own.
  - Network answers, popup closing and timer firings are events or parameters.

## Model

| member | source | states |
|---|---|---|
| Cart.SubtotalNonNegative | lib/hooks/use-cart.ts:65 | with non-negative prices and quantities the subtotal is non-negative |
| Cart.TotalItemsAtLeastLines | lib/hooks/use-cart.ts:69 | when every line holds at least one unit, the item count is at least the number of lines |
| Cart.Tax | lib/hooks/use-cart.ts:66 | the tax is exactly 16/100 of the subtotal |
| Cart.Shipping | lib/hooks/use-cart.ts:67 | shipping is 0 exactly when the subtotal reaches 5000, and 500 otherwise |
| Cart.TotalPrice | lib/hooks/use-cart.ts:66-68 | the total is 116/100 of the subtotal, plus 500 below the free-shipping threshold |
| Cart.SubtotalAppend | lib/hooks/use-cart.ts:65-69 | the subtotal (Σ price×quantity) and the item count (Σ quantity) split over concatenation, so the left-to-right reduction equals the sum over the lines |
| Cart.SubtotalCons | lib/hooks/use-cart.ts:65-69 | the first line contributes its line total and its quantity to the two sums |
| Cart.SubtotalPointUpdate | lib/hooks/use-cart.ts:65-69 | replacing one line changes each total by that line's difference only |
| Cart.LineTotalAdd | lib/hooks/use-cart.ts:77-81 | adding q units to a line adds q units at that line's price to its line total |
| Cart.TotalPriceNotMonotone | lib/hooks/use-cart.ts:67-68 | a subtotal in [4600, 5000) costs more in total than a subtotal of exactly 5000 |
| Cart.FirstMatch | lib/hooks/use-cart.ts:73 | the index `find` stops at: no earlier line has the id, the line there has it, and it is in range exactly when the id is in the cart |
| Cart.IsInCartByRemoval | lib/hooks/use-cart.ts:122-124 | `isInCart` holds exactly when filtering the id out (`removeItem`) would shorten the list |
| Cart.Find | lib/hooks/use-cart.ts:73 | `find` returns a line exactly when the id is in the cart, and that line is the first one carrying the id |
| Cart.FirstMatchAt | lib/hooks/use-cart.ts:73 | an index with the three `find` properties is the first match |
| Cart.GetItemQuantity | lib/hooks/use-cart.ts:126-129 | the quantity of the first line with the id, or 0 when no line has it |
| Cart.GetItemQuantityUnique | lib/hooks/use-cart.ts:127-128 | with unique ids, the quantity reported for a line's id is that line's quantity |
| Cart.NewItem | lib/hooks/use-cart.ts:84-93 | the new line carries the product's id and price and the given quantity |
| Cart.IncreaseMatching | lib/hooks/use-cart.ts:77-81 | the mapped list keeps the length; every line with the id gains `quantity`, and every other line is unchanged |
| Cart.AddItem | lib/hooks/use-cart.ts:71-97 | the id is in the cart afterwards. For an existing id: same length, matching lines gain `quantity`, all other lines unchanged. For a new id: the prior lines are kept and one new line with the given quantity is appended |
| Cart.AddOne | lib/hooks/use-cart.ts:71 | with the default quantity the product's reported quantity rises by exactly 1 |
| Cart.AddItemQuantities | lib/hooks/use-cart.ts:73-94 | the product's reported quantity rises by `quantity`, and every other id reports the same quantity as before |
| Cart.AddItemOtherMatch | lib/hooks/use-cart.ts:73-94 | for any other id, `find` stops at the same line before and after `addItem` |
| Cart.AddItemTotalsExisting | lib/hooks/use-cart.ts:75-81 | merging into an existing line keeps ids unique, adds `quantity` to the item count and the cost of `quantity` units at the line's own price to the subtotal |
| Cart.AddItemTotalsNew | lib/hooks/use-cart.ts:82-94 | appending a new line keeps ids unique, adds `quantity` to the item count and the new line's total to the subtotal |
| Cart.AddItemTotals | lib/hooks/use-cart.ts:71-97 | with unique ids, `addItem` keeps them unique, raises the item count by `quantity` and the subtotal by `quantity` units at the price of the line that receives them |
| Cart.RemoveItem | lib/hooks/use-cart.ts:99-101 | the filtered list is no longer than the cart |
| Cart.RemoveItemMembers | lib/hooks/use-cart.ts:100 | a line is kept exactly when it is in the cart and does not carry the id |
| Cart.RemoveItemAppend | lib/hooks/use-cart.ts:100 | filtering splits over concatenation, so the kept lines stay in their original order |
| Cart.RemoveItemAbsent | lib/hooks/use-cart.ts:100 | removing an id that is not in the cart changes nothing |
| Cart.RemoveItemGone | lib/hooks/use-cart.ts:100 | no line carries the id afterwards |
| Cart.RemoveItemIdempotent | lib/hooks/use-cart.ts:100 | removing twice equals removing once |
| Cart.RemoveItemSplit | lib/hooks/use-cart.ts:100 | removing the id of the only line that carries it leaves exactly the lines before and after it |
| Cart.RemoveItemUnique | lib/hooks/use-cart.ts:100 | with unique ids, removing the id at position k deletes exactly that line |
| Cart.RemoveItemKeepsUnique | lib/hooks/use-cart.ts:100 | removing lines keeps ids unique |
| Cart.RemoveItemTotals | lib/hooks/use-cart.ts:100 | with unique ids, removal takes the line's reported quantity off the item count and its line total off the subtotal |
| Cart.UniqueIdsCons | lib/hooks/use-cart.ts:73-94 | a cart with a first line has unique ids exactly when the rest does and does not hold that line's id |
| Cart.SetQuantity | lib/hooks/use-cart.ts:109-115 | the mapped list keeps the length; every line with the id gets quantity `quantity`, and every other line is unchanged |
| Cart.UpdateQuantity | lib/hooks/use-cart.ts:103-116 | a quantity of 0 or less gives `removeItem`'s result. A positive quantity sets it on every line with the id and leaves every other line unchanged |
| Cart.UpdateQuantityPositive | lib/hooks/use-cart.ts:109-115 | with a positive quantity, the id reports exactly that quantity, every other id reports what it did before, and unique ids stay unique |
| Cart.UpdateQuantityNonPositive | lib/hooks/use-cart.ts:104-107 | with a quantity of 0 or less the result is `removeItem`'s, and the id reports 0 |
| Cart.ClearCart | lib/hooks/use-cart.ts:118-120 | the next list is empty |
| Cart.ClearCartTotals | lib/hooks/use-cart.ts:118-120 | after `clearCart` nothing is in the cart, the subtotal and item count are 0, shipping and total are 500, and clearing again changes nothing |
| Text.OrDefault | lib/auth/google-auth.ts:13-15 | JavaScript's logical-or fallback on a string: the value when it is present and non-empty, the fallback otherwise |
| Text.Utf16Length | lib/auth/google-auth.ts:26 | the length JavaScript reports: between the number of characters and twice that |
| Text.Utf16LengthBasic | lib/auth/google-auth.ts:26 | without characters beyond U+FFFF it is the number of characters |
| Text.Utf16LengthAstral | lib/auth/google-auth.ts:26 | characters beyond U+FFFF count twice |
| Text.NotContainsMissingFirst | lib/auth/google-auth.ts:206 | a string without the first character of `sub` does not contain `sub` |
| Text.NatToString | lib/hooks/use-google-auth.ts:101 | the decimal text of a number is non-empty, all digits, and has no leading zero |
| Text.NatToStringRoundTrip | lib/hooks/use-google-auth.ts:101 | reading the decimal text back gives the number |
| Text.NatToStringInjective | lib/hooks/use-google-auth.ts:101 | distinct numbers have distinct decimal texts |
| FormUrlEncoding.Utf8 | lib/auth/google-auth.ts:42-52 | a character encodes to 1 to 4 bytes, and to one byte exactly when it is ASCII |
| FormUrlEncoding.DecodeFirst | lib/auth/google-auth.ts:42-52 | a decoded character consumes between 1 byte and the available bytes |
| FormUrlEncoding.DecodeFirstUtf8 | lib/auth/google-auth.ts:42-52 | the bytes of one character decode back to it, whatever follows |
| FormUrlEncoding.DecodeFirstTwoBytes | lib/auth/google-auth.ts:42-52 | a two-byte sequence decodes back to its character |
| FormUrlEncoding.DecodeFirstThreeBytes | lib/auth/google-auth.ts:42-52 | a three-byte sequence decodes back to its character |
| FormUrlEncoding.DecodeFirstFourBytes | lib/auth/google-auth.ts:42-52 | a four-byte sequence decodes back to its character |
| FormUrlEncoding.Utf8RoundTrip | lib/auth/google-auth.ts:42-52 | UTF-8 decoding undoes UTF-8 encoding |
| FormUrlEncoding.HexDigit | lib/auth/google-auth.ts:42-52 | the digit written for a nibble is a hexadecimal digit |
| FormUrlEncoding.HexValue | lib/auth/google-auth.ts:42-52 | the value read from a hexadecimal digit is below 16 |
| FormUrlEncoding.HexValueOfDigit | lib/auth/google-auth.ts:42-52 | reading a written hexadecimal digit gives the nibble back |
| FormUrlEncoding.PercentDecodeBytes | lib/auth/google-auth.ts:42-52 | percent-decoding the `%XY` escapes of some bytes gives back those bytes, whatever follows |
| FormUrlEncoding.EncodeCharDecodes | lib/auth/google-auth.ts:42-52 | the escape written for a character percent-decodes to its UTF-8 bytes |
| FormUrlEncoding.PercentDecodeEncode | lib/auth/google-auth.ts:42-52 | percent-decoding an encoded string gives its UTF-8 bytes |
| FormUrlEncoding.EncodeChar | lib/auth/google-auth.ts:42-52 | every character is written as at least one character, and an unreserved one as itself |
| FormUrlEncoding.Encode | lib/auth/google-auth.ts:42-52 | an encoded name or value is at least as long as the text, and a text of unreserved characters is written as it is |
| FormUrlEncoding.DecodeEncode | lib/auth/google-auth.ts:42-52 | decoding an encoded name or value gives it back |
| FormUrlEncoding.PercentBytesChars | lib/auth/google-auth.ts:42-52 | percent escapes consist only of `%` and unreserved characters (the hexadecimal digits) |
| FormUrlEncoding.EncodeChars | lib/auth/google-auth.ts:42-52 | every character of an encoded name or value is unreserved, `+` or `%`, so it never holds the delimiters `&` and `=` |
| FormUrlEncoding.SplitOn | lib/auth/google-auth.ts:42-52 | splitting yields at least one piece |
| FormUrlEncoding.FirstIndex | lib/auth/google-auth.ts:42-52 | the index of the first occurrence of a character, or the length when there is none |
| FormUrlEncoding.SplitOnFree | lib/auth/google-auth.ts:42-52 | a string free of the separator splits into itself |
| FormUrlEncoding.SplitOnFirst | lib/auth/google-auth.ts:42-52 | splitting `a + sep + b`, with `a` free of the separator, gives `a` then the pieces of `b` |
| FormUrlEncoding.PairTextChars | lib/auth/google-auth.ts:42-52 | a serialized pair contains no `&` and is not empty |
| FormUrlEncoding.ParsePairText | lib/auth/google-auth.ts:42-52 | a serialized pair parses back to the pair |
| FormUrlEncoding.ParsePiecesCons | lib/auth/google-auth.ts:42-52 | parsing a serialized pair followed by more pieces gives the pair followed by their parse |
| FormUrlEncoding.Serialize | lib/auth/google-auth.ts:42-52 | the query is empty exactly when there are no parameters |
| FormUrlEncoding.ParseSerialize | lib/auth/google-auth.ts:42-52 | parsing a serialized parameter list gives back exactly that list, in order |
| GoogleAuth.ConstructionError | lib/auth/google-auth.ts:13-28 | construction fails on an empty client id, otherwise on an empty secret, otherwise on a JWT secret that is absent or shorter than 32 UTF-16 code units, and succeeds exactly when all three pass |
| GoogleAuth.JwtSecretLengthUnits | lib/auth/google-auth.ts:25-28 | 32 characters always make a strong secret and fewer than 16 never do; 16 characters beyond U+FFFF do; without such characters, strong means at least 32 characters |
| GoogleAuth.AstralSecretAccepted | lib/auth/google-auth.ts:25-28 | a JWT secret of sixteen U+1F600 characters (32 code units) passes construction |
| GoogleAuth.Create | lib/auth/google-auth.ts:11-31 | throws exactly the first failing check's message, measuring the JWT secret in UTF-16 code units. Otherwise the fields are the variables, with the redirect URI defaulting to `http://localhost:3000/api/auth/callback` |
| GoogleAuth.GoogleAuthService.constructor | lib/auth/google-auth.ts:11-31 | the fields hold the given values and the service is well formed |
| GoogleAuth.BuiltServiceReports | lib/auth/google-auth.ts:190-213 | a built service is never reported for its redirect URI, and is reported for its client id or client secret exactly when that one is the placeholder |
| GoogleAuth.AuthRequestParams | lib/auth/google-auth.ts:42-50 | seven parameters, each name once: response_type=code, the client id, the redirect URI and the state of a code request, the OpenID scopes, offline access and forced consent |
| GoogleAuth.GoogleAuthService.AuthUrl | lib/auth/google-auth.ts:36-59 | fails exactly for an empty or placeholder client id. Otherwise the URL is the endpoint followed by a query that parses back to the seven request parameters, in order, with the given state |
| GoogleAuth.TokenRequestParams | lib/auth/google-auth.ts:75-81 | five fields, each name once: grant_type=authorization_code, the code, the redirect URI, the client id and the client secret |
| GoogleAuth.GoogleAuthService.TokenRequestBody | lib/auth/google-auth.ts:75-81 | the posted body parses back to client_id, client_secret, code, grant_type=authorization_code and redirect_uri |
| GoogleAuth.TokenErrorMessage | lib/auth/google-auth.ts:84-101 | `invalid_client` gives the credentials message and `invalid_request` the redirect-URI message; exactly these two are configuration messages. Anything else, including a body that is not JSON, gives the prefix followed by `error_description`, or `statusText` when that is empty or absent |
| GoogleAuth.ExchangeCodeForToken | lib/auth/google-auth.ts:64-139 | succeeds exactly when both requests succeed, and then returns the projected user. A token rejection gives the classified message, a user-info rejection the fixed message, and a failed fetch rethrows its error or the generic one |
| GoogleAuth.ExchangeClassification | lib/auth/google-auth.ts:92-100 | a rejected exchange reports a configuration problem exactly for `invalid_client` or `invalid_request` |
| GoogleAuth.ProjectUser | lib/auth/google-auth.ts:128-134 | the user is exactly id, email, name, picture and the verification flag of the payload |
| GoogleAuth.ProjectUserIgnoresOtherFields | lib/auth/google-auth.ts:128-134 | no other payload field reaches the user |
| GoogleAuth.GoogleAuthService.SessionClaims | lib/auth/google-auth.ts:144-155 | the claims copy id, email and name, carry the wallet link, and expire 604800000 ms after the expiry clock reading |
| GoogleAuth.ExpirationClaim | lib/auth/google-auth.ts:160 | the `exp` claim is the expiry instant in whole seconds, rounded down |
| GoogleAuth.SessionLifetime | lib/auth/google-auth.ts:144-155 | with a clock that never runs backwards, a token lives at most seven days from its `createdAt`, and exactly seven when both clock readings agree |
| GoogleAuth.VerifySessionToken | lib/auth/google-auth.ts:169-177 | returns the payload exactly when verification succeeds, and null on any failure |
| GoogleAuth.GoogleAuthService.ValidateConfiguration | lib/auth/google-auth.ts:190-214 | the errors are the report of the four checks in order, and isValid holds exactly when there are none |
| GoogleAuth.ConfigurationProblems | lib/auth/google-auth.ts:191-208 | the report is empty exactly when the client id is set, not the placeholder and on the Google domain, the secret is set and not the placeholder, and the redirect URI is set |
| GoogleAuth.ConfigurationProblemsMeaning | lib/auth/google-auth.ts:193-208 | each message appears exactly when its check fails, and there are at most four |
| GoogleAuth.ConfigurationProblemsOrdered | lib/auth/google-auth.ts:193-208 | the messages appear in check order, each at most once |
| GoogleAuth.PlaceholderLacksDomain | lib/auth/google-auth.ts:206 | the placeholder client id does not contain `.googleusercontent.com` |
| GoogleAuth.PlaceholderClientIdScenario | lib/auth/google-auth.ts:190-213 | a placeholder client id passes construction. `getAuthUrl` then fails, and the report is exactly "not configured" followed by the format error |
| AuthState.InitialState | lib/hooks/use-google-auth.ts:25-31 | the hook starts unauthenticated, loading, with no user, wallet or error |
| AuthState.StartLoading | lib/hooks/use-google-auth.ts:81 | loading, error dropped, identity kept |
| AuthState.Loaded | lib/hooks/use-google-auth.ts:42 | only the loading flag drops |
| AuthState.Failed | lib/hooks/use-google-auth.ts:146-150 | loading stops and the message is set; authentication, user and wallet are kept |
| AuthState.Authenticated | lib/hooks/use-google-auth.ts:132-138 | authenticated, not loading, no error, with the given user and wallet |
| AuthState.SignedOut | lib/hooks/use-google-auth.ts:213-219 | unauthenticated, not loading, no user, wallet or error |
| AuthState.ErrorCleared | lib/hooks/use-google-auth.ts:232-234 | only the error changes, and it becomes null |
| AuthState.WalletReplaced | lib/hooks/use-google-auth.ts:241 | only the wallet changes |
| AuthState.ClassifyAuthFailure | lib/hooks/use-google-auth.ts:93-102 | the configuration message exactly when the page text contains `Configuration Error` or `OAuth configuration error`; otherwise the prefix followed by the status in decimal |
| AuthState.ClassifyAuthFailureStatus | lib/hooks/use-google-auth.ts:101 | a non-configuration message is the prefix followed by digits that read back as the status |
| AuthController.CaughtMessage | lib/hooks/use-google-auth.ts:187-195 | a thrown `Error` shows its own message, even an empty one; any other thrown value shows "Authentication failed" |
| AuthController.ListenerWindowsClosed | lib/hooks/use-google-auth.ts:123-144 | a window is closed afterwards exactly when it was closed already or a still-listening attempt owns it |
| AuthController.ListenersRemoved | lib/hooks/use-google-auth.ts:124 | every attempt is kept, with its listener removed and nothing else changed |
| AuthController.AuthController.constructor | lib/hooks/use-google-auth.ts:25-54 | the hook mounts with the browser's stored token and nothing registered, and its mount effect reads that token once: without one, only loading stops; with one, the state stays initial while the verify request is pending |
| AuthController.AuthController.VerifyAnswered | lib/hooks/use-google-auth.ts:56-76 | the pending verify request is answered, whatever happened meanwhile. A verified token installs its session. A rejection removes whatever token is stored now and only loading stops. A failure reports "Failed to verify session" |
| AuthController.AuthController.SignIn | lib/hooks/use-google-auth.ts:79-196 | starts loading, then one of two outcomes. (1) It throws the classified status, the rejected value itself, or the blocked-popup error, and ends not loading with the caught message. (2) It reuses the named popup if it is open or else opens a new one, and registers one more listener, interval and timer on that window, with the captured loading flag |
| AuthController.AuthController.DeliverMessage | lib/hooks/use-google-auth.ts:120-154 | A foreign origin, no listener, or another type changes nothing. Success removes the listeners, closes each listener's own popup, stores a non-empty token and installs the session. Error does the same but sets the carried error or "Authentication failed", keeping identity. Neither clears an interval |
| AuthController.AuthController.UserClosesWindow | lib/hooks/use-google-auth.ts:158 | only that window closes |
| AuthController.AuthController.PollTick | lib/hooks/use-google-auth.ts:157-170 | nothing while the attempt's own popup is open. Once it is closed the tick clears its interval and listener, and reports the cancellation exactly when the captured flag is set |
| AuthController.AuthController.PollTickFixed | lib/hooks/use-google-auth.ts:157-170 | as `PollTick`, but the cancellation is reported exactly when the current state is loading |
| AuthController.AuthController.TimeoutFires | lib/hooks/use-google-auth.ts:173-185 | with the attempt's own popup open, it closes that popup, clears the interval and the listener, and reports the timeout. Otherwise only the timer is spent |
| AuthController.AuthController.StartSignOut | lib/hooks/use-google-auth.ts:198-209 | only loading starts, and one more logout request is pending |
| AuthController.AuthController.SignOutAnswered | lib/hooks/use-google-auth.ts:210-229 | a logout request is answered: the token is removed and the state reset. If the request throws, the token stays and "Failed to sign out" is reported |
| AuthController.AuthController.ClearError | lib/hooks/use-google-auth.ts:232-234 | only the error is cleared |
| AuthController.AuthController.StartRefreshWallet | lib/hooks/use-google-auth.ts:236-240 | without a user in the rendering that made the callback, nothing happens; otherwise one more wallet lookup is pending and the state is unchanged |
| AuthController.AuthController.WalletLookupAnswered | lib/hooks/use-google-auth.ts:240-245 | a wallet lookup is answered: a found wallet replaces only the wallet of the current state, even after a sign-out; a failed lookup changes nothing |
| AuthController.StaleTimerLeavesNextSignIn | lib/hooks/use-google-auth.ts:108-185 | after a finished sign-in and a sign-out, a new sign-in gets a fresh window; the first sign-in's timer then finds its own window closed and the new sign-in stays loading with its popup open |
| AuthController.WalletAfterSignOut | lib/hooks/use-google-auth.ts:198-245 | a wallet lookup still pending when the user signs out leaves a signed-out state with no user but with a wallet |
| AuthController.VerifyAfterSignOut | lib/hooks/use-google-auth.ts:34-229 | a sign-out while the mount's verify request is pending removes the token, yet the verified answer that arrives afterwards signs the user back in with no token stored |
| AuthController.DoubleSignInSharesWindow | lib/hooks/use-google-auth.ts:108-185 | a second sign-in while the first popup is open reuses that window, so the first sign-in's timer closes it and reports the timeout |
| AuthController.RejectedSignInMessages | lib/hooks/use-google-auth.ts:187-195 | a rejected `Error("")` shows an empty error; a rejected non-Error value shows "Authentication failed" and is rethrown itself |
| AuthController.ClosedPopupAfterRehydration | lib/hooks/use-google-auth.ts:157-170 | after a rehydration without a token, closing the sign-in popup leaves the state loading with no error and nothing registered that could end it |
| AuthController.SuccessThenStalePoll | lib/hooks/use-google-auth.ts:123-170 | with a stored token whose check is still pending, a sign-in ends authenticated but with "Authentication was cancelled" |
| AuthController.ClosedPopupAfterRehydrationFixed | lib/hooks/use-google-auth.ts:157-170 | with the corrected poll, closing the popup ends loading with the cancellation message |
| AuthController.SuccessThenPollFixed | lib/hooks/use-google-auth.ts:123-170 | with the corrected poll, a successful sign-in keeps a clean session |

## Left out

- Cart persistence through `localStorage` and `JSON.parse`/`stringify` (lib/hooks/use-cart.ts:40-62) is left out because it is I/O.
- Prices are exact reals and quantities are integers. The IEEE double arithmetic of JavaScript, including the rounding of `0.16`, is not modelled.
- Cart.RemoveItem: its own contract states only the length bound. Membership, order, idempotence and uniqueness are proved by the `RemoveItem…` lemmas.
- Cart.Subtotal, Cart.TotalItems: these are the left folds themselves and carry no contract. Their meaning as sums is stated through `SubtotalAppend`, `SubtotalCons`, `SubtotalPointUpdate`, `SubtotalNonNegative` and `TotalItemsAtLeastLines`.
- `fetch` to the token, user-info, verify and logout endpoints is replaced by the endpoint's answer, passed as a parameter. A success body that is not JSON is not modelled.
- JWT signing and verification with `jose` (HS256) are left out: `createSessionToken` is modelled up to the claims it signs, and `verifySessionToken` takes the verifier's outcome as input. Nothing is claimed about signatures.
- `generateState` (`Math.random`, lib/auth/google-auth.ts:182-185) is left out. The state is a parameter of `AuthUrl`, and no freshness or uniqueness is claimed.
- GoogleAuth.GoogleAuthService.SessionClaims: `createdAt` is a millisecond count rather than a `Date`, and `iat` from `setIssuedAt` is not modelled.
- Console logging, popup geometry (lib/hooks/use-google-auth.ts:111-112) and `router.push` have no effect on the modelled state and are left out.
- FormUrlEncoding.ParseQuery: on percent-decoded bytes that are not valid UTF-8 it returns no result, where the standard's parser substitutes U+FFFD. The parser is only the partner of the serializer, whose output is always valid UTF-8, so the round trip is unaffected.
- Browser timers, `window.open` and event listeners are left out as browser objects. They appear only as discrete events (`DeliverMessage`, `PollTick`, `TimeoutFires`, `UserClosesWindow`) that may happen in any order. Answers to the verify, logout and wallet requests are events of the same kind (`VerifyAnswered`, `SignOutAnswered`, `WalletLookupAnswered`), so they may arrive after anything else has happened.
- AuthController.AuthController.WalletLookupAnswered: the lookup's answer is a parameter, so the model does not record which user's id it was asked for.
- AuthController.AuthController.SignIn: it runs as one step. In the code, events can arrive while its request to the sign-in route is pending (lib/hooks/use-google-auth.ts:83-104); the model applies them after the sign-in instead, so an answer arriving in that gap is seen in a different order relative to a thrown sign-in.
- AuthController.AuthController.SignIn: the `Accept`/`Cache-Control` headers and `authResponse.url` are not modelled. The popup's URL has no effect on the state. A thrown value that is not an `Error` is modelled as one opaque value, `ValueThrown`.
- The React context wrapper, the dashboard pages and the build configuration are not part of this model.

### Where the code and its description differ

- `signOut` is described as always clearing the stored token. In the code, a logout request that throws skips `localStorage.removeItem` (lib/hooks/use-google-auth.ts:203-211). The model follows the code.
- The constructor rejects only an empty client id. The placeholder id `your_actual_google_client_id_here` passes construction, and is refused only by `getAuthUrl` and reported by `validateConfiguration`.
- `validateConfiguration`'s redirect-URI check can never fire on a constructed service, because the constructor always supplies a default (`BuiltServiceReports`).
- `createSessionToken` reads the clock twice: `Date.now()` for the expiry and `new Date()` for `createdAt`. The two readings may differ. The signed claims carry no `user` field, although `AuthSession` declares one.
- `signInWithGoogle` has no guard against a second call while a sign-in is pending. Each call registers its own listener, interval and timer. While the `google-auth` popup is open, a second call reuses it, so both attempts watch the same window (`DoubleSignInSharesWindow`). Once it has closed, the next call opens a new window that earlier attempts do not watch (`StaleTimerLeavesNextSignIn`).
- The success and error branches of the message handler do not clear the `checkClosed` interval. The interval keeps polling until it sees the popup closed.

## Findings

| source | as written | input that shows it | evidently intended | confidence | as-written member | corrected member |
|---|---|---|---|---|---|---|
| lib/hooks/use-google-auth.ts:162 | the `checkClosed` poll tests `state.isLoading` as captured when the callback was rendered (deps at :196), which is the value before the sign-in's own `setState` | rehydration finds no token (isLoading becomes false); the user signs in, then closes the popup | report "Authentication was cancelled" and stop loading whenever the sign-in is still loading | not executed | AuthController.AuthController.PollTick, AuthController.ClosedPopupAfterRehydration | AuthController.AuthController.PollTickFixed, AuthController.ClosedPopupAfterRehydrationFixed |
| lib/hooks/use-google-auth.ts:162 | a success message leaves the interval running; its next tick tests the stale captured flag | a stored token is still being checked when sign-in is clicked (captured isLoading true); the popup posts success | the tick after a success does nothing | not executed | AuthController.AuthController.PollTick, AuthController.SuccessThenStalePoll | AuthController.AuthController.PollTickFixed, AuthController.SuccessThenPollFixed |
