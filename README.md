# modulo-cliente, client core in Dafny

This project models the client side of the modulo-cliente mobile app. The app is a food-delivery
client with a peso/crypto wallet. The model covers:

- the Redux cart reducer and its action creators;
- the authentication reducer;
- the `apiRequest` helper that every screen uses to talk to the backend;
- the decision logic of the screens that validate input, call the backend and update their state.

Those screens are registration, sign-in, password change, the two balance top-up screens, crypto
purchase, wallet, product, cart, orders and the restaurant catalogue.

Each source file has its own module.

- **Reducers and action creators** are pure. They become datatypes, functions and lemmas.
- **Screens** keep `useState` variables that their handlers update. Each screen becomes a
  `class Screen`:
  - its fields are those variables;
  - its methods are the handlers;
  - each method's `ensures` gives the whole new state.
- **Checks a screen performs** are functions next to the class, with the properties proved about
  them. An example is the message `validateMonto` shows.
- **Awaited calls** (a request, a storage read) become parameters of type `Outcome<T>`. They stand
  for how the call ended: `Done(value)` or `Threw(message)`.
- **What a screen sends** (request bodies, stored keys, dispatched actions) is recorded in fields,
  so contracts can state it.

Four helper modules hold code shared by several screens:

- `Wrappers`: `Option` and `Outcome`.
- `Text`: JavaScript whitespace, `trim`, `includes`, ASCII `toLowerCase`, and integer-to-string
  with its round trip.
- `Seqs`: `Array.prototype.filter` and subsequences.
- `JsObject`: a string-keyed object as a list of entries in insertion order. It provides lookup,
  assignment, `delete`, spread-merge and key order.

Two further modules hold duplicated code once:

- `Validators`: the e-mail and password validators, which appear in three screens.
- `Deposit`: the amount check of the two top-up screens.

Money is modelled with exact `real`s.

The properties that matter most:

- **Cart consistency.** The cart's `total` always equals the sum of `price × quantity` over its
  lines, and the ids stay unique. This holds for every reducer step whose added line agrees in
  price with the line already in the cart. Adding a known id at a new price breaks it; the if and
  only if is proved.
- **Quantities on screen.** The cart and product screens never drive a quantity below one.
- **Validation order.** Each form reports exactly the first failing check, in source order.
- **Helper error texts.** How `apiRequest` rewrites errors decides what the screens can show. Its
  HTML, no-JSON and empty-body invalid-JSON errors reach the caller as the generic JSON text.
  A JSON-declared body that does not parse and is not empty makes the second read of the body
  fail, and that read's error reaches the caller unchanged. A server error mentioning a
  timeout loses its own wording. A real network failure never produces the registration screen's
  connection help.
- **Two findings** on the source (below). Each has both the as-written behaviour and a corrected
  version.

## Model

| member | source | states |
|---|---|---|
| CartActions.TagsDistinct | modulo-cliente/store/actions/cartActions.js:3-6 | the four action-type strings are pairwise different, so the reducer's switch tells them apart |
| CartActions.AddToCart | modulo-cliente/store/actions/cartActions.js:9-14 | a well-formed ADD_TO_CART action whose payload is exactly the item |
| CartActions.RemoveFromCart | modulo-cliente/store/actions/cartActions.js:16-21 | a well-formed REMOVE_FROM_CART action whose payload is exactly the id |
| CartActions.UpdateCartItemQuantity | modulo-cliente/store/actions/cartActions.js:23-28 | a well-formed UPDATE_CART_ITEM_QUANTITY action carrying the id and the quantity unchanged |
| CartActions.ClearCart | modulo-cliente/store/actions/cartActions.js:30-34 | a well-formed CLEAR_CART action with no payload |
| CartReducer.FindIndex | modulo-cliente/store/reducers/cartReducer.js:13 | `findIndex`: -1 or an index whose line has the id, and no earlier line has it |
| CartReducer.AddQuantity | modulo-cliente/store/reducers/cartReducer.js:19 | `quantity \|\| 1`: never zero, and the item's own quantity whenever that is non-zero |
| CartReducer.Add | modulo-cliente/store/reducers/cartReducer.js:11-33 | the ADD_TO_CART case; its contract is stated by CartReducer.AddExisting, CartReducer.AddAbsent and CartReducer.AddExistingKeepsInvIff |
| CartReducer.Remove | modulo-cliente/store/reducers/cartReducer.js:35-46 | the REMOVE_FROM_CART case; its contract is stated by CartReducer.RemovePresent, CartReducer.RemoveAbsent and CartReducer.RemoveKeepsInv |
| CartReducer.UpdateQuantity | modulo-cliente/store/reducers/cartReducer.js:48-57 | the UPDATE_CART_ITEM_QUANTITY case; its contract is stated by CartReducer.UpdateSetsQuantity and CartReducer.UpdateRestoresInv |
| CartReducer.Reduce | modulo-cliente/store/reducers/cartReducer.js:9-69 | the reducer's switch on the action type; its contract is stated by the case lemmas, CartReducer.ClearResets, CartReducer.UnknownActionUnchanged and CartReducer.ReducePreservesInv |
| CartReducer.TimesIsProduct | modulo-cliente/store/reducers/cartReducer.js:24 | the line price used by the model (repeated addition) equals `price * quantity` for every integer quantity |
| CartReducer.TimesAdd | modulo-cliente/store/reducers/cartReducer.js:19-24 | the price of a+b units is the price of a units plus the price of b units |
| CartReducer.TimesCancel | modulo-cliente/store/reducers/cartReducer.js:24 | for a non-zero quantity, two unit prices give the same line price exactly when they are equal |
| CartReducer.TotalAppend | modulo-cliente/store/reducers/cartReducer.js:31 | the sum of line prices over a concatenation is the sum of the two sums |
| CartReducer.TotalUpdate | modulo-cliente/store/reducers/cartReducer.js:56 | replacing one line changes the sum by the new line price minus the old one |
| CartReducer.TotalIgnoresAddons | modulo-cliente/store/reducers/cartReducer.js:24 | lines that agree in price and quantity have the same total, whatever their addons |
| CartReducer.AddExisting | modulo-cliente/store/reducers/cartReducer.js:15-25 | adding a known id raises only that line's quantity, by `quantity \|\| 1`; the other lines are untouched, and the total grows by the added item's price times that amount |
| CartReducer.AddAbsent | modulo-cliente/store/reducers/cartReducer.js:26-32 | adding an unknown id appends exactly one line, the item with quantity `quantity \|\| 1`; the total grows by its line price |
| CartReducer.AddExistingSum | modulo-cliente/store/reducers/cartReducer.js:15-25 | after a merge, the sum of the line prices grows by the stored line's price times the added amount |
| CartReducer.AddExistingKeepsInvIff | modulo-cliente/store/reducers/cartReducer.js:15-25 | a merge keeps the cart consistent if and only if the added item's price equals the stored line's price, because the total uses the new price and the line keeps the old |
| CartReducer.AddAbsentKeepsInv | modulo-cliente/store/reducers/cartReducer.js:26-32 | appending a new id keeps the ids unique and the total equal to the sum of line prices |
| CartReducer.FilterRemovesFound | modulo-cliente/store/reducers/cartReducer.js:38 | with unique ids, the filter removes exactly the found line and keeps the order of the others |
| CartReducer.RemovePresent | modulo-cliente/store/reducers/cartReducer.js:35-45 | removing a present id deletes exactly its line and subtracts its line price from the total |
| CartReducer.RemoveAbsent | modulo-cliente/store/reducers/cartReducer.js:46 | removing an absent id returns the state unchanged |
| CartReducer.DropTotal | modulo-cliente/store/reducers/cartReducer.js:43 | deleting a line lowers the sum of line prices by exactly that line's price |
| CartReducer.RemoveKeepsInv | modulo-cliente/store/reducers/cartReducer.js:35-46 | removal, present or not, keeps a consistent cart consistent |
| CartReducer.UpdateSetsQuantity | modulo-cliente/store/reducers/cartReducer.js:48-57 | every line of the id gets the new quantity, every other line is unchanged, and the total is recomputed from the lines |
| CartReducer.UpdateRestoresInv | modulo-cliente/store/reducers/cartReducer.js:48-57 | an update yields a consistent cart from any cart with unique ids, even one whose total was wrong |
| CartReducer.ClearResets | modulo-cliente/store/reducers/cartReducer.js:59-64 | clearing gives the initial empty cart with total 0, which is consistent |
| CartReducer.UnknownActionUnchanged | modulo-cliente/store/reducers/cartReducer.js:66-67 | any other action type returns the state unchanged |
| CartReducer.ReducePreservesInv | modulo-cliente/store/reducers/cartReducer.js:9-69 | every reducer step keeps a consistent cart consistent, provided an added item agrees in price with the line of its id |
| CartReducer.RunKeepsInv | modulo-cliente/store/reducers/cartReducer.js:9-69 | the invariant holds after any price-consistent sequence of actions |
| CartReducer.RunFromInitialKeepsInv | modulo-cliente/store/reducers/cartReducer.js:4-7 | starting from the initial state, every price-consistent run ends in a consistent cart |
| CartReducer.InitialInv | modulo-cliente/store/reducers/cartReducer.js:4-7 | the initial empty cart with total 0 is consistent |
| CartReducer.AddIgnoresAddons | modulo-cliente/store/reducers/cartReducer.js:11-33 | the addons of an added item never change the cart total |
| CartReducer.FindIndexAppended | modulo-cliente/store/reducers/cartReducer.js:13 | after an append of a new id, that id is found at the last position |
| CartReducer.AddSameItemTwice | modulo-cliente/store/reducers/cartReducer.js:11-33 | adding an item once and then with quantity 2 gives one line of quantity 3 and a total of 3 unit prices |
| CartReducer.UpdateExample | modulo-cliente/store/reducers/cartReducer.js:48-57 | a worked update: the total follows the new quantity |
| AuthReducer.LoginStoresPayload | modulo-cliente/store/reducers/authReducer.js:11-17 | LOGIN_SUCCESS stores its payload as the user and sets the flag |
| AuthReducer.Reduce | modulo-cliente/store/reducers/authReducer.js:9-28 | the reducer's switch; its contract is stated by AuthReducer.LoginStoresPayload, AuthReducer.LogoutResets, AuthReducer.OtherActionUnchanged and AuthReducer.ReducePreservesInv |
| AuthReducer.LogoutResets | modulo-cliente/store/reducers/authReducer.js:18-24 | LOGOUT gives the initial state from any state, and is idempotent |
| AuthReducer.OtherActionUnchanged | modulo-cliente/store/reducers/authReducer.js:25-26 | any other action returns the state unchanged |
| AuthReducer.ReducePreservesInv | modulo-cliente/store/reducers/authReducer.js:9-28 | "authenticated if and only if a user is stored" is preserved by every action whose login payload is present |
| AuthReducer.NullLoginBreaksInv | modulo-cliente/store/reducers/authReducer.js:11-17 | a login with a null payload yields an authenticated state with no user |
| AuthReducer.RunKeepsInv | modulo-cliente/store/reducers/authReducer.js:9-28 | the invariant holds after any run of such actions |
| AuthReducer.LastAuthActionDecides | modulo-cliente/store/reducers/authReducer.js:9-28 | after a run, the last login or logout decides the state; a run of other actions changes nothing |
| Api.GetHeaders | modulo-cliente/utils/api.js:13-38 | always the two JSON headers; a bearer header exactly when a non-empty token was read; a failed read gives the JSON headers alone |
| Api.BuildConfig | modulo-cliente/utils/api.js:57-65 | the method and body are the caller's and the timeout is 15000 |
| Api.CallerHeadersWin | modulo-cliente/utils/api.js:57-65 | each header sent is the caller's when the caller names it, and the default otherwise |
| Api.ContentTypeKept | modulo-cliente/utils/api.js:57-65 | a caller that does not name Content-Type always sends the JSON content type |
| Api.HttpErrorMessage | modulo-cliente/utils/api.js:114 | never empty: the body's `message`, else its `error`, else 'Error HTTP' and the status |
| Api.Classify | modulo-cliente/utils/api.js:85-128 | a body not declared JSON throws an 'Error' with the HTML text exactly when it contains `<html>` or `<!DOCTYPE`, and the no-JSON text otherwise; for unparseable JSON, the second read of the body throws its own error when it fails, and the invalid-JSON text is thrown only when that read succeeds; a 2xx status yields the data; any other status throws the server's message |
| Api.ContentTypeBeforeStatus | modulo-cliente/utils/api.js:85-121 | for a body not declared JSON, the outcome does not depend on the status |
| Api.OnlyOkJsonSucceeds | modulo-cliente/utils/api.js:85-128 | data is returned if and only if the body is declared and parses as JSON and the status is 2xx, and it is the parsed body unchanged |
| Api.Troubleshooting | modulo-cliente/utils/api.js:141-163 | the troubleshooting text quotes the request's full address |
| Api.Rewrite | modulo-cliente/utils/api.js:130-170 | a network failure becomes the troubleshooting text; otherwise a message mentioning 'timeout' becomes the timeout text; otherwise one mentioning 'JSON' becomes the generic JSON text; any other error is rethrown unchanged |
| Api.JsonErrorsBecomeGeneric | modulo-cliente/utils/api.js:90-170 | a body not declared JSON, or a JSON-declared body that does not parse but can be read again, reaches the caller as the generic JSON text, so the HTML explanation is never seen |
| Api.ConsumedBodyErrorRethrown | modulo-cliente/utils/api.js:90-101 | a JSON-declared body that does not parse and whose second read rejects with TypeError 'Already read' reaches the caller as that same TypeError, name and message unchanged |
| Api.ServerTimeoutMessageReplaced | modulo-cliente/utils/api.js:113-165 | a server error whose message mentions 'timeout' reaches the caller as the fixed timeout text |
| Api.ApiRequest | modulo-cliente/utils/api.js:40-172 | the request sent is the merged configuration; the result is the data for a 2xx JSON reply, and otherwise the rewritten form of the error thrown, keeping its name |
| Api.NetworkFailureMissesRegisterHelp | modulo-cliente/utils/api.js:141-163 | a network failure never reaches the registration screen as 'Network request failed', so that screen never shows its connection help |
| Api.BuildersFixMethod | modulo-cliente/utils/api.js:175-195 | get/post/put/delete set their method over the caller's; only post and put set the body; none touches the headers |
| Api.ApiGet | modulo-cliente/utils/api.js:176-177 | `api.get`; its contract is stated by Api.BuildersFixMethod |
| Api.ApiPost | modulo-cliente/utils/api.js:179-184 | `api.post`; its contract is stated by Api.BuildersFixMethod |
| Api.ApiPut | modulo-cliente/utils/api.js:186-191 | `api.put`; its contract is stated by Api.BuildersFixMethod |
| Api.ApiDelete | modulo-cliente/utils/api.js:193-194 | `api.delete`; its contract is stated by Api.BuildersFixMethod |
| Validators.IndexOf | modulo-cliente/app/Register.jsx:23-26 | the first position of the character, or -1 when it does not occur |
| Validators.ValidateEmail | modulo-cliente/app/Register.jsx:23-26 | true if and only if the text matches `^[^\s@]+@[^\s@]+\.[^\s@]+$` |
| Validators.EmailCharacterisation | modulo-cliente/app/Register.jsx:23-26 | the pattern holds if and only if the part before the first '@' is plain and non-empty, and the rest is plain with a dot that has characters on both sides |
| Validators.EmailExamples | modulo-cliente/app/Login.jsx:17-20 | 'ana@mail.com' passes and 'ana@mail' fails |
| Validators.Message | modulo-cliente/app/Register.jsx:33-41 | every password rule has a non-empty message |
| Validators.FirstBroken | modulo-cliente/app/Register.jsx:33-41 | the rules before the index all hold, and the rule at the index, if any, is broken |
| Validators.GetPasswordError | modulo-cliente/app/Register.jsx:33-41 | '' if and only if every rule (required, 8 characters, upper case, lower case, digit, symbol) holds |
| Validators.PasswordErrorIsFirstBroken | modulo-cliente/app/Register.jsx:33-41 | the message is that of the first broken rule, in source order |
| Validators.ValidatePassword | modulo-cliente/app/Register.jsx:28-31 | true if and only if no rule is broken and every character is a letter, a digit or one of '@$!%*?&' |
| Validators.ValidHasNoError | modulo-cliente/app/Register.jsx:28-41 | a valid password has no error message |
| Validators.NoErrorButInvalid | modulo-cliente/app/Register.jsx:28-41 | the converse fails: 'Abcdefg1!#' has no message, but the full pattern rejects it because of '#' |
| Validators.ShortPassword | modulo-cliente/app/Register.jsx:33-41 | 'abc' gets the minimum-length message |
| Validators.PasswordWithoutCapital | modulo-cliente/app/Register.jsx:33-41 | 'abcdefgh' gets the upper-case message |
| Validators.StrongPassword | modulo-cliente/app/Register.jsx:28-41 | 'Abcdef1!' passes both checks |
| Register.FormChecks | modulo-cliente/app/Register.jsx:155-197 | every failing check of the form carries a message |
| Register.FormError | modulo-cliente/app/Register.jsx:155-197 | the message `validateForm` leaves; its contract is stated by Register.FormErrorIsFirstFailure |
| Register.FormErrorIsFirstFailure | modulo-cliente/app/Register.jsx:155-197 | the message left is that of the first failing check in source order, and it is '' if and only if every check passes |
| Register.MakeRegistrationData | modulo-cliente/app/Register.jsx:202-209 | every field is trimmed except the password, which is sent as typed; each other field is the trimmed form value (e-mail, name, surname, phone, address); the name is empty exactly when the field was blank |
| Register.CompleteUserDataPrefersForm | modulo-cliente/app/Register.jsx:227-238 | the dispatched user carries the form's e-mail, name, surname, phone and address over the response's |
| Register.CompleteUserDataKeepsResponse | modulo-cliente/app/Register.jsx:227-238 | every other key keeps the response's value |
| Register.ErrorMessage | modulo-cliente/app/Register.jsx:255-269 | the catch-block text: connection help, already registered, took too long, or 'Error: ' and the message, tested in that order |
| Register.PasswordEditClearsLengthMessages | modulo-cliente/app/Register.jsx:273-278 | the required and length messages mention 'contraseña', so editing the password clears them |
| Register.PasswordEditKeepsOtherMessages | modulo-cliente/app/Register.jsx:273-278 | the upper-case, lower-case, digit and symbol messages and the field messages do not mention it, so they stay |
| Register.Screen.constructor | modulo-cliente/app/Register.jsx:11-17 | every field empty, nothing sent, nobody signed in |
| Register.Screen.HandleSubmit | modulo-cliente/app/Register.jsx:149-271 | a failing check leaves its message and sends nothing; otherwise the trimmed data is posted, and success dispatches the completed user while failure shows the catch-block text |
| Register.Screen.HandleEmailChange | modulo-cliente/app/Register.jsx:73-75 | stores the text and clears the error |
| Register.Screen.HandlePasswordChange | modulo-cliente/app/Register.jsx:273-278 | stores the text and clears the error only when it mentions 'contraseña' |
| Register.Screen.HandleNameChange | modulo-cliente/app/Register.jsx:280-285 | stores the text and clears only the missing-name message |
| Register.Screen.HandleSurnameChange | modulo-cliente/app/Register.jsx:287-292 | stores the text and clears only the missing-surname message |
| Register.Screen.HandleAddressChange | modulo-cliente/app/Register.jsx:294-299 | stores the text and clears only the missing-address message |
| Register.Screen.HandlePhoneChange | modulo-cliente/app/Register.jsx:301-306 | stores the text and clears only the missing-phone message |
| Login.LoginChecks | modulo-cliente/app/Login.jsx:27-36 | every failing check carries a message |
| Login.LoginError | modulo-cliente/app/Login.jsx:27-36 | '' if and only if the e-mail matches and the password is not blank; the e-mail is reported first |
| Login.LoginErrorIsFirstFailure | modulo-cliente/app/Login.jsx:27-36 | the message is that of the first failing check |
| Login.ErrorMessage | modulo-cliente/app/Login.jsx:74-82 | the bad-credentials text exactly when the error mentions 'Error en la petici', and the no-server text otherwise |
| Login.SaveToken | modulo-cliente/app/Login.jsx:43-52 | the stored token is the response's when it has one; no other key changes |
| Login.Remember | modulo-cliente/app/Login.jsx:55-69 | the remembered e-mail is set when the switch is on and removed when it is off; no other key changes |
| Login.Remembered | modulo-cliente/app/Login.jsx:86-96 | a remembered e-mail is taken only when it is stored and non-empty |
| Login.RememberRoundTrip | modulo-cliente/app/Login.jsx:55-96 | after a sign-in, the next load finds the e-mail exactly when the switch was on, and the token is untouched |
| Login.Screen.constructor | modulo-cliente/app/Login.jsx:10-13 | empty fields over the storage already on the device |
| Login.Screen.HandleSubmit | modulo-cliente/app/Login.jsx:22-83 | a failing check leaves its message and sends nothing; otherwise the credentials are posted, and success saves the token, applies remember-me and dispatches the user with the token, while failure shows the catch-block text |
| Login.Screen.LoadRememberedEmail | modulo-cliente/app/Login.jsx:86-96 | a remembered e-mail fills the field and turns the switch on; otherwise nothing changes |
| Login.Screen.HandleEmailChange | modulo-cliente/app/Login.jsx:103-109 | stores the text and clears only the e-mail format message |
| Login.Screen.HandlePasswordChange | modulo-cliente/app/Login.jsx:111-117 | stores the text and clears only the missing-password message |
| Login.Screen.HandleRememberMeChange | modulo-cliente/app/Login.jsx:119-127 | sets the switch; turning it off deletes the remembered e-mail at once |
| ChangePassword.RequestTokenError | modulo-cliente/app/ChangePassword.jsx:35-38 | '' if and only if the e-mail has a non-space character |
| ChangePassword.ResetChecks | modulo-cliente/app/ChangePassword.jsx:55-64 | every failing check carries a message |
| ChangePassword.ResetError | modulo-cliente/app/ChangePassword.jsx:55-64 | '' if and only if the token is not blank and every password rule holds; a blank token is reported first |
| ChangePassword.ResetErrorIsFirstFailure | modulo-cliente/app/ChangePassword.jsx:55-64 | the message is that of the first failing check |
| ChangePassword.Screen.constructor | modulo-cliente/app/ChangePassword.jsx:7-13 | empty fields, no token sent, no dialog, nothing posted |
| ChangePassword.Screen.HandleRequestToken | modulo-cliente/app/ChangePassword.jsx:32-50 | a blank e-mail gives its message and sends nothing; otherwise the e-mail is posted, and success marks the token sent and shows the confirmation while failure sets the error; loading ends cleared |
| ChangePassword.Screen.HandleResetPassword | modulo-cliente/app/ChangePassword.jsx:52-79 | a failing check leaves its message and posts nothing; otherwise token and password are posted, and success opens the dialog while failure sets the error |
| ChangePassword.Screen.HandleSuccessModalClose | modulo-cliente/app/ChangePassword.jsx:81-86 | closes the dialog and changes nothing else |
| ChangePassword.Screen.HandleEmailChange | modulo-cliente/app/ChangePassword.jsx:99-102 | stores the text and clears the error |
| ChangePassword.Screen.HandleTokenChange | modulo-cliente/app/ChangePassword.jsx:128-131 | stores the text and clears the error |
| ChangePassword.Screen.HandleNewPasswordChange | modulo-cliente/app/ChangePassword.jsx:140-143 | stores the text and clears the error |
| Deposit.ValidateMonto | modulo-cliente/app/ExternalBrowserCargarSaldo.jsx:27-42 | accepts exactly the amounts from 100 to 50000 inclusive; otherwise reports invalid (NaN or not positive), below minimum or above maximum |
| Deposit.QuickAmountsAccepted | modulo-cliente/app/ExternalBrowserCargarSaldo.jsx:21 | every quick amount passes the check |
| Deposit.QuickAmountTextAccepted | modulo-cliente/app/ExternalBrowserCargarSaldo.jsx:23-25 | the text a quick button writes reads back as the same amount, which passes the check |
| Deposit.BoundsInclusive | modulo-cliente/app/CheckoutProCargarSaldo.jsx:31-46 | 100 and 50000 pass; 99.99 and 50000.01 get the matching message |
| ExternalBrowserCargarSaldo.FallbackAlert | modulo-cliente/app/ExternalBrowserCargarSaldo.jsx:95-117 | the fallback dialog quotes the payment URL |
| ExternalBrowserCargarSaldo.PaymentUrl | modulo-cliente/app/ExternalBrowserCargarSaldo.jsx:56-65 | a URL if and only if the request succeeded, the status is not 'error' and `init_point` is non-empty; otherwise the matching error |
| ExternalBrowserCargarSaldo.ErrorAlertMessage | modulo-cliente/app/ExternalBrowserCargarSaldo.jsx:123-131 | the configuration text for 'invalid_token', otherwise the message itself, otherwise the default; never empty |
| ExternalBrowserCargarSaldo.ErrorStatusWithoutMessage | modulo-cliente/app/ExternalBrowserCargarSaldo.jsx:56-58 | an 'error' status without an error field throws an empty message, so the default text is shown |
| ExternalBrowserCargarSaldo.Screen.constructor | modulo-cliente/app/ExternalBrowserCargarSaldo.jsx:18-19 | an empty amount, not loading, no dialog, nothing sent or opened |
| ExternalBrowserCargarSaldo.Screen.HandleMontoRapido | modulo-cliente/app/ExternalBrowserCargarSaldo.jsx:23-25 | writes the amount's decimal text and changes nothing else |
| ExternalBrowserCargarSaldo.Screen.HandleCreatePreference | modulo-cliente/app/ExternalBrowserCargarSaldo.jsx:44-135 | a rejected amount shows its message and sends nothing; otherwise the amount is posted, and the URL is opened, or shown for copying when the browser refuses, or the error dialog is shown |
| CheckoutProCargarSaldo.SuccessAlert | modulo-cliente/app/CheckoutProCargarSaldo.jsx:103-109 | the success dialog quotes the amount typed |
| CheckoutProCargarSaldo.CheckoutUrl | modulo-cliente/app/CheckoutProCargarSaldo.jsx:64-66 | the sandbox URL when it is non-empty, else `init_point` |
| CheckoutProCargarSaldo.ClassifyReturnUrl | modulo-cliente/app/CheckoutProCargarSaldo.jsx:76-101 | approved, rejected or pending if and only if the URL contains the matching words, tested in that order; otherwise the payment goes on |
| CheckoutProCargarSaldo.ApprovedWins | modulo-cliente/app/CheckoutProCargarSaldo.jsx:76-101 | a URL with both 'approved' and 'rejected' counts as approved |
| CheckoutProCargarSaldo.OtherPagesKeepPaying | modulo-cliente/app/CheckoutProCargarSaldo.jsx:76-101 | a URL that contains none of the five patterns keeps the web view open |
| CheckoutProCargarSaldo.CheckoutPageKeepsPaying | modulo-cliente/app/CheckoutProCargarSaldo.jsx:76-101 | the payment page's own address keeps the web view open |
| CheckoutProCargarSaldo.Screen.constructor | modulo-cliente/app/CheckoutProCargarSaldo.jsx:19-23 | the initial state variables |
| CheckoutProCargarSaldo.Screen.HandleMontoRapido | modulo-cliente/app/CheckoutProCargarSaldo.jsx:27-29 | writes the amount's decimal text and changes nothing else |
| CheckoutProCargarSaldo.Screen.HandleCreatePreference | modulo-cliente/app/CheckoutProCargarSaldo.jsx:48-74 | a rejected amount shows its message and sends nothing; otherwise the amount is posted, and success opens the web view on the checkout URL with the transaction id, while failure shows the error |
| CheckoutProCargarSaldo.Screen.HandleWebViewNavigationStateChange | modulo-cliente/app/CheckoutProCargarSaldo.jsx:76-101 | an ending URL closes the web view with the dialog of its outcome; any other URL changes nothing |
| CheckoutProCargarSaldo.Screen.HandleClose | modulo-cliente/app/CheckoutProCargarSaldo.jsx:125 | closes the web view and changes nothing else |
| BuyCrypto.RouteDefaults | modulo-cliente/app/BuyCrypto.jsx:17 | a missing balance is 0 and a missing price is 25 |
| BuyCrypto.CryptoAmount | modulo-cliente/app/BuyCrypto.jsx:42-50 | amount ÷ price when both are positive numbers, else 0; never negative |
| BuyCrypto.ValidateCompra | modulo-cliente/app/BuyCrypto.jsx:52-67 | accepts exactly the amounts from 100 up to the balance; otherwise reports invalid, below minimum or insufficient balance |
| BuyCrypto.PurchaseBounds | modulo-cliente/app/BuyCrypto.jsx:52-67 | with a balance below 100 nothing can be bought; buying the whole balance is accepted if and only if it is at least 100 |
| BuyCrypto.RoundHalfAwayFromZero | modulo-cliente/app/BuyCrypto.jsx:94 | `toFixed(0)`: the nearest integer, halves away from zero |
| BuyCrypto.QuickAmountAsWritten | modulo-cliente/app/BuyCrypto.jsx:93-96 | the percentage of the balance rounded to the nearest integer |
| BuyCrypto.QuickAmountAsWrittenOvershoots | modulo-cliente/app/BuyCrypto.jsx:93-96 | with a balance of 150.5 the 100% button writes 151, which the purchase check refuses as above the balance |
| BuyCrypto.QuickAmount | modulo-cliente/app/BuyCrypto.jsx:93-96 | the corrected button: the largest integer not above the percentage of the balance |
| BuyCrypto.QuickAmountWithinBalance | modulo-cliente/app/BuyCrypto.jsx:163 | every percentage button's amount is within the balance, and at 100% it passes the purchase check whenever the balance is at least 100 |
| BuyCrypto.BuyEnabled | modulo-cliente/app/BuyCrypto.jsx:216-219 | the button is enabled only with text typed, not loading, and an amount within the balance |
| BuyCrypto.BuyEnabledVersusValidate | modulo-cliente/app/BuyCrypto.jsx:52-67 | every amount the check accepts enables the button, but the button also enables 50, which the check refuses |
| BuyCrypto.PurchaseAlert | modulo-cliente/app/BuyCrypto.jsx:79-83 | the success dialog quotes the crypto bought and the pesos spent |
| BuyCrypto.Screen.constructor | modulo-cliente/app/BuyCrypto.jsx:17-23 | the route's balance and price or their defaults, an empty amount, 0 crypto |
| BuyCrypto.Screen.LoadPrecioCrypto | modulo-cliente/app/BuyCrypto.jsx:33-40 | a successful read replaces the price; a failed one keeps it |
| BuyCrypto.Screen.CalculateCrypto | modulo-cliente/app/BuyCrypto.jsx:42-50 | sets the crypto amount to the amount's value at the current price |
| BuyCrypto.Screen.HandleMontoRapido | modulo-cliente/app/BuyCrypto.jsx:93-96 | writes the corrected quick amount's decimal text |
| BuyCrypto.Screen.HandleComprarCrypto | modulo-cliente/app/BuyCrypto.jsx:69-91 | a rejected amount shows its message and sends nothing; otherwise it is posted, and success shows the purchase dialog while failure shows the error; loading ends cleared |
| Wallet.TransactionIcon | modulo-cliente/app/Wallet.jsx:79-87 | each of the four known types has its own icon, and the default icon appears exactly for the other types |
| Wallet.IconsTellTypesApart | modulo-cliente/app/Wallet.jsx:79-87 | two different known types never share an icon |
| Wallet.TransactionStatus | modulo-cliente/app/Wallet.jsx:89-97 | the label and colour of each known state; an unknown state shows itself in the default colour |
| Wallet.StatusColours | modulo-cliente/app/Wallet.jsx:89-97 | the colour is never empty, and it is the default exactly for unknown states |
| Wallet.AmountSign | modulo-cliente/app/Wallet.jsx:193 | '+' exactly for balance top-ups, '-' otherwise |
| Wallet.OnlyTopUpsAdd | modulo-cliente/app/Wallet.jsx:193 | purchases, sales and order payments show '-', and top-ups show '+' |
| Wallet.BuyCryptoSeesWallet | modulo-cliente/app/Wallet.jsx:61-66 | the purchase screen opens with the wallet's own balance and price, not the defaults |
| Wallet.Screen.constructor | modulo-cliente/app/Wallet.jsx:16-23 | the placeholder wallet, no transactions, loading |
| Wallet.Screen.LoadWalletData | modulo-cliente/app/Wallet.jsx:32-50 | both reads replace the shown data only when both succeed; otherwise neither changes and the error dialog shows; both flags end cleared |
| Wallet.Screen.OnRefresh | modulo-cliente/app/Wallet.jsx:52-55 | the same outcome as a load |
| Product.ToggleAsWritten | modulo-cliente/app/Product.jsx:43-53 | a shown (truthy) addon is deleted; anything else is set to the price; other addons are untouched |
| Product.ZeroPriceAddonSticks | modulo-cliente/app/Product.jsx:43-53 | an addon priced 0, once selected, can never be deselected, and its switch never shows on |
| Product.Toggle | modulo-cliente/app/Product.jsx:43-53 | the corrected toggle: the addon is selected after the toggle if and only if it was not selected before, with its price; other addons are untouched |
| Product.ToggleTwiceRestores | modulo-cliente/app/Product.jsx:43-53 | toggling twice restores every addon's value, and the whole selection when the addon was off |
| Product.ToggleKeepsKeysUnique | modulo-cliente/app/Product.jsx:43-53 | the selection stays an object, one entry per id |
| Product.ToggleChangesTotal | modulo-cliente/app/Product.jsx:55-61 | switching an addon on adds its price to the shown total, switching it off subtracts it |
| Product.TotalPrice | modulo-cliente/app/Product.jsx:55-61 | the total the screen shows; its contract is stated by Product.ToggleChangesTotal and Product.ShownTotalVersusCart |
| Product.FindOption | modulo-cliente/app/Product.jsx:72 | the first option with the id, or none when no option has it |
| Product.CartAddons | modulo-cliente/app/Product.jsx:71-77 | the line's addons form an object, one entry per name |
| Product.CartAddonsIncludesSelected | modulo-cliente/app/Product.jsx:71-77 | every selected addon the product offers is on the line under its name |
| Product.CartAddonsFromOptions | modulo-cliente/app/Product.jsx:71-77 | every addon on the line is an offered option, with the option's price, and is the name of the option found for some selected id |
| Product.MakeCartItem | modulo-cliente/app/Product.jsx:64-78 | the line's addons form an object, one entry per name |
| Product.ShownTotalVersusCart | modulo-cliente/app/Product.jsx:55-82 | adding a new product raises the cart total by unit price times quantity, which is the shown total minus the selected addons |
| Product.Screen.constructor | modulo-cliente/app/Product.jsx:10-30 | the route's product or the demonstration one, quantity 1, no addons |
| Product.Screen.HandleDecreaseQuantity | modulo-cliente/app/Product.jsx:33-37 | lowers the quantity only above 1, so it stays at least 1 |
| Product.Screen.HandleIncreaseQuantity | modulo-cliente/app/Product.jsx:39-41 | raises the quantity by 1 |
| Product.Screen.HandleAddonToggle | modulo-cliente/app/Product.jsx:43-53 | applies the corrected toggle and keeps the selection an object |
| Product.Screen.CalculateTotalPrice | modulo-cliente/app/Product.jsx:55-61 | unit price times quantity plus each selected addon once |
| Product.Screen.HandleAddToCart | modulo-cliente/app/Product.jsx:63-82 | dispatches exactly one ADD_TO_CART action with the line built from the product, the quantity and the addons |
| CartScreen.DecreaseAction | modulo-cliente/app/Cart.jsx:15-19 | an update to quantity − 1 if and only if the quantity is above 1 |
| CartScreen.ShownLinePrice | modulo-cliente/app/Cart.jsx:30 | the line price shown is the line's share of the cart total |
| CartScreen.UpdateIsPointwise | modulo-cliente/app/Cart.jsx:11-19 | with unique ids, an update touches exactly the line of its id |
| CartScreen.IncreaseAddsOneUnit | modulo-cliente/app/Cart.jsx:11-13 | '+' keeps the cart consistent, raises that line by one, and raises the total by one unit price |
| CartScreen.DecreaseRemovesOneUnit | modulo-cliente/app/Cart.jsx:15-19 | '−' above 1 keeps the cart consistent, lowers that line by one, and lowers the total by one unit price |
| CartScreen.RemoveDropsLine | modulo-cliente/app/Cart.jsx:21-23 | the remove button deletes exactly that line and its price from the total |
| CartScreen.UiActionsKeepQuantitiesPositive | modulo-cliente/app/Cart.jsx:11-23 | every action the cart and product screens dispatch keeps every quantity at least 1 |
| Orders.GetStatusStyle | modulo-cliente/app/Orders.jsx:7-18 | the active, completed and cancelled styles if and only if the lower-cased status is the matching word |
| Orders.StatusStyleIgnoresCase | modulo-cliente/app/Orders.jsx:7-18 | the style does not depend on the status's case |
| Orders.Stars | modulo-cliente/app/Orders.jsx:30-35 | the row renders if and only if 0 ≤ rating < 6, with ⌊rating⌋ filled stars out of five |
| Orders.FilteredOrders | modulo-cliente/app/Orders.jsx:72-76 | an order is shown if and only if its id contains the search text and the tab is 'Todos' or its status, case aside |
| Orders.Matches | modulo-cliente/app/Orders.jsx:72-76 | the filter's test on one order; its contract is stated by Orders.FilteredOrders, Orders.SearchIgnoresCase and Orders.SearchThenTab |
| Orders.FilteredIsSubsequence | modulo-cliente/app/Orders.jsx:72-76 | the list shown keeps the orders' order |
| Orders.NoFilterShowsAll | modulo-cliente/app/Orders.jsx:72-76 | no search on the 'Todos' tab shows every order |
| Orders.SearchIgnoresCase | modulo-cliente/app/Orders.jsx:72-76 | the case of the search text does not matter |
| Orders.SearchThenTab | modulo-cliente/app/Orders.jsx:72-76 | search and tab filter independently, in either order |
| Orders.CancelledTabExample | modulo-cliente/app/Orders.jsx:50-56 | on the sample orders, the 'Cancelado' tab shows only the cancelled order |
| Orders.Screen.constructor | modulo-cliente/app/Orders.jsx:46-56 | the sample orders, tab 'Todos', no search |
| Orders.Screen.HandleFilterPress | modulo-cliente/app/Orders.jsx:78-80 | selects the tab; the list becomes the orders filtered by it |
| Orders.Screen.HandleSearchChange | modulo-cliente/app/Orders.jsx:105 | sets the search; the list becomes the orders filtered by it |
| RestaurantCatalogue.InitialCategory | modulo-cliente/app/RestaurantCatalogue.jsx:194-195 | the route's category when non-empty, else 'All' |
| RestaurantCatalogue.Filtered | modulo-cliente/app/RestaurantCatalogue.jsx:214-234 | a restaurant is listed if and only if the category is 'All' or one of its own, and the query is empty or found in its lower-cased name or categories |
| RestaurantCatalogue.Listed | modulo-cliente/app/RestaurantCatalogue.jsx:214-234 | the listing test on one restaurant; its contract is stated by RestaurantCatalogue.Filtered and RestaurantCatalogue.StagesAreFiltered |
| RestaurantCatalogue.FilteredIsSubsequence | modulo-cliente/app/RestaurantCatalogue.jsx:214-234 | the list keeps the restaurants' order |
| RestaurantCatalogue.StagesCommute | modulo-cliente/app/RestaurantCatalogue.jsx:218-231 | the category and search stages commute |
| RestaurantCatalogue.NoFilterListsAll | modulo-cliente/app/RestaurantCatalogue.jsx:214-234 | 'All' with no query lists every restaurant |
| RestaurantCatalogue.DrinkPillListsNothing | modulo-cliente/app/RestaurantCatalogue.jsx:247 | the 'Drink' pill lists nothing, since the restaurants are tagged 'Drinks' and the category compare is exact |
| RestaurantCatalogue.DrinkSearchFindsDrinks | modulo-cliente/app/RestaurantCatalogue.jsx:225-231 | searching 'drink' does find a 'Drinks' restaurant |
| RestaurantCatalogue.StagesAreFiltered | modulo-cliente/app/RestaurantCatalogue.jsx:214-234 | the two guarded stages compute exactly the listing predicate |
| RestaurantCatalogue.Screen.constructor | modulo-cliente/app/RestaurantCatalogue.jsx:194-199 | the initial category, no query, an empty list |
| RestaurantCatalogue.Screen.FilterRestaurants | modulo-cliente/app/RestaurantCatalogue.jsx:214-234 | the list becomes the filtered restaurants |
| RestaurantCatalogue.Screen.HandleCategoryPress | modulo-cliente/app/RestaurantCatalogue.jsx:295 | selects the category and lists the restaurants filtered by it |
| RestaurantCatalogue.Screen.HandleSearchChange | modulo-cliente/app/RestaurantCatalogue.jsx:279 | sets the query and lists the restaurants filtered by it |
| RestaurantCatalogue.Screen.HandleRouteCategory | modulo-cliente/app/RestaurantCatalogue.jsx:207-211 | a new non-empty route category is selected and filtered; anything else changes nothing |

## Left out

- Number parsing and formatting.
  - `parseFloat` is not modelled: an amount is given as what it returns, with `None` standing for NaN.
  - `toFixed` (except the integer rounding of the crypto quick buttons) is not modelled.
  - `toLocaleString`/`Intl` display formatting is not modelled.
- Numbers are exact.
  - Binary floating point is not modelled: prices, totals and balances are exact reals.
  - JavaScript integers are unbounded here.
- Strings are sequences of characters. UTF-16 lengths, Unicode case mapping and normalisation are
  not modelled: `toLowerCase` maps ASCII letters only.
- Device storage (`AsyncStorage`).
  - Writes always succeed.
  - A failed read or write, which the screens only log, is not modelled.
  - Storing an undefined token is modelled as leaving the stored token unchanged.
  - `saveUserDataLocally`/`loadSavedUserData` of the registration screen are not modelled.
- The authentication action creators: `store/actions/authActions.js` is not part of this model.
  The reducer's actions are a datatype with the three cases the reducer distinguishes.
- Navigation and rendering.
  - `navigation.navigate`/`goBack` are not modelled.
  - Styles, the layout and the alert buttons' callbacks are not modelled.
  - Dialogs are recorded as a title and a message.
- Timing and concurrency. Not modelled:
  - The wallet's 30-second polling.
  - The registration screen's e-mail availability check and its debounce timer.
  - The effects that re-run on state changes (a handler models each run).
  - The concurrency of `Promise.all`: both reads are given, and only whether each succeeded matters.
- `utils/api.js`.
  - `fetch` is a parameter: a response, or a rejection with its error.
  - The platform-dependent base URL is a parameter.
  - `JSON.stringify` of a body is a parameter (the serialized text).
  - JSON bodies are string-valued objects.
  - Which error the second read of an unparseable JSON body rejects with depends on the
    platform's `fetch`; it is part of the response given.
  - `testConnection`, `checkApiConfig` and console logging are not modelled.
  - `utils/config.js` is not part of this model.
- Two pieces of code are unused by the source: ChangePassword.jsx's own `validatePassword` (lines
  16-20), and the commented-out `getOrders` fetch of Orders.jsx. They are not modelled.
- The product screen is given its route's product whole. A route with parameters but no `product`
  field is not modelled.
- The wallet and transaction responses are taken to carry every field the screen reads.
- CartReducer.Times: the reducer's `price * quantity` is computed by repeated addition, which keeps
  the proofs linear; CartReducer.TimesIsProduct proves it equal to the product for every integer
  quantity.
- CartScreen.IncreaseAction and CartScreen.RemoveAction have no contract of their own. Each
  builds its action with the action creator; CartScreen.IncreaseAddsOneUnit and
  CartScreen.RemoveDropsLine state what the actions do to the cart.
- BuyCrypto.Screen.HandleMontoRapido: models the corrected quick amount (rounded down), not the
  source's rounding; the as-written rounding is BuyCrypto.QuickAmountAsWritten.
- Product.Screen.HandleAddonToggle: models the corrected toggle (key presence), not the source's
  truthiness test; the as-written toggle is Product.ToggleAsWritten.

## Findings

| source | as written | input that shows it | evidently intended | confidence | as-written member | corrected member |
|---|---|---|---|---|---|---|
| modulo-cliente/app/BuyCrypto.jsx:93-96 | the percentage buttons write `(saldo * p / 100).toFixed(0)`, which rounds to the nearest integer | a balance of 150.5 and the 100% button give 151, above the balance, so the purchase is refused as 'Saldo insuficiente' | an amount that never exceeds the balance (rounded down) | not executed | BuyCrypto.QuickAmountAsWrittenOvershoots | BuyCrypto.QuickAmountWithinBalance |
| modulo-cliente/app/Product.jsx:43-53 | the toggle tests the truthiness of the stored price to decide whether to remove the addon | an addon priced 0: once switched on it stays selected at every toggle, and its switch (line 134) never shows on | toggling tests whether the addon is selected | not executed | Product.ZeroPriceAddonSticks | Product.ToggleTwiceRestores |
